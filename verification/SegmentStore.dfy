/** The append-only segment store: rollover, crash safety and restart. */
module SegmentStore {
  import opened Basics
  import opened Bytes
  import opened SegmentFormat

  datatype Meta = Meta(id: nat, sum: nat)

  /** What survives a crash: the segment files and the metadata file. */
  datatype Disk = Disk(files: map<nat, Data>, meta: Option<Meta>)

  /** The metadata the source writes for a segment id. */
  function MetaOf(crc: Crc, id: nat): Meta {
    Meta(id, crc(Encode(id, SEGMENT_BYTES)))
  }

  /** A missing metadata file means segment 0. */
  function CurrentId(disk: Disk): nat {
    if disk.meta.Some? then disk.meta.value.id else 0
  }

  predicate ChecksumOk(crc: Crc, disk: Disk) {
    disk.meta.Some? ==> disk.meta.value == MetaOf(crc, disk.meta.value.id)
  }

  /** Static parameters of a store. */
  datatype Params = Params(crc: Crc, keyLength: nat, maxSize: nat) {
    predicate Ok() {
      keyLength >= 1 && 1 <= maxSize < INT_LIMIT
    }
  }

  /** The file of segment `j` holds the records `rs` and zeros behind them; a missing file holds nothing. */
  ghost predicate SegmentOk(p: Params, files: map<nat, Data>, j: nat, rs: seq<Record>) {
    && (j in files ==> Laid(files[j], rs) && |files[j]| <= p.maxSize)
    && (j !in files ==> rs == [])
    && (forall r :: r in rs ==> Fits(r, p.keyLength, p.maxSize))
  }

  /** A closed segment is cut off behind its records. */
  predicate Closed(files: map<nat, Data>, j: nat, rs: seq<Record>) {
    j in files ==> files[j] == Frames(rs)
  }

  /** The disk holds these records, segment by segment; the segment named by the metadata is the current one. */
  ghost predicate Layout(p: Params, disk: Disk, segs: seq<seq<Record>>) {
    var cur := CurrentId(disk);
    && ChecksumOk(p.crc, disk)
    && |segs| == cur + 1
    && (forall j :: j in disk.files ==> j <= cur)
    && (forall j {:trigger SegmentOk(p, disk.files, j, segs[j])} :: 0 <= j <= cur ==>
          SegmentOk(p, disk.files, j, segs[j]))
    && (forall j {:trigger Closed(disk.files, j, segs[j])} :: 0 <= j < cur ==> Closed(disk.files, j, segs[j]))
  }

  /** A layout changes at one segment only. */
  lemma LayoutFrom(p: Params, disk: Disk, segs: seq<seq<Record>>, d: Disk, g: seq<seq<Record>>, at: nat)
    requires Layout(p, disk, segs) && ChecksumOk(p.crc, d) && |g| == CurrentId(d) + 1
    requires forall j :: j in d.files ==> j <= CurrentId(d)
    requires |segs| <= |g| && (|segs| < |g| ==> at == |segs| - 1 && at + 2 == |g|)
    requires forall j :: 0 <= j < |segs| && j != at ==> g[j] == segs[j]
    requires forall j :: 0 <= j < |segs| && j != at ==> (j in d.files <==> j in disk.files)
    requires forall j :: 0 <= j < |segs| && j != at && j in d.files ==> d.files[j] == disk.files[j]
    requires at < |g| && SegmentOk(p, d.files, at, g[at]) && (at + 1 < |g| ==> Closed(d.files, at, g[at]))
    requires |segs| < |g| ==> SegmentOk(p, d.files, |segs|, g[|segs|])
    ensures Layout(p, d, g)
  {
    forall j | 0 <= j < |g|
      ensures SegmentOk(p, d.files, j, g[j]) && (j + 1 < |g| ==> Closed(d.files, j, g[j]))
    {
      if j != at && j < |segs| {
        assert SegmentOk(p, disk.files, j, segs[j]);
        assert j + 1 < |segs| ==> Closed(disk.files, j, segs[j]);
      }
    }
  }

  /** All records, in the order they were appended. */
  function Records(segs: seq<seq<Record>>): seq<Record> {
    if segs == [] then [] else Records(segs[..|segs| - 1]) + segs[|segs| - 1]
  }

  /** The contents with one more record in the last segment. */
  function Grown(segs: seq<seq<Record>>, r: Record): seq<seq<Record>>
    requires segs != []
  {
    segs[..|segs| - 1] + [segs[|segs| - 1] + [r]]
  }

  lemma RecordsOfGrown(segs: seq<seq<Record>>, r: Record)
    requires segs != []
    ensures Records(Grown(segs, r)) == Records(segs) + [r]
  {
    var g := Grown(segs, r);
    assert g[..|g| - 1] == segs[..|segs| - 1];
  }

  lemma RecordsOfOpened(segs: seq<seq<Record>>)
    ensures Records(segs + [[]]) == Records(segs)
  {
    assert (segs + [[]])[..|segs|] == segs;
  }

  // ---------------------------------------------------------------- appending, disk state by disk state

  /** `write` of a frame at an offset of a file. */
  function Patch(file: Data, at: nat, frame: Data): Data {
    if at + |frame| <= |file| then file[..at] + frame + file[at + |frame|..]
    else if at <= |file| then file[..at] + frame
    else file + Zeros(at - |file|) + frame
  }

  /** The frame is written at the end of the current segment. */
  function Written(disk: Disk, cur: nat, at: nat, r: Record): Disk {
    if cur in disk.files then disk.(files := disk.files[cur := Patch(disk.files[cur], at, Frame(r))]) else disk
  }

  /** `ftruncate` of the current segment. */
  function Truncated(disk: Disk, cur: nat, at: nat): Disk {
    if cur in disk.files && at <= |disk.files[cur]| then disk.(files := disk.files[cur := disk.files[cur][..at]])
    else disk
  }

  /** `UpdateMetadata`: the next segment becomes the current one. */
  function Announced(p: Params, disk: Disk, cur: nat): Disk {
    disk.(meta := Some(MetaOf(p.crc, cur + 1)))
  }

  /** `OpenSegment` creates an empty file. */
  function Created(disk: Disk, cur: nat): Disk {
    if cur in disk.files then disk else disk.(files := disk.files[cur := []])
  }

  /** `PaddingIfNewSegment`: an empty file is extended to the full size with zeros. */
  function Padded(p: Params, disk: Disk, cur: nat): Disk {
    if cur in disk.files && disk.files[cur] == [] then disk.(files := disk.files[cur := Zeros(p.maxSize)]) else disk
  }

  /** The disk after each step of a rollover, the last one with the new record in the new segment. */
  function RolloverStages(p: Params, disk: Disk, cur: nat, at: nat, r: Record): seq<Disk> {
    var truncated := Truncated(disk, cur, at);
    var announced := Announced(p, truncated, cur);
    var created := Created(announced, cur + 1);
    var padded := Padded(p, created, cur + 1);
    [truncated, announced, created, padded, Written(padded, cur + 1, 0, r)]
  }

  lemma PatchExtends(file: Data, rs: seq<Record>, r: Record)
    requires Laid(file, rs) && |Frames(rs)| + |Frame(r)| <= |file|
    ensures var patched := Patch(file, |Frames(rs)|, Frame(r));
      Laid(patched, rs + [r]) && |patched| == |file|
  {
    FramesAppend(rs, r);
    var at := |Frames(rs)|;
    var patched := Patch(file, at, Frame(r));
    assert patched[..at] == Frames(rs);
    assert patched[..at + |Frame(r)|] == Frames(rs) + Frame(r);
  }

  /** Writing a record that fits the current file. */
  lemma WriteKeepsLayout(p: Params, disk: Disk, segs: seq<seq<Record>>, r: Record)
    requires Layout(p, disk, segs) && CurrentId(disk) in disk.files && Fits(r, p.keyLength, p.maxSize)
    requires var cur := CurrentId(disk); |Frames(segs[cur])| + |Frame(r)| <= |disk.files[cur]|
    ensures var cur := CurrentId(disk);
      Layout(p, Written(disk, cur, |Frames(segs[cur])|, r), Grown(segs, r))
  {
    var cur := CurrentId(disk);
    assert SegmentOk(p, disk.files, cur, segs[cur]);
    PatchExtends(disk.files[cur], segs[cur], r);
    GrownLayout(p, disk, segs, r, Patch(disk.files[cur], |Frames(segs[cur])|, Frame(r)));
  }

  lemma GrownLayout(p: Params, disk: Disk, segs: seq<seq<Record>>, r: Record, file: Data)
    requires Layout(p, disk, segs) && CurrentId(disk) in disk.files && Fits(r, p.keyLength, p.maxSize)
    requires Laid(file, segs[CurrentId(disk)] + [r]) && |file| == |disk.files[CurrentId(disk)]|
    ensures Layout(p, disk.(files := disk.files[CurrentId(disk) := file]), Grown(segs, r))
  {
    var cur, g := CurrentId(disk), Grown(segs, r);
    assert SegmentOk(p, disk.files, cur, segs[cur]);
    assert g[cur] == segs[cur] + [r];
    LayoutFrom(p, disk, segs, disk.(files := disk.files[cur := file]), g, cur);
  }

  /** Truncating the current segment behind its records. */
  lemma TruncateKeepsLayout(p: Params, disk: Disk, segs: seq<seq<Record>>, at: nat)
    requires Layout(p, disk, segs)
    requires var cur := CurrentId(disk); cur in disk.files ==> at == |Frames(segs[cur])|
    ensures var cur := CurrentId(disk); var d := Truncated(disk, cur, at);
      Layout(p, d, segs) && (cur in d.files ==> d.files[cur] == Frames(segs[cur])) && d.meta == disk.meta
  {
    var cur := CurrentId(disk);
    assert SegmentOk(p, disk.files, cur, segs[cur]);
    LayoutFrom(p, disk, segs, Truncated(disk, cur, at), segs, cur);
  }

  /** Announcing the next segment. */
  lemma AnnounceKeepsLayout(p: Params, disk: Disk, segs: seq<seq<Record>>)
    requires Layout(p, disk, segs)
    requires var cur := CurrentId(disk); cur in disk.files ==> disk.files[cur] == Frames(segs[cur])
    ensures var cur := CurrentId(disk); var d := Announced(p, disk, cur);
      Layout(p, d, segs + [[]]) && CurrentId(d) == cur + 1 && cur + 1 !in d.files
  {
    var cur := CurrentId(disk);
    assert SegmentOk(p, disk.files, cur, segs[cur]);
    LayoutFrom(p, disk, segs, Announced(p, disk, cur), segs + [[]], cur);
  }

  /** Creating and padding the current segment. */
  lemma OpenKeepsLayout(p: Params, disk: Disk, segs: seq<seq<Record>>)
    requires p.Ok() && Layout(p, disk, segs)
    ensures var cur := CurrentId(disk); var d := Created(disk, cur); var e := Padded(p, d, cur);
      && Layout(p, d, segs) && Layout(p, e, segs) && CurrentId(d) == CurrentId(e) == cur
      && cur in e.files && e.files[cur] != []
      && (cur !in disk.files || disk.files[cur] == [] ==> segs[cur] == [] && |e.files[cur]| == p.maxSize)
  {
    CreateKeepsLayout(p, disk, segs);
    PadKeepsLayout(p, Created(disk, CurrentId(disk)), segs);
  }

  lemma CreateKeepsLayout(p: Params, disk: Disk, segs: seq<seq<Record>>)
    requires Layout(p, disk, segs)
    ensures var cur := CurrentId(disk); var d := Created(disk, cur);
      && Layout(p, d, segs) && CurrentId(d) == cur && cur in d.files
      && (cur !in disk.files || disk.files[cur] == [] ==> d.files[cur] == [])
  {
    var cur := CurrentId(disk);
    assert SegmentOk(p, disk.files, cur, segs[cur]);
    LayoutFrom(p, disk, segs, Created(disk, cur), segs, cur);
  }

  lemma PadKeepsLayout(p: Params, disk: Disk, segs: seq<seq<Record>>)
    requires p.Ok() && Layout(p, disk, segs) && CurrentId(disk) in disk.files
    ensures var cur := CurrentId(disk); var d := Padded(p, disk, cur);
      && Layout(p, d, segs) && CurrentId(d) == cur
      && cur in d.files && d.files[cur] != []
      && (disk.files[cur] == [] ==> segs[cur] == [] && |d.files[cur]| == p.maxSize)
  {
    var cur := CurrentId(disk);
    assert SegmentOk(p, disk.files, cur, segs[cur]);
    if disk.files[cur] == [] {
      assert Laid(Zeros(p.maxSize), []);
    }
    LayoutFrom(p, disk, segs, Padded(p, disk, cur), segs, cur);
  }

  /**
    ROLLOVER CRASH SAFETY. Whichever step of a rollover the process dies after, the disk holds exactly the records
    appended before, or after the last step those and the new one.
    */
  lemma RolloverIsCrashSafe(p: Params, disk: Disk, segs: seq<seq<Record>>, at: nat, r: Record)
    requires p.Ok() && Layout(p, disk, segs) && Fits(r, p.keyLength, p.maxSize)
    requires var cur := CurrentId(disk); cur in disk.files ==> at == |Frames(segs[cur])|
    ensures var stages := RolloverStages(p, disk, CurrentId(disk), at, r);
      && |stages| == 5
      && Layout(p, stages[0], segs)
      && Layout(p, stages[1], segs + [[]])
      && Layout(p, stages[2], segs + [[]])
      && Layout(p, stages[3], segs + [[]])
      && Layout(p, stages[4], Grown(segs + [[]], r))
    ensures Records(segs + [[]]) == Records(segs)
    ensures Records(Grown(segs + [[]], r)) == Records(segs) + [r]
  {
    var cur := CurrentId(disk);
    var truncated := Truncated(disk, cur, at);
    var announced := Announced(p, truncated, cur);
    TruncateKeepsLayout(p, disk, segs, at);
    AnnounceKeepsLayout(p, truncated, segs);
    OpenKeepsLayout(p, announced, segs + [[]]);
    WriteFirst(p, Padded(p, Created(announced, cur + 1), cur + 1), segs, r);
    StageValues(p, disk, cur, at, r);
    RecordsOfOpened(segs);
    RecordsOfGrown(segs + [[]], r);
  }

  lemma StageValues(p: Params, disk: Disk, cur: nat, at: nat, r: Record)
    ensures var stages := RolloverStages(p, disk, cur, at, r);
      && |stages| == 5
      && stages[0] == Truncated(disk, cur, at)
      && stages[1] == Announced(p, stages[0], cur)
      && stages[2] == Created(stages[1], cur + 1)
      && stages[3] == Padded(p, stages[2], cur + 1)
      && stages[4] == Written(stages[3], cur + 1, 0, r)
  {
  }

  /** The first record of a padded segment. */
  lemma WriteFirst(p: Params, disk: Disk, segs: seq<seq<Record>>, r: Record)
    requires Layout(p, disk, segs + [[]]) && CurrentId(disk) in disk.files && Fits(r, p.keyLength, p.maxSize)
    requires |disk.files[CurrentId(disk)]| == p.maxSize
    ensures Layout(p, Written(disk, CurrentId(disk), 0, r), Grown(segs + [[]], r))
  {
    WriteKeepsLayout(p, disk, segs + [[]], r);
  }

  /** The index entry of record `k` of segment `j`. */
  ghost function IndexAt(p: Params, segs: seq<seq<Record>>, j: nat, k: nat): IndexEntry
    requires j < |segs| && k < |segs[j]|
  {
    Index(j, OffsetOf(segs[j], k), p.crc(Body(segs[j][k])))
  }

  // ---------------------------------------------------------------- the running store

  /** The disk and the fields of `LogSegmentStore`. */
  datatype State = State(disk: Disk, cur: nat, offset: nat, size: nat)

  /**
    The fields agree with the disk, which holds `segs`. A current segment that was deleted while open was full.
    */
  ghost predicate Running(p: Params, s: State, segs: seq<seq<Record>>) {
    && p.Ok() && Layout(p, s.disk, segs)
    && s.cur == CurrentId(s.disk) && s.cur < INT_LIMIT
    && s.size <= p.maxSize
    && (s.cur in s.disk.files ==> s.offset == |Frames(segs[s.cur])| && s.size == |s.disk.files[s.cur]|)
    && (s.cur !in s.disk.files ==> s.offset == s.size)
  }

  function SizeOf(disk: Disk, cur: nat): nat {
    if cur in disk.files then |disk.files[cur]| else 0
  }

  /** Whether the frame still fits the current segment. */
  predicate FitsHere(s: State, r: Record) {
    s.offset + |Frame(r)| <= s.size
  }

  /** `NewSegment` gives up if the file of the next segment is already there. */
  predicate Blocked(s: State, r: Record) {
    !FitsHere(s, r) && s.cur + 1 in s.disk.files
  }

  /** Where it gives up: the next segment is already announced. */
  function GivenUp(p: Params, s: State): State {
    s.(disk := Announced(p, Truncated(s.disk, s.cur, s.offset), s.cur), cur := s.cur + 1)
  }

  /** The disk after each system call of an append. */
  function Stages(p: Params, s: State, r: Record): seq<Disk> {
    if FitsHere(s, r) then [Written(s.disk, s.cur, s.offset, r)]
    else if Blocked(s, r) then RolloverStages(p, s.disk, s.cur, s.offset, r)[..2]
    else RolloverStages(p, s.disk, s.cur, s.offset, r)
  }

  /** `NewSegment` behind a truncation. */
  function NextSegment(p: Params, s: State): State {
    var created := Created(Announced(p, Truncated(s.disk, s.cur, s.offset), s.cur), s.cur + 1);
    var padded := Padded(p, created, s.cur + 1);
    State(padded, s.cur + 1, 0, SizeOf(padded, s.cur + 1))
  }

  /** The write at the end of `Append`, and the index entry it returns. */
  function WriteRecord(p: Params, s: State, r: Record): (State, IndexEntry) {
    (s.(disk := Written(s.disk, s.cur, s.offset, r), offset := s.offset + |Frame(r)|),
     Index(s.cur, s.offset, p.crc(Body(r))))
  }

  /** `Append` of a record that is not too big, unless it is blocked. */
  function AppendRecord(p: Params, s: State, r: Record): (State, IndexEntry) {
    WriteRecord(p, if FitsHere(s, r) then s else NextSegment(p, s), r)
  }

  /** The contents after an append. */
  function AppendTo(s: State, segs: seq<seq<Record>>, r: Record): seq<seq<Record>>
    requires segs != []
  {
    Grown(if FitsHere(s, r) then segs else segs + [[]], r)
  }

  lemma WriteRecordRuns(p: Params, s: State, segs: seq<seq<Record>>, r: Record)
    requires Running(p, s, segs) && FitsHere(s, r) && Fits(r, p.keyLength, p.maxSize)
    ensures var (t, index) := WriteRecord(p, s, r); var g := Grown(segs, r);
      && Running(p, t, g) && Records(g) == Records(segs) + [r]
      && g[t.cur] == segs[t.cur] + [r] && index == IndexAt(p, g, t.cur, |segs[t.cur]|)
  {
    WriteKeepsLayout(p, s.disk, segs, r);
    AppendedFacts(p, segs, r);
  }

  lemma NextSegmentRuns(p: Params, s: State, segs: seq<seq<Record>>)
    requires Running(p, s, segs) && s.cur + 1 < INT_LIMIT
    ensures var t := NextSegment(p, s);
      && Running(p, t, segs + [[]]) && t.cur in t.disk.files && t.offset == 0 && t.size == p.maxSize
      && Records(segs + [[]]) == Records(segs) && s.cur + 1 !in s.disk.files
  {
    var truncated := Truncated(s.disk, s.cur, s.offset);
    TruncateKeepsLayout(p, s.disk, segs, s.offset);
    AnnounceKeepsLayout(p, truncated, segs);
    OpenKeepsLayout(p, Announced(p, truncated, s.cur), segs + [[]]);
    RecordsOfOpened(segs);
  }

  /** An append keeps the store running, adds the record behind all others, and returns its index entry. */
  lemma AppendRuns(p: Params, s: State, segs: seq<seq<Record>>, r: Record)
    requires Running(p, s, segs) && s.cur + 1 < INT_LIMIT && Fits(r, p.keyLength, p.maxSize)
    ensures var (t, index) := AppendRecord(p, s, r); var g := AppendTo(s, segs, r);
      && Running(p, t, g) && Records(g) == Records(segs) + [r]
      && g[t.cur] != [] && index == IndexAt(p, g, t.cur, |g[t.cur]| - 1) && g[t.cur][|g[t.cur]| - 1] == r
      && !Blocked(s, r)
  {
    if FitsHere(s, r) {
      WriteRecordRuns(p, s, segs, r);
    } else {
      NextSegmentRuns(p, s, segs);
      WriteRecordRuns(p, NextSegment(p, s), segs + [[]], r);
    }
  }

  /**
    CRASH SAFETY OF APPEND. After whichever system call of an append the process dies, the disk is laid out for
    exactly the records appended before, or, after the last call, for those and the new one; `Init` then finds them.
    */
  lemma AppendIsCrashSafe(p: Params, s: State, segs: seq<seq<Record>>, r: Record, k: nat)
    requires Running(p, s, segs) && s.cur + 1 < INT_LIMIT && Fits(r, p.keyLength, p.maxSize)
    requires k < |Stages(p, s, r)|
    ensures Layout(p, Stages(p, s, r)[k], Survivors(p, s, segs, r, k))
    ensures Records(Survivors(p, s, segs, r, k)) ==
            if k == |Stages(p, s, r)| - 1 then Records(segs) + [r] else Records(segs)
    ensures k == |Stages(p, s, r)| - 1 ==> Stages(p, s, r)[k] == AppendRecord(p, s, r).0.disk
  {
    hide Truncated, Announced, Created, Padded, Written, Encode, Records, Grown, SegmentOk, Closed;
    if FitsHere(s, r) {
      WriteKeepsLayout(p, s.disk, segs, r);
      RecordsOfGrown(segs, r);
    } else {
      RolloverIsCrashSafe(p, s.disk, segs, s.offset, r);
      StageValues(p, s.disk, s.cur, s.offset, r);
    }
  }

  /** The contents, segment by segment, that survive when the process dies after a system call of an append. */
  function Survivors(p: Params, s: State, segs: seq<seq<Record>>, r: Record, k: nat): seq<seq<Record>>
    requires segs != []
  {
    if k == |Stages(p, s, r)| - 1 then AppendTo(s, segs, r)
    else if k == 0 then segs
    else segs + [[]]
  }

  // ---------------------------------------------------------------- restart

  /** What the source demands of segment files: offsets are 32-bit ints. */
  predicate Small(files: map<nat, Data>) {
    forall j :: j in files ==> |files[j]| < INT_LIMIT
  }

  /** Where replay of a segment from an offset ends. */
  function ReplayEnd(p: Params, files: map<nat, Data>, segment: nat, offset: nat): nat
    requires segment in files && Small(files)
    decreases |files[segment]| - offset
  {
    var replay := ReplayLog(files, p.crc, p.keyLength, segment, offset);
    if replay.result <= 0 then offset else ReplayEnd(p, files, segment, replay.result)
  }

  lemma ReplayEndStep(p: Params, files: map<nat, Data>, segment: nat, offset: nat)
    requires segment in files && Small(files)
    ensures var result := ReplayLog(files, p.crc, p.keyLength, segment, offset).result;
      if result <= 0 then ReplayEnd(p, files, segment, offset) == offset
      else
        (offset < result <= |files[segment]|
         && ReplayEnd(p, files, segment, offset) == ReplayEnd(p, files, segment, result))
  {
  }

  /** Replay from the offset of any record ends behind the last. */
  lemma {:induction false} ReplayEndFinds(p: Params, files: map<nat, Data>, segment: nat, rs: seq<Record>, k: nat)
    requires p.Ok() && segment in files && Small(files) && SegmentOk(p, files, segment, rs) && k <= |rs|
    ensures ReplayEnd(p, files, segment, OffsetOf(rs, k)) == |Frames(rs)|
    decreases |rs| - k
  {
    if k == |rs| {
      assert rs[..k] == rs;
      ReplayFindsEnd(files, p.crc, p.keyLength, segment, rs);
    } else {
      assert rs[k] in rs && Fits(rs[k], p.keyLength, p.maxSize);
      ReplayFindsRecord(files, p.crc, p.keyLength, segment, rs, k);
      OffsetNext(rs, k);
      ReplayEndFinds(p, files, segment, rs, k + 1);
    }
  }

  /** Files of a layout are small. */
  lemma LayoutIsSmall(p: Params, disk: Disk, segs: seq<seq<Record>>)
    requires p.Ok() && Layout(p, disk, segs)
    ensures Small(disk.files)
  {
    forall j | j in disk.files ensures |disk.files[j]| < INT_LIMIT {
      assert SegmentOk(p, disk.files, j, segs[j]);
    }
  }

  /** The current segment's file, created and padded if need be. */
  function Ready(p: Params, disk: Disk): Disk {
    Padded(p, Created(disk, CurrentId(disk)), CurrentId(disk))
  }

  /** Where `Init` arrives. */
  function Started(p: Params, disk: Disk): State
    requires p.Ok() && Small(disk.files)
  {
    var cur, ready := CurrentId(disk), Ready(p, disk);
    State(ready, cur, if cur !in disk.files || disk.files[cur] == [] then 0 else ReplayEnd(p, ready.files, cur, 0),
          SizeOf(ready, cur))
  }

  /** `Init` recovers the contents and the append offset from any disk laid out for them. */
  lemma StartedRuns(p: Params, disk: Disk, segs: seq<seq<Record>>)
    requires p.Ok() && Layout(p, disk, segs) && CurrentId(disk) < INT_LIMIT
    ensures Small(disk.files) && Running(p, Started(p, disk), segs)
    ensures CurrentId(disk) in Started(p, disk).disk.files && Started(p, disk).cur == CurrentId(disk)
  {
    var cur := CurrentId(disk);
    LayoutIsSmall(p, disk, segs);
    OpenKeepsLayout(p, disk, segs);
    if cur in disk.files && disk.files[cur] != [] {
      assert Ready(p, disk) == disk;
      ReplayEndFinds(p, disk.files, cur, segs[cur], 0);
    }
  }

  /** Restart is idempotent on a running store whose current segment exists: it arrives where the store is. */
  lemma RestartFindsSameState(p: Params, s: State, segs: seq<seq<Record>>)
    requires Running(p, s, segs) && s.cur in s.disk.files && s.disk.files[s.cur] != []
    ensures Small(s.disk.files) && Started(p, s.disk) == s
  {
    LayoutIsSmall(p, s.disk, segs);
    ReplayEndFinds(p, s.disk.files, s.cur, segs[s.cur], 0);
  }

  // ---------------------------------------------------------------- reading and removing

  /** What `Read` finds at an index entry. */
  function ReadAt(p: Params, files: map<nat, Data>, index: IndexEntry): (bool, Record) {
    var none := (false, Record([], []));
    var at := ParseIndex(index);
    if at.segment !in files then none
    else
      var file, start := files[at.segment], at.offset + SIZE_BYTES;
      if start > |file| then none
      else
        var size := Decode(file[at.offset..start]);
        if size < p.keyLength || start + size > |file| then none
        else
          var body := file[start..start + size];
          if p.crc(body) != at.sum then none else (true, Record(body[..p.keyLength], body[p.keyLength..]))
  }

  /** `RemoveAsync`: whether it succeeds, the disk it leaves, and the segment it schedules for deletion. */
  function RemoveAt(disk: Disk, index: IndexEntry): (bool, Disk, Option<nat>) {
    var at := ParseIndex(index);
    var d := Created(disk, at.segment);
    var file, start := d.files[at.segment], at.offset + SIZE_BYTES;
    if start > |file| then (false, d, None)
    else
      (true, d, if start + Decode(file[at.offset..start]) == |file| then Some(at.segment) else None)
  }

  /** `DeleteSegment`. */
  function Deleted(disk: Disk, segment: nat): Disk {
    disk.(files := disk.files - {segment})
  }

  // ---------------------------------------------------------------- the class

  /** `LogSegmentStore`. */
  class LogSegmentStore {
    const p: Params
    var files: map<nat, Data>
    var meta: Option<Meta>
    var cur: nat
    var offset: nat
    var size: nat
    /** The segment of the live clean event: the scheduler keeps one event of each type. */
    var clean: Option<nat>
    /** The disk after every system call of `Append` that changed it. */
    ghost var trace: seq<Disk>

    ghost function OnDisk(): Disk
      reads this
    {
      Disk(files, meta)
    }

    ghost function Value(): State
      reads this
    {
      State(OnDisk(), cur, offset, size)
    }

    /** A process that has just started: the disk is there, the fields are not set. */
    constructor (p: Params, disk: Disk)
      ensures this.p == p && OnDisk() == disk && clean == None && trace == []
    {
      this.p, files, meta := p, disk.files, disk.meta;
      cur, offset, size, clean, trace := 0, 0, 0, None, [];
    }

    /** `Init`: find the current segment, create and pad it if it is new, else replay it to find its end. */
    method Init() returns (ok: bool)
      requires p.Ok() && Small(files)
      modifies this`files, this`cur, this`offset, this`size, this`trace
      ensures ok == ChecksumOk(p.crc, old(OnDisk()))
      ensures if ok then Value() == Started(p, old(OnDisk())) else OnDisk() == old(OnDisk())
      ensures trace == old(trace) +
        if ok then [Created(old(OnDisk()), CurrentId(old(OnDisk()))), Ready(p, old(OnDisk()))] else []
    {
      cur := if meta.Some? then meta.value.id else 0;
      if meta.Some? && meta.value != MetaOf(p.crc, cur) {
        return false;
      }
      OpenSegment();
      var isNew := PaddingIfNewSegment();
      if isNew {
        offset := 0;
      } else {
        offset := ReplaySegment(0);
      }
      return true;
    }

    /** `OpenSegment` of the current segment, creating its file. */
    method OpenSegment()
      modifies this`files, this`trace
      ensures OnDisk() == Created(old(OnDisk()), cur) && cur in files
      ensures trace == old(trace) + [OnDisk()]
    {
      if cur !in files {
        files := files[cur := []];
      }
      trace := trace + [OnDisk()];
    }

    /** `PaddingIfNewSegment`. */
    method PaddingIfNewSegment() returns (isNew: bool)
      requires cur in files
      modifies this`files, this`size, this`trace
      ensures OnDisk() == Padded(p, old(OnDisk()), cur)
      ensures isNew == (old(files[cur]) == [])
      ensures size == SizeOf(OnDisk(), cur)
      ensures trace == old(trace) + [OnDisk()]
    {
      isNew := |files[cur]| == 0;
      if isNew {
        files := files[cur := Zeros(p.maxSize)];
      }
      size := |files[cur]|;
      trace := trace + [OnDisk()];
    }

    /** `ReplaySegment` of the current segment: the offset behind its last record. */
    method ReplaySegment(offset: nat) returns (end: nat)
      requires cur in files && Small(files)
      ensures end == ReplayEnd(p, files, cur, offset)
    {
      end := offset;
      while true
        invariant ReplayEnd(p, files, cur, end) == ReplayEnd(p, files, cur, offset)
        decreases |files[cur]| - end
      {
        ReplayEndStep(p, files, cur, end);
        var replay := ReplayLog(files, p.crc, p.keyLength, cur, end);
        if replay.result <= 0 {
          return;
        }
        end := replay.result;
      }
    }

    /** `Append`: roll over to a new segment if the frame does not fit, then write it. */
    method Append(key: Data, value: Data) returns (done: bool, index: IndexEntry)
      requires |key| >= p.keyLength
      modifies this`files, this`meta, this`cur, this`offset, this`size, this`trace
      ensures var r, s := Record(key[..p.keyLength], value), old(Value());
        && done == (|Frame(r)| <= p.maxSize && !Blocked(s, r))
        && (done ==> (Value(), index) == AppendRecord(p, s, r))
        && (!done ==> Value() == if |Frame(r)| <= p.maxSize then GivenUp(p, s) else s)
        && trace == old(trace) + if |Frame(r)| <= p.maxSize then Stages(p, s, r) else []
    {
      hide Truncated, Announced, Created, Padded, Written, Encode, SizeOf;
      var length := SIZE_BYTES + p.keyLength + |value|;
      ghost var r := Record(key[..p.keyLength], value);
      var buffer := Encode(p.keyLength + |value|, SIZE_BYTES) + (key[..p.keyLength] + value);
      assert buffer == Frame(r) && |buffer| == length;
      index := Index(cur, offset, 0);
      if length > p.maxSize {
        return false, index;
      }
      if offset + length > size {
        var ready := NewSegment();
        if !ready {
          return false, index;
        }
      }
      index := Index(cur, offset, p.crc(key[..p.keyLength] + value));
      Write(buffer, r);
      return true, index;
    }

    /** `write` at the current offset; writing to a segment that was deleted while open changes no file. */
    method Write(buffer: Data, ghost r: Record)
      requires buffer == Frame(r)
      modifies this`files, this`offset, this`trace
      ensures OnDisk() == Written(old(OnDisk()), cur, old(offset), r)
      ensures offset == old(offset) + |buffer|
      ensures trace == old(trace) + [OnDisk()]
    {
      if cur in files {
        files := files[cur := Patch(files[cur], offset, buffer)];
      }
      offset := offset + |buffer|;
      trace := trace + [OnDisk()];
    }

    /** `ftruncate` of the current segment behind its records. */
    method TruncateSegment()
      modifies this`files, this`trace
      ensures OnDisk() == Truncated(old(OnDisk()), cur, offset) && files.Keys == old(files).Keys
      ensures trace == old(trace) + [OnDisk()]
    {
      if cur in files && offset <= |files[cur]| {
        files := files[cur := files[cur][..offset]];
      }
      trace := trace + [OnDisk()];
    }

    /** `UpdateMetadata`. */
    method UpdateMetadata()
      modifies this`meta, this`trace
      ensures OnDisk() == Announced(p, old(OnDisk()), cur)
      ensures trace == old(trace) + [OnDisk()]
    {
      meta := Some(MetaOf(p.crc, cur + 1));
      trace := trace + [OnDisk()];
    }

    /** The rollover in `Append` and `NewSegment`: truncate, announce, create, pad. */
    method NewSegment() returns (ready: bool)
      modifies this`files, this`meta, this`trace, this`cur, this`offset, this`size
      ensures ready == (old(cur) + 1 !in old(files))
      ensures Value() == if ready then NextSegment(p, old(Value())) else GivenUp(p, old(Value()))
      ensures var truncated := Truncated(old(OnDisk()), old(cur), old(offset));
        var announced := Announced(p, truncated, old(cur));
        trace == old(trace) + [truncated, announced] + if ready then [Created(announced, cur), OnDisk()] else []
    {
      hide Truncated, Announced, Created, Padded;
      TruncateSegment();
      UpdateMetadata();
      cur := cur + 1;
      if cur in files {
        return false;
      }
      OpenSegment();
      var isNew := PaddingIfNewSegment();
      offset := 0;
      return true;
    }

    /** `Read`: the record an index entry points to, if its checksum matches. */
    method Read(index: IndexEntry) returns (ok: bool, key: Data, value: Data)
      ensures (ok, Record(key, value)) == ReadAt(p, files, index)
    {
      key, value := [], [];
      var at := ParseIndex(index);
      if at.segment !in files {
        return false, key, value;
      }
      var file := files[at.segment];
      if at.offset + SIZE_BYTES > |file| {
        return false, key, value;
      }
      var bodySize := Decode(file[at.offset..at.offset + SIZE_BYTES]);
      var start := at.offset + SIZE_BYTES;
      if bodySize < p.keyLength || start + bodySize > |file| {
        return false, key, value;
      }
      var body := file[start..start + bodySize];
      if p.crc(body) != at.sum {
        return false, key, value;
      }
      return true, body[..p.keyLength], body[p.keyLength..];
    }

    /** `RemoveAsync`: schedule the segment for deletion if its last record was removed. Opening may create the file. */
    method RemoveAsync(index: IndexEntry) returns (ok: bool)
      modifies this`files, this`clean
      ensures var (removed, disk, scheduled) := RemoveAt(old(OnDisk()), index);
        ok == removed && OnDisk() == disk && clean == if scheduled.Some? then scheduled else old(clean)
    {
      var at := ParseIndex(index);
      if at.segment !in files {
        files := files[at.segment := []];
      }
      var file := files[at.segment];
      if at.offset + SIZE_BYTES > |file| {
        return false;
      }
      var next := at.offset + SIZE_BYTES + Decode(file[at.offset..at.offset + SIZE_BYTES]);
      if next == |file| {
        clean := Some(at.segment);
      }
      return true;
    }

    /** The clean event fires: `DeleteSegment`. */
    method CleanTurn()
      modifies this`files, this`clean
      ensures OnDisk() == if old(clean).Some? then Deleted(old(OnDisk()), old(clean).value) else old(OnDisk())
      ensures clean == None
    {
      if clean.Some? {
        files := files - {clean.value};
      }
      clean := None;
    }
  }

  /** The index entry of a record reads back that record. */
  lemma ReadFindsRecord(p: Params, disk: Disk, segs: seq<seq<Record>>, j: nat, k: nat)
    requires p.Ok() && Layout(p, disk, segs) && CurrentId(disk) < INT_LIMIT && j < |segs| && k < |segs[j]|
    ensures ReadAt(p, disk.files, IndexAt(p, segs, j, k)) == (true, segs[j][k])
  {
    var r := segs[j][k];
    IndexedRecord(p, disk, segs, j, k);
    FrameParts(disk.files[j], OffsetOf(segs[j], k), r);
    assert Body(r)[..p.keyLength] == r.key && Body(r)[p.keyLength..] == r.value;
  }

  /** The frame of a record with a key of the fixed length stands where the entry points to, and its checksum is the entry's. */
  ghost predicate StandsAt(p: Params, files: map<nat, Data>, at: Location, r: Record) {
    && at.segment in files && Holds(files[at.segment], at.offset, Frame(r))
    && |r.key| == p.keyLength && p.crc(Body(r)) == at.sum
  }

  /** A read succeeds exactly if there is such a record, and gives it: bytes that were damaged are never returned. */
  lemma ReadIsExact(p: Params, files: map<nat, Data>, index: IndexEntry, r: Record)
    requires |Body(r)| < INT_LIMIT
    ensures ReadAt(p, files, index) == (true, r) <==> StandsAt(p, files, ParseIndex(index), r)
  {
    hide ParseIndex, Encode, Decode;
    var at, read := ParseIndex(index), ReadAt(p, files, index);
    if StandsAt(p, files, at, r) {
      FrameParts(files[at.segment], at.offset, r);
      assert Body(r)[..p.keyLength] == r.key && Body(r)[p.keyLength..] == r.value;
    }
    if read == (true, r) {
      var file, start := files[at.segment], at.offset + SIZE_BYTES;
      var sized := file[at.offset..start];
      var body := file[start..start + Decode(sized)];
      assert body == Body(r);
      EncodeDecode(sized);
      assert Frame(r) == sized + body;
      assert file[at.offset..start + |body|] == sized + body;
    }
  }

  lemma AppendedFacts(p: Params, segs: seq<seq<Record>>, r: Record)
    requires segs != []
    ensures var g, last := Grown(segs, r), |segs| - 1;
      && |g| == |segs| && g[last] == segs[last] + [r]
      && Records(g) == Records(segs) + [r]
      && |Frames(g[last])| == |Frames(segs[last])| + |Frame(r)|
      && IndexAt(p, g, last, |g[last]| - 1) == Index(last, |Frames(segs[last])|, p.crc(Body(r)))
  {
    var g, last := Grown(segs, r), |segs| - 1;
    assert g[last] == segs[last] + [r];
    assert g[last][..|segs[last]|] == segs[last];
    RecordsOfGrown(segs, r);
    FramesAppend(segs[last], r);
  }

  lemma IndexedRecord(p: Params, disk: Disk, segs: seq<seq<Record>>, j: nat, k: nat)
    requires p.Ok() && Layout(p, disk, segs) && CurrentId(disk) < INT_LIMIT && j < |segs| && k < |segs[j]|
    ensures j in disk.files
    ensures ParseIndex(IndexAt(p, segs, j, k)) == Location(j, OffsetOf(segs[j], k), p.crc(Body(segs[j][k])))
    ensures Holds(disk.files[j], OffsetOf(segs[j], k), Frame(segs[j][k])) && Fits(segs[j][k], p.keyLength, p.maxSize)
  {
    assert SegmentOk(p, disk.files, j, segs[j]);
    FrameAt(disk.files[j], segs[j], k);
    ParseIndexInverts(j, OffsetOf(segs[j], k), p.crc(Body(segs[j][k])));
  }
}
