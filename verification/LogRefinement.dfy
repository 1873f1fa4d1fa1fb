/** The log storage behaves like a map from keys to the values last put, whatever happens to it. */
module LogRefinement {
  import opened Basics
  import opened Bytes
  import opened SegmentFormat
  import opened SegmentStore
  import opened LogEntries
  import opened LogStorage
  import opened IndexRepair

  // ---------------------------------------------------------------- the invariant

  /** Every record of the segment is removed, and none will be added to it. */
  ghost predicate Doomed(seg: State, segs: seq<seq<Record>>, d: nat, g: nat) {
    g < |segs| && Before(segs, g + 1) <= d && (g == seg.cur ==> seg.offset == seg.size)
  }

  /** The index holds the entries from `d` on, and no closed segment from the first of them on is missing. */
  ghost predicate Indexed(p: Params, files: map<nat, Data>, db: IndexDb, segs: seq<seq<Record>>, d: nat) {
    var es := Entries(p, segs);
    d <= |es| && db == IndexOfPart(es, d, |es|) && Complete(files, segs, d)
  }

  /** The store holds the records of `segs`, of which those before `d` are removed. */
  ghost predicate Valid(p: Params, s: Store, segs: seq<seq<Record>>, d: nat) {
    && Running(p, s.seg, segs)
    && Indexed(p, s.seg.disk.files, s.db, segs, d)
    && (s.seg.cur !in s.seg.disk.files ==> d == |Entries(p, segs)|)
    && (s.clean.Some? ==> s.clean.value in s.seg.disk.files && Doomed(s.seg, segs, d, s.clean.value))
  }

  /** The entries of the records that are not removed. */
  ghost function Alive(p: Params, segs: seq<seq<Record>>, d: nat): seq<Entry>
    requires d <= |Entries(p, segs)|
  {
    Entries(p, segs)[d..|Entries(p, segs)|]
  }

  /** The records that are not removed. */
  ghost function LogOf(p: Params, segs: seq<seq<Record>>, d: nat): seq<Record>
    requires d <= |Entries(p, segs)|
  {
    RecordsOf(Alive(p, segs, d))
  }

  /** What the invariant says of the index, in terms of the entries. */
  lemma IndexFacts(p: Params, s: Store, segs: seq<seq<Record>>, d: nat)
    requires Valid(p, s, segs, d)
    ensures d <= |Entries(p, segs)| && s.db == Indexes(Latest(Alive(p, segs, d)))
    ensures Running(p, s.seg, segs) && Complete(s.seg.disk.files, segs, d)
    ensures s.clean.Some? ==> s.clean.value in s.seg.disk.files && Doomed(s.seg, segs, d, s.clean.value)
  {
  }

  /** Every entry of the index is that of a record from `d` on. */
  lemma IndexedAt(p: Params, s: Store, segs: seq<seq<Record>>, d: nat, key: Data) returns (j: nat, k: nat)
    requires Valid(p, s, segs, d) && key in s.db
    ensures j < |segs| && k < |segs[j]| && d <= Before(segs, j) + k
    ensures s.db[key] == IndexAt(p, segs, j, k) && segs[j][k].key == key
    ensures Latest(Alive(p, segs, d))[key].r == segs[j][k]
  {
    hide Running, Entries, Latest, IndexAt;
    var es := Entries(p, segs);
    var at := PartHolds(es, d, |es|, key);
    j, k := Locate(p, segs, at);
  }

  lemma KeysListed(p: Params, s: Store, segs: seq<seq<Record>>, d: nat)
    requires Valid(p, s, segs, d)
    ensures s.db.Keys == Contents(LogOf(p, segs, d)).Keys
    ensures Contents(LogOf(p, segs, d)) == Values(Latest(Alive(p, segs, d)))
  {
    hide Valid, Entries, Latest, Contents;
    IndexFacts(p, s, segs, d);
    ContentsOfLatest(Alive(p, segs, d));
  }

  /** THE LOG STORAGE REFINES A MAP. `Get` finds exactly the keys of the log's contents, with the value last put. */
  lemma GetRefinesMap(p: Params, s: Store, segs: seq<seq<Record>>, d: nat, key: Data)
    requires Valid(p, s, segs, d)
    ensures var contents := Contents(LogOf(p, segs, d));
      GetValue(p, s, key) == if key in contents then Some(contents[key]) else None
  {
    hide Valid, Entries, Latest, Contents, ReadAt, Running, Layout;
    KeysListed(p, s, segs, d);
    IndexFacts(p, s, segs, d);
    RunningFile(p, s.seg, segs);
    if key in s.db {
      var j, k := IndexedAt(p, s, segs, d, key);
      ReadFindsRecord(p, s.seg.disk, segs, j, k);
    }
  }

  /** A key that is not of the fixed length is never found, not even after a `Put` that succeeded. */
  lemma OtherLengthsAreNeverFound(p: Params, s: Store, key: Data)
    requires |key| != p.keyLength
    ensures GetValue(p, s, key) == None
  {
  }

  /** Nothing the index points to is in a segment that is deleted or about to be. */
  lemma NothingIsStranded(p: Params, s: Store, segs: seq<seq<Record>>, d: nat, key: Data)
    requires Valid(p, s, segs, d) && key in s.db
    ensures var g := ParseIndex(s.db[key]).segment;
      g in s.seg.disk.files && s.clean != Some(g)
  {
    hide Valid, Entries, Latest, ParseIndex, Running, Layout;
    IndexFacts(p, s, segs, d);
    RunningFile(p, s.seg, segs);
    var j, k := IndexedAt(p, s, segs, d, key);
    IndexedRecord(p, s.seg.disk, segs, j, k);
    assert Before(segs, j + 1) == Before(segs, j) + |segs[j]|;
  }

  // ---------------------------------------------------------------- putting

  lemma {:induction false} BeforeAgree(a: seq<seq<Record>>, b: seq<seq<Record>>, j: nat)
    requires j <= |a| && j <= |b| && forall m :: 0 <= m < j ==> a[m] == b[m]
    ensures Before(a, j) == Before(b, j)
  {
    if j == 0 {
    } else {
      BeforeAgree(a, b, j - 1);
    }
  }

  /** An append adds one entry behind all others, and leaves the closed segments as they are. */
  lemma AppendAddsEntry(p: Params, s: State, segs: seq<seq<Record>>, r: Record)
    requires segs != []
    ensures var g := AppendTo(s, segs, r); var last := |g| - 1;
      && |segs| <= |g| <= |segs| + 1 && g[last] != [] && g[last][|g[last]| - 1] == r
      && Entries(p, g) == Entries(p, segs) + [EntryAt(p, g, last, |g[last]| - 1)]
      && (|g| > |segs| <==> !FitsHere(s, r))
    ensures SameClosed(segs, AppendTo(s, segs, r))
  {
    hide Entries, EntryAt;
    if FitsHere(s, r) {
      EntriesOfGrown(p, segs, r);
    } else {
      EntriesOfOpened(p, segs);
      EntriesOfGrown(p, segs + [[]], r);
    }
  }

  /** All segments but the last are as before. */
  predicate SameClosed(segs: seq<seq<Record>>, g: seq<seq<Record>>) {
    0 < |segs| <= |g| <= |segs| + 1 && forall j :: 0 <= j < |g| - 1 ==> g[j] == segs[j]
  }

  lemma ClosedBefore(segs: seq<seq<Record>>, g: seq<seq<Record>>, j: nat)
    requires SameClosed(segs, g) && j < |g|
    ensures Before(g, j) == Before(segs, j)
  {
    BeforeAgree(g, segs, j);
  }

  lemma StaysComplete(files: map<nat, Data>, segs: seq<seq<Record>>, d: nat, more: map<nat, Data>, g: seq<seq<Record>>)
    requires Complete(files, segs, d) && files.Keys <= more.Keys && SameClosed(segs, g)
    requires |g| > |segs| ==> |segs| - 1 in files || Before(segs, |segs|) <= d
    ensures Complete(more, g, d)
  {
    hide SameClosed, Before;
    forall j | 0 <= j < |g| - 1 && j !in more ensures Before(g, j + 1) <= d {
      SameClosedSizes(segs, g);
      ClosedBefore(segs, g, j + 1);
      assert j !in files;
    }
  }

  lemma SameClosedSizes(segs: seq<seq<Record>>, g: seq<seq<Record>>)
    requires SameClosed(segs, g)
    ensures 0 < |segs| <= |g| <= |segs| + 1
  {
  }

  /** No system call of an append removes a file. */
  lemma StagesKeepFiles(p: Params, s: State, r: Record, k: nat)
    requires k < |Stages(p, s, r)|
    ensures s.disk.files.Keys <= Stages(p, s, r)[k].files.Keys
  {
    if !FitsHere(s, r) {
      StageValues(p, s.disk, s.cur, s.offset, r);
    }
  }

  lemma RunningSize(p: Params, s: State, segs: seq<seq<Record>>)
    requires Running(p, s, segs)
    ensures |segs| == s.cur + 1
  {
  }

  /** A successful `Put` adds its record to the log; one that is too big fails and changes nothing. */
  lemma PutRefines(p: Params, s: Store, segs: seq<seq<Record>>, d: nat, key: Data, value: Data)
    returns (g: seq<seq<Record>>)
    requires Valid(p, s, segs, d) && |key| == p.keyLength && s.seg.cur + 1 < INT_LIMIT
    ensures var (done, t) := PutStep(p, s, key, value); var r := Record(key, value);
      && Valid(p, t, g, d) && done == !TooBig(p, r)
      && (if done then g == AppendTo(s.seg, segs, r) && LogOf(p, g, d) == LogOf(p, segs, d) + [r]
          else t == s && g == segs)
  {
    hide Valid, LogOf, Blocked, AppendRecord, AppendTo, Running, Layout;
    IndexFacts(p, s, segs, d);
    RunningFile(p, s.seg, segs);
    var r := Record(key, value);
    assert key[..p.keyLength] == key;
    if TooBig(p, r) {
      g := segs;
    } else {
      g := PutAppends(p, s, segs, d, r);
    }
  }

  lemma PutAppends(p: Params, s: Store, segs: seq<seq<Record>>, d: nat, r: Record) returns (g: seq<seq<Record>>)
    requires Valid(p, s, segs, d) && s.seg.cur + 1 < INT_LIMIT && Fits(r, p.keyLength, p.maxSize)
    ensures g == AppendTo(s.seg, segs, r)
    ensures var (seg, index) := AppendRecord(p, s.seg, r);
      Valid(p, s.(seg := seg, db := s.db[r.key := index]), g, d) && !Blocked(s.seg, r)
    ensures LogOf(p, g, d) == LogOf(p, segs, d) + [r]
  {
    hide Layout, LogOf, Indexed, Entries, Blocked, AppendRecord, AppendTo, IndexAt;
    RunningSize(p, s.seg, segs);
    g := AppendTo(s.seg, segs, r);
    var (seg, index) := AppendRecord(p, s.seg, r);
    AppendRuns(p, s.seg, segs, r);
    RunningSize(p, seg, g);
    AppendStages(p, s.seg, r);
    IndexOfMore(p, s, segs, d, r, seg.disk.files);
    StaysDoomed(p, s, segs, d, r, seg);
  }

  /** The index after an append, and the log. */
  lemma IndexOfMore(p: Params, s: Store, segs: seq<seq<Record>>, d: nat, r: Record, files: map<nat, Data>)
    requires Valid(p, s, segs, d) && s.seg.disk.files.Keys <= files.Keys
    ensures var g := AppendTo(s.seg, segs, r); var last := |g| - 1;
      && g[last] != []
      && Indexed(p, files, s.db[r.key := IndexAt(p, g, last, |g[last]| - 1)], g, d)
      && LogOf(p, g, d) == LogOf(p, segs, d) + [r]
  {
    hide Layout, Entries, Latest, Indexes, Complete, IndexAt, AppendTo, Frame, SameClosed, Doomed;
    RunningSize(p, s.seg, segs);
    var g := AppendTo(s.seg, segs, r);
    AppendAddsEntry(p, s.seg, segs, r);
    FoldOfMore(Entries(p, segs), d, EntryAt(p, g, |g| - 1, |g[|g| - 1]| - 1));
    EntriesSize(p, segs);
    StaysComplete(s.seg.disk.files, segs, d, files, g);
  }

  lemma FoldOfMore(es: seq<Entry>, d: nat, e: Entry)
    requires d <= |es|
    ensures IndexOfPart(es + [e], d, |es + [e]|) == IndexOfPart(es, d, |es|)[e.r.key := e.index]
    ensures RecordsOf((es + [e])[d..|es + [e]|]) == RecordsOf(es[d..|es|]) + [e.r]
  {
    hide IndexOfPart;
    var more := es + [e];
    PartsJoin(more, d, |es|, |more|);
    PartOfOne(more, |es|);
    SamePart(es, e, d);
    assert more[d..|more|] == es[d..|es|] + [e];
  }

  lemma SamePart(es: seq<Entry>, e: Entry, d: nat)
    requires d <= |es|
    ensures (es + [e])[d..|es|] == es[d..|es|]
    ensures IndexOfPart(es + [e], d, |es|) == IndexOfPart(es, d, |es|)
  {
  }

  /** A segment that is doomed gets no new record. */
  lemma StaysDoomed(p: Params, s: Store, segs: seq<seq<Record>>, d: nat, r: Record, t: State)
    requires Valid(p, s, segs, d)
    requires t.cur == if FitsHere(s.seg, r) then s.seg.cur else s.seg.cur + 1
    ensures s.clean.Some? ==> Doomed(t, AppendTo(s.seg, segs, r), d, s.clean.value)
  {
    hide Valid, Layout, AppendTo, Entries, Before;
    IndexFacts(p, s, segs, d);
    RunningSize(p, s.seg, segs);
    AppendAddsEntry(p, s.seg, segs, r);
    if s.clean.Some? {
      StaysDoomedBefore(s.seg, segs, AppendTo(s.seg, segs, r), r, s.clean.value);
    }
  }

  lemma StaysDoomedBefore(s: State, segs: seq<seq<Record>>, g: seq<seq<Record>>, r: Record, at: nat)
    requires |segs| == s.cur + 1 && SameClosed(segs, g) && (|g| > |segs| <==> !FitsHere(s, r))
    requires at < |segs| && (at == s.cur ==> s.offset == s.size)
    ensures Before(g, at + 1) == Before(segs, at + 1)
  {
    assert |Frame(r)| > 0;
    ClosedBefore(segs, g, at + 1);
  }

  lemma AppendStages(p: Params, s: State, r: Record)
    requires s.cur in s.disk.files || s.offset == s.size
    requires !Blocked(s, r)
    ensures var t := AppendRecord(p, s, r).0;
      && s.disk.files.Keys <= t.disk.files.Keys && t.cur in t.disk.files
      && t.cur == if FitsHere(s, r) then s.cur else s.cur + 1
  {
  }

  /** START-UP AFTER A CRASH. It succeeds on everything a crash can leave, and finds this log. */
  lemma RecoveryRefines(p: Params, was: Durable, segs: seq<seq<Record>>, d: nat) returns (e: nat)
    requires Recoverable(p, was, segs, d)
    ensures p.Ok() && Small(was.disk.files) && Recovered(p, was.disk, was.db).Some?
    ensures Valid(p, Recovered(p, was.disk, was.db).value, segs, e)
    ensures e == if was.db != map[] then d else |Entries(p, segs)|
  {
    hide Running, Recoverable, Entries, IndexOfPart, Recovered, Started;
    RecoveryFinds(p, was, segs, d);
    e := if was.db != map[] then d else |Entries(p, segs)|;
    EmptyPart(Entries(p, segs), |Entries(p, segs)|);
    CompleteLater(Started(p, was.disk).disk.files, segs, d, e);
  }

  lemma CompleteLater(files: map<nat, Data>, segs: seq<seq<Record>>, d: nat, e: nat)
    requires Complete(files, segs, d) && d <= e
    ensures Complete(files, segs, e)
  {
  }

  // ---------------------------------------------------------------- removing

  /** A segment is scheduled for deletion exactly when the record removed is the last of a segment that is full. */
  lemma ScheduledIff(p: Params, disk: Disk, segs: seq<seq<Record>>, j: nat, k: nat)
    requires p.Ok() && Layout(p, disk, segs) && CurrentId(disk) < INT_LIMIT && j < |segs| && k < |segs[j]|
    ensures var (ok, after, scheduled) := RemoveAt(disk, IndexAt(p, segs, j, k));
      && ok && after == disk && j in disk.files
      && scheduled == if k == |segs[j]| - 1 && |disk.files[j]| == |Frames(segs[j])| then Some(j) else None
  {
    hide Layout, Frame, ParseIndex, IndexAt, Decode;
    IndexedRecord(p, disk, segs, j, k);
    FrameParts(disk.files[j], OffsetOf(segs[j], k), segs[j][k]);
    OffsetNext(segs[j], k);
    assert segs[j][..|segs[j]|] == segs[j];
    if k < |segs[j]| - 1 {
      OffsetsRise(segs[j], k + 1, |segs[j]|);
      SegmentFits(p, disk, segs, j);
    }
  }

  lemma SegmentFits(p: Params, disk: Disk, segs: seq<seq<Record>>, j: nat)
    requires Layout(p, disk, segs) && j < |segs| && j in disk.files
    ensures |Frames(segs[j])| <= |disk.files[j]|
  {
    assert SegmentOk(p, disk.files, j, segs[j]);
  }

  /** A key may be deleted if it is the oldest: the documented assumption that removals follow the appends. */
  predicate MayDelete(log: seq<Record>, key: Data) {
    key in Contents(log) ==> log != [] && key == log[OldestAt(log)].key
  }

  /** The log after a `Delete`. */
  function Cut(log: seq<Record>, key: Data): seq<Record> {
    if key in Contents(log) && log != [] then log[OldestAt(log) + 1..] else log
  }

  /** `Delete` of the oldest key takes exactly that key away. */
  lemma CutRemovesKey(es: seq<Entry>, key: Data)
    requires MayDelete(RecordsOf(es), key)
    ensures Contents(Cut(RecordsOf(es), key)) == Contents(RecordsOf(es)) - {key}
  {
    hide Contents, Latest, OldestAt;
    ContentsOfLatest(es);
    if key in Contents(RecordsOf(es)) {
      var i := OldestAt(RecordsOf(es));
      CutOldest(es);
      ContentsOfLatest(es[i + 1..]);
      RecordsOfTail(es, i + 1);
      ValuesWithout(Latest(es), key);
    }
  }

  lemma ValuesWithout(m: map<Data, Entry>, key: Data)
    ensures Values(m - {key}) == Values(m) - {key}
    ensures Indexes(m - {key}) == Indexes(m) - {key}
  {
  }

  /** `Delete` of the oldest key takes it out of the log, and schedules a segment only once it is empty. */
  lemma DeleteRefines(p: Params, s: Store, segs: seq<seq<Record>>, d: nat, key: Data) returns (e: nat)
    requires Valid(p, s, segs, d) && MayDelete(LogOf(p, segs, d), key)
    ensures var (done, t) := DeleteStep(p, s, key);
      && Valid(p, t, segs, e) && done == (key in Contents(LogOf(p, segs, d)))
      && LogOf(p, segs, e) == Cut(LogOf(p, segs, d), key)
      && d <= e && t.seg == s.seg && (t.clean == s.clean || SchedulesLater(segs, d, t.clean))
  {
    hide Valid, LogOf, Contents, MayDelete, RemoveAt, OldestAt, SchedulesLater;
    KeysListed(p, s, segs, d);
    e := d;
    if key in s.db {
      e := DeleteOldest(p, s, segs, d, key);
    }
  }

  /** The segment scheduled holds a record that was not removed before. */
  ghost predicate SchedulesLater(segs: seq<seq<Record>>, d: nat, clean: Option<nat>) {
    clean.Some? && clean.value < |segs| && d < Before(segs, clean.value + 1)
  }

  lemma DeleteOldest(p: Params, s: Store, segs: seq<seq<Record>>, d: nat, key: Data) returns (e: nat)
    requires Valid(p, s, segs, d) && MayDelete(LogOf(p, segs, d), key) && key in s.db
    ensures var (done, t) := DeleteStep(p, s, key);
      && done && Valid(p, t, segs, e)
      && d <= e && t.seg == s.seg && (t.clean == s.clean || SchedulesLater(segs, d, t.clean))
    ensures LogOf(p, segs, e) == Cut(LogOf(p, segs, d), key)
  {
    hide Valid, LogOf, MayDelete, Cut, DeleteStep, Unlisted, Running, Indexed;
    IndexFacts(p, s, segs, d);
    var j, k := OldestListed(p, s, segs, d, key);
    DeleteLocated(p, s, segs, j, k, key);
    e := Before(segs, j) + k + 1;
    ShrinksValid(p, s, segs, d, j, k, key);
    UnlistedFacts(s, segs, d, j, k, key);
  }

  /** The oldest key's record, and the index behind it. */
  lemma OldestListed(p: Params, s: Store, segs: seq<seq<Record>>, d: nat, key: Data) returns (j: nat, k: nat)
    requires Valid(p, s, segs, d) && MayDelete(LogOf(p, segs, d), key) && key in s.db
    ensures j < |segs| && k < |segs[j]| && s.db[key] == IndexAt(p, segs, j, k)
    ensures var es, e := Entries(p, segs), Before(segs, j) + k + 1;
      && d < e <= |es| && IndexOfPart(es, e, |es|) == s.db - {key}
      && LogOf(p, segs, e) == Cut(LogOf(p, segs, d), key)
  {
    hide Valid, Running, Entries, Latest, Contents, MayDelete, Cut, IndexAt, OldestAt;
    var es := Entries(p, segs);
    IndexFacts(p, s, segs, d);
    KeysListed(p, s, segs, d);
    var i := IndexOfCut(Alive(p, segs, d), key);
    j, k := Locate(p, segs, d + i);
    TailOfPart(es, d, i + 1);
  }

  lemma TailOfPart(es: seq<Entry>, d: nat, i: nat)
    requires d + i <= |es|
    ensures es[d..|es|][i..] == es[d + i..|es|]
  {
  }

  /** `Delete` of a key whose entry is that of record `k` of segment `j`. */
  function Unlisted(s: Store, segs: seq<seq<Record>>, j: nat, k: nat, key: Data): Store
    requires j < |segs| && k < |segs[j]| && j in s.seg.disk.files
  {
    var last := k == |segs[j]| - 1 && |s.seg.disk.files[j]| == |Frames(segs[j])|;
    s.(db := s.db - {key}, clean := if last then Some(j) else s.clean)
  }

  lemma UnlistedFacts(s: Store, segs: seq<seq<Record>>, d: nat, j: nat, k: nat, key: Data)
    requires j < |segs| && k < |segs[j]| && j in s.seg.disk.files && d <= Before(segs, j) + k
    ensures var t := Unlisted(s, segs, j, k, key);
      t.seg == s.seg && (t.clean == s.clean || SchedulesLater(segs, d, t.clean))
  {
    assert Before(segs, j + 1) == Before(segs, j) + |segs[j]|;
  }

  lemma DeleteLocated(p: Params, s: Store, segs: seq<seq<Record>>, j: nat, k: nat, key: Data)
    requires Running(p, s.seg, segs) && j < |segs| && k < |segs[j]|
    requires key in s.db && s.db[key] == IndexAt(p, segs, j, k)
    ensures j in s.seg.disk.files && DeleteStep(p, s, key) == (true, Unlisted(s, segs, j, k, key))
  {
    hide Layout, RemoveAt, IndexAt;
    ScheduledIff(p, s.seg.disk, segs, j, k);
  }

  /** A segment is scheduled only once its last record is removed. */
  lemma ShrinksValid(p: Params, s: Store, segs: seq<seq<Record>>, d: nat, j: nat, k: nat, key: Data)
    requires Valid(p, s, segs, d) && j < |segs| && k < |segs[j]| && j in s.seg.disk.files
    requires var es, e := Entries(p, segs), Before(segs, j) + k + 1;
      d < e <= |es| && IndexOfPart(es, e, |es|) == s.db - {key}
    ensures Valid(p, Unlisted(s, segs, j, k, key), segs, Before(segs, j) + k + 1)
  {
    hide Layout, Entries, IndexOfPart, Complete;
    CompleteLater(s.seg.disk.files, segs, d, Before(segs, j) + k + 1);
  }

  /** The index without the oldest key is that of the log behind its record. */
  lemma IndexOfCut(es: seq<Entry>, key: Data) returns (i: nat)
    requires key in Contents(RecordsOf(es)) && MayDelete(RecordsOf(es), key)
    ensures i < |es| && key in Latest(es) && Latest(es)[key] == es[i]
    ensures Indexes(Latest(es[i + 1..])) == Indexes(Latest(es)) - {key}
    ensures RecordsOf(es[i + 1..]) == Cut(RecordsOf(es), key)
  {
    hide Contents, Latest, OldestAt;
    i := OldestAt(RecordsOf(es));
    CutOldest(es);
    ValuesWithout(Latest(es), key);
    RecordsOfTail(es, i + 1);
  }
}
