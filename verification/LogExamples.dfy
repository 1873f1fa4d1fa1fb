/** Two concrete runs of the log storage: what happens to removals out of order, and to a clean event that is replaced. */
module LogExamples {
  import opened Basics
  import opened Bytes
  import opened SegmentFormat
  import opened SegmentStore
  import opened LogEntries
  import opened LogStorage
  import opened IndexRepair
  import opened LogRefinement
  import opened LogHistory

  /** The first start on an empty disk. */
  lemma FreshStore(p: Params) returns (s: Store)
    requires p.Ok()
    ensures Begins(p, [], s) && Valid(p, s, [[]], 0) && LogOf(p, [[]], 0) == []
    ensures s.seg.cur == 0 && s.seg.offset == 0 && s.seg.size == p.maxSize && s.clean == None
  {
    var was := Durable(Disk(map[], None), map[]);
    FreshIsRecoverable(p);
    var e := RecoveryRefines(p, was, [[]], 0);
    NothingBehindEnd(p, [[]]);
    s := Recovered(p, was.disk, was.db).value;
  }

  lemma FrameSizes(r: Record)
    ensures |Frame(r)| == SIZE_BYTES + |Body(r)|
  {
  }

  /** A put of a record of the fixed key length, and where it lands. */
  lemma PutHere(p: Params, s: Store, segs: seq<seq<Record>>, r: Record) returns (t: Store, g: seq<seq<Record>>)
    requires Valid(p, s, segs, 0) && Fits(r, p.keyLength, p.maxSize) && s.seg.cur + 1 < INT_LIMIT
    ensures t == PutStep(p, s, r.key, r.value).1 && Valid(p, t, g, 0) && LogOf(p, g, 0) == LogOf(p, segs, 0) + [r]
    ensures segs != [] && g == AppendTo(s.seg, segs, r)
    ensures t.clean == s.clean && t.seg.cur == if FitsHere(s.seg, r) then s.seg.cur else s.seg.cur + 1
    ensures FitsHere(s.seg, r) ==> t.seg.offset == s.seg.offset + |Frame(r)| && t.seg.size == s.seg.size
  {
    hide Layout, Indexed, Entries, LogOf, AppendTo, Written, Padded, Created, Frame, Frames;
    RunningSize(p, s.seg, segs);
    FrameSizes(r);
    g := PutRefines(p, s, segs, 0, r.key, r.value);
    t := PutStep(p, s, r.key, r.value).1;
    assert r.key[..p.keyLength] == r.key;
    AppendRuns(p, s.seg, segs, r);
  }

  lemma FirstRecord(s: State, r: Record)
    requires FitsHere(s, r)
    ensures AppendTo(s, [[]], r) == [[r]]
  {
    var empty: seq<Record> := [];
    assert [empty][..0] == [] && empty + [r] == [r];
  }

  lemma SecondRecord(s: State, a: Record, b: Record)
    ensures AppendTo(s, [[a]], b) == if FitsHere(s, b) then [[a, b]] else [[a], [b]]
  {
    var empty: seq<Record> := [];
    assert [[a]][..0] == [] && [a] + [b] == [a, b];
    assert [[a]] + [empty] == [[a], empty] && [[a], empty][..1] == [[a]] && empty + [b] == [b];
    assert [[a]] + [[b]] == [[a], [b]];
  }

  /** A segment whose records fill the segment size is full. */
  lemma FullSegment(p: Params, s: State, segs: seq<seq<Record>>, j: nat)
    requires Running(p, s, segs) && j < |segs| && j in s.disk.files
    requires |Frames(segs[j])| == p.maxSize
    ensures |s.disk.files[j]| == |Frames(segs[j])|
  {
    assert SegmentOk(p, s.disk.files, j, segs[j]);
  }

  lemma FramesOfOne(r: Record)
    ensures Frames([r]) == Frame(r)
  {
    FramesAppend([], r);
  }

  /** The index entry of a listed key is that of the record with this key. */
  lemma ListedAt(p: Params, s: Store, segs: seq<seq<Record>>, d: nat, key: Data) returns (j: nat, k: nat)
    requires Valid(p, s, segs, d) && key in Contents(LogOf(p, segs, d))
    ensures key in s.db && j < |segs| && k < |segs[j]| && d <= Before(segs, j) + k && segs[j][k].key == key
    ensures s.db[key] == IndexAt(p, segs, j, k) && ParseIndex(s.db[key]).segment == j && j in s.seg.disk.files
  {
    hide Valid, ParseIndex, Layout, IndexAt;
    KeysListed(p, s, segs, d);
    IndexFacts(p, s, segs, d);
    RunningFile(p, s.seg, segs);
    j, k := IndexedAt(p, s, segs, d, key);
    IndexedRecord(p, s.seg.disk, segs, j, k);
  }

  lemma ContentsOfTwo(a: Record, b: Record)
    requires a.key != b.key
    ensures Contents([a, b]) == map[a.key := a.value, b.key := b.value]
    ensures Contents([b]) == map[b.key := b.value]
    ensures OldestAt([a, b]) == 0 && OldestAt([b]) == 0
  {
    assert [a, b][..1] == [a] && [a][..0] == [] && [b][..0] == [] && [a, b][1..] == [b];
    assert Contents([a]) == map[a.key := a.value];
  }

  // ---------------------------------------------------------------- removals out of order

  /** The operations: put two records that fill a segment, delete the second one, and let the clean event fire. */
  function Stranding(a: Record, b: Record): seq<Op> {
    [Put(a), Put(b), Delete(b.key), Clean]
  }

  /** The first record is lost, for all records that fill a segment together. */
  lemma FirstIsStranded(p: Params, a: Record, b: Record) returns (states: seq<Store>)
    requires p.Ok() && |a.key| == |b.key| == p.keyLength && a.key != b.key
    requires p.maxSize == |Frame(a)| + |Frame(b)|
    ensures |states| == 5 && Begins(p, [], states[0])
    ensures forall i :: 0 <= i < 4 ==> Steps(p, states[i], Stranding(a, b)[i], states[i + 1])
    ensures !MayDelete([a, b], b.key)
    ensures GetValue(p, states[2], a.key) == Some(a.value) && GetValue(p, states[4], a.key) == None
  {
    hide Valid, LogOf, PutStep, GetValue, Frame, IndexAt, ParseIndex, Begins, Contents, OldestAt, DeleteStep, AppendTo;
    var s := FreshStore(p);
    FrameSizes(a);
    FrameSizes(b);
    var t, g := PutHere(p, s, [[]], a);
    FirstRecord(s.seg, a);
    var u, both := PutHere(p, t, g, b);
    SecondRecord(t.seg, a, b);
    ContentsOfTwo(a, b);
    assert LogOf(p, both, 0) == [a, b];
    GetRefinesMap(p, u, both, 0, a.key);
    var v := DeleteSecond(p, u, a, b);
    OthersAfterDeletion(p, u, b.key, 0, a.key);
    states := [s, t, u, v, CleanStep(v)];
  }

  lemma DeleteSecond(p: Params, u: Store, a: Record, b: Record) returns (v: Store)
    requires Valid(p, u, [[a, b]], 0) && LogOf(p, [[a, b]], 0) == [a, b] && a.key != b.key
    requires p.maxSize == |Frame(a)| + |Frame(b)|
    ensures v == DeleteStep(p, u, b.key).1 == u.(db := u.db - {b.key}, clean := Some(0))
    ensures a.key in u.db && ParseIndex(u.db[a.key]).segment == 0
  {
    hide Valid, LogOf, DeleteStep, IndexAt, ParseIndex, Frame, Running, Contents;
    ContentsOfTwo(a, b);
    IndexFacts(p, u, [[a, b]], 0);
    var i, m := ListedAt(p, u, [[a, b]], 0, a.key);
    var j, k := ListedAt(p, u, [[a, b]], 0, b.key);
    FramesOfOne(a);
    FramesAppend([a], b);
    assert [a] + [b] == [a, b];
    FullSegment(p, u.seg, [[a, b]], 0);
    DeleteLocated(p, u, [[a, b]], j, k, b.key);
    v := DeleteStep(p, u, b.key).1;
  }

  /** With one-byte keys and values and segments of twenty bytes, as an input anybody can try. */
  lemma OutOfOrderExample(crc: Crc) returns (states: seq<Store>)
    ensures var p, a, b := Params(crc, 1, 20), Record([1], [7]), Record([2], [8]);
      && |states| == 5 && Begins(p, [], states[0])
      && (forall i :: 0 <= i < 4 ==> Steps(p, states[i], Stranding(a, b)[i], states[i + 1]))
      && GetValue(p, states[2], [1]) == Some([7]) && GetValue(p, states[4], [1]) == None
  {
    states := FirstIsStranded(Params(crc, 1, 20), Record([1], [7]), Record([2], [8]));
  }

  // ---------------------------------------------------------------- a clean event that is replaced

  /** The operations: two records that fill a segment each, both deleted in order before the clean event fires. */
  function Replacing(a: Record, b: Record): seq<Op> {
    [Put(a), Put(b), Delete(a.key), Delete(b.key), Clean]
  }

  /** Deleting the oldest key, whose record fills its segment, schedules that segment. */
  lemma DeleteFilling(p: Params, s: Store, segs: seq<seq<Record>>, d: nat, key: Data) returns (t: Store, e: nat, j: nat)
    requires Valid(p, s, segs, d) && key in Contents(LogOf(p, segs, d)) && MayDelete(LogOf(p, segs, d), key)
    requires forall j :: 0 <= j < |segs| ==> |segs[j]| == 1 && |Frame(segs[j][0])| == p.maxSize
    ensures t == DeleteStep(p, s, key).1 && t.seg == s.seg && Valid(p, t, segs, e)
    ensures LogOf(p, segs, e) == Cut(LogOf(p, segs, d), key)
    ensures j < |segs| && segs[j][0].key == key && t.clean == Some(j)
  {
    hide Valid, LogOf, DeleteStep, MayDelete, Cut, ParseIndex, Frame, Running, Contents, IndexAt, SchedulesLater;
    var k;
    j, k := ListedAt(p, s, segs, d, key);
    IndexFacts(p, s, segs, d);
    FramesOfOne(segs[j][0]);
    assert segs[j] == [segs[j][0]];
    FullSegment(p, s.seg, segs, j);
    DeleteLocated(p, s, segs, j, k, key);
    e := DeleteRefines(p, s, segs, d, key);
    t := DeleteStep(p, s, key).1;
  }

  /** What the operations make of the log. */
  function ReplacingLogs(a: Record, b: Record): seq<seq<Record>> {
    [[], [a], [a, b], [b], [], []]
  }

  lemma CutsOfTwo(a: Record, b: Record)
    requires a.key != b.key
    ensures a.key in Contents([a, b]) && MayDelete([a, b], a.key) && Cut([a, b], a.key) == [b]
    ensures b.key in Contents([b]) && MayDelete([b], b.key) && Cut([b], b.key) == []
  {
    ContentsOfTwo(a, b);
  }

  lemma DeleteBoth(p: Params, u: Store, a: Record, b: Record) returns (v: Store, w: Store)
    requires Valid(p, u, [[a], [b]], 0) && LogOf(p, [[a], [b]], 0) == [a, b] && a.key != b.key
    requires p.maxSize == |Frame(a)| == |Frame(b)|
    ensures v == DeleteStep(p, u, a.key).1 && v.clean == Some(0) && v.seg == u.seg
    ensures w == DeleteStep(p, v, b.key).1 && w.clean == Some(1) && w.seg == u.seg
  {
    hide Valid, LogOf, DeleteStep, MayDelete, Cut, Frame, Contents;
    CutsOfTwo(a, b);
    var d, e, i, j;
    v, d, i := DeleteFilling(p, u, [[a], [b]], 0, a.key);
    w, e, j := DeleteFilling(p, v, [[a], [b]], d, b.key);
  }

  /** The stores the operations lead through. */
  lemma ReplacingRuns(p: Params, a: Record, b: Record) returns (states: seq<Store>)
    requires p.Ok() && |a.key| == |b.key| == p.keyLength && a.key != b.key
    requires p.maxSize == |Frame(a)| == |Frame(b)|
    ensures |states| == 6 && Begins(p, [], states[0])
    ensures states[1] == PutStep(p, states[0], a.key, a.value).1 && states[2] == PutStep(p, states[1], b.key, b.value).1
    ensures states[3] == DeleteStep(p, states[2], a.key).1 && states[4] == DeleteStep(p, states[3], b.key).1
    ensures states[5] == CleanStep(states[4])
    ensures forall i :: 0 <= i < 5 ==> states[i].seg.cur <= 1
    ensures states[3].clean == Some(0) && states[4].clean == Some(1)
  {
    hide Valid, LogOf, PutStep, DeleteStep, CleanStep, Frame, Begins, AppendTo;
    var s := FreshStore(p);
    FrameSizes(a);
    FrameSizes(b);
    var t, g := PutHere(p, s, [[]], a);
    FirstRecord(s.seg, a);
    var u, both := PutHere(p, t, g, b);
    SecondRecord(t.seg, a, b);
    var v, w := DeleteBoth(p, u, a, b);
    states := [s, t, u, v, w, CleanStep(w)];
  }

  /** The history is one the source allows, and the file of the first segment stays for ever. */
  lemma FirstFileStays(p: Params, a: Record, b: Record) returns (states: seq<Store>)
    requires p.Ok() && |a.key| == |b.key| == p.keyLength && a.key != b.key
    requires p.maxSize == |Frame(a)| == |Frame(b)|
    ensures History(p, [], states, ReplacingLogs(a, b), Replacing(a, b))
    ensures states[3].clean == Some(0) && states[4].clean == Some(1) && states[5].clean == None
    ensures 0 in states[5].seg.disk.files && 1 !in states[5].seg.disk.files
  {
    hide PutStep, DeleteStep, Frame, Begins, MayDelete, Cut;
    states := ReplacingRuns(p, a, b);
    CutsOfTwo(a, b);
    ReplacedIsNeverDeleted(p, [], states, ReplacingLogs(a, b), Replacing(a, b), 3, 5, 0);
  }

  /** With one-byte keys and values and segments of ten bytes. */
  lemma ReplacedExample(crc: Crc) returns (states: seq<Store>)
    ensures var p, a, b := Params(crc, 1, 10), Record([1], [7]), Record([2], [8]);
      && History(p, [], states, ReplacingLogs(a, b), Replacing(a, b))
      && 0 in states[5].seg.disk.files && 1 !in states[5].seg.disk.files
      && states[5].clean == None && states[5].db == map[]
  {
    var p, a, b := Params(crc, 1, 10), Record([1], [7]), Record([2], [8]);
    states := FirstFileStays(p, a, b);
    NothingListed(p, states[5], ReplacingLogs(a, b)[5]) by {
      HistoryRefines(p, [], states, ReplacingLogs(a, b), Replacing(a, b), 5);
    }
  }

  lemma NothingListed(p: Params, s: Store, log: seq<Record>)
    requires StandsFor(p, s, log) && log == []
    ensures s.db == map[]
  {
    hide Running, Doomed, LogOf;
    var segs, d :| Valid(p, s, segs, d) && log == LogOf(p, segs, d);
    EmptyIndexMeansEmptyLog(p, s, segs, d);
  }
}
