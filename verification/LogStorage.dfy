/** The log storage: an index database over the segment log. It refines a map, over restarts and deletions. */
module LogStorage {
  import opened Basics
  import opened Bytes
  import opened SegmentFormat
  import opened SegmentStore

  type IndexDb = map<Data, IndexEntry>

  /** The segment store, the index database, and the segment of the live clean event. */
  datatype Store = Store(seg: State, db: IndexDb, clean: Option<nat>)

  // ---------------------------------------------------------------- operations

  predicate TooBig(p: Params, r: Record) {
    |Frame(r)| > p.maxSize
  }

  /** `Put`. */
  function PutStep(p: Params, s: Store, key: Data, value: Data): (bool, Store)
    requires |key| >= p.keyLength
  {
    var r := Record(key[..p.keyLength], value);
    if TooBig(p, r) then (false, s)
    else if Blocked(s.seg, r) then (false, s.(seg := GivenUp(p, s.seg)))
    else
      var (seg, index) := AppendRecord(p, s.seg, r);
      (true, s.(seg := seg, db := s.db[key := index]))
  }

  /** `Get`: the record the index points to, if its key is the one asked for. */
  function GetValue(p: Params, s: Store, key: Data): Option<Data> {
    if key !in s.db then None
    else
      var (ok, r) := ReadAt(p, s.seg.disk.files, s.db[key]);
      if ok && r.key == key then Some(r.value) else None
  }

  /** `Delete`. */
  function DeleteStep(p: Params, s: Store, key: Data): (bool, Store) {
    if key !in s.db then (false, s)
    else
      var (ok, disk, scheduled) := RemoveAt(s.seg.disk, s.db[key]);
      var t := s.(seg := s.seg.(disk := disk), clean := if scheduled.Some? then scheduled else s.clean);
      if ok then (true, t.(db := s.db - {key})) else (false, t)
  }

  /** The clean event fires. */
  function CleanStep(s: Store): Store {
    if s.clean.Some? then s.(seg := s.seg.(disk := Deleted(s.seg.disk, s.clean.value)), clean := None) else s
  }

  // ---------------------------------------------------------------- index repair

  /** Byte order, in which the index database keeps its keys. */
  predicate Leq(a: Data, b: Data) {
    a == [] || (b != [] && (a[0] < b[0] || (a[0] == b[0] && Leq(a[1..], b[1..]))))
  }

  lemma LeqTotal(a: Data, b: Data)
    ensures Leq(a, b) || Leq(b, a)
  {
  }

  lemma LeqTransitive(a: Data, b: Data, c: Data)
    requires Leq(a, b) && Leq(b, c)
    ensures Leq(a, c)
  {
  }

  lemma {:induction false} LeqAntisymmetric(a: Data, b: Data)
    requires Leq(a, b) && Leq(b, a)
    ensures a == b
  {
    if a != [] && b != [] {
      LeqAntisymmetric(a[1..], b[1..]);
      assert a == [a[0]] + a[1..] && b == [b[0]] + b[1..];
    }
  }

  predicate IsLastKey(keys: set<Data>, key: Data) {
    key in keys && forall other :: other in keys ==> Leq(other, key)
  }

  /** A set of keys that is not empty has one greatest key. */
  lemma {:induction false} LastKeyExists(keys: set<Data>)
    requires keys != {}
    ensures exists key :: IsLastKey(keys, key)
    ensures forall a, b :: IsLastKey(keys, a) && IsLastKey(keys, b) ==> a == b
  {
    var x :| x in keys;
    LeqTotal(x, x);
    if keys == {x} {
      assert IsLastKey(keys, x);
    } else {
      LastKeyExists(keys - {x});
      var y :| IsLastKey(keys - {x}, y);
      LeqTotal(x, y);
      if Leq(x, y) {
        assert IsLastKey(keys, y);
      } else {
        forall other | other in keys ensures Leq(other, x) {
          if other != x {
            LeqTransitive(other, y, x);
          }
        }
        assert IsLastKey(keys, x);
      }
    }
    forall a, b | IsLastKey(keys, a) && IsLastKey(keys, b) ensures a == b {
      LeqAntisymmetric(a, b);
    }
  }

  /** `SeekToLast`. */
  ghost function LastKey(db: IndexDb): (key: Data)
    requires db != map[]
    ensures key in db && IsLastKey(db.Keys, key)
  {
    LastKeyExists(db.Keys);
    var key :| IsLastKey(db.Keys, key);
    key
  }

  /** Up to `i` the keys agree, and there `a` ends or has the smaller byte. */
  predicate SmallerFrom(a: Data, b: Data, i: nat) {
    i <= |a| && i <= |b| && a[..i] == b[..i] && (i == |a| || (i < |b| && a[i] < b[i]))
  }

  lemma {:induction false} LeqAtFirstDifference(a: Data, b: Data)
    ensures Leq(a, b) <==> exists i :: SmallerFrom(a, b, i)
  {
    if a == [] {
      assert SmallerFrom(a, b, 0);
    } else if b != [] {
      LeqAtFirstDifference(a[1..], b[1..]);
      if i: nat :| SmallerFrom(a[1..], b[1..], i) && a[0] == b[0] {
        SmallerBehind(a, b, i);
      }
      if i: nat :| SmallerFrom(a, b, i) && i > 0 {
        SmallerBefore(a, b, i - 1);
      }
      if a[0] < b[0] {
        assert SmallerFrom(a, b, 0);
      }
    }
  }

  lemma SmallerBehind(a: Data, b: Data, i: nat)
    requires a != [] && b != [] && a[0] == b[0] && SmallerFrom(a[1..], b[1..], i)
    ensures SmallerFrom(a, b, i + 1)
  {
    assert a[..i + 1] == [a[0]] + a[1..][..i] && b[..i + 1] == [b[0]] + b[1..][..i];
  }

  lemma SmallerBefore(a: Data, b: Data, i: nat)
    requires a != [] && b != [] && SmallerFrom(a, b, i + 1)
    ensures a[0] == b[0] && SmallerFrom(a[1..], b[1..], i)
  {
    assert a[0] == a[..i + 1][0] && b[0] == b[..i + 1][0];
    assert a[1..][..i] == a[..i + 1][1..] && b[1..][..i] == b[..i + 1][1..];
  }

  /** Repair starts at the greatest key: no other has the greater byte where the two first differ. */
  lemma LastKeyIsGreatest(db: IndexDb, key: Data)
    requires key in db
    ensures exists i :: SmallerFrom(key, LastKey(db), i)
  {
    LeqAtFirstDifference(key, LastKey(db));
  }

  /** The number of segment files from a segment on. */
  ghost function Ahead(files: map<nat, Data>, segment: nat): nat {
    |set j | j in files && j >= segment|
  }

  lemma AheadDrops(files: map<nat, Data>, segment: nat)
    requires segment in files
    ensures Ahead(files, segment + 1) < Ahead(files, segment)
  {
    var later := set j | j in files && j >= segment + 1;
    assert (set j | j in files && j >= segment) == later + {segment};
  }

  /** A record that replay finds ends within its file, behind where it starts. */
  lemma ReplayAdvances(p: Params, files: map<nat, Data>, segment: nat, offset: nat)
    requires Small(files)
    ensures var result := ReplayLog(files, p.crc, p.keyLength, segment, offset).result;
      && (result > 0 ==> segment in files && offset < result <= |files[segment]|)
      && (result < 0 <==> segment !in files)
  {
  }

  /** The loop of `AlignIndexWithSegmentStore`: replay into the index until a segment is missing. */
  ghost function AlignFrom(p: Params, files: map<nat, Data>, db: IndexDb, segment: nat, offset: nat): IndexDb
    requires Small(files)
    decreases Ahead(files, segment), if segment in files && offset <= |files[segment]| then |files[segment]| - offset else 0
  {
    var replay := ReplayLog(files, p.crc, p.keyLength, segment, offset);
    ReplayAdvances(p, files, segment, offset);
    if replay.result < 0 then db
    else if replay.result == 0 then
      AheadDrops(files, segment);
      AlignFrom(p, files, db, segment + 1, 0)
    else AlignFrom(p, files, db[replay.key := replay.index], segment, replay.result)
  }

  /** That loop, stopped after a number of index writes. */
  ghost function AlignPart(p: Params, files: map<nat, Data>, db: IndexDb, segment: nat, offset: nat, puts: nat): IndexDb
    requires Small(files)
    decreases Ahead(files, segment), if segment in files && offset <= |files[segment]| then |files[segment]| - offset else 0
  {
    var replay := ReplayLog(files, p.crc, p.keyLength, segment, offset);
    ReplayAdvances(p, files, segment, offset);
    if puts == 0 || replay.result < 0 then db
    else if replay.result == 0 then
      AheadDrops(files, segment);
      AlignPart(p, files, db, segment + 1, 0, puts)
    else AlignPart(p, files, db[replay.key := replay.index], segment, replay.result, puts - 1)
  }

  /** `AlignIndexWithSegmentStore`: it fails if the index is ahead of the log, and does nothing if it is empty. */
  ghost function Aligned(p: Params, seg: State, db: IndexDb): Option<IndexDb>
    requires Small(seg.disk.files)
  {
    if db == map[] then Some(db)
    else
      var at := ParseIndex(db[LastKey(db)]);
      if seg.cur < at.segment then None
      else Some(AlignFrom(p, seg.disk.files, db, at.segment, at.offset))
  }

  /** What the index holds when it dies after a number of index writes. */
  ghost function AlignedPart(p: Params, seg: State, db: IndexDb, puts: nat): IndexDb
    requires Small(seg.disk.files)
  {
    if db == map[] then db
    else
      var at := ParseIndex(db[LastKey(db)]);
      if seg.cur < at.segment then db else AlignPart(p, seg.disk.files, db, at.segment, at.offset, puts)
  }

  lemma StartedIsSmall(p: Params, disk: Disk)
    requires p.Ok() && Small(disk.files)
    ensures Small(Created(disk, CurrentId(disk)).files) && Small(Ready(p, disk).files)
    ensures Started(p, disk).disk == Ready(p, disk)
  {
  }

  /** A process starts on a disk and an index database: `Init`. */
  ghost function Recovered(p: Params, disk: Disk, db: IndexDb): Option<Store>
    requires p.Ok() && Small(disk.files)
  {
    StartedIsSmall(p, disk);
    var seg := Started(p, disk);
    if !ChecksumOk(p.crc, disk) || Aligned(p, seg, db).None? then None
    else Some(Store(seg, Aligned(p, seg, db).value, None))
  }

  /**
    Start-up gets through exactly if the checksum in the metadata is that of the segment id, and the index does not name
    a segment behind the current one.
    */
  lemma StartsIff(p: Params, disk: Disk, db: IndexDb)
    requires p.Ok() && Small(disk.files)
    ensures Recovered(p, disk, db).Some? <==>
      && (disk.meta.Some? ==> disk.meta.value.sum == p.crc(Encode(disk.meta.value.id, SEGMENT_BYTES)))
      && (db != map[] ==>
            ParseIndex(db[LastKey(db)]).segment <= if disk.meta.Some? then disk.meta.value.id else 0)
  {
  }

  /** What survives a crash. */
  datatype Durable = Durable(disk: Disk, db: IndexDb)

  /**
    What `Init` leaves when it dies after a number of its durable calls: the segment file created, the file padded,
    then one index write a record. Calls that find nothing to do count as well.
    */
  ghost function DiedStarting(p: Params, was: Durable, calls: nat): (now: Durable)
    requires p.Ok() && Small(was.disk.files)
    ensures Small(now.disk.files)
  {
    StartedIsSmall(p, was.disk);
    if calls == 0 || !ChecksumOk(p.crc, was.disk) then was
    else if calls == 1 then was.(disk := Created(was.disk, CurrentId(was.disk)))
    else Durable(Ready(p, was.disk), AlignedPart(p, Started(p, was.disk), was.db, calls - 2))
  }

  /** What is left when one start-up after the other dies. */
  ghost function DiedOften(p: Params, was: Durable, dies: seq<nat>): (now: Durable)
    requires p.Ok() && Small(was.disk.files)
    ensures Small(now.disk.files)
  {
    if dies == [] then was else DiedStarting(p, DiedOften(p, was, dies[..|dies| - 1]), dies[|dies| - 1])
  }

  /** One turn of the repair loop. */
  lemma AlignTurn(p: Params, files: map<nat, Data>, db: IndexDb, segment: nat, offset: nat)
    requires Small(files)
    ensures var replay := ReplayLog(files, p.crc, p.keyLength, segment, offset);
      && (replay.result < 0 ==> AlignFrom(p, files, db, segment, offset) == db)
      && (replay.result == 0 ==>
            && Ahead(files, segment + 1) < Ahead(files, segment)
            && AlignFrom(p, files, db, segment, offset) == AlignFrom(p, files, db, segment + 1, 0))
      && (replay.result > 0 ==>
            && segment in files && offset < replay.result <= |files[segment]|
            && |replay.index| == SEGMENT_BYTES + OFFSET_BYTES + CHECKSUM_BYTES
            && AlignFrom(p, files, db, segment, offset) ==
               AlignFrom(p, files, db[replay.key := replay.index], segment, replay.result))
  {
    ReplayAdvances(p, files, segment, offset);
    if segment in files {
      AheadDrops(files, segment);
    }
  }

  /** One turn of the repair loop that may be stopped. */
  lemma AlignPartTurn(p: Params, files: map<nat, Data>, db: IndexDb, segment: nat, offset: nat, puts: nat)
    requires Small(files)
    ensures var replay := ReplayLog(files, p.crc, p.keyLength, segment, offset);
      && (puts == 0 || replay.result < 0 ==> AlignPart(p, files, db, segment, offset, puts) == db)
      && (puts > 0 && replay.result == 0 ==>
            AlignPart(p, files, db, segment, offset, puts) == AlignPart(p, files, db, segment + 1, 0, puts))
      && (puts > 0 && replay.result > 0 ==>
            && |replay.index| == SEGMENT_BYTES + OFFSET_BYTES + CHECKSUM_BYTES
            && AlignPart(p, files, db, segment, offset, puts) ==
               AlignPart(p, files, db[replay.key := replay.index], segment, replay.result, puts - 1))
  {
    ReplayAdvances(p, files, segment, offset);
    if segment in files {
      AheadDrops(files, segment);
    }
  }

  /** The loop that has written `n` times goes on from here as one that starts here. */
  ghost predicate Continued(p: Params, files: map<nat, Data>, was: IndexDb, fromSegment: nat, fromOffset: nat, n: nat,
                            db: IndexDb, segment: nat, offset: nat)
    requires Small(files)
  {
    forall k: nat {:trigger AlignPart(p, files, db, segment, offset, k)} ::
      AlignPart(p, files, was, fromSegment, fromOffset, n + k) == AlignPart(p, files, db, segment, offset, k)
  }

  lemma ContinuesAtStart(p: Params, files: map<nat, Data>, was: IndexDb, fromSegment: nat, fromOffset: nat)
    requires Small(files)
    ensures Continued(p, files, was, fromSegment, fromOffset, 0, was, fromSegment, fromOffset)
  {
  }

  lemma NextSegmentContinues(p: Params, files: map<nat, Data>, was: IndexDb, fromSegment: nat, fromOffset: nat, n: nat,
                             db: IndexDb, segment: nat, offset: nat)
    requires Small(files) && ReplayLog(files, p.crc, p.keyLength, segment, offset).result == 0
    requires Continued(p, files, was, fromSegment, fromOffset, n, db, segment, offset)
    ensures Continued(p, files, was, fromSegment, fromOffset, n, db, segment + 1, 0)
  {
    hide AlignPart, ReplayLog;
    var next := segment + 1;
    forall k: nat
      ensures AlignPart(p, files, was, fromSegment, fromOffset, n + k) == AlignPart(p, files, db, next, 0, k)
    {
      AlignPartTurn(p, files, db, segment, offset, k);
      AlignPartTurn(p, files, db, next, 0, 0);
    }
  }

  lemma NextRecordContinues(p: Params, files: map<nat, Data>, was: IndexDb, fromSegment: nat, fromOffset: nat, n: nat,
                            db: IndexDb, segment: nat, offset: nat)
    requires Small(files) && ReplayLog(files, p.crc, p.keyLength, segment, offset).result > 0
    requires Continued(p, files, was, fromSegment, fromOffset, n, db, segment, offset)
    ensures var replay := ReplayLog(files, p.crc, p.keyLength, segment, offset);
      && |replay.index| == SEGMENT_BYTES + OFFSET_BYTES + CHECKSUM_BYTES
      && Continued(p, files, was, fromSegment, fromOffset, n + 1, db[replay.key := replay.index], segment, replay.result)
      && AlignPart(p, files, was, fromSegment, fromOffset, n + 1) == db[replay.key := replay.index]
  {
    hide AlignPart, ReplayLog;
    var replay := ReplayLog(files, p.crc, p.keyLength, segment, offset);
    AlignPartTurn(p, files, db, segment, offset, 1);
    var after := db[replay.key := replay.index];
    AlignPartTurn(p, files, after, segment, replay.result, 0);
    forall k: nat
      ensures AlignPart(p, files, was, fromSegment, fromOffset, n + 1 + k) ==
              AlignPart(p, files, after, segment, replay.result, k)
    {
      AlignPartTurn(p, files, db, segment, offset, k + 1);
      assert n + 1 + k == n + (k + 1);
    }
  }

  lemma IsTheLastKey(db: IndexDb, key: Data)
    requires db != map[] && IsLastKey(db.Keys, key)
    ensures key == LastKey(db)
  {
    LastKeyExists(db.Keys);
  }

  // ---------------------------------------------------------------- the class

  /** `DataBaseLogStorage`. */
  class DataBaseLogStorage {
    const segments: LogSegmentStore
    var db: IndexDb
    /** The index after every write of the repair. */
    ghost var repairs: seq<IndexDb>

    ghost function Value(): Store
      reads this, segments
    {
      Store(segments.Value(), db, segments.clean)
    }

    /** A process that has just started on a disk and an index database. */
    constructor (segments: LogSegmentStore, db: IndexDb)
      ensures this.segments == segments && this.db == db && repairs == []
    {
      this.segments, this.db, repairs := segments, db, [];
    }

    /** `Init`. Whichever of its durable calls it dies after, what is left is what `DiedStarting` says. */
    method Init() returns (ok: bool)
      requires segments.p.Ok() && Small(segments.files) && segments.clean == None && repairs == []
      modifies this, segments
      ensures var recovered := Recovered(segments.p, old(segments.OnDisk()), old(db));
        ok == recovered.Some? && (ok ==> Value() == recovered.value)
      ensures var was := Durable(old(segments.OnDisk()), old(db));
        ok ==>
          && segments.trace == old(segments.trace) +
               [DiedStarting(segments.p, was, 1).disk, DiedStarting(segments.p, was, 2).disk]
          && forall k :: 0 <= k < |repairs| ==>
               Durable(segments.OnDisk(), repairs[k]) == DiedStarting(segments.p, was, 3 + k)
      ensures db == if repairs == [] then old(db) else repairs[|repairs| - 1]
    {
      StartedIsSmall(segments.p, segments.OnDisk());
      ok := segments.Init();
      if ok {
        ok := AlignIndexWithSegmentStore();
      }
    }

    /** `AlignIndexWithSegmentStore`. */
    method AlignIndexWithSegmentStore() returns (ok: bool)
      requires Small(segments.files) && repairs == []
      modifies this`db, this`repairs
      ensures var aligned := Aligned(segments.p, segments.Value(), old(db));
        ok == aligned.Some? && db == if ok then aligned.value else old(db)
      ensures forall k :: 0 <= k < |repairs| ==>
        repairs[k] == AlignedPart(segments.p, segments.Value(), old(db), k + 1)
      ensures db == if repairs == [] then old(db) else repairs[|repairs| - 1]
    {
      if db == map[] {
        return true;
      }
      LastKeyExists(db.Keys);
      var last :| IsLastKey(db.Keys, last);
      IsTheLastKey(db, last);
      var at := ParseIndex(db[last]);
      if segments.cur < at.segment {
        return false;
      }
      AlignLoop(at.segment, at.offset);
      return true;
    }

    /** Its loop: replay record by record, segment by segment, until a segment is missing. */
    method AlignLoop(fromSegment: nat, fromOffset: nat)
      requires Small(segments.files) && repairs == []
      modifies this`db, this`repairs
      ensures db == AlignFrom(segments.p, segments.files, old(db), fromSegment, fromOffset)
      ensures forall k :: 0 <= k < |repairs| ==>
        repairs[k] == AlignPart(segments.p, segments.files, old(db), fromSegment, fromOffset, k + 1)
      ensures db == if repairs == [] then old(db) else repairs[|repairs| - 1]
    {
      hide AlignFrom, AlignPart, ReplayLog, Continued, Ahead;
      var segment: nat, offset: nat := fromSegment, fromOffset;
      var p, files := segments.p, segments.files;
      ContinuesAtStart(p, files, db, fromSegment, fromOffset);
      while true
        invariant files == segments.files
        invariant db == if repairs == [] then old(db) else repairs[|repairs| - 1]
        invariant AlignFrom(p, files, db, segment, offset) == AlignFrom(p, files, old(db), fromSegment, fromOffset)
        invariant Continued(p, files, old(db), fromSegment, fromOffset, |repairs|, db, segment, offset)
        invariant forall k :: 0 <= k < |repairs| ==>
          repairs[k] == AlignPart(p, files, old(db), fromSegment, fromOffset, k + 1)
        decreases Ahead(files, segment), if segment in files && offset <= |files[segment]| then |files[segment]| - offset else 0
      {
        AlignTurn(p, files, db, segment, offset);
        var replay := ReplayLog(files, p.crc, p.keyLength, segment, offset);
        if replay.result == 0 {
          NextSegmentContinues(p, files, old(db), fromSegment, fromOffset, |repairs|, db, segment, offset);
          segment, offset := segment + 1, 0;
        } else if replay.result < 0 {
          return;
        } else {
          NextRecordContinues(p, files, old(db), fromSegment, fromOffset, |repairs|, db, segment, offset);
          db := db[replay.key := replay.index];
          repairs := repairs + [db];
          offset := replay.result;
        }
      }
    }

    /** `Put`. */
    method Put(key: Data, value: Data) returns (done: bool)
      requires |key| >= segments.p.keyLength
      modifies this, segments
      ensures (done, Value()) == PutStep(segments.p, old(Value()), key, value)
    {
      var index;
      done, index := segments.Append(key, value);
      if done {
        db := db[key := index];
      }
    }

    /** `Get`. */
    method Get(key: Data) returns (value: Option<Data>)
      ensures value == GetValue(segments.p, Value(), key)
    {
      if key !in db {
        return None;
      }
      var ok, found, read := segments.Read(db[key]);
      if !ok || found != key {
        return None;
      }
      return Some(read);
    }

    /** `Delete`. */
    method Delete(key: Data) returns (done: bool)
      modifies this, segments
      ensures (done, Value()) == DeleteStep(segments.p, old(Value()), key)
    {
      if key !in db {
        return false;
      }
      done := segments.RemoveAsync(db[key]);
      if done {
        db := db - {key};
      }
    }

    /** The clean event fires. */
    method Clean()
      modifies segments
      ensures Value() == CleanStep(old(Value()))
    {
      segments.CleanTurn();
    }
  }
}
