/** The repair of the index at start-up gives the index of the log, also when start-up itself dies on the way. */
module IndexRepair {
  import opened Basics
  import opened Bytes
  import opened SegmentFormat
  import opened SegmentStore
  import opened LogEntries
  import opened LogStorage

  // ---------------------------------------------------------------- indexes of parts of the log

  lemma IndexesJoin(a: map<Data, Entry>, b: map<Data, Entry>)
    ensures Indexes(a + b) == Indexes(a) + Indexes(b)
  {
  }

  lemma JoinAssociates(a: IndexDb, b: IndexDb, c: IndexDb)
    ensures (a + b) + c == a + (b + c)
  {
  }

  /** The index of the entries from `i` up to (not including) `n`. */
  function IndexOfPart(es: seq<Entry>, i: nat, n: nat): IndexDb
    requires i <= n <= |es|
  {
    Indexes(Latest(es[i..n]))
  }

  lemma EmptyPart(es: seq<Entry>, i: nat)
    requires i <= |es|
    ensures IndexOfPart(es, i, i) == map[]
  {
    assert es[i..i] == [];
  }

  lemma SomeIndexed(es: seq<Entry>, i: nat, n: nat)
    requires i < n <= |es|
    ensures IndexOfPart(es, i, n) != map[]
  {
    var part := es[i..n];
    assert part[|part| - 1].r.key in Indexes(Latest(part));
  }

  /** Two adjacent parts make one. */
  lemma PartsJoin(es: seq<Entry>, i: nat, m: nat, n: nat)
    requires i <= m <= n <= |es|
    ensures IndexOfPart(es, i, n) == IndexOfPart(es, i, m) + IndexOfPart(es, m, n)
  {
    assert es[i..n] == es[i..m] + es[m..n];
    LatestJoin(es[i..m], es[m..n]);
    IndexesJoin(Latest(es[i..m]), Latest(es[m..n]));
  }

  lemma PartOfOne(es: seq<Entry>, i: nat)
    requires i < |es|
    ensures IndexOfPart(es, i, i + 1) == map[es[i].r.key := es[i].index]
  {
    var one := es[i..i + 1];
    assert one == [es[i]] && one[..0] == [];
    assert Latest(one[..0]) == map[];
  }

  /** Writing one entry and then those behind it is writing them all. */
  lemma PartFromFirst(es: seq<Entry>, db: IndexDb, i: nat, n: nat)
    requires i < n <= |es|
    ensures db[es[i].r.key := es[i].index] + IndexOfPart(es, i + 1, n) == db + IndexOfPart(es, i, n)
  {
    hide IndexOfPart;
    PartsJoin(es, i, i + 1, n);
    PartOfOne(es, i);
    assert db[es[i].r.key := es[i].index] == db + IndexOfPart(es, i, i + 1);
    JoinAssociates(db, IndexOfPart(es, i, i + 1), IndexOfPart(es, i + 1, n));
  }

  /** Folding on from inside what was folded already gives the fold of the whole. */
  lemma RefoldPart(es: seq<Entry>, d: nat, i: nat, m: nat, n: nat)
    requires d <= i <= m <= n <= |es|
    ensures IndexOfPart(es, d, m) + IndexOfPart(es, i, n) == IndexOfPart(es, d, n)
  {
    hide IndexOfPart;
    PartsJoin(es, d, i, m);
    PartsJoin(es, i, m, n);
    PartsJoin(es, d, m, n);
    RefoldMaps(IndexOfPart(es, d, i), IndexOfPart(es, i, m), IndexOfPart(es, m, n));
  }

  lemma RefoldMaps(a: IndexDb, b: IndexDb, c: IndexDb)
    ensures (a + b) + (b + c) == (a + b) + c
  {
  }

  /** An indexed key has an entry in the part, whose index is the one stored. */
  lemma PartHolds(es: seq<Entry>, i: nat, n: nat, key: Data) returns (at: nat)
    requires i <= n <= |es| && key in IndexOfPart(es, i, n)
    ensures i <= at < n && es[at].r.key == key && IndexOfPart(es, i, n)[key] == es[at].index
    ensures Latest(es[i..n])[key] == es[at]
  {
    var k := LatestIsLast(es[i..n], key);
    at := i + k;
  }

  lemma PartHasKey(es: seq<Entry>, i: nat, n: nat, at: nat)
    requires i <= at < n <= |es|
    ensures es[at].r.key in IndexOfPart(es, i, n)
  {
    var part := es[i..n];
    assert part[at - i] == es[at];
    var k := LatestIsLast(part, es[at].r.key);
  }

  // ---------------------------------------------------------------- from a position of the log on

  /** The segment files from `j` on are all there. */
  ghost predicate Unbroken(files: map<nat, Data>, segs: seq<seq<Record>>, j: nat) {
    forall m :: j <= m < |segs| ==> m in files
  }

  function OffsetAt(segs: seq<seq<Record>>, j: nat, k: nat): nat
    requires Position(segs, j, k)
  {
    if j == |segs| then 0 else OffsetOf(segs[j], k)
  }

  /** What replay reports at a record of the log is its entry. */
  lemma ReplayFindsEntry(p: Params, disk: Disk, segs: seq<seq<Record>>, j: nat, k: nat)
    requires p.Ok() && Layout(p, disk, segs) && j < |segs| && k < |segs[j]|
    ensures var replay, e := ReplayLog(disk.files, p.crc, p.keyLength, j, OffsetOf(segs[j], k)), EntryAt(p, segs, j, k);
      replay == Replay(OffsetOf(segs[j], k + 1), e.r.key, e.index) && replay.result > 0
  {
    assert SegmentOk(p, disk.files, j, segs[j]);
    assert segs[j][k] in segs[j] && Fits(segs[j][k], p.keyLength, p.maxSize);
    ReplayFindsRecord(disk.files, p.crc, p.keyLength, j, segs[j], k);
    OffsetNext(segs[j], k);
  }

  lemma ReplayFindsSegmentEnd(p: Params, disk: Disk, segs: seq<seq<Record>>, j: nat)
    requires Layout(p, disk, segs) && j < |segs| && j in disk.files
    ensures ReplayLog(disk.files, p.crc, p.keyLength, j, OffsetOf(segs[j], |segs[j]|)).result == 0
  {
    assert SegmentOk(p, disk.files, j, segs[j]);
    assert segs[j][..|segs[j]|] == segs[j];
    ReplayFindsEnd(disk.files, p.crc, p.keyLength, j, segs[j]);
  }

  /**
    Repair from a position of the log adds all entries that follow; stopped after a number of index writes, it has
    added the first `m` of them.
    */
  ghost predicate Aligns(p: Params, files: map<nat, Data>, segs: seq<seq<Record>>, db: IndexDb,
                         j: nat, k: nat, puts: nat, m: nat)
    requires Small(files) && Position(segs, j, k)
  {
    var es, b, at := Entries(p, segs), Before(segs, j) + k, OffsetAt(segs, j, k);
    && b + m <= |es|
    && AlignPart(p, files, db, j, at, puts) == db + IndexOfPart(es, b, b + m)
    && AlignFrom(p, files, db, j, at) == db + IndexOfPart(es, b, |es|)
  }

  lemma AlignsBehind(p: Params, disk: Disk, segs: seq<seq<Record>>, db: IndexDb, puts: nat)
    requires Layout(p, disk, segs) && Small(disk.files)
    ensures Aligns(p, disk.files, segs, db, |segs|, 0, puts, 0)
  {
    hide Entries, IndexOfPart, AlignPart, AlignFrom;
    EntriesSize(p, segs);
    EmptyPart(Entries(p, segs), |Entries(p, segs)|);
    AlignTurn(p, disk.files, db, |segs|, 0);
    AlignPartTurn(p, disk.files, db, |segs|, 0, puts);
  }

  /** Stopped before the first write, nothing was added. */
  lemma AlignsStopped(p: Params, files: map<nat, Data>, segs: seq<seq<Record>>, db: IndexDb, j: nat, k: nat,
                      puts: nat, m: nat)
    requires Small(files) && Position(segs, j, k) && Aligns(p, files, segs, db, j, k, puts, m)
    ensures Aligns(p, files, segs, db, j, k, 0, 0)
  {
    hide Entries, IndexOfPart, AlignPart, AlignFrom, ReplayLog;
    EmptyPart(Entries(p, segs), Before(segs, j) + k);
    AlignPartTurn(p, files, db, j, OffsetAt(segs, j, k), 0);
  }

  lemma AlignsAtEnd(p: Params, disk: Disk, segs: seq<seq<Record>>, db: IndexDb, j: nat, puts: nat, m: nat)
    requires Layout(p, disk, segs) && Small(disk.files) && j < |segs| && j in disk.files && puts > 0
    requires Aligns(p, disk.files, segs, db, j + 1, 0, puts, m)
    ensures Aligns(p, disk.files, segs, db, j, |segs[j]|, puts, m)
  {
    hide Layout, Entries, IndexOfPart, AlignPart, AlignFrom, ReplayLog;
    ReplayFindsSegmentEnd(p, disk, segs, j);
    AlignTurn(p, disk.files, db, j, OffsetOf(segs[j], |segs[j]|));
    AlignPartTurn(p, disk.files, db, j, OffsetOf(segs[j], |segs[j]|), puts);
  }

  lemma AlignsAtRecord(p: Params, disk: Disk, segs: seq<seq<Record>>, db: IndexDb, j: nat, k: nat, puts: nat, m: nat)
    requires p.Ok() && Layout(p, disk, segs) && Small(disk.files) && j < |segs| && k < |segs[j]| && puts > 0
    requires var e := EntryAt(p, segs, j, k);
      Aligns(p, disk.files, segs, db[e.r.key := e.index], j, k + 1, puts - 1, m)
    ensures Aligns(p, disk.files, segs, db, j, k, puts, m + 1)
  {
    hide Layout, Entries, IndexOfPart, AlignPart, AlignFrom, ReplayLog, IndexAt;
    var es, b := Entries(p, segs), Before(segs, j) + k;
    EntryFound(p, segs, j, k);
    ReplayFindsEntry(p, disk, segs, j, k);
    AlignTurn(p, disk.files, db, j, OffsetOf(segs[j], k));
    AlignPartTurn(p, disk.files, db, j, OffsetOf(segs[j], k), puts);
    PartFromFirst(es, db, b, |es|);
    PartFromFirst(es, db, b, b + 1 + m);
  }

  /** Repair works from any position of the log, across all segments that follow, and may be stopped anywhere. */
  lemma {:induction false} AlignFromPosition(p: Params, disk: Disk, segs: seq<seq<Record>>, db: IndexDb,
                                             j: nat, k: nat, puts: nat)
    returns (m: nat)
    requires p.Ok() && Layout(p, disk, segs) && Small(disk.files)
    requires Position(segs, j, k) && Unbroken(disk.files, segs, j)
    ensures Aligns(p, disk.files, segs, db, j, k, puts, m)
    decreases |segs| - j, if j < |segs| then |segs[j]| - k else 0, puts == 0
  {
    hide Layout, Aligns, Small;
    if j == |segs| {
      m := 0;
      AlignsBehind(p, disk, segs, db, puts);
    } else if puts == 0 {
      m := AlignFromPosition(p, disk, segs, db, j, k, 1);
      AlignsStopped(p, disk.files, segs, db, j, k, 1, m);
      m := 0;
    } else if k == |segs[j]| {
      m := AlignFromPosition(p, disk, segs, db, j + 1, 0, puts);
      AlignsAtEnd(p, disk, segs, db, j, puts, m);
    } else {
      var e := EntryAt(p, segs, j, k);
      m := AlignFromPosition(p, disk, segs, db[e.r.key := e.index], j, k + 1, puts - 1);
      AlignsAtRecord(p, disk, segs, db, j, k, puts, m);
      m := m + 1;
    }
  }

  // ---------------------------------------------------------------- what repair can start from

  /** No closed segment from the record `d` on is missing. */
  predicate Complete(files: map<nat, Data>, segs: seq<seq<Record>>, d: nat) {
    forall j :: 0 <= j < |segs| - 1 && j !in files ==> Before(segs, j + 1) <= d
  }

  lemma UnbrokenFrom(files: map<nat, Data>, segs: seq<seq<Record>>, d: nat, j: nat, k: nat)
    requires Complete(files, segs, d) && j < |segs| && k < |segs[j]| && d <= Before(segs, j) + k
    requires |segs| - 1 in files
    ensures Unbroken(files, segs, j)
  {
    forall m | j <= m < |segs| ensures m in files {
      if m < |segs| - 1 {
        BeforeRises(segs, j + 1, m + 1);
      }
    }
  }

  /**
    The greatest key points to the record of entry `i`, and writing the entries from there on gives the index of
    all entries from `d` on. Other keys may be behind or ahead of each other, as an interrupted repair leaves them.
    */
  ghost predicate RepairedFrom(es: seq<Entry>, db: IndexDb, d: nat, i: nat) {
    && db != map[] && d <= i < |es|
    && es[i].r.key == LastKey(db) && db[LastKey(db)] == es[i].index
    && db + IndexOfPart(es, i, |es|) == IndexOfPart(es, d, |es|)
  }

  /** An index from which repair finds the entries from `d` on, or which is empty. */
  ghost predicate Repairable(es: seq<Entry>, db: IndexDb, d: nat) {
    d <= |es| && (db == map[] || exists i :: RepairedFrom(es, db, d, i))
  }

  /** The index of the first entries behind `d`, up to any point, can be repaired. */
  lemma PartIsRepairable(es: seq<Entry>, d: nat, n: nat)
    requires d <= n <= |es|
    ensures Repairable(es, IndexOfPart(es, d, n), d) && (IndexOfPart(es, d, n) == map[] <==> d == n)
  {
    var db := IndexOfPart(es, d, n);
    if d == n {
      EmptyPart(es, d);
    } else {
      SomeIndexed(es, d, n);
      var i := PartHolds(es, d, n, LastKey(db));
      RefoldPart(es, d, i, n, |es|);
      assert RepairedFrom(es, db, d, i);
    }
  }

  /** So can the index of a repair that was interrupted. */
  lemma InterruptedIsRepairable(es: seq<Entry>, db: IndexDb, d: nat, i: nat, m: nat)
    requires RepairedFrom(es, db, d, i) && i + m <= |es|
    ensures var after := db + IndexOfPart(es, i, i + m); after != map[] && Repairable(es, after, d)
  {
    hide IndexOfPart, LastKey, IsLastKey;
    var part := IndexOfPart(es, i, i + m);
    var after := db + part;
    assert LastKey(db) in after;
    var last := LastKey(after);
    if last in part {
      var at := PartHolds(es, i, i + m, last);
      RefoldPart(es, i, at, i + m, |es|);
      JoinAssociates(db, part, IndexOfPart(es, at, |es|));
      assert RepairedFrom(es, after, d, at);
    } else {
      StaysLast(db, after);
      if m > 0 {
        PartHasKey(es, i, i + m, i);
      }
      EmptyPart(es, i);
      assert after == db;
      assert RepairedFrom(es, after, d, i);
    }
  }

  /** The greatest key of a larger index, if it is in the smaller one, is the greatest there. */
  lemma StaysLast(db: IndexDb, after: IndexDb)
    requires db != map[] && after != map[] && db.Keys <= after.Keys && LastKey(after) in db
    ensures LastKey(after) == LastKey(db)
  {
    assert IsLastKey(db.Keys, LastKey(after));
    IsTheLastKey(db, LastKey(after));
  }

  /** Where repair starts: the record of the greatest key. */
  lemma RepairStarts(p: Params, seg: State, db: IndexDb, segs: seq<seq<Record>>, d: nat, i: nat) returns (j: nat, k: nat)
    requires Running(p, seg, segs) && Complete(seg.disk.files, segs, d) && seg.cur in seg.disk.files
    requires RepairedFrom(Entries(p, segs), db, d, i)
    ensures j < |segs| && k < |segs[j]| && Before(segs, j) + k == i && Unbroken(seg.disk.files, segs, j)
    ensures var at := ParseIndex(db[LastKey(db)]);
      at.segment == j <= seg.cur && at.offset == OffsetAt(segs, j, k)
  {
    hide Entries, Latest, Complete, Unbroken, ParseIndex, Index, IndexOfPart;
    j, k := Locate(p, segs, i);
    IndexedRecord(p, seg.disk, segs, j, k);
    UnbrokenFrom(seg.disk.files, segs, d, j, k);
  }

  /**
    INDEX REPAIR EQUALS REBUILD. From every repairable index that is not empty, `AlignIndexWithSegmentStore`
    succeeds and leaves the index of the log; stopped after any number of index writes, it leaves a repairable one.
    Keys may come in any order: whichever record the greatest key was last put in, replaying from it reaches every
    record that is not indexed as it should be.
    */
  lemma AlignRepairs(p: Params, seg: State, db: IndexDb, segs: seq<seq<Record>>, d: nat, puts: nat)
    requires Running(p, seg, segs) && Small(seg.disk.files) && Complete(seg.disk.files, segs, d)
    requires seg.cur in seg.disk.files && Repairable(Entries(p, segs), db, d) && db != map[]
    ensures Aligned(p, seg, db) == Some(IndexOfPart(Entries(p, segs), d, |Entries(p, segs)|))
    ensures AlignedPart(p, seg, db, puts) != map[] && Repairable(Entries(p, segs), AlignedPart(p, seg, db, puts), d)
  {
    hide Layout, Entries, Complete, Unbroken, IndexOfPart, ParseIndex, AlignFrom, AlignPart;
    var es := Entries(p, segs);
    var i :| RepairedFrom(es, db, d, i);
    var j, k := RepairStarts(p, seg, db, segs, d, i);
    var m := AlignFromPosition(p, seg.disk, segs, db, j, k, puts);
    InterruptedIsRepairable(es, db, d, i, m);
  }

  /**
    In particular: if the index holds the entries of the records up to any point, with at least one of them, repair
    leaves the index of the whole log.
    */
  lemma AlignEqualsRebuild(p: Params, seg: State, segs: seq<seq<Record>>, d: nat, n: nat)
    requires Running(p, seg, segs) && Small(seg.disk.files) && Complete(seg.disk.files, segs, d)
    requires d < n <= |Entries(p, segs)| && seg.cur in seg.disk.files
    ensures Aligned(p, seg, IndexOfPart(Entries(p, segs), d, n)) ==
            Some(IndexOfPart(Entries(p, segs), d, |Entries(p, segs)|))
  {
    PartIsRepairable(Entries(p, segs), d, n);
    AlignRepairs(p, seg, IndexOfPart(Entries(p, segs), d, n), segs, d, 0);
  }

  /** An empty index stays empty. Repair rebuilds the index exactly if it holds something, or there is nothing to hold. */
  lemma AlignRebuildsIff(p: Params, seg: State, db: IndexDb, segs: seq<seq<Record>>, d: nat)
    requires Running(p, seg, segs) && Small(seg.disk.files) && Complete(seg.disk.files, segs, d)
    requires seg.cur in seg.disk.files && Repairable(Entries(p, segs), db, d)
    ensures Aligned(p, seg, db) == Some(IndexOfPart(Entries(p, segs), d, |Entries(p, segs)|)) <==>
            (db != map[] || d == |Entries(p, segs)|)
  {
    var es := Entries(p, segs);
    if db != map[] {
      AlignRepairs(p, seg, db, segs, d, 0);
    } else if d < |es| {
      SomeIndexed(es, d, |es|);
    } else {
      EmptyPart(es, d);
    }
  }

  // ---------------------------------------------------------------- start-ups that die

  /** What a crash leaves can be recovered: nothing behind `d` is missing, and the index can be repaired. */
  ghost predicate Recoverable(p: Params, was: Durable, segs: seq<seq<Record>>, d: nat) {
    && p.Ok() && Layout(p, was.disk, segs) && CurrentId(was.disk) < INT_LIMIT
    && Complete(was.disk.files, segs, d)
    && Repairable(Entries(p, segs), was.db, d)
  }

  lemma MoreFilesComplete(files: map<nat, Data>, segs: seq<seq<Record>>, d: nat, more: map<nat, Data>)
    requires Complete(files, segs, d) && files.Keys <= more.Keys
    ensures Complete(more, segs, d)
  {
  }

  /** The disk of a start-up, whichever of its calls it dies after, starts as before. */
  lemma ReadyStartsSame(p: Params, disk: Disk, segs: seq<seq<Record>>)
    requires p.Ok() && Layout(p, disk, segs) && CurrentId(disk) < INT_LIMIT
    ensures Small(disk.files)
    ensures var created, ready := Created(disk, CurrentId(disk)), Ready(p, disk);
      && Layout(p, created, segs) && CurrentId(created) == CurrentId(disk) && disk.files.Keys <= created.files.Keys
      && Layout(p, ready, segs) && CurrentId(ready) == CurrentId(disk) && disk.files.Keys <= ready.files.Keys
      && Small(created.files) && Started(p, created) == Started(p, disk)
      && Small(ready.files) && Started(p, ready) == Started(p, disk)
  {
    hide Layout, Small, Running;
    OpenKeepsLayout(p, disk, segs);
    StartedRuns(p, disk, segs);
    StartedRuns(p, Created(disk, CurrentId(disk)), segs);
    RunningFile(p, Started(p, disk), segs);
    RestartFindsSameState(p, Started(p, disk), segs);
  }

  lemma RunningFile(p: Params, s: State, segs: seq<seq<Record>>)
    requires Running(p, s, segs)
    ensures p.Ok() && Layout(p, s.disk, segs) && s.cur == CurrentId(s.disk)
  {
  }

  lemma LayoutChecksum(p: Params, disk: Disk, segs: seq<seq<Record>>)
    requires Layout(p, disk, segs)
    ensures ChecksumOk(p.crc, disk)
  {
  }

  lemma AlignedPartIsRepairable(p: Params, seg: State, db: IndexDb, segs: seq<seq<Record>>, d: nat, puts: nat)
    requires Running(p, seg, segs) && Small(seg.disk.files) && Complete(seg.disk.files, segs, d)
    requires seg.cur in seg.disk.files && Repairable(Entries(p, segs), db, d)
    ensures var after := AlignedPart(p, seg, db, puts);
      Repairable(Entries(p, segs), after, d) && (after == map[] <==> db == map[])
  {
    hide Running, Entries, Small, Complete, Repairable;
    if db != map[] {
      AlignRepairs(p, seg, db, segs, d, puts);
    }
  }

  /** A start-up that dies leaves what the next one recovers. */
  lemma DeathIsRecoverable(p: Params, was: Durable, segs: seq<seq<Record>>, d: nat, calls: nat)
    requires Recoverable(p, was, segs, d)
    ensures Small(was.disk.files)
    ensures var now := DiedStarting(p, was, calls);
      && Recoverable(p, now, segs, d) && (now.db == map[] <==> was.db == map[])
      && Started(p, now.disk) == Started(p, was.disk)
  {
    hide Layout, Complete, Repairable, Running, Entries, Started, Small, Ready, Created, ChecksumOk, AlignedPart;
    ReadyStartsSame(p, was.disk, segs);
    var seg := Started(p, was.disk);
    StartedRuns(p, was.disk, segs);
    StartedIsSmall(p, was.disk);
    MoreFilesComplete(was.disk.files, segs, d, Created(was.disk, CurrentId(was.disk)).files);
    MoreFilesComplete(was.disk.files, segs, d, seg.disk.files);
    LayoutChecksum(p, was.disk, segs);
    if calls >= 2 {
      AlignedPartIsRepairable(p, seg, was.db, segs, d, calls - 2);
    }
  }

  /** Where a start-up that gets through arrives. */
  lemma RecoveryFinds(p: Params, was: Durable, segs: seq<seq<Record>>, d: nat)
    requires Recoverable(p, was, segs, d)
    ensures p.Ok() && Small(was.disk.files) && Running(p, Started(p, was.disk), segs)
    ensures var es, seg := Entries(p, segs), Started(p, was.disk);
      && d <= |es| && seg.cur in seg.disk.files && Complete(seg.disk.files, segs, d)
      && Recovered(p, was.disk, was.db) ==
         Some(Store(seg, if was.db == map[] then map[] else IndexOfPart(es, d, |es|), None))
  {
    hide Layout, Complete, Running, Entries, Started, IndexOfPart, Small, Ready, Created;
    ReadyStartsSame(p, was.disk, segs);
    var seg := Started(p, was.disk);
    StartedRuns(p, was.disk, segs);
    StartedIsSmall(p, was.disk);
    MoreFilesComplete(was.disk.files, segs, d, seg.disk.files);
    LayoutChecksum(p, was.disk, segs);
    if was.db != map[] {
      AlignRepairs(p, seg, was.db, segs, d, 0);
    }
  }

  /**
    CRASHES DURING RECOVERY. However often start-up dies before it is through, and after whichever of its calls --
    creating the segment file, padding it, or any of the index writes of repair --, the one that gets through
    arrives at the very store an undisturbed one would have.
    */
  lemma {:induction false} DeathsAreHarmless(p: Params, was: Durable, segs: seq<seq<Record>>, d: nat, dies: seq<nat>)
    requires Recoverable(p, was, segs, d)
    ensures p.Ok() && Small(was.disk.files)
    ensures var now := DiedOften(p, was, dies);
      && Recoverable(p, now, segs, d) && (now.db == map[] <==> was.db == map[])
      && Recovered(p, now.disk, now.db) == Recovered(p, was.disk, was.db) != None
  {
    hide Recoverable, Recovered, DiedStarting, Started, Entries, IndexOfPart;
    RecoveryFinds(p, was, segs, d);
    if dies == [] {
    } else {
      var before, calls := DiedOften(p, was, dies[..|dies| - 1]), dies[|dies| - 1];
      DeathsAreHarmless(p, was, segs, d, dies[..|dies| - 1]);
      DeathIsRecoverable(p, before, segs, d, calls);
      RecoveryFinds(p, before, segs, d);
      RecoveryFinds(p, DiedStarting(p, before, calls), segs, d);
    }
  }
}
