/** Histories of the log storage: puts, deletions, clean events, and crashes after any system call. */
module LogHistory {
  import opened Basics
  import opened Bytes
  import opened SegmentFormat
  import opened SegmentStore
  import opened LogEntries
  import opened LogStorage
  import opened IndexRepair
  import opened LogRefinement

  // ---------------------------------------------------------------- the clean event

  lemma {:induction false} BeforeEmptied(segs: seq<seq<Record>>, g: nat, j: nat)
    requires g < |segs| && j <= |segs|
    ensures Before(segs[g := []], j) == if j <= g then Before(segs, j) else Before(segs, j) - |segs[g]|
  {
    if j == 0 {
    } else {
      BeforeEmptied(segs, g, j - 1);
    }
  }

  lemma DeletedLayout(p: Params, s: State, segs: seq<seq<Record>>, d: nat, g: nat)
    requires Running(p, s, segs) && Doomed(s, segs, d, g)
    ensures Running(p, s.(disk := Deleted(s.disk, g)), segs[g := []])
  {
    var e := segs[g := []];
    LayoutFrom(p, s.disk, segs, Deleted(s.disk, g), e, g);
  }

  lemma DeletedComplete(files: map<nat, Data>, segs: seq<seq<Record>>, d: nat, g: nat)
    requires Complete(files, segs, d) && g < |segs| && Before(segs, g + 1) <= d
    ensures Complete(files - {g}, segs[g := []], d - |segs[g]|)
  {
    forall j | 0 <= j < |segs| - 1 && j !in files - {g} ensures Before(segs[g := []], j + 1) <= d - |segs[g]| {
      BeforeEmptied(segs, g, j + 1);
      if j < g {
        BeforeRises(segs, j + 1, g);
      }
    }
  }

  /** Deleting a segment leaves the log as it is. */
  lemma CleanRefines(p: Params, s: Store, segs: seq<seq<Record>>, d: nat) returns (after: seq<seq<Record>>, e: nat)
    requires Valid(p, s, segs, d)
    ensures Valid(p, CleanStep(s), after, e) && LogOf(p, after, e) == LogOf(p, segs, d)
    ensures if s.clean.None? then after == segs && e == d
      else s.clean.value < |segs| && after == segs[s.clean.value := []] && d == e + |segs[s.clean.value]|
  {
    after, e := segs, d;
    if s.clean.Some? {
      var g := s.clean.value;
      after, e := segs[g := []], d - |segs[g]|;
      CleanKeepsValid(p, s, segs, d, g, after, e);
    }
  }

  lemma CleanKeepsValid(p: Params, s: Store, segs: seq<seq<Record>>, d: nat, g: nat, after: seq<seq<Record>>, e: nat)
    requires Valid(p, s, segs, d) && s.clean == Some(g) && g < |segs|
    requires after == segs[g := []] && d == e + |segs[g]|
    ensures Valid(p, CleanStep(s), after, e) && LogOf(p, after, e) == LogOf(p, segs, d)
  {
    hide Running, Entries, IndexOfPart, Complete, LogOf;
    IndexFacts(p, s, segs, d);
    RunningSize(p, s.seg, segs);
    EntriesSize(p, segs);
    DeletedLayout(p, s.seg, segs, d, g);
    DeletedComplete(s.seg.disk.files, segs, d, g);
    LogBehindEmptied(p, segs, d, g);
  }

  lemma LogBehindEmptied(p: Params, segs: seq<seq<Record>>, d: nat, g: nat)
    requires g < |segs| && Before(segs, g + 1) <= d <= |Entries(p, segs)|
    ensures var after := segs[g := []]; var e := d - |segs[g]|;
      && |Entries(p, after)| == |Entries(p, segs)| - |segs[g]|
      && IndexOfPart(Entries(p, after), e, |Entries(p, after)|) == IndexOfPart(Entries(p, segs), d, |Entries(p, segs)|)
      && LogOf(p, after, e) == LogOf(p, segs, d)
  {
    hide Latest, Indexes, RecordsOf, IndexAt;
    var after, e, b := segs[g := []], d - |segs[g]|, Before(segs, g + 1);
    EntriesOfEmptied(p, segs, g, |segs|, 0);
    EntriesToSize(p, segs, g, 0);
    SameTail(EntriesTo(p, segs, g, 0), Entries(p, segs), b, d);
  }

  lemma SameTail(head: seq<Entry>, es: seq<Entry>, b: nat, d: nat)
    requires |head| <= b <= d <= |es|
    ensures var now, e := head + es[b..], d - (b - |head|);
      |now| == |es| - (b - |head|) && now[e..|now|] == es[d..|es|]
  {
  }

  /** `Delete` of the last record of a full segment, and then the clean event. */
  function DeletedAndCleaned(p: Params, s: Store, key: Data): Store {
    CleanStep(DeleteStep(p, s, key).1)
  }

  /**
    Removals out of order: deleting the last record of a full segment keeps every other key readable exactly if none
    that is readable has its record in that segment.
    */
  lemma OutOfOrderStrandsIff(p: Params, s: Store, segs: seq<seq<Record>>, j: nat, k: nat, key: Data)
    requires Running(p, s.seg, segs) && j < |segs| && k == |segs[j]| - 1
    requires key in s.db && s.db[key] == IndexAt(p, segs, j, k)
    requires j in s.seg.disk.files && |s.seg.disk.files[j]| == |Frames(segs[j])|
    ensures (forall other :: other != key ==> GetValue(p, DeletedAndCleaned(p, s, key), other) == GetValue(p, s, other)) <==>
            (forall other :: other in s.db && other != key && ParseIndex(s.db[other]).segment == j ==>
               GetValue(p, s, other) == None)
  {
    hide Running, Frames, IndexAt, ParseIndex, GetValue, DeleteStep, CleanStep;
    DeleteLocated(p, s, segs, j, k, key);
    forall other | other != key
      ensures GetValue(p, DeletedAndCleaned(p, s, key), other) ==
              if other in s.db && ParseIndex(s.db[other]).segment == j then None else GetValue(p, s, other)
    {
      OthersAfterDeletion(p, s, key, j, other);
    }
  }

  /** Where a segment was deleted with a key, another key is lost exactly if its record was in there. */
  lemma OthersAfterDeletion(p: Params, s: Store, key: Data, j: nat, other: Data)
    requires other != key
    ensures GetValue(p, CleanStep(s.(db := s.db - {key}, clean := Some(j))), other) ==
            if other in s.db && ParseIndex(s.db[other]).segment == j then None else GetValue(p, s, other)
  {
    hide ParseIndex;
  }

  /** A second segment scheduled before the clean event fires takes the place of the first. */
  lemma LaterCleanReplacesEarlier(p: Params, s: Store, key: Data)
    requires key in s.db && s.clean.Some? && s.clean.value in s.seg.disk.files
    ensures var t := DeletedAndCleaned(p, s, key);
      s.clean.value in t.seg.disk.files <==>
      RemoveAt(s.seg.disk, s.db[key]).2.Some? && RemoveAt(s.seg.disk, s.db[key]).2 != s.clean
    ensures DeletedAndCleaned(p, s, key).clean == None
  {
  }

  // ---------------------------------------------------------------- crashes

  /** The disk after a number of the system calls of `Put`. */
  function DiskAfter(p: Params, s: State, r: Record, calls: nat): Disk
    requires calls <= |Stages(p, s, r)|
  {
    if calls == 0 then s.disk else Stages(p, s, r)[calls - 1]
  }

  /** Whether a `Put` that dies after these calls has written its record. */
  predicate Wrote(p: Params, s: State, r: Record, calls: nat) {
    calls == |Stages(p, s, r)|
  }

  lemma SurvivorsAdd(p: Params, s: State, segs: seq<seq<Record>>, r: Record, k: nat)
    requires segs != [] && k < |Stages(p, s, r)|
    ensures SameClosed(segs, Survivors(p, s, segs, r, k))
    ensures |Survivors(p, s, segs, r, k)| > |segs| ==> !FitsHere(s, r)
    ensures var g := Survivors(p, s, segs, r, k);
      if Wrote(p, s, r, k + 1) then
        g[|g| - 1] != [] && Entries(p, g) == Entries(p, segs) + [EntryAt(p, g, |g| - 1, |g[|g| - 1]| - 1)]
        && EntryAt(p, g, |g| - 1, |g[|g| - 1]| - 1).r == r
      else Entries(p, g) == Entries(p, segs)
  {
    hide Entries, AppendTo, IndexAt, RolloverStages;
    StagesSize(p, s, r);
    AppendAddsEntry(p, s, segs, r);
    EntriesOfOpened(p, segs);
  }

  lemma StagesSize(p: Params, s: State, r: Record)
    ensures FitsHere(s, r) ==> |Stages(p, s, r)| == 1
  {
  }

  /** What the index holds stays part of the log, whichever call of a `Put` the process dies after. */
  lemma SurvivorsIndexed(p: Params, s: Store, segs: seq<seq<Record>>, d: nat, r: Record, k: nat)
    requires Valid(p, s, segs, d) && k < |Stages(p, s.seg, r)|
    ensures var g := Survivors(p, s.seg, segs, r, k);
      && Complete(Stages(p, s.seg, r)[k].files, g, d)
      && Repairable(Entries(p, g), s.db, d)
  {
    hide Layout, Entries, IndexOfPart, Complete, Repairable, Stages, Survivors, Frame, SameClosed, IndexAt;
    RunningSize(p, s.seg, segs);
    var es, g := Entries(p, segs), Survivors(p, s.seg, segs, r, k);
    SurvivorsAdd(p, s.seg, segs, r, k);
    StagesKeepFiles(p, s.seg, r, k);
    EntriesSize(p, segs);
    SameClosedSizes(segs, g);
    StaysComplete(s.seg.disk.files, segs, d, Stages(p, s.seg, r)[k].files, g);
    PartIsRepairable(Entries(p, g), d, |es|);
    if Wrote(p, s.seg, r, k + 1) {
      SamePart(es, EntryAt(p, g, |g| - 1, |g[|g| - 1]| - 1), d);
    }
  }

  lemma SurvivorsLog(p: Params, s: State, segs: seq<seq<Record>>, d: nat, r: Record, k: nat)
    requires segs != [] && d <= |Entries(p, segs)| && k < |Stages(p, s, r)|
    ensures var g := Survivors(p, s, segs, r, k);
      && d <= |Entries(p, segs)| <= |Entries(p, g)|
      && LogOf(p, g, d) == LogOf(p, segs, d) + (if Wrote(p, s, r, k + 1) then [r] else [])
  {
    hide Entries, Stages, Survivors, IndexAt;
    var g := Survivors(p, s, segs, r, k);
    SurvivorsAdd(p, s, segs, r, k);
    if Wrote(p, s, r, k + 1) {
      FoldOfMore(Entries(p, segs), d, EntryAt(p, g, |g| - 1, |g[|g| - 1]| - 1));
    }
  }

  /** Whichever system call of a `Put` the process dies after, what is left can be recovered. */
  lemma CrashIsRecoverable(p: Params, s: Store, segs: seq<seq<Record>>, d: nat, r: Record, calls: nat)
    returns (g: seq<seq<Record>>)
    requires Valid(p, s, segs, d) && s.seg.cur + 1 < INT_LIMIT
    requires Fits(r, p.keyLength, p.maxSize) && calls <= |Stages(p, s.seg, r)|
    ensures Recoverable(p, Durable(DiskAfter(p, s.seg, r, calls), s.db), g, d)
    ensures LogOf(p, g, d) == LogOf(p, segs, d) + (if Wrote(p, s.seg, r, calls) then [r] else [])
    ensures SameClosed(segs, g) && s.seg.disk.files.Keys <= DiskAfter(p, s.seg, r, calls).files.Keys
  {
    hide Layout, Entries, IndexOfPart, Complete, Repairable, Stages, Survivors, SameClosed, LogOf, CurrentId;
    RunningSize(p, s.seg, segs);
    SomeStages(p, s.seg, r);
    if calls == 0 {
      g := segs;
      PartIsRepairable(Entries(p, segs), d, |Entries(p, segs)|);
      SameAsItself(segs);
    } else {
      g := Survivors(p, s.seg, segs, r, calls - 1);
      AppendIsCrashSafe(p, s.seg, segs, r, calls - 1);
      SurvivorsIndexed(p, s, segs, d, r, calls - 1);
      SurvivorsLog(p, s.seg, segs, d, r, calls - 1);
      SurvivorsAdd(p, s.seg, segs, r, calls - 1);
      StagesKeepFiles(p, s.seg, r, calls - 1);
      SameClosedSizes(segs, g);
      LayoutSize(p, Stages(p, s.seg, r)[calls - 1], g);
    }
  }

  lemma SameAsItself(segs: seq<seq<Record>>)
    requires segs != []
    ensures SameClosed(segs, segs)
  {
  }

  lemma SomeStages(p: Params, s: State, r: Record)
    ensures |Stages(p, s, r)| >= 1
  {
  }

  lemma LayoutSize(p: Params, disk: Disk, segs: seq<seq<Record>>)
    requires Layout(p, disk, segs)
    ensures |segs| == CurrentId(disk) + 1
  {
  }

  /** What survives when a `Put` dies after some of its system calls, and start-ups after it die after some of theirs. */
  ghost function LeftBy(p: Params, s: Store, r: Record, calls: nat, dies: seq<nat>): Durable
    requires p.Ok() && calls <= |Stages(p, s.seg, r)| && Small(DiskAfter(p, s.seg, r, calls).files)
  {
    DiedOften(p, Durable(DiskAfter(p, s.seg, r, calls), s.db), dies)
  }

  /**
    CRASH RECOVERY. Whichever system call of a `Put` the process dies after, and however many start-ups die before
    one gets through, it starts again with the log as it was, or with the record added; the latter exactly if the
    record was written and the index was not empty.
    */
  lemma CrashRefines(p: Params, s: Store, segs: seq<seq<Record>>, d: nat, r: Record, calls: nat, dies: seq<nat>)
    returns (t: Store, g: seq<seq<Record>>, e: nat)
    requires Valid(p, s, segs, d) && s.seg.cur + 1 < INT_LIMIT
    requires Fits(r, p.keyLength, p.maxSize) && calls <= |Stages(p, s.seg, r)|
    ensures p.Ok() && Small(DiskAfter(p, s.seg, r, calls).files)
    ensures var left := LeftBy(p, s, r, calls, dies); Recovered(p, left.disk, left.db) == Some(t)
    ensures Valid(p, t, g, e)
    ensures var log := LogOf(p, segs, d);
      LogOf(p, g, e) == if Wrote(p, s.seg, r, calls) && log != [] then log + [r] else log
    ensures SameClosed(segs, g) && d <= e && s.seg.disk.files.Keys <= t.seg.disk.files.Keys && t.clean == None
  {
    hide Valid, Entries, Recoverable, Recovered, Stages, SameClosed, LogOf, Running, Wrote, DiskAfter, Started;
    g := CrashIsRecoverable(p, s, segs, d, r, calls);
    var was := Durable(DiskAfter(p, s.seg, r, calls), s.db);
    DeathsAreHarmless(p, was, g, d, dies);
    e := RecoveryRefines(p, was, g, d);
    t := Recovered(p, was.disk, was.db).value;
    RecoveredKeepsFiles(p, was, g, d);
    EmptyIndexMeansEmptyLog(p, s, segs, d);
    NothingBehindEnd(p, g);
    RecoverableStart(p, was, g, d);
  }

  lemma RecoverableStart(p: Params, was: Durable, segs: seq<seq<Record>>, d: nat)
    requires Recoverable(p, was, segs, d)
    ensures d <= |Entries(p, segs)|
  {
  }

  lemma RecoveredKeepsFiles(p: Params, was: Durable, segs: seq<seq<Record>>, d: nat)
    requires Recoverable(p, was, segs, d) && p.Ok() && Small(was.disk.files)
    ensures var now := Recovered(p, was.disk, was.db);
      now.Some? && was.disk.files.Keys <= now.value.seg.disk.files.Keys && now.value.clean == None
  {
    RecoveryFinds(p, was, segs, d);
  }

  lemma NothingBehindEnd(p: Params, segs: seq<seq<Record>>)
    ensures LogOf(p, segs, |Entries(p, segs)|) == []
  {
  }

  lemma EmptyIndexMeansEmptyLog(p: Params, s: Store, segs: seq<seq<Record>>, d: nat)
    requires Valid(p, s, segs, d)
    ensures d <= |Entries(p, segs)| && (s.db == map[] <==> LogOf(p, segs, d) == [])
  {
    hide Running, Entries, Latest, Indexes;
    var es := Entries(p, segs);
    if d < |es| {
      SomeIndexed(es, d, |es|);
    } else {
      EmptyPart(es, d);
    }
  }

  // ---------------------------------------------------------------- histories

  datatype Op =
    | Put(r: Record)
    | Delete(key: Data)
    | Clean
    // dies after some of the system calls of a put; the start-ups before the one that gets through die after these calls
    | Crash(r: Record, calls: nat, dies: seq<nat>)

  /** What the source demands: keys of the fixed length, removals in the order of the appends, segment ids that fit. */
  ghost predicate Allowed(p: Params, s: Store, log: seq<Record>, op: Op) {
    && s.seg.cur + 1 < INT_LIMIT
    && match op
       case Put(r) => |r.key| == p.keyLength
       case Delete(key) => MayDelete(log, key)
       case Clean => true
       case Crash(r, calls, _) => Fits(r, p.keyLength, p.maxSize) && calls <= |Stages(p, s.seg, r)|
  }

  ghost predicate Steps(p: Params, s: Store, op: Op, t: Store) {
    match op
    case Put(r) => |r.key| >= p.keyLength && t == PutStep(p, s, r.key, r.value).1
    case Delete(key) => t == DeleteStep(p, s, key).1
    case Clean => t == CleanStep(s)
    case Crash(r, calls, dies) =>
      && p.Ok() && calls <= |Stages(p, s.seg, r)|
      && Small(DiskAfter(p, s.seg, r, calls).files)
      && var left := LeftBy(p, s, r, calls, dies); Recovered(p, left.disk, left.db) == Some(t)
  }

  /** What an operation means for the log. */
  function Effect(p: Params, s: Store, log: seq<Record>, op: Op): seq<Record> {
    match op
    case Put(r) => if TooBig(p, r) then log else log + [r]
    case Delete(key) => Cut(log, key)
    case Clean => log
    case Crash(r, calls, _) => if Wrote(p, s.seg, r, calls) && log != [] then log + [r] else log
  }

  /** The state stands for the log. */
  ghost predicate StandsFor(p: Params, s: Store, log: seq<Record>) {
    exists segs, d :: Valid(p, s, segs, d) && log == LogOf(p, segs, d)
  }

  /** Every allowed operation can be carried out, and has its effect. */
  lemma StepRefines(p: Params, s: Store, log: seq<Record>, op: Op) returns (t: Store)
    requires StandsFor(p, s, log) && Allowed(p, s, log, op)
    ensures Steps(p, s, op, t) && StandsFor(p, t, Effect(p, s, log, op))
  {
    var segs, d :| Valid(p, s, segs, d) && log == LogOf(p, segs, d);
    var g, e;
    t, g, e := StepTaken(p, s, segs, d, op);
  }

  /** A closed segment without live records that is not scheduled for deletion. */
  ghost predicate Forgotten(s: Store, segs: seq<seq<Record>>, d: nat, h: nat) {
    h in s.seg.disk.files && h < |segs| - 1 && Before(segs, h + 1) <= d && s.clean != Some(h)
  }

  ghost predicate StaysForgotten(s: Store, segs: seq<seq<Record>>, d: nat, t: Store, g: seq<seq<Record>>, e: nat) {
    forall h :: Forgotten(s, segs, d, h) ==> Forgotten(t, g, e, h)
  }

  lemma GrownForgets(s: Store, segs: seq<seq<Record>>, d: nat, t: Store, g: seq<seq<Record>>, e: nat)
    requires SameClosed(segs, g) && d <= e && s.seg.disk.files.Keys <= t.seg.disk.files.Keys
    requires t.clean == None || t.clean == s.clean
    ensures StaysForgotten(s, segs, d, t, g, e)
  {
    hide Before, SameClosed;
    SameClosedSizes(segs, g);
    forall h: nat | Forgotten(s, segs, d, h) ensures Forgotten(t, g, e, h) {
      ClosedBefore(segs, g, h + 1);
    }
  }

  lemma DeleteForgets(s: Store, segs: seq<seq<Record>>, d: nat, t: Store, e: nat)
    requires t.seg == s.seg && d <= e && (t.clean == s.clean || SchedulesLater(segs, d, t.clean))
    ensures StaysForgotten(s, segs, d, t, segs, e)
  {
  }

  lemma CleanForgets(s: Store, segs: seq<seq<Record>>, d: nat, g: seq<seq<Record>>, e: nat)
    requires if s.clean.None? then g == segs && e == d
      else s.clean.value < |segs| && g == segs[s.clean.value := []] && d == e + |segs[s.clean.value]|
    requires s.clean.Some? ==> Before(segs, s.clean.value + 1) <= d
    ensures StaysForgotten(s, segs, d, CleanStep(s), g, e)
  {
    if s.clean.Some? {
      var c := s.clean.value;
      forall h | Forgotten(s, segs, d, h) ensures Forgotten(CleanStep(s), g, e, h) {
        BeforeEmptied(segs, c, h + 1);
        if h < c {
          BeforeRises(segs, h + 1, c);
        }
      }
    }
  }

  lemma PutForgets(p: Params, s: Store, segs: seq<seq<Record>>, d: nat, r: Record, g: seq<seq<Record>>)
    requires Valid(p, s, segs, d) && |r.key| == p.keyLength && s.seg.cur + 1 < INT_LIMIT
    requires g == if TooBig(p, r) then segs else AppendTo(s.seg, segs, r)
    ensures StaysForgotten(s, segs, d, PutStep(p, s, r.key, r.value).1, g, d)
  {
    hide Layout, Entries, IndexOfPart, Complete, StaysForgotten, AppendTo, AppendRecord, Blocked;
    assert r.key[..p.keyLength] == r.key;
    RunningSize(p, s.seg, segs);
    SameAsItself(segs);
    AppendAddsEntry(p, s.seg, segs, r);
    if !TooBig(p, r) {
      AppendRuns(p, s.seg, segs, r);
      AppendStages(p, s.seg, r);
    }
    GrownForgets(s, segs, d, PutStep(p, s, r.key, r.value).1, g, d);
  }

  /** The effect of a step on the segments; nothing that was forgotten is ever scheduled or deleted. */
  lemma StepTaken(p: Params, s: Store, segs: seq<seq<Record>>, d: nat, op: Op)
    returns (t: Store, g: seq<seq<Record>>, e: nat)
    requires Valid(p, s, segs, d) && Allowed(p, s, LogOf(p, segs, d), op)
    ensures Steps(p, s, op, t) && Valid(p, t, g, e) && LogOf(p, g, e) == Effect(p, s, LogOf(p, segs, d), op)
    ensures StaysForgotten(s, segs, d, t, g, e)
  {
    hide Valid, LogOf, PutStep, DeleteStep, CleanStep, Recovered, Stages, DiskAfter, MayDelete, LeftBy, Cut, Wrote,
      StaysForgotten, TooBig, Contents, AppendTo, SchedulesLater, Doomed, Small;
    IndexFacts(p, s, segs, d);
    g, e := segs, d;
    match op {
      case Put(r) =>
        t := PutStep(p, s, r.key, r.value).1;
        g := PutRefines(p, s, segs, d, r.key, r.value);
        PutForgets(p, s, segs, d, r, g);
      case Delete(key) =>
        t := DeleteStep(p, s, key).1;
        e := DeleteRefines(p, s, segs, d, key);
        DeleteForgets(s, segs, d, t, e);
      case Clean =>
        t := CleanStep(s);
        g, e := CleanRefines(p, s, segs, d);
        CleanDoomed(p, s, segs, d);
        CleanForgets(s, segs, d, g, e);
      case Crash(r, calls, dies) =>
        t, g, e := CrashRefines(p, s, segs, d, r, calls, dies);
        GrownForgets(s, segs, d, t, g, e);
    }
  }

  lemma CleanDoomed(p: Params, s: Store, segs: seq<seq<Record>>, d: nat)
    requires Valid(p, s, segs, d)
    ensures s.clean.Some? ==> s.clean.value < |segs| && Before(segs, s.clean.value + 1) <= d
  {
  }

  lemma OneOutcome(p: Params, s: Store, op: Op, a: Store, b: Store)
    requires Steps(p, s, op, a) && Steps(p, s, op, b)
    ensures a == b
  {
  }

  /**
    A history: the stores before, between and after these operations, and the logs they stand for. It begins on an
    empty disk, and the first start-ups may die as well.
    */
  ghost predicate History(p: Params, first: seq<nat>, states: seq<Store>, logs: seq<seq<Record>>, ops: seq<Op>) {
    && p.Ok() && |states| == |logs| == |ops| + 1
    && Begins(p, first, states[0]) && logs[0] == []
    && forall i {:trigger ops[i]} :: 0 <= i < |ops| ==>
         && Allowed(p, states[i], logs[i], ops[i])
         && Steps(p, states[i], ops[i], states[i + 1])
         && logs[i + 1] == Effect(p, states[i], logs[i], ops[i])
  }

  ghost predicate Begins(p: Params, first: seq<nat>, s: Store)
    requires p.Ok()
  {
    var left := DiedOften(p, Durable(Disk(map[], None), map[]), first);
    Recovered(p, left.disk, left.db) == Some(s)
  }

  lemma FreshIsEmpty(p: Params, first: seq<nat>, s: Store)
    requires p.Ok() && Begins(p, first, s)
    ensures StandsFor(p, s, [])
  {
    var was := Durable(Disk(map[], None), map[]);
    FreshIsRecoverable(p);
    DeathsAreHarmless(p, was, [[]], 0, first);
    var e := RecoveryRefines(p, was, [[]], 0);
    NothingBehindEnd(p, [[]]);
  }

  lemma FreshIsRecoverable(p: Params)
    requires p.Ok()
    ensures Entries(p, [[]]) == [] && Recoverable(p, Durable(Disk(map[], None), map[]), [[]], 0)
  {
    var disk := Disk(map[], None);
    assert SegmentOk(p, disk.files, 0, []);
    EntriesOfOpened(p, []);
  }

  /** Every store of every history stands for the log the operations before it make. */
  lemma {:induction false} HistoryRefines(p: Params, first: seq<nat>, states: seq<Store>, logs: seq<seq<Record>>,
                                          ops: seq<Op>, i: nat)
    requires History(p, first, states, logs, ops) && i <= |ops|
    ensures StandsFor(p, states[i], logs[i])
  {
    hide StandsFor, Steps, Allowed, Effect, Begins;
    if i == 0 {
      FreshIsEmpty(p, first, states[0]);
    } else {
      HistoryRefines(p, first, states, logs, ops, i - 1);
      var op := ops[i - 1];
      var t := StepRefines(p, states[i - 1], logs[i - 1], op);
      OneOutcome(p, states[i - 1], op, t, states[i]);
    }
  }

  /**
    In every history, whatever is put, deleted, cleaned up or lost in crashes, crashes during recovery included,
    `Get` returns for every key the value last put and not deleted, and nothing it needs is in a segment that is
    deleted or about to be.
    */
  lemma GetIsRightForever(p: Params, first: seq<nat>, states: seq<Store>, logs: seq<seq<Record>>, ops: seq<Op>,
                          i: nat, key: Data)
    requires History(p, first, states, logs, ops) && i <= |ops|
    ensures GetValue(p, states[i], key) == if key in Contents(logs[i]) then Some(Contents(logs[i])[key]) else None
    ensures key in states[i].db ==>
      var g := ParseIndex(states[i].db[key]).segment;
      g in states[i].seg.disk.files && states[i].clean != Some(g)
  {
    hide History, Running, Doomed, GetValue, ParseIndex, Contents, LogOf;
    HistorySize(p, first, states, logs, ops);
    HistoryRefines(p, first, states, logs, ops, i);
    var segs, d :| Valid(p, states[i], segs, d) && logs[i] == LogOf(p, segs, d);
    GetRefinesMap(p, states[i], segs, d, key);
    if key in states[i].db {
      NothingIsStranded(p, states[i], segs, d, key);
    }
  }

  lemma HistorySize(p: Params, first: seq<nat>, states: seq<Store>, logs: seq<seq<Record>>, ops: seq<Op>)
    requires History(p, first, states, logs, ops)
    ensures |states| == |logs| == |ops| + 1
  {
  }

  // ---------------------------------------------------------------- segments that are never deleted

  /** The store stands for the log, and the segment is one that is forgotten. */
  ghost predicate ForgottenIn(p: Params, s: Store, log: seq<Record>, h: nat) {
    exists segs, d :: Valid(p, s, segs, d) && log == LogOf(p, segs, d) && Forgotten(s, segs, d, h)
  }

  /** A forgotten segment stays on the disk, whatever happens. */
  lemma {:induction false} ForgottenForever(p: Params, first: seq<nat>, states: seq<Store>, logs: seq<seq<Record>>,
                                            ops: seq<Op>, i: nat, n: nat, h: nat)
    requires History(p, first, states, logs, ops) && i <= n <= |ops|
    requires ForgottenIn(p, states[i], logs[i], h)
    ensures ForgottenIn(p, states[n], logs[n], h)
  {
    hide ForgottenIn, Steps, Allowed, Effect, Begins;
    if i == n {
    } else {
      ForgottenForever(p, first, states, logs, ops, i, n - 1, h);
      var t := ForgottenStep(p, states[n - 1], logs[n - 1], ops[n - 1], h);
      OneOutcome(p, states[n - 1], ops[n - 1], t, states[n]);
    }
  }

  lemma ForgottenStep(p: Params, s: Store, log: seq<Record>, op: Op, h: nat) returns (t: Store)
    requires ForgottenIn(p, s, log, h) && Allowed(p, s, log, op)
    ensures Steps(p, s, op, t) && ForgottenIn(p, t, Effect(p, s, log, op), h)
  {
    hide Running, Doomed, LogOf, Steps, Allowed, Effect, Forgotten;
    var segs, d :| Valid(p, s, segs, d) && log == LogOf(p, segs, d) && Forgotten(s, segs, d, h);
    var g, e;
    t, g, e := StepTaken(p, s, segs, d, op);
  }

  /**
    REPLACED CLEAN EVENTS. If a deletion schedules another segment while one is scheduled, the file of the first is
    never deleted, whatever happens later; nor is that of a closed segment whose event is lost in a crash.
    */
  lemma ReplacedIsNeverDeleted(p: Params, first: seq<nat>, states: seq<Store>, logs: seq<seq<Record>>, ops: seq<Op>,
                               i: nat, n: nat, h: nat)
    requires History(p, first, states, logs, ops) && i < n <= |ops|
    requires states[i].clean == Some(h) && states[i + 1].clean != Some(h)
    requires ops[i].Delete? || (ops[i].Crash? && h < states[i].seg.cur)
    ensures h in states[n].seg.disk.files && states[n].clean != Some(h)
  {
    hide Valid, LogOf, Steps, Allowed, Effect, Begins, ForgottenIn;
    HistoryRefines(p, first, states, logs, ops, i);
    ReplacedIsForgotten(p, states[i], logs[i], ops[i], states[i + 1], h);
    ForgottenForever(p, first, states, logs, ops, i + 1, n, h);
    ForgottenFacts(p, states[n], logs[n], h);
  }

  lemma ForgottenFacts(p: Params, s: Store, log: seq<Record>, h: nat)
    requires ForgottenIn(p, s, log, h)
    ensures h in s.seg.disk.files && s.clean != Some(h)
  {
  }

  lemma LaterIsBehind(segs: seq<seq<Record>>, d: nat, h: nat, clean: Option<nat>)
    requires h < |segs| && Before(segs, h + 1) <= d && SchedulesLater(segs, d, clean)
    ensures h < |segs| - 1
  {
    BeforeRises(segs, clean.value + 1, |segs|);
  }

  lemma ReplacedIsForgotten(p: Params, s: Store, log: seq<Record>, op: Op, t: Store, h: nat)
    requires StandsFor(p, s, log) && Allowed(p, s, log, op) && Steps(p, s, op, t)
    requires s.clean == Some(h) && t.clean != Some(h)
    requires op.Delete? || (op.Crash? && h < s.seg.cur)
    ensures ForgottenIn(p, t, Effect(p, s, log, op), h)
  {
    hide Running, LogOf, DeleteStep, Recovered, Stages, DiskAfter, MayDelete, LeftBy, Cut, Wrote, Doomed, Small,
      SchedulesLater, Contents, Before;
    var segs, d :| Valid(p, s, segs, d) && log == LogOf(p, segs, d);
    IndexFacts(p, s, segs, d);
    CleanDoomed(p, s, segs, d);
    RunningSize(p, s.seg, segs);
    if op.Delete? {
      var e := DeleteRefines(p, s, segs, d, op.key);
      LaterIsBehind(segs, d, h, t.clean);
      assert Forgotten(t, segs, e, h);
    } else {
      var u, g, e := CrashRefines(p, s, segs, d, op.r, op.calls, op.dies);
      var lost := s.(clean := None);
      assert Forgotten(lost, segs, d, h);
      GrownForgets(lost, segs, d, t, g, e);
    }
  }

  /** What the operations mean for the contents: a map, updated, shrunk by a key, or left alone. */
  lemma EffectOnContents(p: Params, s: Store, log: seq<Record>, op: Op)
    requires Allowed(p, s, log, op)
    ensures op.Put? ==>
      Contents(Effect(p, s, log, op)) ==
      if TooBig(p, op.r) then Contents(log) else Contents(log)[op.r.key := op.r.value]
    ensures op.Delete? ==> Contents(Effect(p, s, log, op)) == Contents(log) - {op.key}
    ensures op.Clean? ==> Effect(p, s, log, op) == log
    ensures op.Crash? ==>
      Contents(Effect(p, s, log, op)) ==
      if Wrote(p, s.seg, op.r, op.calls) && log != [] then Contents(log)[op.r.key := op.r.value] else Contents(log)
  {
    match op {
      case Put(r) => assert (log + [r])[..|log|] == log;
      case Crash(r, _, _) => assert (log + [r])[..|log|] == log;
      case Delete(k) =>
        var es := seq(|log|, i requires 0 <= i < |log| => Entry(log[i], Index(0, 0, 0)));
        assert RecordsOf(es) == log;
        CutRemovesKey(es, k);
      case Clean =>
    }
  }
}
