/** What the scheduler stands for: a set of live timers, at most one of each type. */
module Timers {

  datatype EventType = Null | ProposeTimeout | AcceptTimeout | NewValueTimeout | ShallILearn | CleanSegment

  datatype Event = Event(when: int, kind: EventType, id: nat)

  /** The live timers, and the last event id given out. */
  datatype Timers = Timers(live: set<Event>, last: nat)

  datatype Act =
    | Add(when: int, kind: EventType)
    | Remove(kind: EventType)
    | Fire(e: Event, now: int)
    | Look   // asks for the next event time, or dispatches and nothing fires

  predicate Step(s: Timers, act: Act, t: Timers) {
    match act
    case Add(when, kind) =>
      t == Timers((set e | e in s.live && e.kind != kind) + {Event(when, kind, s.last + 1)}, s.last + 1)
    case Remove(kind) => t == Timers((set e | e in s.live && e.kind != kind), s.last)
    case Fire(e, now) =>
      e in s.live && (forall f :: f in s.live ==> f.when <= e.when <= now) && t == Timers(s.live - {e}, s.last)
    case Look => t == s
  }

  predicate Run(states: seq<Timers>, acts: seq<Act>) {
    && |states| == |acts| + 1
    && states[0] == Timers({}, 0)
    && forall i :: 0 <= i < |acts| ==> Step(states[i], acts[i], states[i + 1])
  }

  /** At most one timer of each type, and ids that were given out, each to one timer. */
  predicate Ok(s: Timers) {
    && (forall e, f :: e in s.live && f in s.live && (e.kind == f.kind || e.id == f.id) ==> e == f)
    && (forall e :: e in s.live ==> 1 <= e.id <= s.last)
  }

  lemma {:induction false} RunOk(states: seq<Timers>, acts: seq<Act>, i: nat)
    requires Run(states, acts) && i <= |acts|
    ensures Ok(states[i])
  {
    if i == 0 {
    } else {
      RunOk(states, acts, i - 1);
      assert Step(states[i - 1], acts[i - 1], states[i]);
    }
  }

  /** A timer that was given its id and is not live will never be live again. */
  lemma {:induction false} DeadStaysDead(states: seq<Timers>, acts: seq<Act>, i: nat, j: nat, e: Event)
    requires Run(states, acts) && i <= j <= |acts|
    requires e.id <= states[i].last && e !in states[i].live
    ensures e.id <= states[j].last && e !in states[j].live
  {
    if i == j {
    } else {
      DeadStaysDead(states, acts, i, j - 1, e);
      assert Step(states[j - 1], acts[j - 1], states[j]);
    }
  }

  /** Every timer fires at most once. */
  lemma FiresAtMostOnce(states: seq<Timers>, acts: seq<Act>, i: nat, j: nat)
    requires Run(states, acts) && i < j < |acts| && acts[i].Fire? && acts[j].Fire?
    ensures acts[i].e.id != acts[j].e.id
  {
    RunOk(states, acts, i);
    assert Step(states[i], acts[i], states[i + 1]) && Step(states[j], acts[j], states[j + 1]);
    if acts[i].e.id == acts[j].e.id {
      DeadStaysDead(states, acts, i + 1, j, acts[j].e);
    }
  }

  predicate Replaces(act: Act, kind: EventType) {
    act == Remove(kind) || (act.Add? && act.kind == kind)
  }

  /** A timer that fires was added after every replacement or withdrawal of its type so far. */
  lemma NeverFiresOnceReplaced(states: seq<Timers>, acts: seq<Act>, i: nat, j: nat)
    requires Run(states, acts) && i < j < |acts| && acts[j].Fire? && Replaces(acts[i], acts[j].e.kind)
    ensures acts[j].e.id > states[i].last
  {
    assert Step(states[i], acts[i], states[i + 1]) && Step(states[j], acts[j], states[j + 1]);
    if acts[j].e.id <= states[i].last {
      DeadStaysDead(states, acts, i + 1, j, acts[j].e);
    }
  }

  /** A live timer is not lost: until it fires, or is replaced or withdrawn, it stays live. */
  lemma {:induction false} LiveUntilFired(states: seq<Timers>, acts: seq<Act>, i: nat, j: nat, e: Event)
    requires Run(states, acts) && i <= j <= |acts| && e in states[i].live
    requires forall k :: i <= k < j ==> !Replaces(acts[k], e.kind) && !(acts[k].Fire? && acts[k].e == e)
    ensures e in states[j].live
  {
    if i == j {
    } else {
      LiveUntilFired(states, acts, i, j - 1, e);
      assert Step(states[j - 1], acts[j - 1], states[j]);
    }
  }

  /** Where a live timer comes from: it was added for its time and type, and not replaced or withdrawn since. */
  ghost predicate AddedAt(states: seq<Timers>, acts: seq<Act>, i: nat, j: nat, e: Event)
    requires i < j <= |acts| < |states|
  {
    && acts[i] == Add(e.when, e.kind) && e.id == states[i].last + 1
    && forall k :: i < k < j ==> !Replaces(acts[k], e.kind)
  }

  lemma LiveAfterStep(s: Timers, act: Act, t: Timers, e: Event)
    requires Ok(s) && Step(s, act, t) && e in t.live
    ensures if e in s.live then !Replaces(act, e.kind) else act == Add(e.when, e.kind) && e.id == s.last + 1
  {
  }

  lemma {:induction false} LiveWasAdded(states: seq<Timers>, acts: seq<Act>, j: nat, e: Event) returns (i: nat)
    requires Run(states, acts) && j <= |acts| && e in states[j].live
    ensures i < j && AddedAt(states, acts, i, j, e)
  {
    hide Step, Ok, Replaces;
    if j == 0 {
      assert false;
    } else {
      RunOk(states, acts, j - 1);
      LiveAfterStep(states[j - 1], acts[j - 1], states[j], e);
      if e in states[j - 1].live {
        i := LiveWasAdded(states, acts, j - 1, e);
      } else {
        i := j - 1;
      }
    }
  }

  /**
    NOTHING FIRES EARLY. Whatever fires was asked for by an `AddEvent` of its type that nothing replaced or withdrew
    since, and the time asked for then has come.
    */
  lemma FiresWhenAskedFor(states: seq<Timers>, acts: seq<Act>, j: nat) returns (i: nat)
    requires Run(states, acts) && j < |acts| && acts[j].Fire?
    ensures i < j && AddedAt(states, acts, i, j, acts[j].e)
    ensures acts[i].when <= acts[j].now
  {
    assert Step(states[j], acts[j], states[j + 1]);
    i := LiveWasAdded(states, acts, j, acts[j].e);
  }

  /** Conversely, the one live timer of a type is due at the time asked for last, unless it was withdrawn or fired. */
  lemma DueWhenAskedFor(states: seq<Timers>, acts: seq<Act>, i: nat, j: nat)
    requires Run(states, acts) && i < j <= |acts| && acts[i].Add?
    requires forall k :: i < k < j ==> !Replaces(acts[k], acts[i].kind) && !(acts[k].Fire? && acts[k].e.kind == acts[i].kind)
    ensures forall e :: e in states[j].live && e.kind == acts[i].kind <==>
                        e == Event(acts[i].when, acts[i].kind, states[i].last + 1)
  {
    var asked := Event(acts[i].when, acts[i].kind, states[i].last + 1);
    assert Step(states[i], acts[i], states[i + 1]);
    LiveUntilFired(states, acts, i + 1, j, asked);
    RunOk(states, acts, j);
  }
}
