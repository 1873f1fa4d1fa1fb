/** The scheduler: a heap of events, some of them stale, that behaves like the set of live timers. */
module Scheduler {
  import opened Basics
  import opened Timers
  import opened EventQueue

  /** `eventTypeIdMap_[kind]`: a type without an entry has id 0, which no event has. */
  function IdOf(ids: map<EventType, nat>, kind: EventType): nat {
    if kind in ids then ids[kind] else 0
  }

  /** Events queued are different, and their ids were given out. */
  ghost predicate Distinct(queued: multiset<Event>, last: nat) {
    && (forall e :: e in queued ==> queued[e] == 1 && 1 <= e.id <= last)
    && (forall e, f :: e in queued && f in queued && e.id == f.id ==> e == f)
  }

  /** The events that are not stale. */
  ghost function LiveIn(queued: multiset<Event>, ids: map<EventType, nat>): set<Event> {
    set e | e in queued && IdOf(ids, e.kind) == e.id
  }

  /** A new event makes the ones of its type stale. */
  lemma AddedIsLive(queued: multiset<Event>, ids: map<EventType, nat>, last: nat, e: Event)
    requires Distinct(queued, last) && e.id == last + 1
    ensures Distinct(queued + multiset{e}, last + 1)
    ensures LiveIn(queued + multiset{e}, ids[e.kind := e.id]) == (set f | f in LiveIn(queued, ids) && f.kind != e.kind) + {e}
  {
  }

  lemma TakenIsGone(queued: multiset<Event>, ids: map<EventType, nat>, last: nat, e: Event)
    requires Distinct(queued, last) && e in queued
    ensures Distinct(queued - multiset{e}, last)
    ensures LiveIn(queued - multiset{e}, ids) == LiveIn(queued, ids) - {e}
  {
  }

  /** What `NextEventTime` comes to: the last case reads the front of an empty vector. */
  datatype NextTime = NoEvent | At(when: int) | NoFront

  ghost predicate IsLatest(live: set<Event>, when: int) {
    && (exists e :: e in live && e.when == when)
    && (forall e :: e in live ==> e.when <= when)
  }

  class Scheduler {
    const queue: EventQueue
    var ids: map<EventType, nat>
    var last: nat

    ghost function Queued(): multiset<Event>
      reads this, queue
    {
      multiset(queue.events)
    }

    ghost predicate Valid()
      reads this, queue
    {
      && queue.Valid() && Distinct(Queued(), last)
      && forall kind :: kind in ids ==> ids[kind] <= last
    }

    /** What the scheduler stands for. */
    ghost function Value(): Timers
      reads this, queue
    {
      Timers(LiveIn(Queued(), ids), last)
    }

    constructor ()
      ensures Valid() && fresh(queue) && Value() == Timers({}, 0)
    {
      queue := new EventQueue();
      ids, last := map[], 0;
    }

    /** `AddEvent`. */
    method AddEvent(when: int, kind: EventType)
      requires Valid()
      modifies this, queue
      ensures Valid() && Step(old(Value()), Add(when, kind), Value())
      ensures var e := Event(when, kind, old(last) + 1);
        && Queued() == old(Queued()) + multiset{e} && last == e.id
        && Value().live == (set f | f in old(Value()).live && f.kind != kind) + {e}
    {
      var e := Event(when, kind, last + 1);
      AddedIsLive(Queued(), ids, last, e);
      last := last + 1;
      queue.Push(e);
      ids := ids[kind := e.id];
    }

    /** `Remove`. */
    method Remove(kind: EventType)
      requires Valid()
      modifies this
      ensures Valid() && Step(old(Value()), Act.Remove(kind), Value())
      ensures Queued() == old(Queued()) && Value().live == (set f | f in old(Value()).live && f.kind != kind)
    {
      ids := ids - {kind};
    }

    /** Looks the type of the front up, which gives it an entry: whether the front is live. */
    method IsCurrent(e: Event) returns (current: bool)
      requires Valid() && e in Queued()
      modifies this`ids
      ensures Valid() && Value() == old(Value())
      ensures current <==> e in Value().live
    {
      current := IdOf(ids, e.kind) == e.id;
      if e.kind !in ids {
        ids := ids[e.kind := 0];
      }
      assert forall kind :: IdOf(ids, kind) == IdOf(old(ids), kind);
    }

    /** `Next`: the front, which is the latest event. */
    method Next() returns (front: Event)
      requires Valid() && queue.events != []
      ensures front == queue.events[0] && front in Queued()
      ensures forall e :: e in Value().live ==> e.when <= front.when
    {
      LatestInFront(queue.events);
      return queue.events[0];
    }

    /** `PopOne` of an event that is the front. */
    method Pop(ghost front: Event)
      requires Valid() && queue.events != [] && front == queue.events[0]
      modifies queue
      ensures Valid() && Value() == Timers(old(Value()).live - {front}, last)
      ensures Queued() == old(Queued()) - multiset{front}
      ensures |queue.events| < |old(queue.events)|
    {
      TakenIsGone(Queued(), ids, last, front);
      var taken, e := queue.PopOne();
    }

    /**
      `Dispatch`: tests the front once, then takes events until one is live. It fires exactly if there is a live timer
      and every event queued, stale ones included, is due; what fires is the latest live timer.
      */
    method Dispatch(now: int) returns (fired: Option<Event>)
      requires Valid()
      modifies this, queue
      ensures Valid()
      ensures fired.Some? <==> old(Value()).live != {} && forall e :: e in old(Queued()) ==> e.when <= now
      ensures Step(old(Value()), if fired.Some? then Fire(fired.value, now) else Act.Look, Value())
      ensures match fired
        case None => Value() == old(Value())
        case Some(e) =>
          && e in old(Value()).live && e.when <= now && (forall f :: f in old(Value()).live ==> f.when <= e.when)
          && Value().live == old(Value()).live - {e}
    {
      var due := queue.HasTimeout(now);
      if !due {
        return None;
      }
      fired := TakeLive();
    }

    /** Its loop: takes events until one is live. */
    method TakeLive() returns (taken: Option<Event>)
      requires Valid()
      modifies this, queue
      ensures Valid()
      ensures var was := old(Value());
        if taken == None then was.live == {} && Value() == was
        else
          taken.value in was.live && (forall e :: e in was.live ==> e.when <= taken.value.when)
          && Value() == Timers(was.live - {taken.value}, was.last)
    {
      ghost var was := Value();
      while queue.events != []
        invariant Valid() && Value() == was
        decreases |queue.events|
      {
        var front, current := Turn();
        if current {
          return Some(front);
        }
      }
      return None;
    }

    /** One turn: takes the front and looks its type up. */
    method Turn() returns (front: Event, current: bool)
      requires Valid() && queue.events != []
      modifies this, queue
      ensures Valid() && |queue.events| < |old(queue.events)|
      ensures current <==> front in old(Value()).live
      ensures forall e :: e in old(Value()).live ==> e.when <= front.when
      ensures Value() == Timers(old(Value()).live - {front}, old(last))
    {
      front := Next();
      current := IsCurrent(front);
      Pop(front);
    }

    /** `NextEventTime`: takes stale events until the front is live. */
    method NextEventTime() returns (next: NextTime)
      requires Valid()
      modifies this, queue
      ensures Valid() && Step(old(Value()), Act.Look, Value())
      ensures next.NoEvent? <==> old(Queued()) == multiset{}
      ensures next.NoFront? <==> old(Queued()) != multiset{} && old(Value()).live == {}
      ensures next.At? ==> IsLatest(Value().live, next.when)
    {
      if queue.events == [] {
        return NoEvent;
      }
      ghost var was := Value();
      while true
        invariant Valid() && Value() == was
        decreases |queue.events|
      {
        if queue.events == [] {
          return NoFront;
        }
        var front, current := Look();
        if current {
          return At(front.when);
        }
      }
    }

    /** One turn: takes the front only if it is stale. */
    method Look() returns (front: Event, current: bool)
      requires Valid() && queue.events != []
      modifies this, queue
      ensures Valid() && Value() == old(Value())
      ensures current <==> front in Value().live
      ensures forall e :: e in Value().live ==> e.when <= front.when
      ensures !current ==> |queue.events| < |old(queue.events)|
    {
      front := Next();
      current := IsCurrent(front);
      if !current {
        Pop(front);
      }
    }
  }

  lemma LatestInFront(q: seq<Event>)
    requires IsHeap(q)
    ensures q != [] ==> forall e :: e in multiset(q) ==> e.when <= q[0].when
  {
    forall e | e in multiset(q) ensures e.when <= q[0].when {
      var i :| 0 <= i < |q| && q[i] == e;
      FrontIsLatest(q, i);
    }
  }
}
