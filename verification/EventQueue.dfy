/** The queue of events: a binary heap in an array, with the latest event in front. */
module EventQueue {
  import opened Timers

  function Parent(i: nat): nat
    requires i >= 1
  {
    (i - 1) / 2
  }

  /** `Event::operator<` between two places of the array. */
  predicate NotLater(q: seq<Event>, i: nat, j: nat)
    requires i < |q| && j < |q|
  {
    q[i].when <= q[j].when
  }

  /** `std::is_heap`: no event is later than its parent. */
  predicate IsHeap(q: seq<Event>) {
    forall i {:trigger Parent(i)} :: 1 <= i < |q| ==> NotLater(q, i, Parent(i))
  }

  /** The front of a heap is the latest. */
  lemma {:induction false} FrontIsLatest(q: seq<Event>, i: nat)
    requires IsHeap(q) && i < |q|
    ensures q[i].when <= q[0].when
  {
    if i == 0 {
    } else {
      FrontIsLatest(q, Parent(i));
    }
  }

  /** A heap but for the event at `k`, which may be later than its parent. */
  predicate HeapButUp(q: seq<Event>, k: nat) {
    && (forall i {:trigger Parent(i)} :: 1 <= i < |q| && i != k ==> NotLater(q, i, Parent(i)))
    && (forall i {:trigger Parent(i)} :: 1 <= i < |q| && Parent(i) == k >= 1 ==> NotLater(q, i, Parent(k)))
  }

  /** A heap but for the event at `k`, which may be earlier than its children. */
  predicate HeapButDown(q: seq<Event>, k: nat) {
    && (forall i {:trigger Parent(i)} :: 1 <= i < |q| && Parent(i) != k ==> NotLater(q, i, Parent(i)))
    && (forall i {:trigger Parent(i)} :: 1 <= i < |q| && Parent(i) == k >= 1 ==> NotLater(q, i, Parent(k)))
  }

  function Swapped(q: seq<Event>, i: nat, j: nat): (r: seq<Event>)
    requires i < |q| && j < |q|
    ensures |r| == |q| && r[i] == q[j] && r[j] == q[i]
    ensures forall k :: 0 <= k < |q| && k != i && k != j ==> r[k] == q[k]
    ensures multiset(r) == multiset(q)
  {
    q[i := q[j]][j := q[i]]
  }

  lemma LastOutOfPlace(q: seq<Event>)
    requires q != [] && IsHeap(q[..|q| - 1])
    ensures HeapButUp(q, |q| - 1)
  {
    forall i | 1 <= i < |q| && i != |q| - 1 ensures NotLater(q, i, Parent(i)) {
      assert NotLater(q[..|q| - 1], i, Parent(i));
    }
  }

  /** An event later than its parent changes places with it. */
  lemma RiseStep(q: seq<Event>, k: nat)
    requires 0 < k < |q| && HeapButUp(q, k) && q[Parent(k)].when < q[k].when
    ensures HeapButUp(Swapped(q, k, Parent(k)), Parent(k))
  {
    var parent := Parent(k);
    var r := Swapped(q, k, parent);
    forall i | 1 <= i < |q| && i != parent ensures NotLater(r, i, Parent(i)) {
      assert i != k ==> NotLater(q, i, Parent(i));
      assert Parent(i) == k ==> NotLater(q, i, parent);
    }
    if parent >= 1 {
      forall i | 1 <= i < |q| && Parent(i) == parent ensures NotLater(r, i, Parent(parent)) {
        assert NotLater(q, parent, Parent(parent));
        assert i != k ==> NotLater(q, i, parent);
      }
    }
  }

  /** The later child of `k`, or the place behind the end. */
  function LaterChild(q: seq<Event>, k: nat): (child: nat)
    ensures child > k && (child < |q| ==> Parent(child) == k)
    ensures forall i {:trigger Parent(i)} :: 1 <= i < |q| && Parent(i) == k ==> child < |q| && NotLater(q, i, child)
  {
    var left := 2 * k + 1;
    if left + 1 < |q| && q[left].when < q[left + 1].when then left + 1 else left
  }

  /** An event earlier than its later child changes places with it. */
  lemma SinkStep(q: seq<Event>, k: nat)
    requires k < |q| && HeapButDown(q, k)
    requires LaterChild(q, k) < |q| && q[k].when < q[LaterChild(q, k)].when
    ensures HeapButDown(Swapped(q, k, LaterChild(q, k)), LaterChild(q, k))
  {
    var child := LaterChild(q, k);
    var r := Swapped(q, k, child);
    forall i | 1 <= i < |q| && Parent(i) != child ensures NotLater(r, i, Parent(i)) {
      assert Parent(i) != k ==> NotLater(q, i, Parent(i));
      assert i == k ==> NotLater(q, child, Parent(k));
    }
    forall i | 1 <= i < |q| && Parent(i) == child ensures NotLater(r, i, Parent(child)) {
      assert NotLater(q, i, child);
    }
  }

  /** Where the later child is not later, nothing is out of place. */
  lemma SinkEnds(q: seq<Event>, k: nat)
    requires HeapButDown(q, k)
    requires LaterChild(q, k) < |q| ==> q[LaterChild(q, k)].when <= q[k].when
    ensures IsHeap(q)
  {
  }

  class EventQueue {
    var events: seq<Event>

    predicate Valid()
      reads this
    {
      IsHeap(events)
    }

    constructor ()
      ensures Valid() && events == []
    {
      events := [];
    }

    /** `Push`. */
    method Push(e: Event)
      requires Valid()
      modifies this
      ensures Valid() && multiset(events) == multiset(old(events)) + multiset{e}
    {
      assert (events + [e])[..|events|] == events;
      events := events + [e];
      PushHeap();
    }

    /** `std::push_heap`: the last event rises to its place. */
    method PushHeap()
      requires events != [] && IsHeap(events[..|events| - 1])
      modifies this
      ensures Valid() && multiset(events) == multiset(old(events))
    {
      var k: nat := |events| - 1;
      LastOutOfPlace(events);
      while k > 0 && events[Parent(k)].when < events[k].when
        invariant k < |events| && HeapButUp(events, k)
        invariant multiset(events) == multiset(old(events))
      {
        RiseStep(events, k);
        events, k := Swapped(events, k, Parent(k)), Parent(k);
      }
    }

    /** `PopOne`: takes the front. */
    method PopOne() returns (taken: bool, e: Event)
      requires Valid()
      modifies this
      ensures Valid() && taken == (old(events) != [])
      ensures taken ==> e == old(events[0]) && multiset(events) == multiset(old(events)) - multiset{e}
      ensures taken ==> |events| == |old(events)| - 1
      ensures !taken ==> events == []
    {
      if events == [] {
        return false, Event(0, Null, 0);
      }
      PopHeap();
      var last := |events| - 1;
      e := events[last];
      assert events == events[..last] + [e];
      events := events[..last];
      return true, e;
    }

    /** `std::pop_heap`: the front goes to the back, and the others are a heap again. */
    method PopHeap()
      requires events != [] && Valid()
      modifies this
      ensures events != [] && IsHeap(events[..|events| - 1])
      ensures events[|events| - 1] == old(events[0]) && multiset(events) == multiset(old(events))
    {
      ghost var all := multiset(events);
      var front, n := events[0], |events| - 1;
      events := Swapped(events, 0, n);
      var rest := events[..n];
      assert events == rest + [front];
      var k := 0;
      while LaterChild(rest, k) < n && rest[k].when < rest[LaterChild(rest, k)].when
        invariant |rest| == n && (n > 0 ==> k < n) && HeapButDown(rest, k)
        invariant multiset(rest) + multiset{front} == all
        decreases n - k
      {
        SinkStep(rest, k);
        var child := LaterChild(rest, k);
        rest, k := Swapped(rest, k, child), child;
      }
      SinkEnds(rest, k);
      events := rest + [front];
    }

    /** `HasTimeout`: whether the front is due. */
    method HasTimeout(now: int) returns (due: bool)
      requires Valid()
      ensures due <==> events != [] && forall e :: e in events ==> e.when <= now
    {
      if events == [] {
        return false;
      }
      forall e | e in events ensures e.when <= events[0].when {
        var i :| 0 <= i < |events| && events[i] == e;
        FrontIsLatest(events, i);
      }
      return events[0].when <= now;
    }
  }
}
