/**
  The sending side of catch-up: one job at a time streams stored values to one follower, with a window of
  acknowledgements. The loop runs in its own thread, so each step that takes the lock is one event here.
  */
module SyncJob {
  import opened Messages

  /** `LearnerSendingJobStatus`. */
  datatype JobStatus = Stale | Prepared | Sending

  /**
    The shared fields of the job, and of the loop: `next` is the instance to send next, `waiting` says that the
    loop waits for an acknowledgement.
    */
  datatype Job = Job(status: JobStatus, receiver: NodeId, begin: Instance, ack: Instance, next: Instance, waiting: bool)

  const NO_JOB := Job(Stale, 0, 0, 0, 0, false)

  const LEAD_FOLLOW_DIS := 10

  const INSTANCE_LIMIT := 0x1_0000_0000_0000_0000

  /** Instances are unsigned 64-bit integers: an acknowledgement ahead of the last value sent wraps around. */
  function Distance(last: Instance, ack: Instance): nat {
    if ack <= last then last - ack else (last + INSTANCE_LIMIT - ack) % INSTANCE_LIMIT
  }

  predicate MustWait(last: Instance, ack: Instance) {
    Distance(last, ack) > LEAD_FOLLOW_DIS
  }

  /** `MakeSenderReady`: a follower's confirmation is taken only when no job is there. */
  function Confirm(j: Job, receiver: NodeId, ins: Instance): Job {
    if j.status != Stale then j else j.(status := Prepared, receiver := receiver, begin := ins)
  }

  /** `WaitForReady` and the start of `SendLearnedValues`. */
  function Start(j: Job): Job {
    if j.status != Prepared then j else j.(status := Sending, next := j.begin, waiting := false)
  }

  /** Whether the loop sends `next` now: it is below this node's instance and the window is open. */
  predicate CanSend(j: Job, ins: Instance) {
    j.status == Sending && !j.waiting && j.next < ins
  }

  /** One turn of the loop: send, advance, test the window. */
  function SendNext(j: Job, ins: Instance): Job {
    if !CanSend(j, ins) then j else j.(next := j.next + 1, waiting := MustWait(j.next, j.ack))
  }

  /** The loop wakes up and tests the window again. */
  function Recheck(j: Job): Job {
    if j.status == Sending && j.waiting && j.next > 0 then j.(waiting := MustWait(j.next - 1, j.ack)) else j
  }

  /** `ClearSendingState`, once everything was sent or the follower was too slow. */
  function Finish(j: Job, ins: Instance): Job {
    if j.status == Sending && (j.waiting || j.next >= ins) then NO_JOB else j
  }

  /** `HandleValueAck`: only the receiver's acknowledgements, and only upwards. */
  function Ack(j: Job, sender: NodeId, ins: Instance): Job {
    if j.status != Sending || j.receiver != sender then j
    else if ins > j.ack then j.(ack := ins)
    else j
  }

  datatype Event =
    | Confirmed(receiver: NodeId, ins: Instance)
    | Started
    | Sent(ins: Instance)
    | Rechecked
    | Finished(ins: Instance)
    | Acknowledged(sender: NodeId, ins: Instance)

  function Step(j: Job, e: Event): Job {
    match e
    case Confirmed(receiver, ins) => Confirm(j, receiver, ins)
    case Started => Start(j)
    case Sent(ins) => SendNext(j, ins)
    case Rechecked => Recheck(j)
    case Finished(ins) => Finish(j, ins)
    case Acknowledged(sender, ins) => Ack(j, sender, ins)
  }

  function Steps(events: seq<Event>): Job {
    if events == [] then NO_JOB else Step(Steps(events[..|events| - 1]), events[|events| - 1])
  }

  /** The instances the job has sent are `begin` up to (not including) `next`. */
  ghost predicate WindowKept(j: Job) {
    j.status == Sending ==>
      && j.begin <= j.next
      && (j.next > j.begin ==> j.next - 1 <= j.begin || j.next - 1 <= j.ack + LEAD_FOLLOW_DIS + 1)
  }

  ghost predicate JobOk(j: Job) {
    && WindowKept(j)
    && (j.status != Sending ==> j.ack == 0)
    && (j.status == Sending && !j.waiting ==> j.next == j.begin || j.next - 1 <= j.ack + LEAD_FOLLOW_DIS)
    && (j.status == Sending && j.waiting ==> j.next > j.begin)
  }

  lemma OpenWindow(last: Instance, ack: Instance)
    requires last < INSTANCE_LIMIT && ack < INSTANCE_LIMIT
    requires !MustWait(last, ack)
    ensures last <= ack + LEAD_FOLLOW_DIS
  {
  }

  lemma StepKeepsJobOk(j: Job, e: Event)
    requires JobOk(j) && j.next < INSTANCE_LIMIT && j.ack < INSTANCE_LIMIT
    ensures JobOk(Step(j, e))
  {
    if e.Sent? && CanSend(j, e.ins) && !MustWait(j.next, j.ack) {
      OpenWindow(j.next, j.ack);
    }
    if e.Rechecked? && j.status == Sending && j.waiting && !MustWait(j.next - 1, j.ack) {
      OpenWindow(j.next - 1, j.ack);
    }
  }

  ghost predicate Within64Bits(events: seq<Event>) {
    forall k :: 0 <= k <= |events| ==> Steps(events[..k]).next < INSTANCE_LIMIT && Steps(events[..k]).ack < INSTANCE_LIMIT
  }

  /**
    In every interleaving of confirmations, sends, waits and acknowledgements, the last instance sent is the first
    one, or at most LEAD_FOLLOW_DIS + 1 past the acknowledged one, whatever the acknowledgements say.
    */
  lemma {:induction false} WindowHolds(events: seq<Event>)
    requires Within64Bits(events)
    ensures JobOk(Steps(events))
  {
    if events == [] {
    } else {
      var before := events[..|events| - 1];
      forall k | 0 <= k <= |before|
        ensures Steps(before[..k]).next < INSTANCE_LIMIT && Steps(before[..k]).ack < INSTANCE_LIMIT
      {
        assert before[..k] == events[..k];
      }
      WindowHolds(before);
      assert before == before[..|before|];
      StepKeepsJobOk(Steps(before), events[|events| - 1]);
    }
  }

  /** As long as a job sends, its receiver and first instance stay, and what was sent and acknowledged only grows. */
  lemma {:induction false} SendingJobIsStable(events: seq<Event>, m: nat, n: nat)
    requires m <= n <= |events|
    requires forall i :: m <= i <= n ==> Steps(events[..i]).status == Sending
    ensures var j, k := Steps(events[..m]), Steps(events[..n]);
      k.receiver == j.receiver && k.begin == j.begin && k.ack >= j.ack && k.next >= j.next
  {
    if m == n {
    } else {
      SendingJobIsStable(events, m, n - 1);
      assert events[..n][..n - 1] == events[..n - 1];
      assert Steps(events[..n - 1]).status == Sending;
    }
  }

  /**
    An acknowledgement ahead of everything sent makes the unsigned distance wrap: the loop then waits, although
    the follower is ahead, exactly unless the wrapped distance is itself within the window.
    */
  lemma AckAheadBlocks(last: Instance, ack: Instance)
    requires last < ack < INSTANCE_LIMIT
    ensures MustWait(last, ack) <==> ack - last < INSTANCE_LIMIT - LEAD_FOLLOW_DIS
  {
  }

  lemma StepsAppend(events: seq<Event>, e: Event)
    ensures Steps(events + [e]) == Step(Steps(events), e)
  {
    assert (events + [e])[..|events|] == events;
  }

  /** A follower that confirms, and acknowledges a later instance before the first value is sent, blocks its job. */
  lemma EarlyAckBlocks(receiver: NodeId, first: Instance, ack: Instance, ins: Instance)
    requires first < ack < INSTANCE_LIMIT && first < ins
    ensures var events := [Confirmed(receiver, first), Started, Acknowledged(receiver, ack), Sent(ins)];
      var waits := ack - first < INSTANCE_LIMIT - LEAD_FOLLOW_DIS;
      Steps(events) == Job(Sending, receiver, first, ack, first + 1, waits)
  {
    var events := [Confirmed(receiver, first), Started, Acknowledged(receiver, ack), Sent(ins)];
    StepsAppend([], events[0]);
    StepsAppend(events[..1], events[1]);
    StepsAppend(events[..2], events[2]);
    StepsAppend(events[..3], events[3]);
    assert [] + [events[0]] == events[..1] && events[..1] + [events[1]] == events[..2];
    assert events[..2] + [events[2]] == events[..3] && events[..3] + [events[3]] == events;
    AckAheadBlocks(first, ack);
  }

  /** A job that waits for a follower that is ahead. */
  ghost predicate Blocked(j: Job) {
    && j.status == Sending && j.waiting
    && 1 <= j.next <= j.ack < INSTANCE_LIMIT - LEAD_FOLLOW_DIS
  }

  /** Nothing but giving up ends that wait: neither waking up nor any later acknowledgement. */
  lemma {:induction false} BlockedUntilFinished(events: seq<Event>, more: seq<Event>)
    requires Blocked(Steps(events))
    requires forall e :: e in more ==>
      !e.Finished? && (e.Acknowledged? ==> e.ins < INSTANCE_LIMIT - LEAD_FOLLOW_DIS)
    ensures Blocked(Steps(events + more)) && Steps(events + more).next == Steps(events).next
  {
    if more == [] {
      assert events + more == events;
    } else {
      var before, last := more[..|more| - 1], more[|more| - 1];
      BlockedUntilFinished(events, before);
      assert (events + more)[..|events + more| - 1] == events + before;
      BlockedStep(Steps(events + before), last);
    }
  }

  lemma BlockedStep(j: Job, e: Event)
    requires Blocked(j) && !e.Finished? && (e.Acknowledged? ==> e.ins < INSTANCE_LIMIT - LEAD_FOLLOW_DIS)
    ensures Blocked(Step(j, e)) && Step(j, e).next == j.next
  {
    AckAheadBlocks(j.next - 1, j.ack);
  }

  lemma AckStep(j: Job, e: Event)
    ensures var k := Step(j, e);
      && (k.ack == j.ack || k.ack == 0 || (j.status == Sending && e == Acknowledged(j.receiver, k.ack)))
      && (k.status == Sending ==> j.status == Sending || (j.status == Prepared && k.ack == j.ack))
      && (k.status == Sending && j.status == Sending ==> k.receiver == j.receiver)
      && (k.status != Sending && j.status == Sending ==> k.ack == 0)
  {
  }

  /** What a sending job takes for acknowledged is what its own receiver acknowledged. */
  lemma {:induction false} AckCameFromReceiver(events: seq<Event>)
    ensures var j := Steps(events);
      if j.status == Sending && j.ack != 0 then Acknowledged(j.receiver, j.ack) in events else j.ack == 0
  {
    if events == [] {
    } else {
      hide Step;
      var before, last := events[..|events| - 1], events[|events| - 1];
      AckCameFromReceiver(before);
      assert last in events && forall e :: e in before ==> e in events;
      AckStep(Steps(before), last);
    }
  }

  /** A job is given up exactly while it waits, or once it has sent everything there is. */
  lemma EndsWhenAllIsSent(events: seq<Event>, ins: Instance)
    requires Steps(events).status == Sending
    ensures var j, k := Steps(events), Steps(events + [Finished(ins)]);
      k == if j.waiting || j.next >= ins then NO_JOB else j
  {
    StepsAppend(events, Finished(ins));
  }

  /** The job fields of `PaxLearner`; each method is one critical section of the source. */
  class SendingJob {
    var status: JobStatus
    var receiver: NodeId
    var begin: Instance
    var ack: Instance
    var next: Instance
    var waiting: bool

    ghost function Value(): Job
      reads this
    {
      Job(status, receiver, begin, ack, next, waiting)
    }

    constructor ()
      ensures Value() == NO_JOB
    {
      status, receiver, begin, ack, next, waiting := Stale, 0, 0, 0, 0, false;
    }

    method MakeSenderReady(receiver: NodeId, ins: Instance)
      modifies this
      ensures Value() == Confirm(old(Value()), receiver, ins)
    {
      if status != Stale {
        return;
      }
      status, this.receiver, begin := Prepared, receiver, ins;
    }

    method WaitForReady()
      modifies this
      ensures Value() == Start(old(Value()))
    {
      if status == Prepared {
        status, next, waiting := Sending, begin, false;
      }
    }

    /** One turn of the loop of `SendLearnedValues`; returns the instance sent, if any. */
    method Turn(ins: Instance) returns (sent: bool, instance: Instance)
      modifies this
      ensures Value() == SendNext(old(Value()), ins)
      ensures sent == CanSend(old(Value()), ins)
      ensures instance == old(next)
    {
      instance := next;
      if status != Sending || waiting || next >= ins {
        return false, next;
      }
      var last := next;
      next := next + 1;
      waiting := MustWait(last, ack);
      return true, last;
    }

    method WakeUp()
      modifies this
      ensures Value() == Recheck(old(Value()))
    {
      if status == Sending && waiting && next > 0 {
        waiting := MustWait(next - 1, ack);
      }
    }

    method ClearSendingState(ins: Instance)
      modifies this
      ensures Value() == Finish(old(Value()), ins)
    {
      if status == Sending && (waiting || next >= ins) {
        status, receiver, begin, ack, next, waiting := Stale, 0, 0, 0, 0, false;
      }
    }

    method HandleValueAck(sender: NodeId, ins: Instance)
      modifies this
      ensures Value() == Ack(old(Value()), sender, ins)
    {
      if status != Sending || receiver != sender {
        return;
      }
      if ins > ack {
        ack := ins;
      }
    }
  }
}
