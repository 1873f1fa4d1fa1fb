/** The two-phase proposer: ballot choice, adoption of accepted values, and its rounds. */
module Proposer {
  import opened Basics
  import opened Messages
  import opened KvStateMachine
  import opened ProposalCounter

  /** `ProposerStatus`; the source never enters kMajorityRejected. */
  datatype Status = Idle | Proposing | Accepting | MajorityAccepted

  /**
    `PaxProposer` with its `ProposerState`. A timer holds the instance its callback was published with.
    Repair: `adopted` is the ballot of the adopted value, kept apart from `highest`, the highest ballot
    heard of in rejections and promises; the source uses one field for both.
    */
  datatype ProposerState = ProposerState(
    status: Status,
    tally: Tally,
    value: LogValue,
    pid: nat,
    highest: Ballot,
    adopted: Ballot,
    proposeTimer: Option<Instance>,
    acceptTimer: Option<Instance>)

  /** A proposer freshly constructed and initialized with a proposal id. */
  function Fresh(pid: nat): ProposerState {
    ProposerState(Idle, NO_VOTES, Empty, pid, NO_BALLOT, NO_BALLOT, None, None)
  }

  function BallotOf(p: ProposerState, me: NodeId): Ballot {
    Ballot(p.pid, me)
  }

  /** `NewProposalId`: above everything this proposer used or heard of. */
  function NewPid(p: ProposerState): nat {
    (if p.pid > p.highest.pid then p.pid else p.highest.pid) + 1
  }

  /** `Propose`: a new round. The ballot is used again unless somebody rejected the previous round. */
  function StartRound(p: ProposerState, me: NodeId, ins: Instance): (ProposerState, Send) {
    var pid := if p.tally.rejections != {} then NewPid(p) else p.pid;
    (p.(status := Proposing, pid := pid, tally := NO_VOTES, proposeTimer := Some(ins)),
     All(Propose(ins, Ballot(pid, me))))
  }

  /** `NewValue` with a value flushed from the submission queue: an adopted or earlier value stays. */
  function SubmitValue(p: ProposerState, me: NodeId, ins: Instance, value: LogValue): (ProposerState, Send) {
    StartRound(if p.value == Empty then p.(value := value) else p, me, ins)
  }

  /** `ProposeTimeoutCallback`: both timers call it with the instance they were published in. */
  function OnTimer(p: ProposerState, me: NodeId, ins: Instance, published: Instance): (ProposerState, Send) {
    if published != ins then (p, Quiet) else StartRound(p, me, ins)
  }

  function OnProposeTimer(p: ProposerState, me: NodeId, ins: Instance): (ProposerState, Send) {
    match p.proposeTimer
    case None => (p, Quiet)
    case Some(published) => OnTimer(p.(proposeTimer := None), me, ins, published)
  }

  function OnAcceptTimer(p: ProposerState, me: NodeId, ins: Instance): (ProposerState, Send) {
    match p.acceptTimer
    case None => (p, Quiet)
    case Some(published) => OnTimer(p.(acceptTimer := None), me, ins, published)
  }

  /** `NewValueTimeoutCallback`: give the running round up. */
  function GiveUp(p: ProposerState): ProposerState {
    if p.status != Proposing && p.status != Accepting then p
    else p.(status := Idle, proposeTimer := None, acceptTimer := None)
  }

  /** `TryUpdateHighestProposalId`. */
  function Hear(p: ProposerState, ballot: Ballot): ProposerState {
    p.(highest := p.highest.Max(ballot))
  }

  /**
    `TryUpdateLogValue`: adopt the value of the highest accepted ballot reported so far in this instance.
    Repair: the ballot compared is the accepted one, and only if something was accepted.
    */
  function Adopt(p: ProposerState, accepted: Ballot, value: LogValue): ProposerState {
    if accepted.pid == 0 then p
    else
      var heard := Hear(p, accepted);
      if p.adopted.Less(accepted) then heard.(adopted := accepted, value := value) else heard
  }

  /** `Accept`: ask for acceptance of the value at the promised ballot. */
  function StartAccept(p: ProposerState, me: NodeId, ins: Instance): (ProposerState, Send) {
    (p.(status := Accepting, tally := NO_VOTES, acceptTimer := Some(ins)),
     All(Accept(ins, BallotOf(p, me), p.value)))
  }

  /** Replies count only for this node's current ballot; repair: and only for its current instance. */
  predicate Relevant(p: ProposerState, me: NodeId, ins: Instance, status: Status, m: Message)
    requires m.Promise? || m.ProposeReject? || m.Accepted? || m.AcceptReject?
  {
    p.status == status && m.ins == ins && m.ballot == BallotOf(p, me)
  }

  /** The end of `HandleProposeAck`. Repair: a promise majority starts the accept phase. */
  function AfterProposeAck(cfg: Config, me: NodeId, ins: Instance, p: ProposerState): (ProposerState, Send) {
    if |p.tally.promises| >= cfg.majority then StartAccept(p, me, ins)
    else if |p.tally.rejections| >= cfg.majority || !StillPending(p.tally, |cfg.members|) then
      (p.(proposeTimer := Some(ins)), Quiet)
    else (p, Quiet)
  }

  /** `HandleProposeAck`. Repair: votes are counted by sender. */
  function OnProposeAck(cfg: Config, me: NodeId, ins: Instance, p: ProposerState, m: Message): (ProposerState, Send)
    requires m.Promise? || m.ProposeReject?
  {
    if !Relevant(p, me, ins, Proposing, m) then (p, Quiet)
    else if m.Promise? then
      var q := Adopt(p, m.accepted, m.value);
      AfterProposeAck(cfg, me, ins, q.(tally := AddPromise(q.tally, m.sender)))
    else
      var q := Hear(p, m.promised);
      AfterProposeAck(cfg, me, ins, q.(tally := AddRejection(q.tally, m.sender)))
  }

  /** The end of `HandleAcceptAck`; the flag says that a majority accepted. */
  function AfterAcceptAck(cfg: Config, ins: Instance, p: ProposerState): (ProposerState, bool) {
    if |p.tally.approvals| >= cfg.majority then (p.(status := MajorityAccepted), true)
    else if |p.tally.rejections| >= cfg.majority || !StillPending(p.tally, |cfg.members|) then
      (p.(acceptTimer := Some(ins)), false)
    else (p, false)
  }

  /** `HandleAcceptAck` up to the processing of a chosen value. */
  function OnAcceptAck(cfg: Config, me: NodeId, ins: Instance, p: ProposerState, m: Message): (ProposerState, bool)
    requires m.Accepted? || m.AcceptReject?
  {
    if !Relevant(p, me, ins, Accepting, m) then (p, false)
    else if m.Accepted? then
      AfterAcceptAck(cfg, ins, p.(tally := AddApproval(p.tally, m.sender)))
    else
      var q := Hear(p, m.promised);
      AfterAcceptAck(cfg, ins, q.(tally := AddRejection(q.tally, m.sender)))
  }

  /** `InstanceDone` withdraws the timers, `NewInstance` forgets everything but the proposal id. */
  function NextInstance(p: ProposerState): ProposerState {
    Fresh(p.pid)
  }

  /** `PaxProposer` and its `ProposerState`, updated in place. */
  class PaxProposer {
    const cfg: Config
    const me: NodeId
    const counter: Counter
    var status: Status
    var value: LogValue
    var pid: nat
    var highest: Ballot
    var adopted: Ballot
    var proposeTimer: Option<Instance>
    var acceptTimer: Option<Instance>

    ghost function Value(): ProposerState
      reads this, counter
    {
      ProposerState(status, counter.Value(), value, pid, highest, adopted, proposeTimer, acceptTimer)
    }

    constructor (cfg: Config, me: NodeId, pid: nat)
      ensures this.cfg == cfg && this.me == me && Value() == Fresh(pid) && fresh(counter)
    {
      this.cfg, this.me := cfg, me;
      counter := new Counter();
      status, value, this.pid := Idle, Empty, pid;
      highest, adopted, proposeTimer, acceptTimer := NO_BALLOT, NO_BALLOT, None, None;
    }

    method NewValue(ins: Instance, submitted: LogValue) returns (out: Send)
      modifies this, counter
      ensures (Value(), out) == SubmitValue(old(Value()), me, ins, submitted)
    {
      if value == Empty {
        value := submitted;
      }
      out := Round(ins);
    }

    /** `Propose`. */
    method Round(ins: Instance) returns (out: Send)
      modifies this, counter
      ensures (Value(), out) == StartRound(old(Value()), me, ins)
    {
      status := Proposing;
      if counter.rejections != {} {
        NewProposalId();
      }
      counter.Reset();
      proposeTimer := Some(ins);
      out := All(Propose(ins, Ballot(pid, me)));
    }

    method NewProposalId()
      modifies this`pid
      ensures pid == NewPid(old(Value()))
      ensures pid > old(pid) && pid > highest.pid
    {
      pid := (if pid > highest.pid then pid else highest.pid) + 1;
    }

    method TimeoutCallback(ins: Instance, published: Instance) returns (out: Send)
      modifies this, counter
      ensures (Value(), out) == OnTimer(old(Value()), me, ins, published)
    {
      if published != ins {
        return Quiet;
      }
      out := Round(ins);
    }

    method ProposeTimeout(ins: Instance) returns (out: Send)
      modifies this, counter
      ensures (Value(), out) == OnProposeTimer(old(Value()), me, ins)
      ensures out == if old(proposeTimer) == Some(ins) then All(Propose(ins, Ballot(pid, me))) else Quiet
    {
      match proposeTimer {
        case None => out := Quiet;
        case Some(published) =>
          proposeTimer := None;
          out := TimeoutCallback(ins, published);
      }
    }

    method AcceptTimeout(ins: Instance) returns (out: Send)
      modifies this, counter
      ensures (Value(), out) == OnAcceptTimer(old(Value()), me, ins)
      ensures out == if old(acceptTimer) == Some(ins) then All(Propose(ins, Ballot(pid, me))) else Quiet
    {
      match acceptTimer {
        case None => out := Quiet;
        case Some(published) =>
          acceptTimer := None;
          out := TimeoutCallback(ins, published);
      }
    }

    method NewValueTimeout()
      modifies this
      ensures Value() == GiveUp(old(Value()))
    {
      if status != Proposing && status != Accepting {
        return;
      }
      proposeTimer, acceptTimer := None, None;
      status := Idle;
    }

    method TryUpdateHighestProposalId(ballot: Ballot) returns (updated: bool)
      modifies this`highest
      ensures Value() == Hear(old(Value()), ballot)
      ensures updated <==> old(highest).Less(ballot)
    {
      if ballot.pid < highest.pid {
        return false;
      }
      if ballot.pid > highest.pid || ballot.node > highest.node {
        highest := ballot;
        return true;
      }
      return false;
    }

    method TryUpdateLogValue(ballot: Ballot, accepted: LogValue)
      modifies this`highest, this`adopted, this`value
      ensures Value() == Adopt(old(Value()), ballot, accepted)
    {
      if ballot.pid == 0 {
        return;
      }
      var heard := TryUpdateHighestProposalId(ballot);
      if adopted.Less(ballot) {
        adopted, value := ballot, accepted;
      }
    }

    method HandleProposeAck(ins: Instance, m: Message) returns (out: Send)
      requires m.Promise? || m.ProposeReject?
      modifies this, counter
      ensures (Value(), out) == OnProposeAck(cfg, me, ins, old(Value()), m)
    {
      if status != Proposing || m.ins != ins || m.ballot != Ballot(pid, me) {
        return Quiet;
      }
      var counted;
      if m.Promise? {
        TryUpdateLogValue(m.accepted, m.value);
        counted := counter.Promise(m.sender);
      } else {
        var heard := TryUpdateHighestProposalId(m.promised);
        counted := counter.Reject(m.sender);
      }
      if |counter.promises| >= cfg.majority {
        out := AskAcceptance(ins);
      } else {
        if |counter.rejections| >= cfg.majority || counter.votes >= |cfg.members| {
          proposeTimer := Some(ins);
        }
        out := Quiet;
      }
    }

    /** `Accept`. */
    method AskAcceptance(ins: Instance) returns (out: Send)
      modifies this, counter
      ensures (Value(), out) == StartAccept(old(Value()), me, ins)
    {
      status := Accepting;
      counter.Reset();
      acceptTimer := Some(ins);
      out := All(Accept(ins, Ballot(pid, me), value));
    }

    /** `HandleAcceptAck`; `chosen` tells the controller to process the chosen value. */
    method HandleAcceptAck(ins: Instance, m: Message) returns (chosen: bool)
      requires m.Accepted? || m.AcceptReject?
      modifies this, counter
      ensures (Value(), chosen) == OnAcceptAck(cfg, me, ins, old(Value()), m)
      ensures var approvers := old(counter.approvals) + if m.Accepted? then {m.sender} else {};
        chosen <==> old(status) == Accepting && m.ins == ins && m.ballot == Ballot(old(pid), me) && |approvers| >= cfg.majority
    {
      if status != Accepting || m.ins != ins || m.ballot != Ballot(pid, me) {
        return false;
      }
      var counted;
      if m.Accepted? {
        counted := counter.Approve(m.sender);
      } else {
        var heard := TryUpdateHighestProposalId(m.promised);
        counted := counter.Reject(m.sender);
      }
      assert counter.approvals == old(counter.approvals) + if m.Accepted? then {m.sender} else {};
      if |counter.approvals| >= cfg.majority {
        status := MajorityAccepted;
        return true;
      }
      if |counter.rejections| >= cfg.majority || counter.votes >= |cfg.members| {
        acceptTimer := Some(ins);
      }
      return false;
    }

    /** `InstanceDone` and `NewInstance`. */
    method NewInstance()
      modifies this, counter
      ensures Value() == NextInstance(old(Value()))
    {
      proposeTimer, acceptTimer := None, None;
      counter.Reset();
      highest, adopted, value := NO_BALLOT, NO_BALLOT, Empty;
      status := Idle;
    }
  }
}
