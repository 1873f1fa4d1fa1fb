/** One node: its players, its log, its state machine, and the controller that drives them. */
module Node {
  import opened Messages
  import opened KvStateMachine
  import opened Proposer
  import Acceptor
  import Learner
  import SyncJob

  datatype Execution = Execution(ins: Instance, value: LogValue)

  /**
    `PaxController` with its players. `log` and `sm` survive a crash. `boot` is the instance this node started
    at and `executed` what its state machine was given since; both only record history.
    */
  datatype Node = Node(
    ins: Instance,
    acceptor: LogEntry,
    proposer: ProposerState,
    learner: Learner.LearnerState,
    log: Log,
    sm: Store,
    boot: Instance,
    executed: seq<Execution>)

  /** The end of `HandleMessage` when a value was learned: `Execute`, `InstanceDone`, `NewInstance`. */
  function Advance(n: Node): Node {
    n.(
      ins := n.ins + 1,
      acceptor := NO_ENTRY,
      proposer := Proposer.NextInstance(n.proposer),
      learner := Learner.NextInstance(n.learner),
      sm := Apply(n.sm, n.ins, n.learner.value),
      executed := n.executed + [Execution(n.ins, n.learner.value)])
  }

  function Settle(n: Node): Node {
    if n.learner.learned then Advance(n) else n
  }

  /** The acceptor takes a new state and writes it to the log before it replies. */
  function Persist(n: Node, s: LogEntry): Node {
    n.(acceptor := s, log := n.log[n.ins := Acceptor.Reported(s)])
  }

  /** `LearnFromOthers`: learn and rewrite the record, if the message is about the current instance. */
  function LearnFromOthers(n: Node, m: Message): Node
    requires m.ChosenBroadcast? || m.ValueSend? || m.ValueSync?
  {
    if m.ins != n.ins then n
    else
      n.(learner := Learner.Learn(n.learner, m.value),
         log := n.log[n.ins := Learner.LearnedRecord(Read(n.log, n.ins), m.ballot, m.value)])
  }

  function AcceptorHandle(cfg: Config, me: NodeId, n: Node, m: Message): (Node, Send)
    requires m.Propose? || m.Accept?
  {
    if m.ins != n.ins then (n, Quiet)  // repair: the instance check the source leaves as a todo
    else if m.Propose? then
      var (s, reply) := Acceptor.OnPropose(me, n.ins, n.acceptor, m);
      (if reply.msg.Promise? then Persist(n, s) else n, reply)
    else
      var (s, reply) := Acceptor.OnAccept(cfg.strict, me, n.ins, n.acceptor, m);
      (if reply.msg.Accepted? then Persist(n, s) else n, reply)
  }

  function LearnerHandle(me: NodeId, n: Node, m: Message): (Node, Send)
    requires m.ValueChosen? || m.ChosenBroadcast? || m.ShallILearn? || m.ValueSend? || m.TellInstance?
          || m.ConfirmLearn? || m.ValueSync? || m.SyncAck?
  {
    match m
    case ValueChosen(_, _) =>
      var (s, out) := Learner.OnChosen(me, n.ins, n.learner, n.acceptor, m);
      (n.(learner := s), out)
    case ChosenBroadcast(_, _, _) =>
      (if Learner.TakesPublished(n.ins, n.acceptor, m) then LearnFromOthers(n, m) else n, Quiet)
    case ValueSend(_, _, _, _) =>
      (if Learner.TakesPublished(n.ins, n.acceptor, m) then LearnFromOthers(n, m) else n, Quiet)
    case ValueSync(sender, _, _, _) =>
      (LearnFromOthers(n, m), To(sender, SyncAck(me, n.ins)))
    case ShallILearn(_, _) =>
      var (s, out) := Learner.OnShallILearn(me, n.ins, n.learner, n.log, m);
      (n.(learner := s), out)
    case TellInstance(_, _, _) =>
      var (s, out) := Learner.OnTellInstance(me, n.ins, n.learner, m);
      (n.(learner := s), out)
    case ConfirmLearn(sender, ins) =>
      (n.(learner := n.learner.(job := SyncJob.Confirm(n.learner.job, sender, ins))), Quiet)
    case SyncAck(sender, ins) =>
      (n.(learner := n.learner.(job := SyncJob.Ack(n.learner.job, sender, ins))), Quiet)
  }

  /**
    The proposer's share of `HandleMessage`. A majority of acceptances makes the proposer hand a VALUE_CHOSEN
    message to the controller, which handles it within this call.
    */
  function ProposerHandle(cfg: Config, me: NodeId, n: Node, m: Message): (Node, Send)
    requires m.Promise? || m.ProposeReject? || m.Accepted? || m.AcceptReject?
    decreases 2
  {
    if m.Promise? || m.ProposeReject? then
      var (p, out) := Proposer.OnProposeAck(cfg, me, n.ins, n.proposer, m);
      (n.(proposer := p), out)
    else
      var (p, chosen) := Proposer.OnAcceptAck(cfg, me, n.ins, n.proposer, m);
      if chosen then Handle(cfg, me, n.(proposer := p), ValueChosen(m.ins, m.ballot))
      else (n.(proposer := p), Quiet)
  }

  /** `PaxController::HandleMessage`. */
  function Handle(cfg: Config, me: NodeId, n: Node, m: Message): (Node, Send)
    decreases if m.Accepted? || m.AcceptReject? || m.Promise? || m.ProposeReject? then 3 else 1
  {
    if m.NewValueCommitted? then (n, Quiet)
    else
      var (next, out) :=
        if m.Propose? || m.Accept? then AcceptorHandle(cfg, me, n, m)
        else if m.Promise? || m.ProposeReject? || m.Accepted? || m.AcceptReject? then ProposerHandle(cfg, me, n, m)
        else LearnerHandle(me, n, m);
      (Settle(next), out)
  }

  /** The greatest instance with a record; 0 when the log is empty. */
  ghost predicate IsLast(log: Log, last: Instance) {
    (last == 0 || last in log) && forall i :: i in log ==> i <= last
  }

  lemma {:induction false} LastExists(log: Log) returns (last: Instance)
    ensures IsLast(log, last)
    decreases |log|
  {
    if log == map[] {
      last := 0;
    } else {
      var i :| i in log;
      var rest := log - {i};
      var below := LastExists(rest);
      last := if i > below then i else below;
      forall j | j in log ensures j <= last {
        assert j == i || j in rest;
      }
    }
  }

  ghost function Last(log: Log): (last: Instance)
    ensures IsLast(log, last)
  {
    LastExistsAsFact(log);
    var last :| IsLast(log, last);
    last
  }

  lemma LastExistsAsFact(log: Log)
    ensures exists last :: IsLast(log, last)
  {
    var last := LastExists(log);
  }

  /**
    Where `PaxController::Init` resumes. Repairs: the two cases the source leaves unset (nothing new in the log,
    and exactly one new record) resume after the applied instance and at the record.
    */
  function ResumeAt(last: Instance, applied: Instance): Instance {
    if last > applied then last else applied + 1
  }

  /**
    A crash and `Init`. Repairs: the acceptor is restored from the latest record (the source reads instance -1),
    and only if that record is of the instance the node resumes at.
    */
  ghost function Restart(log: Log, sm: Store): Node {
    var last := Last(log);
    var ins := ResumeAt(last, sm.applied);
    var acceptor := Read(log, ins);
    Node(ins, acceptor, Proposer.Fresh(acceptor.accepted.pid + 1), Learner.FRESH, log,
         if last > sm.applied + 1 then Run(sm, ValueAt(log), sm.applied, last) else sm,
         ins, [])
  }
}
