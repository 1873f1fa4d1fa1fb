/** `PaxController`: routing, the re-entrant handling of a chosen value, and the move to the next instance. */
module Controller {
  import opened Messages
  import opened KvStateMachine
  import opened Node
  import opened Routing
  import opened Cluster
  import Acceptor
  import Proposer
  import Learner

  class PaxController {
    const cfg: Config
    const me: NodeId
    const store: PaxStore
    const acceptor: Acceptor.PaxAcceptor
    const proposer: Proposer.PaxProposer
    const learner: Learner.PaxLearner
    const machine: KvMachine
    var ins: Instance
    ghost var boot: Instance
    ghost var executed: seq<Execution>

    ghost predicate Valid()
      reads this
    {
      && acceptor.me == me && acceptor.strict == cfg.strict && acceptor.store == store
      && proposer.me == me && proposer.cfg == cfg
      && learner.me == me && learner.store == store
    }

    ghost function Value(): Node
      reads this, store, acceptor, proposer, proposer.counter, learner, learner.job, machine
    {
      Node(ins, acceptor.Value(), proposer.Value(), learner.Value(), store.log, machine.Value(), boot, executed)
    }

    /** Players on an empty log, at the first instance. */
    constructor (cfg: Config, me: NodeId)
      ensures Valid() && this.cfg == cfg && this.me == me
      ensures Value() == Node(1, NO_ENTRY, Proposer.Fresh(1), Learner.FRESH, map[], EMPTY_STORE, 1, [])
    {
      this.cfg, this.me := cfg, me;
      var log := new PaxStore();
      store := log;
      acceptor := new Acceptor.PaxAcceptor(me, cfg.strict, log);
      proposer := new Proposer.PaxProposer(cfg, me, 1);
      learner := new Learner.PaxLearner(me, log);
      machine := new KvMachine(EMPTY_STORE);
      ins, boot, executed := 1, 1, [];
    }

    /** `Init` after a crash: what survived are the log and the state machine. */
    constructor Init(cfg: Config, me: NodeId, store: PaxStore, machine: KvMachine)
      modifies machine
      ensures Valid() && this.cfg == cfg && this.me == me && this.store == store && this.machine == machine
      ensures Value() == Restart(old(store.log), old(machine.Value()))
    {
      hide Run, IsLast;
      this.cfg, this.me, this.store, this.machine := cfg, me, store, machine;
      acceptor := new Acceptor.PaxAcceptor(me, cfg.strict, store);
      learner := new Learner.PaxLearner(me, store);
      var last := LastInstance(store.log);
      var at := if last > machine.applied then last else machine.applied + 1;
      var entry := store.ReadLog(at);
      proposer := new Proposer.PaxProposer(cfg, me, entry.accepted.pid + 1);
      ins, boot, executed := at, at, [];
      new;
      Restore(last);
    }

    /** The part of `Init` that reads the log: the acceptor's record, and what the state machine has not executed. */
    method Restore(last: Instance)
      requires Valid()
      modifies acceptor, machine
      ensures Value() == old(Value()).(
        acceptor := Read(store.log, ins),
        sm := if last > old(machine.applied) + 1
              then Run(old(machine.Value()), ValueAt(store.log), old(machine.applied), last) else old(machine.Value()))
    {
      hide Run;
      acceptor.Init(ins);
      if last > machine.applied + 1 {
        PushSMByState(last);
      }
    }

    /** The greatest instance with a record; 0 if there is none. */
    static method LastInstance(log: Log) returns (last: Instance)
      ensures last == Last(log)
    {
      last := 0;
      var rest := log.Keys;
      while rest != {}
        invariant rest <= log.Keys
        invariant last == 0 || last in log
        invariant forall i :: i in log && i !in rest ==> i <= last
        decreases |rest|
      {
        var i :| i in rest;
        rest := rest - {i};
        if i > last {
          last := i;
        }
      }
    }

    method AcceptorMessage(m: Message) returns (out: Send)
      requires Valid() && ToAcceptor(m)
      modifies acceptor, store
      ensures (Value(), out) == AcceptorHandle(cfg, me, old(Value()), m)
    {
      if m.ins != ins {
        return Quiet;
      }
      if m.Propose? {
        out := acceptor.HandlePropose(ins, m);
      } else {
        out := acceptor.HandleAccept(ins, m);
      }
    }

    method LearnerMessage(m: Message) returns (out: Send)
      requires Valid() && ToLearner(m)
      modifies learner, learner.job, store
      ensures (Value(), out) == LearnerHandle(me, old(Value()), m)
    {
      hide Run, Last, Restart, TypeCode;
      out := Quiet;
      var accepted := LogEntry(acceptor.promised, acceptor.accepted, acceptor.value);
      match m {
        case ValueChosen(_, _) => out := learner.HandleSenderPublish(ins, accepted, m);
        case ChosenBroadcast(_, _, _) => learner.HandleOthersPublish(ins, accepted, m);
        case ValueSend(_, _, _, _) => learner.HandleOthersPublish(ins, accepted, m);
        case ShallILearn(_, _) => out := learner.HandleShallILearn(ins, m);
        case ConfirmLearn(sender, i) => learner.job.MakeSenderReady(sender, i);
        case ValueSync(sender, _, _, _) =>
          learner.LearnFromOthers(ins, m);
          out := To(sender, SyncAck(me, ins));
        case SyncAck(sender, i) => learner.job.HandleValueAck(sender, i);
        case TellInstance(_, _, _) => out := learner.HandleTellNewInstanceId(ins, m);
      }
    }

    /** A chosen value is handled by a nested call of `HandleMessage`, before this call returns. */
    method ProposerMessage(m: Message) returns (out: Send)
      requires Valid() && ToProposer(m)
      modifies this, acceptor, proposer, proposer.counter, learner, learner.job, machine, store
      ensures (Value(), out) == ProposerHandle(cfg, me, old(Value()), m)
      decreases 2
    {
      if m.Promise? || m.ProposeReject? {
        out := proposer.HandleProposeAck(ins, m);
      } else {
        var chosen := proposer.HandleAcceptAck(ins, m);
        if chosen {
          out := HandleMessage(ValueChosen(m.ins, m.ballot));
        } else {
          out := Quiet;
        }
      }
    }

    method HandleMessage(m: Message) returns (out: Send)
      requires Valid()
      modifies this, acceptor, proposer, proposer.counter, learner, learner.job, machine, store
      ensures (Value(), out) == Handle(cfg, me, old(Value()), m)
      decreases if ToProposer(m) then 3 else 1
    {
      RoutesExactly(m);
      var code := TypeCode(m);
      if ForPlaceholder(code) {
        return Quiet;
      } else if ForLearner(code) {
        out := LearnerMessage(m);
      } else if ForProposer(code) {
        out := ProposerMessage(m);
      } else {
        out := AcceptorMessage(m);
      }
      if learner.learned {
        LearnedValue();
      }
    }

    /** `Execute`, `InstanceDone`, `NewInstance`. */
    method LearnedValue()
      requires Valid()
      modifies this, acceptor, proposer, proposer.counter, learner, machine
      ensures Value() == Advance(old(Value()))
    {
      executed := executed + [Execution(ins, learner.value)];
      var done := machine.Execute(ins, learner.value);
      ins := ins + 1;
      acceptor.NewInstance();
      proposer.NewInstance();
      learner.NewInstance();
    }

    /** `TryNewValue` with a submitted value: not while catching up. */
    method TryNewValue(value: LogValue) returns (out: Send)
      requires Valid() && value != Empty
      modifies proposer, proposer.counter
      ensures (Value(), out) == LocalStep(me, old(Value()), NewValue(me, value))
    {
      if ins + 1 < learner.highestKnown {
        return Quiet;
      }
      out := proposer.NewValue(ins, value);
    }

    /** The timers of the proposer. */
    method Timeout(accepting: bool) returns (out: Send)
      requires Valid()
      modifies proposer, proposer.counter
      ensures (Value(), out) ==
        LocalStep(me, old(Value()), if accepting then AcceptTimeout(me) else ProposeTimeout(me))
    {
      if accepting {
        out := proposer.AcceptTimeout(ins);
      } else {
        out := proposer.ProposeTimeout(ins);
      }
    }

    /** `ShallLearn`, the timer of the follower. */
    method ShallLearn() returns (out: Send)
      requires Valid()
      modifies learner
      ensures (Value(), out) == LocalStep(me, old(Value()), AskToLearn(me))
    {
      learner.isLearning := false;
      out := All(ShallILearn(me, ins));
    }

    /** One turn of the sending loop. */
    method SendingTurn() returns (out: Send)
      requires Valid()
      modifies learner.job
      ensures (Value(), out) == LocalStep(me, old(Value()), JobSend(me))
    {
      var receiver := learner.job.receiver;
      var sent, instance := learner.job.Turn(ins);
      if !sent {
        return Quiet;
      }
      out := learner.SendLearnedValue(instance, receiver, true);
    }

    /** `PushSMByState`: execute the log again, starting at the last applied instance. */
    method PushSMByState(target: Instance)
      requires Valid()
      modifies machine
      ensures machine.Value() == Run(old(machine.Value()), ValueAt(store.log), old(machine.applied), target)
    {
      var first := machine.applied;
      var i := first;
      ghost var start, value := machine.Value(), ValueAt(store.log);
      while i < target
        invariant first <= i && (i <= target || i == first)
        invariant machine.Value() == Run(start, value, first, i)
      {
        var entry := store.ReadLog(i);
        var done := machine.Execute(i, entry.value);
        i := i + 1;
      }
    }
  }
}
