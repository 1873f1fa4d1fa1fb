/** The learner: learning from this node's own acceptance, from a broadcast, or by catching up. */
module Learner {
  import opened Messages
  import opened KvStateMachine
  import SyncJob

  /** `PaxLearnerState` and the bookkeeping of `PaxLearner`. */
  datatype LearnerState = LearnerState(
    learned: bool,
    value: LogValue,
    highestKnown: Instance,
    isLearning: bool,
    job: SyncJob.Job)

  const FRESH := LearnerState(false, Empty, 0, false, SyncJob.NO_JOB)

  /** `NewInstance`: only the learned value is forgotten. */
  function NextInstance(s: LearnerState): LearnerState {
    s.(learned := false, value := Empty)
  }

  function Learn(s: LearnerState, value: LogValue): LearnerState {
    s.(learned := true, value := value)
  }

  /**
    The record `LearnNew` writes for a value learned from another node: accepted at the ballot it was chosen at.
    Repair: the promise is kept, and raised to the recorded ballot as acceptance does; the source drops it.
    */
  function LearnedRecord(kept: LogEntry, ballot: Ballot, value: LogValue): LogEntry {
    LogEntry(kept.promised.Max(ballot), ballot, value)
  }

  /** `LearnFromSelf`: the chosen ballot is this node's and its own acceptor accepted it. */
  predicate LearnsFromSelf(me: NodeId, ins: Instance, acceptor: LogEntry, m: Message)
    requires m.ValueChosen?
  {
    m.ins == ins && m.ballot.node == me && acceptor.accepted.pid != 0 && acceptor.accepted == m.ballot
  }

  /**
    `HandleSenderPublish`: learn, then tell the others.
    Repairs: others are told the learned value, and only if there is one; the handler does not fall through.
    */
  function OnChosen(me: NodeId, ins: Instance, s: LearnerState, acceptor: LogEntry, m: Message): (LearnerState, Send)
    requires m.ValueChosen?
  {
    if LearnsFromSelf(me, ins, acceptor, m) then
      (Learn(s, acceptor.value), All(ChosenBroadcast(ins, m.ballot, acceptor.value)))
    else (s, Quiet)
  }

  /**
    `HandleOthersPublish`: a broadcast is taken if this node's acceptor accepted that very proposal.
    Repair: the proposer is compared with the accepted proposal's, not with this node.
    */
  predicate TakesPublished(ins: Instance, acceptor: LogEntry, m: Message)
    requires m.ChosenBroadcast? || m.ValueSend?
  {
    m.ins == ins && acceptor.accepted.pid != 0 && acceptor.accepted == m.ballot
  }

  /** `SetPossibleHigherInstanceId`. */
  function HearOf(s: LearnerState, ins: Instance): LearnerState {
    if ins <= s.highestKnown then s else s.(highestKnown := ins)
  }

  /** `AnymoreToLearn`. */
  predicate AnymoreToLearn(s: LearnerState, ins: Instance) {
    ins + 1 < s.highestKnown
  }

  /** `SendLearnedValue`. Repair: the sender is this node, the ballot that of the accepted value. */
  function StoredValue(me: NodeId, log: Log, ins: Instance, sync: bool): Message {
    var entry := Read(log, ins);
    if sync then ValueSync(me, ins, entry.accepted, entry.value)
    else ValueSend(me, ins, entry.accepted, entry.value)
  }

  /** `HandleShallILearn`: a follower one instance behind gets the value at once, the others get this node's instance. */
  function OnShallILearn(me: NodeId, ins: Instance, s: LearnerState, log: Log, m: Message): (LearnerState, Send)
    requires m.ShallILearn?
  {
    (HearOf(s, m.ins),
     if m.ins + 1 != ins then To(m.sender, TellInstance(me, m.ins, ins))
     else To(m.sender, StoredValue(me, log, m.ins, false)))
  }

  /** `HandleTellNewInstanceId`. Repair: the confirmation is sent. */
  function OnTellInstance(me: NodeId, ins: Instance, s: LearnerState, m: Message): (LearnerState, Send)
    requires m.TellInstance?
  {
    var heard := HearOf(s, m.leaderIns);
    if m.ins != ins || m.leaderIns < ins || s.isLearning then (heard, Quiet)
    else (heard.(isLearning := true), To(m.sender, ConfirmLearn(me, ins)))
  }

  /** `PaxLearner`. `acceptor` arguments are what the controller reports of this node's acceptor. */
  class PaxLearner {
    const me: NodeId
    const store: PaxStore
    const job: SyncJob.SendingJob
    var learned: bool
    var value: LogValue
    var highestKnown: Instance
    var isLearning: bool

    ghost function Value(): LearnerState
      reads this, job
    {
      LearnerState(learned, value, highestKnown, isLearning, job.Value())
    }

    constructor (me: NodeId, store: PaxStore)
      ensures this.me == me && this.store == store && Value() == FRESH && fresh(job)
    {
      this.me, this.store := me, store;
      job := new SyncJob.SendingJob();
      learned, value, highestKnown, isLearning := false, Empty, 0, false;
    }

    /** `HandleSenderPublish`. */
    method HandleSenderPublish(ins: Instance, acceptor: LogEntry, m: Message) returns (out: Send)
      requires m.ValueChosen?
      modifies this
      ensures (Value(), out) == OnChosen(me, ins, old(Value()), acceptor, m)
    {
      if m.ins != ins || m.ballot.node != me {
        return Quiet;
      }
      if acceptor.accepted.pid == 0 || acceptor.accepted != m.ballot {
        return Quiet;
      }
      learned, value := true, acceptor.value;
      out := All(ChosenBroadcast(ins, m.ballot, value));
    }

    /** `LearnFromOthers`: learn and rewrite the record of the current instance. */
    method LearnFromOthers(ins: Instance, m: Message)
      requires m.ChosenBroadcast? || m.ValueSend? || m.ValueSync?
      modifies this`learned, this`value, store
      ensures Value() == if m.ins == ins then Learn(old(Value()), m.value) else old(Value())
      ensures store.log ==
        if m.ins == ins then old(store.log)[ins := LearnedRecord(Read(old(store.log), ins), m.ballot, m.value)]
        else old(store.log)
    {
      if m.ins != ins {
        return;
      }
      learned, value := true, m.value;
      var kept := store.ReadLog(ins);
      store.WriteLog(ins, LogEntry(kept.promised.Max(m.ballot), m.ballot, m.value));
    }

    /** `HandleOthersPublish`. */
    method HandleOthersPublish(ins: Instance, acceptor: LogEntry, m: Message)
      requires m.ChosenBroadcast? || m.ValueSend?
      modifies this`learned, this`value, store
      ensures Value() == if TakesPublished(ins, acceptor, m) then Learn(old(Value()), m.value) else old(Value())
      ensures store.log ==
        if TakesPublished(ins, acceptor, m)
        then old(store.log)[ins := LearnedRecord(Read(old(store.log), ins), m.ballot, m.value)]
        else old(store.log)
    {
      if m.ins != ins || acceptor.accepted.pid == 0 || acceptor.accepted != m.ballot {
        return;
      }
      LearnFromOthers(ins, m);
    }

    method SetPossibleHigherInstanceId(ins: Instance)
      modifies this`highestKnown
      ensures Value() == HearOf(old(Value()), ins)
    {
      if ins <= highestKnown {
        return;
      }
      highestKnown := ins;
    }

    method SendLearnedValue(ins: Instance, to: NodeId, sync: bool) returns (out: Send)
      ensures out == To(to, StoredValue(me, store.log, ins, sync))
    {
      var entry := store.ReadLog(ins);
      if sync {
        return To(to, ValueSync(me, ins, entry.accepted, entry.value));
      }
      return To(to, ValueSend(me, ins, entry.accepted, entry.value));
    }

    method HandleShallILearn(ins: Instance, m: Message) returns (out: Send)
      requires m.ShallILearn?
      modifies this`highestKnown
      ensures (Value(), out) == OnShallILearn(me, ins, old(Value()), store.log, m)
      ensures var entry := Read(store.log, m.ins);
        out == To(m.sender, if m.ins + 1 == ins then ValueSend(me, m.ins, entry.accepted, entry.value)
                            else TellInstance(me, m.ins, ins))
    {
      SetPossibleHigherInstanceId(m.ins);
      if m.ins + 1 != ins {
        return To(m.sender, TellInstance(me, m.ins, ins));
      }
      out := SendLearnedValue(m.ins, m.sender, false);
    }

    method HandleTellNewInstanceId(ins: Instance, m: Message) returns (out: Send)
      requires m.TellInstance?
      modifies this`highestKnown, this`isLearning
      ensures (Value(), out) == OnTellInstance(me, ins, old(Value()), m)
    {
      SetPossibleHigherInstanceId(m.leaderIns);
      if m.ins != ins || m.leaderIns < ins {
        return Quiet;
      }
      if isLearning {
        return Quiet;
      }
      isLearning := true;
      out := To(m.sender, ConfirmLearn(me, ins));
    }

    method NewInstance()
      modifies this`learned, this`value
      ensures Value() == NextInstance(old(Value()))
    {
      learned, value := false, Empty;
    }
  }
}
