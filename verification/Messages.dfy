/** Ballots, Paxos messages and the addressing of what a handler sends. */
module Messages {
  import opened KvStateMachine

  type NodeId = nat

  type Instance = nat

  /** A proposal id together with the node that proposes, ordered as `IsHigherThanPromised` orders them. */
  datatype Ballot = Ballot(pid: nat, node: NodeId) {
    predicate Less(other: Ballot) {
      pid < other.pid || (pid == other.pid && node < other.node)
    }

    predicate AtMost(other: Ballot) {
      this == other || Less(other)
    }

    function Max(other: Ballot): Ballot {
      if Less(other) then other else this
    }
  }

  /** PROPOSAL_DUMMY and NODE_DUMMY: nothing promised, nothing accepted. */
  const NO_BALLOT := Ballot(0, 0)

  /**
    `PaxMessage` by message type. `ballot` is the proposal id with the proposing node.
    Repairs: acceptor replies carry the instance, the ballot and, for a promise, the node of the accepted
    proposal; messages about a chosen value carry the ballot it was accepted at.
    */
  datatype Message =
    | Propose(ins: Instance, ballot: Ballot)
    | Accept(ins: Instance, ballot: Ballot, value: LogValue)
    | Promise(sender: NodeId, ins: Instance, ballot: Ballot, accepted: Ballot, value: LogValue)
    | ProposeReject(sender: NodeId, ins: Instance, ballot: Ballot, promised: Ballot)
    | Accepted(sender: NodeId, ins: Instance, ballot: Ballot)
    | AcceptReject(sender: NodeId, ins: Instance, ballot: Ballot, promised: Ballot)
    | ValueChosen(ins: Instance, ballot: Ballot)
    | ChosenBroadcast(ins: Instance, ballot: Ballot, value: LogValue)
    | ShallILearn(sender: NodeId, ins: Instance)
    | ValueSend(sender: NodeId, ins: Instance, ballot: Ballot, value: LogValue)
    | TellInstance(sender: NodeId, ins: Instance, leaderIns: Instance)
    | ConfirmLearn(sender: NodeId, ins: Instance)
    | ValueSync(sender: NodeId, ins: Instance, ballot: Ballot, value: LogValue)
    | SyncAck(sender: NodeId, ins: Instance)
    | NewValueCommitted

  /** What a handler sends: every handler sends at most one message, to one node or to all. */
  datatype Send = Quiet | To(dst: NodeId, msg: Message) | All(msg: Message)

  /**
    What a node keeps for an instance in its log (`PaxosLogEntry`, keyed by instance).
    Repair: the accepted node is the one that proposed the accepted value, not the last one promised.
    */
  datatype LogEntry = LogEntry(promised: Ballot, accepted: Ballot, value: LogValue)

  const NO_ENTRY := LogEntry(NO_BALLOT, NO_BALLOT, Empty)

  type Log = map<Instance, LogEntry>

  /** `ReadLog`: an instance without a record reads as the default entry. */
  function Read(log: Log, ins: Instance): LogEntry {
    if ins in log then log[ins] else NO_ENTRY
  }

  function ValueAt(log: Log): nat -> LogValue {
    (i: Instance) => Read(log, i).value
  }

  /** `members` are the nodes; `majority` is `GetMajorityCount`. */
  datatype Config = Config(members: set<NodeId>, majority: nat, strict: bool) {
    /** Majorities intersect, and no member uses the dummy id. */
    ghost predicate Valid() {
      |members| < 2 * majority && 0 !in members
    }
  }

  /** `PaxStore`: the log over the log storage, one record an instance. */
  class PaxStore {
    var log: Log

    constructor ()
      ensures log == map[]
    {
      log := map[];
    }

    method WriteLog(ins: Instance, entry: LogEntry)
      modifies this
      ensures log == old(log)[ins := entry]
    {
      log := log[ins := entry];
    }

    method ReadLog(ins: Instance) returns (entry: LogEntry)
      ensures entry == Read(log, ins)
    {
      if ins in log {
        return log[ins];
      }
      return NO_ENTRY;
    }
  }
}
