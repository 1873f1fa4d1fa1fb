/** The acceptor: promises, acceptance, and the record written before each reply. */
module Acceptor {
  import opened Messages
  import opened KvStateMachine

  /** In memory the acceptor keeps exactly the fields of a log entry (`AcceptorState`). */
  type AcceptorState = LogEntry

  /** What a promise reports and what `UpdatePromised` persists: the accepted fields only if something was accepted. */
  function Reported(s: AcceptorState): LogEntry {
    if s.accepted.pid != 0 then s else LogEntry(s.promised, NO_BALLOT, Empty)
  }

  /** `HandlePropose`: promise a strictly higher ballot, reporting what was accepted; otherwise reject. */
  function OnPropose(me: NodeId, ins: Instance, s: AcceptorState, m: Message): (AcceptorState, Send)
    requires m.Propose?
  {
    if s.promised.Less(m.ballot) then
      (s.(promised := m.ballot), To(m.ballot.node, Promise(me, ins, m.ballot, Reported(s).accepted, Reported(s).value)))
    else
      (s, To(m.ballot.node, ProposeReject(me, ins, m.ballot, s.promised)))
  }

  /**
    The test of `HandleAccept`. The source uses the strict test it also uses for promises; Paxos asks only
    that no higher ballot was promised. Both are modelled.
    */
  predicate Acceptable(strict: bool, s: AcceptorState, ballot: Ballot) {
    if strict then s.promised.Less(ballot) else s.promised.AtMost(ballot)
  }

  /**
    `HandleAccept`: take the value and the promise together.
    Repair: the accepted proposal id is the proposal id (the source stores the proposer there).
    The rejection names only the promised proposal id, as in the source.
    */
  function OnAccept(strict: bool, me: NodeId, ins: Instance, s: AcceptorState, m: Message): (AcceptorState, Send)
    requires m.Accept?
  {
    if Acceptable(strict, s, m.ballot) then
      (LogEntry(m.ballot, m.ballot, m.value), To(m.ballot.node, Accepted(me, ins, m.ballot)))
    else
      (s, To(m.ballot.node, AcceptReject(me, ins, m.ballot, Ballot(s.promised.pid, 0))))
  }

  /** `PaxAcceptor`. */
  class PaxAcceptor {
    const me: NodeId
    const strict: bool
    const store: PaxStore
    var promised: Ballot
    var accepted: Ballot
    var value: LogValue

    ghost function Value(): AcceptorState
      reads this
    {
      LogEntry(promised, accepted, value)
    }

    constructor (me: NodeId, strict: bool, store: PaxStore)
      ensures this.me == me && this.strict == strict && this.store == store && Value() == NO_ENTRY
    {
      this.me, this.strict, this.store := me, strict, store;
      promised, accepted, value := NO_BALLOT, NO_BALLOT, Empty;
    }

    /** Write the state to the log before it is relied upon by a reply. */
    method UpdatePromised(ins: Instance, ballot: Ballot)
      modifies this`promised, store
      ensures promised == ballot
      ensures store.log == old(store.log)[ins := Reported(Value())]
    {
      promised := ballot;
      if accepted.pid != 0 {
        store.WriteLog(ins, LogEntry(promised, accepted, value));
      } else {
        store.WriteLog(ins, LogEntry(promised, NO_BALLOT, Empty));
      }
    }

    method HandlePropose(ins: Instance, m: Message) returns (reply: Send)
      requires m.Propose?
      modifies this, store
      ensures (Value(), reply) == OnPropose(me, ins, old(Value()), m)
      ensures store.log == if reply.msg.Promise? then old(store.log)[ins := Reported(Value())] else old(store.log)
    {
      if promised.Less(m.ballot) {
        var reportedBallot, reportedValue := NO_BALLOT, Empty;
        if accepted.pid != 0 {
          reportedBallot, reportedValue := accepted, value;
        }
        UpdatePromised(ins, m.ballot);
        reply := To(m.ballot.node, Promise(me, ins, m.ballot, reportedBallot, reportedValue));
      } else {
        reply := To(m.ballot.node, ProposeReject(me, ins, m.ballot, promised));
      }
    }

    method HandleAccept(ins: Instance, m: Message) returns (reply: Send)
      requires m.Accept?
      modifies this, store
      ensures (Value(), reply) == OnAccept(strict, me, ins, old(Value()), m)
      ensures store.log == if reply.msg.Accepted? then old(store.log)[ins := Reported(Value())] else old(store.log)
    {
      if promised.Less(m.ballot) || (!strict && promised == m.ballot) {
        accepted, value := m.ballot, m.value;
        UpdatePromised(ins, m.ballot);
        reply := To(m.ballot.node, Accepted(me, ins, m.ballot));
      } else {
        reply := To(m.ballot.node, AcceptReject(me, ins, m.ballot, Ballot(promised.pid, 0)));
      }
    }

    /** `Init`: restore what the log holds for the instance the node resumes at. */
    method Init(ins: Instance)
      modifies this
      ensures Value() == Read(store.log, ins)
    {
      var entry := store.ReadLog(ins);
      promised, accepted, value := entry.promised, entry.accepted, entry.value;
    }

    method NewInstance()
      modifies this
      ensures Value() == NO_ENTRY
    {
      promised, accepted, value := NO_BALLOT, NO_BALLOT, Empty;
    }
  }
}
