/**
  Places where the source, taken literally, does not do what Paxos needs. Each is kept here as written, with the
  exact condition under which it would be right; the other modules use the repaired form.
  */
module AsWritten {
  import opened Messages
  import opened KvStateMachine
  import opened ProposalCounter
  import opened Proposer
  import opened Node
  import Acceptor
  import Learner

  // ---------------------------------------------------------------- one field for two purposes

  /** `TryUpdateLogValue` with the single field `highest_known_proposal_`. */
  function AdoptOneField(p: ProposerState, accepted: Ballot, value: LogValue): ProposerState {
    if accepted.pid == 0 then p
    else if p.highest.Less(accepted) then Hear(p, accepted).(adopted := accepted, value := value)
    else p
  }

  /**
    With one field, a report of something accepted above the adopted ballot is adopted exactly if no rejection
    named that ballot or a higher one.
    */
  lemma OneFieldAdoptsIff(p: ProposerState, accepted: Ballot, value: LogValue)
    requires accepted.pid != 0 && p.adopted.Less(accepted)
    ensures AdoptOneField(p, accepted, value).adopted == accepted <==> p.highest.Less(accepted)
    ensures Adopt(p, accepted, value).adopted == accepted && Adopt(p, accepted, value).value == value
  {
  }

  /** `HandleProposeAck` with the single field. */
  function OnProposeAckOneField(cfg: Config, me: NodeId, ins: Instance, p: ProposerState, m: Message): (ProposerState, Send)
    requires m.Promise? || m.ProposeReject?
  {
    if m.ProposeReject? || !Relevant(p, me, ins, Proposing, m) then OnProposeAck(cfg, me, ins, p, m)
    else
      var q := AdoptOneField(p, m.accepted, m.value);
      AfterProposeAck(cfg, me, ins, q.(tally := AddPromise(q.tally, m.sender)))
  }

  /**
    A rejection hides an accepted value. Acceptor 2 accepted a value at ballot (1, 3). Node 1 submits its own at
    (1, 1), is rejected, times out and asks again at (2, 1): the promise reports the accepted value, but (1, 3) was
    heard of before, so node 1 goes on with its own.
    */
  lemma RejectionHidesAcceptedValue(cfg: Config, own: LogValue, accepted: LogValue)
    requires cfg.majority >= 2 && own != Empty && own != accepted
    ensures
      var other := LogEntry(Ballot(1, 3), Ballot(1, 3), accepted);
      var (p1, ask1) := SubmitValue(Fresh(1), 1, 1, own);
      var rejection := Acceptor.OnPropose(2, 1, other, ask1.msg).1.msg;
      rejection.ProposeReject? &&
      var p2 := OnProposeAckOneField(cfg, 1, 1, p1, rejection).0;
      var (p3, ask2) := OnProposeTimer(p2, 1, 1);
      ask2 == All(Propose(1, Ballot(2, 1))) &&
      var promise := Acceptor.OnPropose(2, 1, other, ask2.msg).1.msg;
      && promise.Promise? && promise.accepted == Ballot(1, 3) && promise.value == accepted
      && OnProposeAckOneField(cfg, 1, 1, p3, promise).0.value == own
      && OnProposeAck(cfg, 1, 1, p3, promise).0.value == accepted
  {
    var p1 := SubmitValue(Fresh(1), 1, 1, own).0;
    var rejection := ProposeReject(2, 1, Ballot(1, 1), Ballot(1, 3));
    var p2 := OnProposeAckOneField(cfg, 1, 1, p1, rejection).0;
    assert p2.tally.rejections == {2};
    var p3 := OnProposeTimer(p2, 1, 1).0;
    assert p3.highest == Ballot(1, 3) && p3.pid == 2;
    OneFieldAdoptsIff(p3, Ballot(1, 3), accepted);
  }

  // ---------------------------------------------------------------- the record of a learned value

  /** `LearnNew` writes a record without the promise. */
  function LearnedRecordAsWritten(ballot: Ballot, value: LogValue): LogEntry {
    LogEntry(NO_BALLOT, ballot, value)
  }

  /** A ballot some proposer can use: proposal ids and nodes start at 1. */
  predicate Usable(b: Ballot) {
    b.pid >= 1 && b.node >= 1
  }

  /** Some promise given before is broken by an acceptor restored from this record, under the given test. */
  ghost predicate BreaksPromise(kept: LogEntry, restored: LogEntry, strict: bool) {
    exists b: Ballot :: Usable(b) && b.Less(kept.promised) && Acceptor.Acceptable(strict, restored, b)
  }

  /**
    The record as written takes back the promise: under either test, an acceptor restored from it accepts a ballot
    it had promised to refuse, exactly if it had promised to refuse any, which is if it had promised more than the
    least ballot. The repaired record never lets it.
    */
  lemma DroppedPromiseIsBroken(kept: LogEntry, ballot: Ballot, value: LogValue, strict: bool)
    ensures BreaksPromise(kept, LearnedRecordAsWritten(ballot, value), strict) <==> Ballot(1, 1).Less(kept.promised)
    ensures !BreaksPromise(kept, Learner.LearnedRecord(kept, ballot, value), strict)
  {
    var least := Ballot(1, 1);
    assert Usable(least) && Acceptor.Acceptable(strict, LearnedRecordAsWritten(ballot, value), least);
  }

  /**
    One such run of an acceptor: it promises (1, 2), learns a value of that ballot, restarts before executing it,
    and then accepts (1, 1). Restored from the repaired record it refuses.
    */
  lemma BrokenPromise(me: NodeId, ins: Instance, learned: LogValue, late: LogValue, strict: bool)
    ensures
      var (kept, reply) := Acceptor.OnPropose(me, ins, NO_ENTRY, Propose(ins, Ballot(1, 2)));
      var restored := LearnedRecordAsWritten(Ballot(1, 2), learned);
      var repaired := Learner.LearnedRecord(Acceptor.Reported(kept), Ballot(1, 2), learned);
      && reply.msg.Promise? && BreaksPromise(kept, restored, strict)
      && Acceptor.OnAccept(strict, me, ins, restored, Accept(ins, Ballot(1, 1), late)).1.msg.Accepted?
      && Acceptor.OnAccept(strict, me, ins, repaired, Accept(ins, Ballot(1, 1), late)).1.msg.AcceptReject?
  {
    var kept := Acceptor.OnPropose(me, ins, NO_ENTRY, Propose(ins, Ballot(1, 2))).0;
    DroppedPromiseIsBroken(kept, Ballot(1, 2), learned, strict);
  }

  // ---------------------------------------------------------------- the accepted proposal

  /** `SetAcceptedProposal` stores the proposer in both fields. */
  function AcceptedAsWritten(ballot: Ballot): Ballot {
    Ballot(ballot.node, ballot.node)
  }

  /** Its order agrees with that of the ballots of two proposals only while the nodes are ordered as the ballots are. */
  lemma AcceptedAsWrittenOrders(a: Ballot, b: Ballot)
    requires a.Less(b)
    ensures AcceptedAsWritten(a).Less(AcceptedAsWritten(b)) <==> a.node < b.node
  {
  }

  // ---------------------------------------------------------------- counting votes

  /** Every vote is counted for the proposer's own node. */
  function CountOwn(t: Tally, me: NodeId, vote: CastVote): Tally {
    match vote
    case ForPromise(_) => AddPromise(t, me)
    case ForApproval(_) => AddApproval(t, me)
    case Against(_) => AddRejection(t, me)
  }

  function CountAsWritten(me: NodeId, votes: seq<CastVote>): Tally {
    if votes == [] then NO_VOTES
    else CountOwn(CountAsWritten(me, votes[..|votes| - 1]), me, votes[|votes| - 1])
  }

  ghost predicate SomePromise(votes: seq<CastVote>) {
    exists v :: v in votes && v.ForPromise?
  }

  ghost predicate SomeApproval(votes: seq<CastVote>) {
    exists v :: v in votes && v.ForApproval?
  }

  ghost predicate SomeRejection(votes: seq<CastVote>) {
    exists v :: v in votes && v.Against?
  }

  lemma OneMoreVote(votes: seq<CastVote>, v: CastVote)
    ensures SomePromise(votes + [v]) == (SomePromise(votes) || v.ForPromise?)
    ensures SomeApproval(votes + [v]) == (SomeApproval(votes) || v.ForApproval?)
    ensures SomeRejection(votes + [v]) == (SomeRejection(votes) || v.Against?)
  {
    assert v in votes + [v];
    assert forall w :: w in votes ==> w in votes + [v];
  }

  /** A set holds at most the proposer's own node, and does once a vote of its kind came. */
  ghost predicate OwnVotes(t: Tally, me: NodeId, votes: seq<CastVote>) {
    && t.promises == (if SomePromise(votes) then {me} else {})
    && t.approvals == (if SomeApproval(votes) then {me} else {})
    && t.rejections == (if SomeRejection(votes) then {me} else {})
  }

  lemma OneMoreOwn(t: Tally, me: NodeId, votes: seq<CastVote>, v: CastVote)
    requires OwnVotes(t, me, votes)
    ensures OwnVotes(CountOwn(t, me, v), me, votes + [v])
  {
    hide SomePromise, SomeApproval, SomeRejection;
    OneMoreVote(votes, v);
    assert {me} + {me} == {me} && {} + {me} == {me};
  }

  lemma {:induction false} CountedAsWritten(me: NodeId, votes: seq<CastVote>)
    ensures OwnVotes(CountAsWritten(me, votes), me, votes)
  {
    if votes == [] {
    } else {
      hide OwnVotes, CountOwn;
      var before, last := votes[..|votes| - 1], votes[|votes| - 1];
      CountedAsWritten(me, before);
      OneMoreOwn(CountAsWritten(me, before), me, before, last);
      assert votes == before + [last];
    }
  }

  /** A majority test succeeds exactly where nothing is asked, or one vote is a majority and somebody voted so. */
  lemma MajorityAsWrittenNeedsOne(cfg: Config, me: NodeId, votes: seq<CastVote>)
    ensures var t := CountAsWritten(me, votes);
      && (|t.promises| >= cfg.majority <==>
            cfg.majority == 0 || (cfg.majority == 1 && SomePromise(votes)))
      && (|t.approvals| >= cfg.majority <==>
            cfg.majority == 0 || (cfg.majority == 1 && SomeApproval(votes)))
      && (|t.rejections| >= cfg.majority <==>
            cfg.majority == 0 || (cfg.majority == 1 && SomeRejection(votes)))
  {
    CountedAsWritten(me, votes);
  }

  // ---------------------------------------------------------------- restoring the acceptor

  /** The instance -1 as an unsigned 64-bit number: no node ever reaches it. */
  const MINUS_ONE := 0xffff_ffff_ffff_ffff

  /** `PaxAcceptor::Init` reads the record of instance -1. */
  function RestoredAsWritten(log: Log): LogEntry {
    Read(log, MINUS_ONE)
  }

  /**
    It restores nothing. That is right exactly if the node resumes at an instance it has no record of, or an empty
    one; and it breaks a promise exactly if the latest record is not executed and promised to refuse any ballot.
    */
  lemma RestoredAsWrittenIff(log: Log, sm: Store, strict: bool)
    requires MINUS_ONE !in log
    ensures var last := Last(log);
      && RestoredAsWritten(log) == NO_ENTRY
      && (RestoredAsWritten(log) == Restart(log, sm).acceptor <==> last <= sm.applied || log[last] == NO_ENTRY)
      && (BreaksPromise(Restart(log, sm).acceptor, RestoredAsWritten(log), strict) <==>
            last > sm.applied && Ballot(1, 1).Less(log[last].promised))
  {
    var least := Ballot(1, 1);
    assert Usable(least) && Acceptor.Acceptable(strict, NO_ENTRY, least);
  }

  /** Reading the latest record instead, wherever the node resumes, is not enough either. */
  ghost function RestoredFromLatest(log: Log): LogEntry {
    Read(log, Last(log))
  }

  /**
    That is the record of the instance the node resumes at exactly if that instance is the latest one, or the
    latest record is an empty one: otherwise the acceptor reports a value of a finished instance in a new one.
    */
  lemma RestoredFromLatestIff(log: Log, sm: Store)
    ensures RestoredFromLatest(log) == Restart(log, sm).acceptor <==>
            Last(log) > sm.applied || RestoredFromLatest(log) == NO_ENTRY
  {
  }
}
