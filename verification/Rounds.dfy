/** What a proposer learns from the replies to its rounds. */
module Rounds {
  import opened Basics
  import opened Messages
  import opened KvStateMachine
  import opened ProposalCounter
  import opened Proposer
  import Acceptor

  /** What a promise reports: the accepted ballot, or none, and its value. */
  datatype Report = Report(accepted: Ballot, value: LogValue)

  function AdoptAll(p: ProposerState, reports: seq<Report>): ProposerState {
    if reports == [] then p
    else
      var last := reports[|reports| - 1];
      Adopt(AdoptAll(p, reports[..|reports| - 1]), last.accepted, last.value)
  }

  /** "The value of the highest-numbered proposal among the responses", in any round of the instance, or the own value. */
  ghost predicate Highest(p: ProposerState, reports: seq<Report>, q: ProposerState) {
    && p.adopted.AtMost(q.adopted)
    && (forall r :: r in reports && r.accepted.pid != 0 ==> r.accepted.AtMost(q.adopted))
    && ((q.adopted == p.adopted && q.value == p.value) || Report(q.adopted, q.value) in reports)
  }

  /** Whatever order the reports arrive in, the value adopted is that of the highest accepted ballot among them. */
  lemma {:induction false} AdoptsHighest(p: ProposerState, reports: seq<Report>)
    ensures Highest(p, reports, AdoptAll(p, reports))
  {
    if reports == [] {
    } else {
      var before, last := reports[..|reports| - 1], reports[|reports| - 1];
      AdoptsHighest(p, before);
      assert reports == before + [last];
    }
  }

  /**
    A round that an acceptor rejected is followed, when its timer fires, by one it grants, unless it promised something
    else meanwhile: the new ballot is above the one the rejection names.
    */
  lemma RejectionIsOutbid(cfg: Config, me: NodeId, a: NodeId, ins: Instance, s: LogEntry, p: ProposerState)
    requires p.status == Proposing
    requires Acceptor.OnPropose(a, ins, s, Propose(ins, BallotOf(p, me))).1.msg.ProposeReject?
    ensures var rejection := Acceptor.OnPropose(a, ins, s, Propose(ins, BallotOf(p, me))).1.msg;
      var q := OnProposeAck(cfg, me, ins, p, rejection).0;
      q.status == Proposing ==>
        && Acceptor.OnPropose(a, ins, s, StartRound(q, me, ins).1.msg).1.msg.Promise?
        && (p.proposeTimer == Some(ins) ==> OnProposeTimer(q, me, ins).1 == StartRound(q, me, ins).1)
  {
    var rejection := Acceptor.OnPropose(a, ins, s, Propose(ins, BallotOf(p, me))).1.msg;
    var q := OnProposeAck(cfg, me, ins, p, rejection).0;
    if q.status == Proposing {
      RejectedRoundRises(q, me, ins, s.promised, a);
    }
  }

  /** Likewise when the proposal itself was rejected, where only the promised proposal id is named. */
  lemma RejectedProposalIsOutbid(cfg: Config, me: NodeId, a: NodeId, ins: Instance, s: LogEntry, p: ProposerState, strict: bool)
    requires p.status == Accepting
    requires Acceptor.OnAccept(strict, a, ins, s, Accept(ins, BallotOf(p, me), p.value)).1.msg.AcceptReject?
    ensures var rejection := Acceptor.OnAccept(strict, a, ins, s, Accept(ins, BallotOf(p, me), p.value)).1.msg;
      var (q, chosen) := OnAcceptAck(cfg, me, ins, p, rejection);
      !chosen ==>
        && Acceptor.OnPropose(a, ins, s, StartRound(q, me, ins).1.msg).1.msg.Promise?
        && (p.acceptTimer == Some(ins) ==> OnAcceptTimer(q, me, ins).1 == StartRound(q, me, ins).1)
  {
    var rejection := Acceptor.OnAccept(strict, a, ins, s, Accept(ins, BallotOf(p, me), p.value)).1.msg;
    var (q, chosen) := OnAcceptAck(cfg, me, ins, p, rejection);
    if !chosen {
      RejectedRoundRises(q, me, ins, Ballot(s.promised.pid, 0), a);
    }
  }

  /** A round after a rejection passes everything heard of. */
  lemma RejectedRoundRises(q: ProposerState, me: NodeId, ins: Instance, heard: Ballot, a: NodeId)
    requires heard.AtMost(q.highest) && a in q.tally.rejections
    ensures StartRound(q, me, ins).0.pid > q.pid && StartRound(q, me, ins).0.pid > heard.pid
    ensures StartRound(q, me, ins).1 == All(Propose(ins, Ballot(StartRound(q, me, ins).0.pid, me)))
  {
    assert q.tally.rejections != {};
    RoundKeepsBallotIff(q, me, ins);
  }

  /** A new round keeps its ballot exactly if nobody rejected the last one. */
  lemma RoundKeepsBallotIff(q: ProposerState, me: NodeId, ins: Instance)
    ensures BallotOf(StartRound(q, me, ins).0, me) == BallotOf(q, me) <==> q.tally.rejections == {}
    ensures StartRound(q, me, ins).0.tally == NO_VOTES && StartRound(q, me, ins).0.adopted == q.adopted
  {
  }
}
