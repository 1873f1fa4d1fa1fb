/** What the timers and messages of a round make a node do, from the question to the answer being counted. */
module Exchanges {
  import opened Basics
  import opened Messages
  import opened KvStateMachine
  import opened ProposalCounter
  import opened Proposer
  import opened Node
  import opened Cluster
  import Acceptor

  // ---------------------------------------------------------------- timers

  function Timer(p: ProposerState, accepting: bool): Option<Instance> {
    if accepting then p.acceptTimer else p.proposeTimer
  }

  function Disarmed(p: ProposerState, accepting: bool): ProposerState {
    if accepting then p.(acceptTimer := None) else p.(proposeTimer := None)
  }

  function Fires(me: NodeId, accepting: bool): Action {
    if accepting then AcceptTimeout(me) else ProposeTimeout(me)
  }

  /** A round that has just begun: what was adopted stays, no vote is counted, the propose timer is armed. */
  ghost predicate Begun(p: ProposerState, q: ProposerState, ins: Instance) {
    && q.status == Proposing && q.tally == Tally({}, {}, {}, 0) && q.proposeTimer == Some(ins)
    && q.value == p.value && q.adopted == p.adopted && q.highest == p.highest
  }

  /** The ballot of the next round: used again exactly if nobody rejected, else the next above everything used or heard of. */
  ghost predicate Outbids(p: ProposerState, q: ProposerState) {
    if p.tally.rejections == {} then q.pid == p.pid
    else q.pid > p.pid && q.pid > p.highest.pid && (q.pid == p.pid + 1 || q.pid == p.highest.pid + 1)
  }

  /**
    TIMEOUTS. The timer of either phase, published in the current instance, starts a new round: it asks every member
    for promises. One published in another instance, or withdrawn, sends nothing and changes nothing else.
    */
  lemma TimerStartsRound(me: NodeId, n: Node, accepting: bool)
    ensures var p := n.proposer;
      var (m, out) := LocalStep(me, n, Fires(me, accepting));
      && m == n.(proposer := m.proposer)
      && if Timer(p, accepting) == Some(n.ins) then
           && out == All(Propose(n.ins, Ballot(m.proposer.pid, me)))
           && Begun(p, m.proposer, n.ins) && Outbids(p, m.proposer)
           && (accepting ==> m.proposer.acceptTimer == None) && (!accepting ==> m.proposer.acceptTimer == p.acceptTimer)
         else out == Quiet && m.proposer == Disarmed(p, accepting)
  {
  }

  /** Whatever was heard in rejections and reports, in any order: the highest ballot is remembered. */
  function HearAll(p: ProposerState, heard: seq<Ballot>): ProposerState {
    if heard == [] then p else Hear(HearAll(p, heard[..|heard| - 1]), heard[|heard| - 1])
  }

  lemma {:induction false} HearsHighest(p: ProposerState, heard: seq<Ballot>)
    ensures var q := HearAll(p, heard);
      && (forall b :: b in heard ==> b.AtMost(q.highest)) && p.highest.AtMost(q.highest)
      && (q.highest == p.highest || q.highest in heard) && q == p.(highest := q.highest)
  {
    if heard == [] {
    } else {
      var before, last := heard[..|heard| - 1], heard[|heard| - 1];
      HearsHighest(p, before);
      assert heard == before + [last];
    }
  }

  /** `NewValueTimeout` ends a running round: no answer to it counts and no timer of it fires any more. */
  lemma GivenUpIsQuiet(cfg: Config, me: NodeId, n: Node, m: Message, accepting: bool, v: LogValue)
    requires n.proposer.status == Proposing || n.proposer.status == Accepting
    requires m.Promise? || m.ProposeReject? || m.Accepted? || m.AcceptReject?
    ensures var d := LocalStep(me, n, NewValueTimeout(me)).0;
      && LocalStep(me, n, NewValueTimeout(me)).1 == Quiet
      && ProposerHandle(cfg, me, d, m) == (d, Quiet)
      && LocalStep(me, d, Fires(me, accepting)) == (d, Quiet)
      && (d.proposer.value != Empty && v != Empty && n.ins + 1 >= n.learner.highestKnown ==>
            var (e, out) := LocalStep(me, d, NewValue(me, v));
            Begun(n.proposer, e.proposer, n.ins) && Outbids(n.proposer, e.proposer) && out.All? && out.msg.Propose?)
  {
  }

  /** A round that is over or was never begun is not touched by it. */
  lemma NothingToGiveUp(me: NodeId, n: Node)
    requires n.proposer.status == Idle || n.proposer.status == MajorityAccepted
    ensures LocalStep(me, n, NewValueTimeout(me)) == (n, Quiet)
  {
  }

  /** A value is submitted exactly by a node that has nothing to catch up with; an earlier or adopted value stays. */
  lemma SubmitsUnlessBehind(me: NodeId, n: Node, v: LogValue)
    requires v != Empty
    ensures var (m, out) := LocalStep(me, n, NewValue(me, v));
      if n.ins + 1 < n.learner.highestKnown then m == n && out == Quiet
      else
        && m == n.(proposer := m.proposer) && out == All(Propose(n.ins, Ballot(m.proposer.pid, me)))
        && Begun(n.proposer.(value := if n.proposer.value == Empty then v else n.proposer.value), m.proposer, n.ins)
        && Outbids(n.proposer, m.proposer)
  {
  }

  // ---------------------------------------------------------------- asking for promises

  /** The counted promise reports something accepted above what the proposer adopted so far. */
  ghost predicate Adopts(p: ProposerState, reported: LogEntry) {
    reported.accepted.pid != 0 && p.adopted.Less(reported.accepted)
  }

  /** The proposer with one more promise: below a majority it goes on waiting, at a majority it proposes its value. */
  ghost predicate CountsPromise(cfg: Config, me: NodeId, p: ProposerState, a: NodeId, reported: LogEntry, ins: Instance,
                                q: ProposerState, out: Send) {
    && q.pid == p.pid
    && q.value == (if Adopts(p, reported) then reported.value else p.value)
    && q.adopted == (if Adopts(p, reported) then reported.accepted else p.adopted)
    && if |p.tally.promises + {a}| >= cfg.majority then
         && out == All(Accept(ins, BallotOf(p, me), q.value))
         && q.status == Accepting && q.tally == Tally({}, {}, {}, 0) && q.acceptTimer == Some(ins)
       else
         && out == Quiet && q.status == Proposing && q.tally.promises == p.tally.promises + {a}
         && q.tally.rejections == p.tally.rejections && (p.proposeTimer == Some(ins) ==> q.proposeTimer == Some(ins))
  }

  /** The proposer with one more rejection: it goes on waiting, and remembers the ballot that was named. */
  ghost predicate CountsRejection(p: ProposerState, a: NodeId, named: Ballot, q: ProposerState, out: Send) {
    && out == Quiet && q.status == p.status && q.pid == p.pid && q.value == p.value && q.adopted == p.adopted
    && q.highest == p.highest.Max(named) && q.tally.rejections == p.tally.rejections + {a}
    && q.tally.promises == p.tally.promises && q.tally.approvals == p.tally.approvals
  }

  /**
    ASKING. Every acceptor in the proposer's instance answers the propose broadcast, to the proposer, and the proposer
    counts the answer for that acceptor: a promise, recorded first, exactly if the ballot is above what it promised,
    with what it accepted; else a rejection that names what it promised, and nothing is written.
    */
  lemma AskedIsCounted(cfg: Config, k: NodeId, n: Node, a: NodeId, m: Node)
    requires n.proposer.status == Proposing && |n.proposer.tally.promises| < cfg.majority
    requires m.ins == n.ins && !n.learner.learned && !m.learner.learned
    ensures var b := BallotOf(n.proposer, k);
      var (d, reply) := Handle(cfg, a, m, Propose(n.ins, b));
      reply.To? && reply.dst == k &&
      var (e, out) := Handle(cfg, k, n, reply.msg);
      && e == n.(proposer := e.proposer)
      && if m.acceptor.promised.Less(b) then
           && d == m.(acceptor := m.acceptor.(promised := b), log := m.log[m.ins := Acceptor.Reported(d.acceptor)])
           && CountsPromise(cfg, k, n.proposer, a, m.acceptor, n.ins, e.proposer, out)
         else d == m && CountsRejection(n.proposer, a, m.acceptor.promised, e.proposer, out)
  {
    hide Handle, CountsPromise, CountsRejection;
    var b := BallotOf(n.proposer, k);
    AskedAnswers(cfg, a, m, b);
    var reply := Handle(cfg, a, m, Propose(n.ins, b)).1;
    CountsAnswer(cfg, k, n, reply.msg);
    if reply.msg.Promise? {
      SameReport(cfg, k, n, a, m.acceptor, Handle(cfg, k, n, reply.msg).0.proposer, Handle(cfg, k, n, reply.msg).1);
    }
  }

  lemma AskedAnswers(cfg: Config, a: NodeId, m: Node, b: Ballot)
    requires !m.learner.learned
    ensures var (d, reply) := Handle(cfg, a, m, Propose(m.ins, b));
      var s := Acceptor.Reported(m.acceptor);
      if m.acceptor.promised.Less(b) then
        && d == m.(acceptor := m.acceptor.(promised := b), log := m.log[m.ins := Acceptor.Reported(d.acceptor)])
        && reply == To(b.node, Promise(a, m.ins, b, s.accepted, s.value))
      else d == m && reply == To(b.node, ProposeReject(a, m.ins, b, m.acceptor.promised))
  {
  }

  lemma CountsAnswer(cfg: Config, k: NodeId, n: Node, m: Message)
    requires n.proposer.status == Proposing && |n.proposer.tally.promises| < cfg.majority && !n.learner.learned
    requires (m.Promise? || m.ProposeReject?) && m.ins == n.ins && m.ballot == BallotOf(n.proposer, k)
    ensures var (e, out) := Handle(cfg, k, n, m);
      && e == n.(proposer := e.proposer)
      && (m.Promise? ==>
            CountsPromise(cfg, k, n.proposer, m.sender, LogEntry(NO_BALLOT, m.accepted, m.value), n.ins, e.proposer, out))
      && (m.ProposeReject? ==> CountsRejection(n.proposer, m.sender, m.promised, e.proposer, out))
  {
    hide CountsPromise, CountsRejection, OnProposeAck;
    if m.Promise? {
      PromiseCounted(cfg, k, n.proposer, n.ins, m);
    } else {
      RejectionCounted(cfg, k, n.proposer, n.ins, m);
    }
    assert Handle(cfg, k, n, m) == ProposerHandle(cfg, k, n, m);
  }

  lemma PromiseCounted(cfg: Config, k: NodeId, p: ProposerState, ins: Instance, m: Message)
    requires p.status == Proposing && m.Promise? && m.ins == ins && m.ballot == BallotOf(p, k)
    ensures var (q, out) := OnProposeAck(cfg, k, ins, p, m);
      CountsPromise(cfg, k, p, m.sender, LogEntry(NO_BALLOT, m.accepted, m.value), ins, q, out)
  {
    var q := Adopt(p, m.accepted, m.value);
    assert AddPromise(q.tally, m.sender).promises == p.tally.promises + {m.sender};
  }

  lemma RejectionCounted(cfg: Config, k: NodeId, p: ProposerState, ins: Instance, m: Message)
    requires p.status == Proposing && |p.tally.promises| < cfg.majority
    requires m.ProposeReject? && m.ins == ins && m.ballot == BallotOf(p, k)
    ensures var (q, out) := OnProposeAck(cfg, k, ins, p, m); CountsRejection(p, m.sender, m.promised, q, out)
  {
  }

  /** An empty report counts like the one of an acceptor that accepted nothing. */
  lemma SameReport(cfg: Config, k: NodeId, n: Node, a: NodeId, s: LogEntry, q: ProposerState, out: Send)
    requires var r := Acceptor.Reported(s);
      CountsPromise(cfg, k, n.proposer, a, LogEntry(NO_BALLOT, r.accepted, r.value), n.ins, q, out)
    ensures CountsPromise(cfg, k, n.proposer, a, s, n.ins, q, out)
  {
  }

  // ---------------------------------------------------------------- asking for acceptance

  /** A node leaves its instance: it has executed the value, and its players start anew with the proposal id kept. */
  ghost predicate Finishes(n: Node, v: LogValue, d: Node) {
    && d.ins == n.ins + 1 && d.acceptor == NO_ENTRY && d.proposer == Proposer.Fresh(n.proposer.pid)
    && !d.learner.learned && d.learner.highestKnown == n.learner.highestKnown
    && d.learner.isLearning == n.learner.isLearning && d.learner.job == n.learner.job
    && d.sm == Apply(n.sm, n.ins, v) && d.executed == n.executed + [Execution(n.ins, v)] && d.boot == n.boot
  }

  /** An acceptance of what this node's proposer asks for now. */
  ghost predicate Awaited(me: NodeId, n: Node, m: Message) {
    && n.proposer.status == Accepting && !n.learner.learned && n.proposer.pid >= 1
    && m.Accepted? && m.ins == n.ins && m.ballot == BallotOf(n.proposer, me)
  }

  /**
    A MAJORITY IS RECOGNISED. With the acceptance that brings the distinct approvers to a majority, and with no other,
    a node whose acceptor holds the proposal executes the value, tells all, and moves to the next instance, all
    within this one call.
    */
  lemma MajorityIsRecognised(cfg: Config, me: NodeId, n: Node, m: Message)
    requires Awaited(me, n, m)
    ensures var approvers := n.proposer.tally.approvals + {m.sender};
      var (d, out) := Handle(cfg, me, n, m);
      if |approvers| < cfg.majority then
        && out == Quiet && d == n.(proposer := d.proposer)
        && d.proposer.status == Accepting && d.proposer.pid == n.proposer.pid && d.proposer.value == n.proposer.value
        && d.proposer.tally.approvals == approvers && d.proposer.tally.rejections == n.proposer.tally.rejections
        && (n.proposer.acceptTimer == Some(n.ins) ==> d.proposer.acceptTimer == Some(n.ins))
      else if n.acceptor.accepted != m.ballot then
        out == Quiet && d == n.(proposer := d.proposer) && d.proposer.status == MajorityAccepted
      else
        && out == All(ChosenBroadcast(n.ins, m.ballot, n.acceptor.value))
        && Finishes(n, n.acceptor.value, d) && d.log == n.log
  {
    var (p, chosen) := OnAcceptAck(cfg, me, n.ins, n.proposer, m);
    assert p.tally.approvals == n.proposer.tally.approvals + {m.sender};
    assert chosen <==> |p.tally.approvals| >= cfg.majority;
    if chosen {
      NestedCall(cfg, me, n.(proposer := p), ValueChosen(m.ins, m.ballot));
    }
  }

  /** The nested call on the value that was chosen. */
  lemma NestedCall(cfg: Config, me: NodeId, n: Node, m: Message)
    requires m.ValueChosen? && !n.learner.learned && m.ins == n.ins && m.ballot.node == me && m.ballot.pid >= 1
    ensures var (d, out) := Handle(cfg, me, n, m);
      if n.acceptor.accepted != m.ballot then d == n && out == Quiet
      else
        out == All(ChosenBroadcast(n.ins, m.ballot, n.acceptor.value)) && Finishes(n, n.acceptor.value, d) && d.log == n.log
  {
  }

  /**
    PROPOSING. Every acceptor in the proposer's instance answers the accept broadcast, to the proposer, which counts the
    answer for that acceptor: an acceptance, recorded first, exactly if the test passes; else a rejection that names the
    promised proposal id.
    */
  lemma ProposedIsCounted(cfg: Config, k: NodeId, n: Node, a: NodeId, m: Node)
    requires n.proposer.status == Accepting && |n.proposer.tally.approvals| < cfg.majority && n.proposer.pid >= 1
    requires m.ins == n.ins && !n.learner.learned && !m.learner.learned
    ensures var b, v := BallotOf(n.proposer, k), n.proposer.value;
      var (d, reply) := Handle(cfg, a, m, Accept(n.ins, b, v));
      reply.To? && reply.dst == k &&
      if m.acceptor.promised.Less(b) || (m.acceptor.promised == b && !cfg.strict) then
        && d == m.(acceptor := LogEntry(b, b, v), log := m.log[m.ins := LogEntry(b, b, v)])
        && Awaited(k, n, reply.msg) && reply.msg.sender == a
      else
        d == m &&
        var (e, out) := Handle(cfg, k, n, reply.msg);
        e == n.(proposer := e.proposer) && CountsRejection(n.proposer, a, Ballot(m.acceptor.promised.pid, 0), e.proposer, out)
  {
    var b, v := BallotOf(n.proposer, k), n.proposer.value;
    var (d, reply) := Handle(cfg, a, m, Accept(n.ins, b, v));
    if reply.msg.AcceptReject? {
      assert Handle(cfg, k, n, reply.msg) == ProposerHandle(cfg, k, n, reply.msg);
    }
  }

  /** The others learn from the broadcast, or from a value sent, exactly what their own acceptor holds. */
  lemma AcceptedIsLearned(cfg: Config, me: NodeId, n: Node, m: Message)
    requires (m.ChosenBroadcast? || m.ValueSend?) && !n.learner.learned
    ensures var (d, out) := Handle(cfg, me, n, m);
      && out == Quiet
      && if m.ins == n.ins && m.ballot.pid != 0 && n.acceptor.accepted == m.ballot then
           && Finishes(n, m.value, d)
           && d.log == n.log[n.ins := LogEntry(Read(n.log, n.ins).promised.Max(m.ballot), m.ballot, m.value)]
         else d == n
  {
  }

  /** A crash between the two durable writes of learning leaves the record the handler writes, and the old store. */
  lemma DiesBehindRecord(cfg: Config, c: Cluster, p: Packet)
    requires p in c.net && p.dst in c.nodes && !c.nodes[p.dst].learner.learned
    requires p.msg.ChosenBroadcast? || p.msg.ValueSend? || p.msg.ValueSync?
    ensures var n := c.nodes[p.dst];
      Next(cfg, c, DieLearning(p)) ==
        c.(net := c.net - multiset{p}, nodes := c.nodes[p.dst := Restart(Handle(cfg, p.dst, n, p.msg).0.log, n.sm)])
  {
    hide Restart;
  }

  // ---------------------------------------------------------------- no round without a timer

  /** A running round has its timer, and timers belong to the current instance. */
  predicate HasTimer(n: Node) {
    && (n.proposer.status == Proposing ==> n.proposer.proposeTimer.Some?)
    && (n.proposer.status == Accepting ==> n.proposer.acceptTimer.Some?)
    && (n.proposer.proposeTimer.Some? ==> n.proposer.proposeTimer.value == n.ins)
    && (n.proposer.acceptTimer.Some? ==> n.proposer.acceptTimer.value == n.ins)
  }

  lemma SettleKeepsTimer(n: Node)
    requires HasTimer(n)
    ensures HasTimer(Settle(n))
  {
  }

  lemma OtherKeepsTimer(cfg: Config, me: NodeId, n: Node, m: Message)
    requires HasTimer(n) && !(m.Promise? || m.ProposeReject? || m.Accepted? || m.AcceptReject?)
    ensures HasTimer(Handle(cfg, me, n, m).0)
  {
    hide Settle, HasTimer;
    if m.Propose? || m.Accept? {
      SameProposer(n, AcceptorHandle(cfg, me, n, m).0);
      SettleKeepsTimer(AcceptorHandle(cfg, me, n, m).0);
    } else if !m.NewValueCommitted? {
      SameProposer(n, LearnerHandle(me, n, m).0);
      SettleKeepsTimer(LearnerHandle(me, n, m).0);
    }
  }

  lemma SameProposer(n: Node, m: Node)
    requires HasTimer(n) && m.proposer == n.proposer && m.ins == n.ins
    ensures HasTimer(m)
  {
  }

  lemma AnswerKeepsTimer(cfg: Config, me: NodeId, n: Node, m: Message)
    requires HasTimer(n) && (m.Promise? || m.ProposeReject? || m.Accepted? || m.AcceptReject?)
    ensures HasTimer(Handle(cfg, me, n, m).0)
  {
    hide LearnerHandle, Settle;
    if m.Promise? || m.ProposeReject? {
      var p := OnProposeAck(cfg, me, n.ins, n.proposer, m).0;
      assert HasTimer(n.(proposer := p));
    } else {
      var p := OnAcceptAck(cfg, me, n.ins, n.proposer, m).0;
      assert HasTimer(n.(proposer := p));
      OtherKeepsTimer(cfg, me, n.(proposer := p), ValueChosen(m.ins, m.ballot));
    }
    SettleKeepsTimer(ProposerHandle(cfg, me, n, m).0);
  }

  lemma HandleKeepsTimer(cfg: Config, me: NodeId, n: Node, m: Message)
    requires HasTimer(n)
    ensures HasTimer(Handle(cfg, me, n, m).0)
  {
    hide Handle, HasTimer;
    if m.Promise? || m.ProposeReject? || m.Accepted? || m.AcceptReject? {
      AnswerKeepsTimer(cfg, me, n, m);
    } else {
      OtherKeepsTimer(cfg, me, n, m);
    }
  }

  lemma LocalStepKeepsTimer(me: NodeId, n: Node, a: Action)
    requires HasTimer(n)
    ensures HasTimer(LocalStep(me, n, a).0)
  {
  }

  lemma RestartHasTimer(log: Log, sm: Store)
    ensures HasTimer(Restart(log, sm))
  {
  }

  ghost predicate HaveTimers(c: Cluster) {
    forall k {:trigger c.nodes[k]} :: k in c.nodes ==> HasTimer(c.nodes[k])
  }

  lemma NextKeepsTimers(cfg: Config, c: Cluster, a: Action)
    requires HaveTimers(c)
    ensures HaveTimers(Next(cfg, c, a))
  {
    hide Handle, LocalStep, Restart, HasTimer;
    match a {
      case Deliver(p) => if p in c.net && p.dst in c.nodes { HandleKeepsTimer(cfg, p.dst, c.nodes[p.dst], p.msg); }
      case Drop(_) =>
      case Crash(k) => if k in c.nodes { RestartHasTimer(c.nodes[k].log, c.nodes[k].sm); }
      case DieLearning(p) =>
        if p in c.net && p.dst in c.nodes {
          RestartHasTimer(LogAfterLearning(c.nodes[p.dst], p.msg), c.nodes[p.dst].sm);
        }
      case _ => if a.node in c.nodes { LocalStepKeepsTimer(a.node, c.nodes[a.node], a); }
    }
  }

  lemma {:induction false} RunHasTimers(cfg: Config, states: seq<Cluster>, actions: seq<Action>, n: nat)
    requires IsRun(cfg, states, actions) && n <= |actions|
    ensures HaveTimers(states[n])
  {
    hide Next, HasTimer;
    if n == 0 {
      RestartHasTimer(map[], EMPTY_STORE);
    } else {
      RunHasTimers(cfg, states, actions, n - 1);
      NextKeepsTimers(cfg, states[n - 1], actions[n - 1]);
    }
  }

  /**
    NO ROUND IS LEFT BEHIND. In every run, a node that waits for promises or acceptances has the timer armed that asks
    again, whatever messages were lost and however often it was restarted.
    */
  lemma NoRoundIsLeftBehind(cfg: Config, states: seq<Cluster>, actions: seq<Action>, n: nat, k: NodeId, accepting: bool)
    requires IsRun(cfg, states, actions) && n <= |actions| && k in states[n].nodes
    requires states[n].nodes[k].proposer.status == (if accepting then Accepting else Proposing)
    ensures var a := states[n].nodes[k];
      var (b, out) := LocalStep(k, a, Fires(k, accepting));
      && out == All(Propose(a.ins, BallotOf(b.proposer, k)))
      && Begun(a.proposer, b.proposer, a.ins) && Outbids(a.proposer, b.proposer)
  {
    hide Next, Boot, LocalStep;
    RunHasTimers(cfg, states, actions, n);
    assert HasTimer(states[n].nodes[k]);
    TimerStartsRound(k, states[n].nodes[k], accepting);
  }
}
