/** What holds in every reachable cluster, entity by entity, and how it survives steps of the others. */
module Invariant {
  import opened Basics
  import opened Messages
  import opened KvStateMachine
  import opened Proposer
  import opened Node
  import opened Cluster
  import Learner
  import SyncJob

  ghost function PromisedAt(c: Cluster, a: NodeId, i: Instance): Ballot {
    if a in c.nodes then Read(c.nodes[a].log, i).promised else NO_BALLOT
  }

  ghost function Voters(c: Cluster, i: Instance, b: Ballot): set<NodeId> {
    set a | a in c.nodes && Vote(a, i, b) in c.votes
  }

  /** A proposal is chosen once a majority accepted it. */
  ghost predicate Chosen(cfg: Config, c: Cluster, i: Instance, b: Ballot) {
    Slot(i, b) in c.proposals && |Voters(c, i, b)| >= cfg.majority
  }

  /** Some proposal at or below `x` is chosen. */
  ghost predicate ChosenUpTo(cfg: Config, c: Cluster, i: Instance, x: Ballot) {
    exists b: Ballot :: b.AtMost(x) && Chosen(cfg, c, i, b)
  }

  /** Node `a` voted below `b` only at or below `x`, unless something at or below `x` is chosen. */
  ghost predicate Covers(cfg: Config, c: Cluster, a: NodeId, i: Instance, b: Ballot, x: Ballot) {
    forall d: Ballot :: Vote(a, i, d) in c.votes && d.Less(b) ==> d.AtMost(x) || ChosenUpTo(cfg, c, i, x)
  }

  /**
    What a promise of `a` for ballot `b` is worth when the highest accepted ballot it reports is at most `x`: no
    vote of `a` below `b` is still to come, and those that were cast are covered by `x`. Under the source's strict
    test for acceptance, moreover, `a` never votes for `b` itself.
    */
  ghost predicate Pledged(cfg: Config, c: Cluster, a: NodeId, i: Instance, b: Ballot, x: Ballot) {
    && a in c.nodes
    && b.AtMost(PromisedAt(c, a, i))
    && Covers(cfg, c, a, i, b, x)
    && (cfg.strict ==> Vote(a, i, b) !in c.votes)
  }

  ghost predicate ProposedAs(c: Cluster, i: Instance, b: Ballot, value: LogValue) {
    Slot(i, b) in c.proposals && c.proposals[Slot(i, b)].value == value
  }

  /** A ballot is no ballot, or that of a proposal of this value. */
  ghost predicate NoneOrProposed(c: Cluster, i: Instance, b: Ballot, value: LogValue) {
    b == NO_BALLOT || ProposedAs(c, i, b, value)
  }

  ghost predicate ProposalOk(cfg: Config, c: Cluster, s: Slot)
    requires s in c.proposals
  {
    var p := c.proposals[s];
    && p.quorum <= cfg.members
    && |p.quorum| >= cfg.majority
    && p.value != Empty
    && s.ballot.pid >= 1
    && p.basis.Less(s.ballot)
    && NoneOrProposed(c, s.ins, p.basis, p.value)
    && (forall a :: a in p.quorum ==> Pledged(cfg, c, a, s.ins, s.ballot, p.basis))
  }

  ghost predicate VoteOk(c: Cluster, v: Vote) {
    v.who in c.nodes && Slot(v.ins, v.ballot) in c.proposals
  }

  /** The record of node `a` for instance `i`, or the default entry if there is none. */
  ghost predicate RecordOk(cfg: Config, c: Cluster, a: NodeId, i: Instance)
    requires a in c.nodes
  {
    var e := Read(c.nodes[a].log, i);
    && e.accepted.AtMost(e.promised)
    && NoneOrProposed(c, i, e.accepted, e.value)
    && (e.accepted.pid == 0 ==> e.accepted == NO_BALLOT && e.value == Empty)
    && (forall b: Ballot :: Vote(a, i, b) in c.votes ==> b.AtMost(e.promised))
    && (forall b: Ballot :: Vote(a, i, b) in c.votes ==> b.AtMost(e.accepted) || ChosenUpTo(cfg, c, i, e.accepted))
  }

  /** The record of an instance the node has left holds a chosen proposal. */
  ghost predicate Settled(cfg: Config, c: Cluster, i: Instance, e: LogEntry) {
    Chosen(cfg, c, i, e.accepted) && c.proposals[Slot(i, e.accepted)].value == e.value
  }

  ghost predicate LogOk(cfg: Config, c: Cluster, n: Node) {
    && n.ins >= 1
    && (forall i :: i in n.log ==> 1 <= i <= n.ins)
    && (forall i :: 1 <= i < n.ins ==> i in n.log && Settled(cfg, c, i, n.log[i]))
  }

  /** Memory agrees with the log: restarting changes nothing an earlier reply relied on. */
  ghost predicate MemoryOk(n: Node) {
    && n.acceptor == Read(n.log, n.ins)
    && LearnerOk(n.learner)
  }

  /** Nothing is learned between two messages, and a catch-up job never sends from before the first instance. */
  predicate LearnerOk(s: Learner.LearnerState) {
    !s.learned && FromFirst(s.job)
  }

  predicate FromFirst(j: SyncJob.Job) {
    (j.status == SyncJob.Prepared ==> j.begin >= 1) && (j.status == SyncJob.Sending ==> j.next >= 1)
  }

  /** The state machine executed exactly the log below the current instance, and this run its share, in order. */
  ghost predicate ExecutionOk(n: Node) {
    && n.sm == Fold(ValueAt(n.log), n.ins)
    && 1 <= n.boot
    && n.ins == n.boot + |n.executed|
    && (forall j :: 0 <= j < |n.executed| ==> n.executed[j] == Execution(n.boot + j, Read(n.log, n.boot + j).value))
  }

  ghost predicate ProposerOk(cfg: Config, c: Cluster, k: NodeId, i: Instance, p: ProposerState) {
    var b := BallotOf(p, k);
    && p.pid >= 1
    && p.adopted.Less(b)
    && NoneOrProposed(c, i, p.adopted, p.value)
    && (p.status == Proposing || p.status == Accepting || p.proposeTimer.Some? || p.acceptTimer.Some?
        ==> p.value != Empty)
    && (p.status == Proposing ==>
          forall a :: a in p.tally.promises ==> Pledged(cfg, c, a, i, b, p.adopted))
    && (p.status == Accepting ==>
          forall a :: a in p.tally.approvals ==> Vote(a, i, b) in c.votes)
  }

  ghost predicate NodeOk(cfg: Config, c: Cluster, k: NodeId)
    requires k in c.nodes
  {
    var n := c.nodes[k];
    && LogOk(cfg, c, n)
    && MemoryOk(n)
    && ExecutionOk(n)
    && ProposerOk(cfg, c, k, n.ins, n.proposer)
  }

  ghost predicate PacketOk(cfg: Config, c: Cluster, p: Packet) {
    match p.msg
    case Promise(sender, ins, ballot, accepted, value) =>
      && p.dst == ballot.node
      && sender in cfg.members
      && accepted.Less(ballot)
      && NoneOrProposed(c, ins, accepted, value)
      && (accepted.pid == 0 ==> accepted == NO_BALLOT)
      && Pledged(cfg, c, sender, ins, ballot, accepted)
    case Accept(ins, ballot, value) => ProposedAs(c, ins, ballot, value)
    case Accepted(sender, ins, ballot) => Vote(sender, ins, ballot) in c.votes
    case ChosenBroadcast(ins, ballot, value) => Taught(cfg, c, ins, ballot, value)
    case ValueSend(_, ins, ballot, value) => Taught(cfg, c, ins, ballot, value)
    case ValueSync(_, ins, ballot, value) => Taught(cfg, c, ins, ballot, value)
    case ShallILearn(_, ins) => ins >= 1
    case ConfirmLearn(_, ins) => ins >= 1
    case ValueChosen(_, _) => false  // handed over within a node, never sent
    case _ => true
  }

  /** Everything one node tells another about a value is a chosen value. */
  ghost predicate Taught(cfg: Config, c: Cluster, i: Instance, b: Ballot, value: LogValue) {
    Chosen(cfg, c, i, b) && c.proposals[Slot(i, b)].value == value
  }

  /** The promises the proposer of ballot `b` currently counts in instance `i`. */
  ghost function Counting(c: Cluster, i: Instance, b: Ballot): set<NodeId> {
    if b.node in c.nodes then
      var n := c.nodes[b.node];
      if n.ins == i && n.proposer.status == Proposing && n.proposer.pid == b.pid then n.proposer.tally.promises else {}
    else {}
  }

  /** The promises that ballot `b` already used up for a proposal in instance `i`. */
  ghost function Spent(c: Cluster, i: Instance, b: Ballot): set<NodeId> {
    if Slot(i, b) in c.proposals then c.proposals[Slot(i, b)].quorum else {}
  }

  predicate SamePromise(p: Packet, q: Packet) {
    && p.msg.Promise? && q.msg.Promise?
    && p.msg.sender == q.msg.sender && p.msg.ins == q.msg.ins && p.msg.ballot == q.msg.ballot
  }

  /** Each promise exists once: in one packet, or counted, or spent. */
  ghost predicate PromisesOnce(c: Cluster) {
    && (forall p :: p in c.net && p.msg.Promise? ==>
          && c.net[p] == 1
          && p.msg.sender !in Counting(c, p.msg.ins, p.msg.ballot)
          && p.msg.sender !in Spent(c, p.msg.ins, p.msg.ballot))
    && (forall p, q :: p in c.net && q in c.net && SamePromise(p, q) ==> p == q)
    && (forall i, b :: Counting(c, i, b) * Spent(c, i, b) == {})
  }

  ghost predicate Inv(cfg: Config, c: Cluster) {
    && c.nodes.Keys == cfg.members
    && (forall k {:trigger NodeOk(cfg, c, k)} :: k in c.nodes ==> NodeOk(cfg, c, k))
    && (forall a, i {:trigger RecordOk(cfg, c, a, i)} :: a in c.nodes ==> RecordOk(cfg, c, a, i))
    && (forall s {:trigger ProposalOk(cfg, c, s)} :: s in c.proposals ==> ProposalOk(cfg, c, s))
    && (forall v {:trigger VoteOk(c, v)} :: v in c.votes ==> VoteOk(c, v))
    && (forall p {:trigger PacketOk(cfg, c, p)} :: p in c.net ==> PacketOk(cfg, c, p))
    && PromisesOnce(c)
  }

  /**
    What any step does to the shared history: promises only rise, proposals and votes only accumulate, and a new
    vote is at or above (under the strict test: above) what the voter had promised.
    */
  ghost predicate Extends(cfg: Config, c: Cluster, d: Cluster) {
    && c.nodes.Keys == d.nodes.Keys
    && (forall s :: s in c.proposals ==> s in d.proposals && d.proposals[s] == c.proposals[s])
    && c.votes <= d.votes
    && (forall a, i :: PromisedAt(c, a, i).AtMost(PromisedAt(d, a, i)))
    && (forall v :: v in d.votes && v !in c.votes ==>
          && PromisedAt(c, v.who, v.ins).AtMost(v.ballot)
          && (cfg.strict ==> PromisedAt(c, v.who, v.ins) != v.ballot))
  }

  lemma ChosenStays(cfg: Config, c: Cluster, d: Cluster, i: Instance, b: Ballot)
    requires Extends(cfg, c, d) && Chosen(cfg, c, i, b)
    ensures Chosen(cfg, d, i, b)
  {
    SubsetSize(Voters(c, i, b), Voters(d, i, b));
  }

  lemma ChosenUpToStays(cfg: Config, c: Cluster, d: Cluster, i: Instance, x: Ballot, y: Ballot)
    requires Extends(cfg, c, d) && ChosenUpTo(cfg, c, i, x) && x.AtMost(y)
    ensures ChosenUpTo(cfg, d, i, y)
  {
    var b: Ballot :| b.AtMost(x) && Chosen(cfg, c, i, b);
    ChosenStays(cfg, c, d, i, b);
    assert b.AtMost(y);
  }

  /** A pledge survives every step, and holds for every higher report. */
  lemma PledgeStays(cfg: Config, c: Cluster, d: Cluster, a: NodeId, i: Instance, b: Ballot, x: Ballot, y: Ballot)
    requires Extends(cfg, c, d) && Pledged(cfg, c, a, i, b, x) && x.AtMost(y)
    ensures Pledged(cfg, d, a, i, b, y)
  {
    forall e: Ballot | Vote(a, i, e) in d.votes && e.Less(b)
      ensures e.AtMost(y) || ChosenUpTo(cfg, d, i, y)
    {
      assert Vote(a, i, e) in c.votes;
      if !e.AtMost(x) {
        ChosenUpToStays(cfg, c, d, i, x, y);
      }
    }
  }

  lemma ProposalStays(cfg: Config, c: Cluster, d: Cluster, s: Slot)
    requires Extends(cfg, c, d) && s in c.proposals && ProposalOk(cfg, c, s)
    ensures ProposalOk(cfg, d, s)
  {
    var p := c.proposals[s];
    forall a | a in p.quorum
      ensures Pledged(cfg, d, a, s.ins, s.ballot, p.basis)
    {
      PledgeStays(cfg, c, d, a, s.ins, s.ballot, p.basis, p.basis);
    }
  }

  lemma TaughtStays(cfg: Config, c: Cluster, d: Cluster, i: Instance, b: Ballot, value: LogValue)
    requires Extends(cfg, c, d) && Taught(cfg, c, i, b, value)
    ensures Taught(cfg, d, i, b, value)
  {
    ChosenStays(cfg, c, d, i, b);
  }

  lemma PacketStays(cfg: Config, c: Cluster, d: Cluster, p: Packet)
    requires Extends(cfg, c, d) && PacketOk(cfg, c, p)
    ensures PacketOk(cfg, d, p)
  {
    match p.msg
    case Promise(sender, ins, ballot, accepted, _) =>
      PledgeStays(cfg, c, d, sender, ins, ballot, accepted, accepted);
    case ChosenBroadcast(ins, ballot, value) => TaughtStays(cfg, c, d, ins, ballot, value);
    case ValueSend(_, ins, ballot, value) => TaughtStays(cfg, c, d, ins, ballot, value);
    case ValueSync(_, ins, ballot, value) => TaughtStays(cfg, c, d, ins, ballot, value);
    case _ =>
  }

  /** A record that a step leaves alone, whose owner cast no new vote in its instance. */
  lemma RecordStays(cfg: Config, c: Cluster, d: Cluster, a: NodeId, i: Instance)
    requires Extends(cfg, c, d) && a in c.nodes && RecordOk(cfg, c, a, i)
    requires Read(c.nodes[a].log, i) == Read(d.nodes[a].log, i)
    requires forall b: Ballot :: Vote(a, i, b) in d.votes ==> Vote(a, i, b) in c.votes
    ensures RecordOk(cfg, d, a, i)
  {
    var e := Read(c.nodes[a].log, i);
    forall b: Ballot | Vote(a, i, b) in d.votes
      ensures b.AtMost(e.accepted) || ChosenUpTo(cfg, d, i, e.accepted)
    {
      if !b.AtMost(e.accepted) {
        ChosenUpToStays(cfg, c, d, i, e.accepted, e.accepted);
      }
    }
  }

  lemma LogStays(cfg: Config, c: Cluster, d: Cluster, n: Node)
    requires Extends(cfg, c, d) && LogOk(cfg, c, n)
    ensures LogOk(cfg, d, n)
  {
    forall i | 1 <= i < n.ins
      ensures i in n.log && Settled(cfg, d, i, n.log[i])
    {
      assert Settled(cfg, c, i, n.log[i]);
      ChosenStays(cfg, c, d, i, n.log[i].accepted);
    }
  }

  lemma ProposerStays(cfg: Config, c: Cluster, d: Cluster, k: NodeId, i: Instance, p: ProposerState)
    requires Extends(cfg, c, d) && ProposerOk(cfg, c, k, i, p)
    ensures ProposerOk(cfg, d, k, i, p)
  {
    if p.status == Proposing {
      forall a | a in p.tally.promises
        ensures Pledged(cfg, d, a, i, BallotOf(p, k), p.adopted)
      {
        PledgeStays(cfg, c, d, a, i, BallotOf(p, k), p.adopted, p.adopted);
      }
    }
  }

  lemma NodeStays(cfg: Config, c: Cluster, d: Cluster, k: NodeId)
    requires Extends(cfg, c, d) && k in c.nodes && NodeOk(cfg, c, k) && c.nodes[k] == d.nodes[k]
    ensures NodeOk(cfg, d, k)
  {
    var n := c.nodes[k];
    LogStays(cfg, c, d, n);
    ProposerStays(cfg, c, d, k, n.ins, n.proposer);
  }
}
