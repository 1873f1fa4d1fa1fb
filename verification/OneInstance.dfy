/** A whole instance: a majority chooses the proposer's value, and everybody in it learns and executes it. */
module OneInstance {
  import opened Messages
  import opened KvStateMachine
  import opened Proposer
  import opened Node
  import opened Cluster
  import opened Invariant
  import opened Paths
  import opened Exchanges
  import opened OneRound

  /** Only node `k` changed, and packets to the others are still there. */
  ghost predicate Moved(c: Cluster, d: Cluster, k: NodeId) {
    && k in c.nodes && d.nodes.Keys == c.nodes.Keys
    && (forall x :: x in c.nodes && x != k ==> d.nodes[x] == c.nodes[x])
    && (forall p :: p in c.net && p.dst != k ==> p in d.net)
    && d.proposals == c.proposals && d.votes == c.votes
  }

  lemma ExchangeMoves(cfg: Config, c: Cluster, d: Cluster, p: Packet, n: Node, out: Send)
    requires p in c.net && p.dst in c.nodes && d.nodes == c.nodes[p.dst := n]
    requires d.net == c.net - multiset{p} + Packets(cfg, out) && d.proposals == c.proposals && d.votes == c.votes
    ensures Moved(c, d, p.dst)
    ensures out.All? ==> OnItsWay(d, cfg.members, out.msg)
    ensures out.Quiet? ==> d.net == c.net - multiset{p}
  {
  }

  // ---------------------------------------------------------------- the proposer learns

  /** The proposer, which accepted its own proposal, has counted `done`; the acceptances of `todo` are on their way. */
  ghost predicate Tallying(c: Cluster, r: Attempt, done: set<NodeId>, todo: set<NodeId>) {
    && Offers(c, r, done) && done * todo == {} && r.ballot.pid >= 1 && HasAccepted(c, r.Lead(), r)
    && forall a {:trigger a in todo} :: a in todo ==> Packet(r.Lead(), Message.Accepted(a, r.ins, r.ballot)) in c.net
  }

  /** The node has left the instance with the value of the attempt, and has its record. */
  ghost predicate HasLearned(n: Node, r: Attempt, d: Node) {
    && Finishes(n, r.value, d)
    && r.ins in d.log && d.log[r.ins] == r.Entry()
    && forall j :: j in n.log && j != r.ins ==> j in d.log && d.log[j] == n.log[j]
  }

  lemma TallyingFacts(c: Cluster, r: Attempt, done: set<NodeId>, todo: set<NodeId>, a: NodeId)
    requires Tallying(c, r, done, todo) && a in todo
    ensures |done + {a}| == |done| + 1 && r.Lead() in c.nodes && c.nodes[r.Lead()].proposer.pid == r.ballot.pid
    ensures var n, m := c.nodes[r.Lead()], Message.Accepted(a, r.ins, r.ballot);
      && Awaited(r.Lead(), n, m) && Packet(r.Lead(), m) in c.net && n.proposer.tally.approvals == done && n.ins == r.ins
      && n.acceptor == r.Entry() && r.ins in n.log && n.log[r.ins] == r.Entry()
  {
  }

  lemma TallyOne(cfg: Config, start: Cluster, c: Cluster, r: Attempt, done: set<NodeId>, todo: set<NodeId>, a: NodeId)
    returns (d: Cluster)
    requires LeadsTo(cfg, false, start, c) && Tallying(c, r, done, todo) && a in todo
    ensures LeadsTo(cfg, false, start, d) && Moved(c, d, r.Lead())
    ensures |done| + 1 < cfg.majority ==>
      && Tallying(d, r, done + {a}, todo - {a})
      && d.nodes[r.Lead()] == c.nodes[r.Lead()].(proposer := d.nodes[r.Lead()].proposer)
      && d.nodes[r.Lead()].proposer.pid == r.ballot.pid
    ensures |done| + 1 >= cfg.majority ==>
      && HasLearned(c.nodes[r.Lead()], r, d.nodes[r.Lead()])
      && OnItsWay(d, cfg.members, ChosenBroadcast(r.ins, r.ballot, r.value))
  {
    hide LeadsTo, Handle, Finishes, Tallying, Packets, Moved, OnItsWay, Awaited;
    var k, m := r.Lead(), Message.Accepted(a, r.ins, r.ballot);
    TallyingFacts(c, r, done, todo, a);
    MajorityIsRecognised(cfg, k, c.nodes[k], m);
    var (n, out) := Handle(cfg, k, c.nodes[k], m);
    d := Exchange(cfg, start, c, Packet(k, m));
    ExchangeMoves(cfg, c, d, Packet(k, m), n, out);
    if |done| + 1 < cfg.majority {
      TallyGoesOn(c, d, r, done, todo, a);
    }
  }

  /** One acceptance was counted and used up. */
  lemma TallyGoesOn(c: Cluster, d: Cluster, r: Attempt, done: set<NodeId>, todo: set<NodeId>, a: NodeId)
    requires Tallying(c, r, done, todo) && a in todo && r.Lead() in c.nodes && r.Lead() in d.nodes
    requires var n, m := c.nodes[r.Lead()], d.nodes[r.Lead()];
      && m == n.(proposer := m.proposer) && m.proposer.status == Accepting && m.proposer.pid == r.ballot.pid
      && m.proposer.tally.approvals == done + {a}
    requires d.net == c.net - multiset{Packet(r.Lead(), Message.Accepted(a, r.ins, r.ballot))} && d.votes == c.votes
    ensures Tallying(d, r, done + {a}, todo - {a})
  {
    forall b | b in todo - {a} ensures Packet(r.Lead(), Message.Accepted(b, r.ins, r.ballot)) in d.net {
      assert b in todo;
    }
  }

  lemma {:induction false} TallyAll(cfg: Config, start: Cluster, c: Cluster, r: Attempt, done: set<NodeId>, todo: set<NodeId>)
    returns (d: Cluster)
    requires LeadsTo(cfg, false, start, c) && Tallying(c, r, done, todo)
    requires |done| + |todo| == cfg.majority && todo != {}
    ensures LeadsTo(cfg, false, start, d) && Moved(c, d, r.Lead())
    ensures HasLearned(c.nodes[r.Lead()], r, d.nodes[r.Lead()])
    ensures OnItsWay(d, cfg.members, ChosenBroadcast(r.ins, r.ballot, r.value))
    decreases |todo|
  {
    hide LeadsTo, Tallying, HasLearned, OnItsWay;
    var a :| a in todo;
    var rest := todo - {a};
    assert |rest| == |todo| - 1;
    TallyingFacts(c, r, done, todo, a);
    var c1 := TallyOne(cfg, start, c, r, done, todo, a);
    if rest == {} {
      d := c1;
    } else {
      d := TallyAll(cfg, start, c1, r, done + {a}, rest);
      SameProposal(c.nodes[r.Lead()], c1.nodes[r.Lead()], r, d.nodes[r.Lead()]);
    }
  }

  /** Only the proposal id of the proposer outlives the instance. */
  lemma SameProposal(n: Node, m: Node, r: Attempt, d: Node)
    requires HasLearned(m, r, d) && m == n.(proposer := m.proposer) && m.proposer.pid == n.proposer.pid
    ensures HasLearned(n, r, d)
  {
  }

  // ---------------------------------------------------------------- the others learn

  /** `done` have learned, `todo` have accepted and are about to be told. */
  ghost predicate Telling(b: Cluster, c: Cluster, r: Attempt, done: set<NodeId>, todo: set<NodeId>) {
    && c.nodes.Keys == b.nodes.Keys && done <= b.nodes.Keys && done * todo == {} && r.ballot.pid >= 1
    && OnItsWay(c, todo, ChosenBroadcast(r.ins, r.ballot, r.value))
    && (forall a :: a in todo ==> a in b.nodes && c.nodes[a] == b.nodes[a] && HasAccepted(c, a, r))
    && (forall a :: a in done ==> HasLearned(b.nodes[a], r, c.nodes[a]))
  }

  lemma TellOne(cfg: Config, start: Cluster, b: Cluster, c: Cluster, r: Attempt, done: set<NodeId>, todo: set<NodeId>, a: NodeId)
    returns (d: Cluster)
    requires LeadsTo(cfg, false, start, c) && Telling(b, c, r, done, todo) && a in todo
    ensures LeadsTo(cfg, false, start, d) && Moved(c, d, a) && Telling(b, d, r, done + {a}, todo - {a})
  {
    hide LeadsTo, Handle, Finishes;
    var m := ChosenBroadcast(r.ins, r.ballot, r.value);
    AcceptedIsLearned(cfg, a, c.nodes[a], m);
    var (n, out) := Handle(cfg, a, c.nodes[a], m);
    d := Exchange(cfg, start, c, Packet(a, m));
    ExchangeMoves(cfg, c, d, Packet(a, m), n, out);
  }

  lemma {:induction false} TellAll(cfg: Config, start: Cluster, b: Cluster, c: Cluster, r: Attempt,
                                   done: set<NodeId>, todo: set<NodeId>) returns (d: Cluster)
    requires LeadsTo(cfg, false, start, c) && Telling(b, c, r, done, todo)
    ensures LeadsTo(cfg, false, start, d) && Telling(b, d, r, done + todo, {})
    ensures d.nodes.Keys == c.nodes.Keys && forall x :: x in c.nodes && x !in todo ==> d.nodes[x] == c.nodes[x]
    ensures d.proposals == c.proposals && d.votes == c.votes
    decreases |todo|
  {
    hide LeadsTo, Telling;
    if todo == {} {
      d := c;
      assert done + todo == done;
    } else {
      var a :| a in todo;
      var c1 := TellOne(cfg, start, b, c, r, done, todo, a);
      d := TellAll(cfg, start, b, c1, r, done + {a}, todo - {a});
      assert done + {a} + (todo - {a}) == done + todo;
    }
  }

  // ---------------------------------------------------------------- the whole instance

  /** What an instance means for a node: it has the value in its log and has executed it, once, behind what it had. */
  ghost predicate Executed(n: Node, r: Attempt, d: Node) {
    && d.ins == r.ins + 1 && d.sm == Apply(n.sm, r.ins, r.value) && d.boot == n.boot
    && d.executed == n.executed + [Execution(r.ins, r.value)]
    && d.learner.job == n.learner.job && d.learner.highestKnown == n.learner.highestKnown
    && r.ins in d.log && d.log[r.ins] == r.Entry()
    && forall j :: j in n.log && j != r.ins ==> j in d.log && d.log[j] == n.log[j]
  }

  ghost predicate AllAtRest(c: Cluster, i: Instance, quorum: set<NodeId>) {
    quorum <= c.nodes.Keys && forall a :: a in quorum ==> AtRest(c, i, a)
  }

  lemma LearnedFromPast(c: Cluster, i: Instance, a: NodeId, m: Node, r: Attempt, d: Cluster)
    requires AtRest(c, i, a) && r.ins == i && SamePast(c.nodes[a], m) && a in d.nodes && HasLearned(m, r, d.nodes[a])
    ensures Executed(c.nodes[a], r, d.nodes[a]) && AtRest(d, i + 1, a)
  {
  }

  lemma LeadHasVoted(c: Cluster, r: Attempt, quorum: set<NodeId>)
    requires Voting(c, r, quorum, {}) && r.Lead() in quorum && r.ballot.pid >= 1
    ensures Tallying(c, r, {}, quorum) && quorum <= c.nodes.Keys
    ensures forall a :: a in quorum ==> HasAccepted(c, a, r)
  {
  }

  /**
    ONE INSTANCE, FROM SUBMISSION TO EXECUTION. Where a majority is idle in an instance, and its node `k` submits a value,
    the steps of one round get it chosen, and learned and executed by the whole majority, which then is idle in the next
    instance.
    */
  lemma Replicates(cfg: Config, start: Cluster, c: Cluster, i: Instance, k: NodeId, v: LogValue, quorum: set<NodeId>)
    returns (d: Cluster)
    requires LeadsTo(cfg, false, start, c) && !cfg.strict && 1 <= cfg.majority == |quorum| && quorum <= cfg.members
    requires v != Empty && k in quorum && AllAtRest(c, i, quorum)
    ensures LeadsTo(cfg, false, start, d) && d.nodes.Keys == c.nodes.Keys && AllAtRest(d, i + 1, quorum)
    ensures var r := FirstAttempt(c, i, k, v);
      && Chosen(cfg, d, i, r.ballot) && ProposedAs(d, i, r.ballot, v)
      && forall a :: a in quorum ==> Executed(c.nodes[a], r, d.nodes[a])
    ensures forall x :: x in c.nodes && x !in quorum ==> d.nodes[x] == c.nodes[x]
  {
    hide LeadsTo, HasAccepted, HasLearned, Voting, Tallying, Chosen, Telling, Around, AtRest, OnItsWay, Executed, AllAtRest, ProposedAs;
    UsableAttempt(c, i, k, v, quorum);
    var r := FirstAttempt(c, i, k, v);
    var b := FirstRound(cfg, false, start, c, i, k, v, quorum);
    LeadHasVoted(b, r, quorum);
    var b1 := TallyAll(cfg, start, b, r, {}, quorum);
    TellingStarts(b, b1, r, quorum, cfg.members);
    d := TellAll(cfg, start, b, b1, r, {k}, quorum - {k});
    assert {k} + (quorum - {k}) == quorum;
    AllExecuted(c, b, d, i, r, quorum);
    StaysChosen(cfg, b, d, r);
    OthersStay(c, b, r, quorum);
  }

  lemma UsableAttempt(c: Cluster, i: Instance, k: NodeId, v: LogValue, quorum: set<NodeId>)
    requires AllAtRest(c, i, quorum) && k in quorum
    ensures quorum <= c.nodes.Keys && (forall a :: a in quorum ==> AtRest(c, i, a)) && FirstAttempt(c, i, k, v).ballot.pid >= 1
  {
  }

  lemma AllExecuted(c: Cluster, b: Cluster, d: Cluster, i: Instance, r: Attempt, quorum: set<NodeId>)
    requires AllAtRest(c, i, quorum) && r.ins == i && Around(c, b, quorum + {r.Lead()}, r) && Telling(b, d, r, quorum, {})
    ensures AllAtRest(d, i + 1, quorum) && forall a :: a in quorum ==> Executed(c.nodes[a], r, d.nodes[a])
  {
    hide HasLearned, SamePast, AtRest, Executed;
    forall a | a in quorum ensures AtRest(d, i + 1, a) && Executed(c.nodes[a], r, d.nodes[a]) {
      LearnedFromPast(c, i, a, b.nodes[a], r, d);
    }
  }

  lemma OthersStay(c: Cluster, b: Cluster, r: Attempt, quorum: set<NodeId>)
    requires Around(c, b, quorum + {r.Lead()}, r) && r.Lead() in quorum
    ensures b.nodes.Keys == c.nodes.Keys && forall x :: x in c.nodes && x !in quorum ==> b.nodes[x] == c.nodes[x]
  {
  }

  lemma TellingStarts(b: Cluster, c: Cluster, r: Attempt, quorum: set<NodeId>, members: set<NodeId>)
    requires Moved(b, c, r.Lead()) && r.Lead() in quorum && quorum <= b.nodes.Keys && quorum <= members && r.ballot.pid >= 1
    requires HasLearned(b.nodes[r.Lead()], r, c.nodes[r.Lead()])
    requires OnItsWay(c, members, ChosenBroadcast(r.ins, r.ballot, r.value))
    requires forall a :: a in quorum ==> HasAccepted(b, a, r)
    ensures Telling(b, c, r, {r.Lead()}, quorum - {r.Lead()})
  {
    hide HasLearned;
  }

  lemma StaysChosen(cfg: Config, c: Cluster, d: Cluster, r: Attempt)
    requires Chosen(cfg, c, r.ins, r.ballot) && ProposedAs(c, r.ins, r.ballot, r.value)
    requires d.nodes.Keys == c.nodes.Keys && d.proposals == c.proposals && d.votes == c.votes
    ensures Chosen(cfg, d, r.ins, r.ballot) && ProposedAs(d, r.ins, r.ballot, r.value)
  {
    assert Voters(d, r.ins, r.ballot) == Voters(c, r.ins, r.ballot);
  }
}
