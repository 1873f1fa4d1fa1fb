/** Runs of the cluster: what every cluster can do, and what it can no longer do without the conditions of agreement. */
module Runs {
  import opened Basics
  import opened Messages
  import opened KvStateMachine
  import opened Proposer
  import opened Node
  import opened Cluster
  import opened Invariant
  import opened Paths
  import opened OneRound
  import opened OneInstance
  import Preservation
  import Agreement
  import CatchUp
  import Learner
  import SyncJob
  import Quorum

  // ---------------------------------------------------------------- every log is possible

  ghost predicate IsFresh(c: Cluster, k: NodeId) {
    && k in c.nodes
    && c.nodes[k] == Node(1, NO_ENTRY, Proposer.Fresh(1), Learner.FRESH, map[], EMPTY_STORE, 1, [])
  }

  lemma BootIsFresh(cfg: Config)
    ensures forall k :: k in cfg.members ==> IsFresh(Boot(cfg), k)
    ensures Boot(cfg).nodes.Keys == cfg.members
  {
    Preservation.BootNode();
  }

  function LogOf(values: seq<LogValue>): nat -> LogValue {
    (i: nat) => if 1 <= i <= |values| then values[i - 1] else Empty
  }

  function ExecutionsOf(values: seq<LogValue>): seq<Execution> {
    seq(|values|, j requires 0 <= j < |values| => Execution(j + 1, values[j]))
  }

  /** The node has these values in its log, has executed them once each and in order, and is in the instance behind. */
  ghost predicate Replicated(n: Node, values: seq<LogValue>) {
    && n.ins == |values| + 1 && n.boot == 1
    && n.executed == ExecutionsOf(values) && n.sm == Fold(LogOf(values), |values| + 1)
    && forall i :: 1 <= i <= |values| ==> i in n.log && n.log[i].value == values[i - 1]
  }

  lemma FreshReplicatesNothing(c: Cluster, k: NodeId)
    requires IsFresh(c, k)
    ensures Replicated(c.nodes[k], []) && AtRest(c, 1, k)
  {
    assert ExecutionsOf([]) == [];
  }

  lemma FoldOfMore(values: seq<LogValue>, v: LogValue)
    ensures Fold(LogOf(values + [v]), |values| + 2) == Apply(Fold(LogOf(values), |values| + 1), |values| + 1, v)
  {
    RunExtensional(EMPTY_STORE, LogOf(values + [v]), LogOf(values), 1, |values| + 1);
  }

  lemma ReplicatesOneMore(n: Node, values: seq<LogValue>, r: Attempt, d: Node)
    requires Replicated(n, values) && Executed(n, r, d) && r.ins == |values| + 1
    ensures Replicated(d, values + [r.value])
  {
    hide Fold, Apply;
    FoldOfMore(values, r.value);
    assert ExecutionsOf(values + [r.value]) == ExecutionsOf(values) + [Execution(|values| + 1, r.value)];
  }

  /** The majority is level, with these values, and the others have not been told anything. */
  ghost predicate Level(cfg: Config, c: Cluster, quorum: set<NodeId>, values: seq<LogValue>) {
    && c.nodes.Keys == cfg.members && quorum <= cfg.members && AllAtRest(c, |values| + 1, quorum)
    && (forall a :: a in quorum ==> Replicated(c.nodes[a], values) && c.nodes[a].learner.job == SyncJob.NO_JOB)
    && (forall x :: x in cfg.members && x !in quorum ==> IsFresh(c, x))
  }

  /** A majority chooses, learns and executes one value after the other, all submitted by node `k`. */
  lemma {:induction false} EveryLogIsPossible(cfg: Config, k: NodeId, quorum: set<NodeId>, values: seq<LogValue>) returns (d: Cluster)
    requires !cfg.strict && 1 <= cfg.majority == |quorum| && k in quorum && quorum <= cfg.members
    requires forall v :: v in values ==> v != Empty
    ensures LeadsTo(cfg, false, Boot(cfg), d) && Level(cfg, d, quorum, values)
  {
    hide LeadsTo, Boot, Level;
    if values == [] {
      d := Boot(cfg);
      LeadsToItself(cfg, false, d);
      BootIsLevel(cfg, quorum);
    } else {
      var before, v := values[..|values| - 1], values[|values| - 1];
      assert before + [v] == values;
      assert forall x :: x in before ==> x in values;
      assert v in values;
      var c := EveryLogIsPossible(cfg, k, quorum, before);
      LevelAtRest(cfg, c, quorum, before);
      d := Replicates(cfg, Boot(cfg), c, |values|, k, v, quorum);
      StaysLevel(cfg, c, d, quorum, before, FirstAttempt(c, |values|, k, v));
    }
  }

  lemma BootIsLevel(cfg: Config, quorum: set<NodeId>)
    requires quorum <= cfg.members
    ensures Level(cfg, Boot(cfg), quorum, [])
  {
    hide Replicated, Boot, AtRest;
    BootIsFresh(cfg);
    forall k | k in cfg.members ensures Replicated(Boot(cfg).nodes[k], []) && AtRest(Boot(cfg), 1, k) {
      FreshReplicatesNothing(Boot(cfg), k);
    }
  }

  lemma LevelAtRest(cfg: Config, c: Cluster, quorum: set<NodeId>, values: seq<LogValue>)
    requires Level(cfg, c, quorum, values)
    ensures AllAtRest(c, |values| + 1, quorum)
  {
  }

  lemma StaysLevel(cfg: Config, c: Cluster, d: Cluster, quorum: set<NodeId>, values: seq<LogValue>, r: Attempt)
    requires Level(cfg, c, quorum, values) && r.ins == |values| + 1
    requires d.nodes.Keys == c.nodes.Keys && AllAtRest(d, |values| + 2, quorum)
    requires forall a :: a in quorum ==> Executed(c.nodes[a], r, d.nodes[a])
    requires forall x :: x in c.nodes && x !in quorum ==> d.nodes[x] == c.nodes[x]
    ensures Level(cfg, d, quorum, values + [r.value])
  {
    hide Replicated, AtRest;
    forall a | a in quorum ensures Replicated(d.nodes[a], values + [r.value]) {
      ReplicatesOneMore(c.nodes[a], values, r, d.nodes[a]);
    }
  }

  /** A majority with `k` in it. */
  lemma QuorumWith(cfg: Config, k: NodeId) returns (quorum: set<NodeId>)
    requires 1 <= cfg.majority <= |cfg.members| && k in cfg.members
    ensures k in quorum && quorum <= cfg.members && |quorum| == cfg.majority
  {
    var others := SubsetOfSize(cfg.members - {k}, cfg.majority - 1);
    quorum := others + {k};
  }

  /**
    THE THEOREMS ARE NOT EMPTY. In every cluster that has a majority, without the strict test, each node can get each
    value chosen; and the node, and each other one of that majority, leaves the instance with the value in its log,
    executed.
    */
  lemma EveryClusterDecides(cfg: Config, k: NodeId, v: LogValue)
    returns (states: seq<Cluster>, actions: seq<Action>, quorum: set<NodeId>)
    requires !cfg.strict && 1 <= cfg.majority <= |cfg.members| && k in cfg.members && v != Empty
    ensures IsRun(cfg, states, actions) && k in quorum && |quorum| == cfg.majority
    ensures ReplicatedBy(states[|actions|], quorum, [v])
    ensures Chosen(cfg, states[|actions|], 1, Ballot(1, k)) && ProposedAs(states[|actions|], 1, Ballot(1, k), v)
  {
    hide LeadsTo, Boot, Next, Chosen, ProposedAs, Replicated;
    quorum := QuorumWith(cfg, k);
    LeadsToItself(cfg, false, Boot(cfg));
    BootIsFresh(cfg);
    FreshQuorumAtRest(Boot(cfg), quorum);
    var d := Replicates(cfg, Boot(cfg), Boot(cfg), 1, k, v, quorum);
    forall a | a in quorum ensures Replicated(d.nodes[a], [v]) {
      FreshReplicatesNothing(Boot(cfg), a);
      ReplicatesOneMore(Boot(cfg).nodes[a], [], FirstAttempt(Boot(cfg), 1, k, v), d.nodes[a]);
      assert [] + [v] == [v];
    }
    states, actions := LeadsToHasRun(cfg, d);
  }

  /** Each of these nodes has replicated the values. */
  ghost predicate ReplicatedBy(c: Cluster, nodes: set<NodeId>, values: seq<LogValue>) {
    nodes <= c.nodes.Keys && forall a :: a in nodes ==> Replicated(c.nodes[a], values)
  }

  lemma FreshQuorumAtRest(c: Cluster, quorum: set<NodeId>)
    requires quorum <= c.nodes.Keys && forall a :: a in quorum ==> IsFresh(c, a)
    ensures AllAtRest(c, 1, quorum)
  {
  }

  // ---------------------------------------------------------------- everybody follows

  /** In the middle of catching up: `done` have everything, the others nothing yet, and the job of `k` is free. */
  ghost predicate Following(cfg: Config, c: Cluster, k: NodeId, values: seq<LogValue>, done: set<NodeId>) {
    && c.nodes.Keys == cfg.members && k in done && done <= cfg.members
    && !c.nodes[k].learner.learned && c.nodes[k].learner.job == SyncJob.NO_JOB
    && (forall a :: a in done ==> Replicated(c.nodes[a], values))
    && (forall x :: x in cfg.members && x !in done ==> IsFresh(c, x))
  }

  lemma FollowerReplicates(f: Node, d: Node, l: Node, values: seq<LogValue>)
    requires f == Node(1, NO_ENTRY, Proposer.Fresh(1), Learner.FRESH, map[], EMPTY_STORE, 1, [])
    requires Replicated(l, values) && CatchUp.Follows(f, d, l.log, 1, l.ins)
    ensures Replicated(d, values)
  {
    RunExtensional(EMPTY_STORE, ValueAt(l.log), LogOf(values), 1, l.ins);
    assert d.executed == ExecutionsOf(values);
  }

  lemma OneFollows(cfg: Config, c: Cluster, k: NodeId, values: seq<LogValue>, done: set<NodeId>, x: NodeId) returns (d: Cluster)
    requires LeadsTo(cfg, false, Boot(cfg), c) && Following(cfg, c, k, values, done)
    requires x in cfg.members && x !in done && |values| >= 2
    ensures LeadsTo(cfg, false, Boot(cfg), d) && Following(cfg, d, k, values, done + {x})
  {
    hide LeadsTo, Boot, Replicated, CatchUp.Follows;
    ReplicatedIns(c.nodes[k], values);
    d := CatchUp.CatchesUp(cfg, c, k, x);
    LeadsOn(cfg, false, Boot(cfg), c, d);
    FollowerReplicates(c.nodes[x], d.nodes[x], c.nodes[k], values);
    SameReplicated(c.nodes[k], d.nodes[k], values);
  }

  lemma ReplicatedIns(n: Node, values: seq<LogValue>)
    requires Replicated(n, values)
    ensures n.ins == |values| + 1
  {
  }

  lemma SameReplicated(n: Node, m: Node, values: seq<LogValue>)
    requires Replicated(n, values) && m == n.(learner := m.learner)
    ensures Replicated(m, values)
  {
  }

  lemma {:induction false} AllFollow(cfg: Config, c: Cluster, k: NodeId, values: seq<LogValue>, done: set<NodeId>, todo: set<NodeId>)
    returns (d: Cluster)
    requires LeadsTo(cfg, false, Boot(cfg), c) && Following(cfg, c, k, values, done) && |values| >= 2
    requires done + todo == cfg.members && done * todo == {}
    ensures LeadsTo(cfg, false, Boot(cfg), d) && Following(cfg, d, k, values, cfg.members)
    decreases |todo|
  {
    hide LeadsTo, Boot, Following;
    if todo == {} {
      d := c;
      assert done == cfg.members;
    } else {
      var x :| x in todo;
      assert x !in done * todo;
      var c1 := OneFollows(cfg, c, k, values, done, x);
      d := AllFollow(cfg, c1, k, values, done + {x}, todo - {x});
    }
  }

  /**
    EVERYBODY FOLLOWS. In every cluster that has a majority, without the strict test, and for every log of at least two
    values, a run leads every node, of the majority that chose them or not, to the same log, executed in the same order,
    once each, and so to the same store.
    */
  lemma EverybodyFollows(cfg: Config, k: NodeId, values: seq<LogValue>) returns (states: seq<Cluster>, actions: seq<Action>)
    requires !cfg.strict && 1 <= cfg.majority <= |cfg.members| && k in cfg.members
    requires |values| >= 2 && forall v :: v in values ==> v != Empty
    ensures IsRun(cfg, states, actions) && ReplicatedBy(states[|actions|], cfg.members, values)
  {
    hide LeadsTo, Boot, Next, Level, Replicated;
    var quorum := QuorumWith(cfg, k);
    var c := EveryLogIsPossible(cfg, k, quorum, values);
    LevelFollows(cfg, c, k, quorum, values);
    assert quorum + (cfg.members - quorum) == cfg.members;
    var d := AllFollow(cfg, c, k, values, quorum, cfg.members - quorum);
    states, actions := LeadsToHasRun(cfg, d);
  }

  lemma LevelFollows(cfg: Config, c: Cluster, k: NodeId, quorum: set<NodeId>, values: seq<LogValue>)
    requires Level(cfg, c, quorum, values) && k in quorum
    ensures Following(cfg, c, k, values, quorum)
  {
    assert AtRest(c, |values| + 1, k);
  }

  // ---------------------------------------------------------------- what follows for agreement

  /** Whatever two ballots get chosen in one instance carry one value. */
  ghost predicate OneValue(cfg: Config, c: Cluster) {
    forall i, b, d :: Chosen(cfg, c, i, b) && Chosen(cfg, c, i, d) ==>
      c.proposals[Slot(i, b)].value == c.proposals[Slot(i, d)].value
  }

  /** Whatever gets chosen in an instance, in any run, has one value. */
  ghost predicate Agrees(cfg: Config) {
    forall states, actions :: IsRun(cfg, states, actions) ==> OneValue(cfg, states[|actions|])
  }

  lemma ChosenAround(cfg: Config, c: Cluster, d: Cluster, touched: set<NodeId>, i: Instance, b: Ballot, r: Attempt)
    requires Around(c, d, touched, r) && Chosen(cfg, c, i, b) && Slot(i, b) != Slot(r.ins, r.ballot)
    ensures Chosen(cfg, d, i, b) && d.proposals[Slot(i, b)] == c.proposals[Slot(i, b)]
  {
    SubsetSize(Voters(c, i, b), Voters(d, i, b));
  }

  /** Where two majorities are disjoint, two nodes get two values chosen, each by its own majority. */
  lemma DisjointMajoritiesDisagree(cfg: Config, v: LogValue, w: LogValue) returns (c: Cluster)
    requires !cfg.strict && 1 <= cfg.majority && 2 * cfg.majority <= |cfg.members|
    requires v != Empty && w != Empty && v != w
    ensures LeadsTo(cfg, false, Boot(cfg), c) && !OneValue(cfg, c)
  {
    hide LeadsTo, Boot, Around, Chosen, Voting;
    var left := SubsetOfSize(cfg.members, cfg.majority);
    var right := SubsetOfSize(cfg.members - left, cfg.majority);
    var k := PickOne(left);
    var l := PickOne(right);
    LeadsToItself(cfg, false, Boot(cfg));
    BootIsFresh(cfg);
    var r := FirstAttempt(Boot(cfg), 1, k, v);
    var c1 := FirstRound(cfg, false, Boot(cfg), Boot(cfg), 1, k, v, left);
    forall a | a in right ensures IsFresh(c1, a) {
      FreshAround(Boot(cfg), c1, left + {k}, r, a);
    }
    var s := FirstAttempt(c1, 1, l, w);
    c := FirstRound(cfg, false, Boot(cfg), c1, 1, l, w, right);
    ChosenAround(cfg, c1, c, right + {l}, 1, r.ballot, s);
    assert c.proposals[Slot(1, r.ballot)].value == v && c.proposals[Slot(1, s.ballot)].value == w;
  }

  lemma PickOne(s: set<NodeId>) returns (k: NodeId)
    requires |s| >= 1
    ensures k in s
  {
    k :| k in s;
  }

  lemma FreshAround(c: Cluster, d: Cluster, touched: set<NodeId>, r: Attempt, a: NodeId)
    requires Around(c, d, touched, r) && IsFresh(c, a) && a !in touched
    ensures IsFresh(d, a)
  {
  }

  /**
    THE CONDITION IS EXACT. Without the strict test, all runs agree exactly if twice the majority exceeds the number
    of nodes.
    */
  lemma AgreesIffMajoritiesIntersect(cfg: Config)
    requires !cfg.strict && cfg.majority >= 1 && 0 !in cfg.members
    ensures Agrees(cfg) <==> |cfg.members| < 2 * cfg.majority
  {
    hide OneValue, LeadsTo, Boot, Next;
    if |cfg.members| < 2 * cfg.majority {
      forall states, actions | IsRun(cfg, states, actions) ensures OneValue(cfg, states[|actions|]) {
        RunAgrees(cfg, states, actions);
      }
    } else {
      var c := DisjointMajoritiesDisagree(cfg, Logged(Get("")), Logged(Get("a")));
      var states, actions := LeadsToHasRun(cfg, c);
      assert !OneValue(cfg, states[|actions|]);
    }
  }

  lemma RunAgrees(cfg: Config, states: seq<Cluster>, actions: seq<Action>)
    requires cfg.Valid() && IsRun(cfg, states, actions)
    ensures OneValue(cfg, states[|actions|])
  {
    hide Voters, Next, Boot;
    var c, n := states[|actions|], |actions|;
    forall i, b, d | Chosen(cfg, c, i, b) && Chosen(cfg, c, i, d)
      ensures c.proposals[Slot(i, b)].value == c.proposals[Slot(i, d)].value
    {
      Agreement.AgreementForever(cfg, states, actions, n, n, i, b, d);
    }
  }

  /** With the threshold at exactly one half, clusters of odd size agree and clusters of even size need not. */
  lemma HalfThresholdAgreesIffOdd(members: set<NodeId>)
    requires members != {} && 0 !in members
    ensures Agrees(Config(members, Quorum.MajorityCount(0.5, |members|), false)) <==> |members| % 2 == 1
  {
    var majority := Quorum.MajorityCount(0.5, |members|);
    Quorum.HalfThresholdIntersectsIffOdd(|members|);
    Quorum.QuorumsIntersectIff(majority, |members|);
    Quorum.CeilBounds(0.5 * |members| as real);
    assert majority >= 1;
    AgreesIffMajoritiesIntersect(Config(members, majority, false));
  }

  // ---------------------------------------------------------------- the single field, over a run

  /** The second attempt of node 1, which was told of the ballot (1, 3). */
  function SecondAttempt(v: LogValue): Attempt {
    Attempt(1, Ballot(2, 1), v, Ballot(1, 3))
  }

  /** Node 1 asks at (1, 1); node 2, which promised (1, 3), rejects; the timer of node 1 starts a round at (2, 1). */
  lemma AsksTwice(cfg: Config, c: Cluster, v: LogValue, w: LogValue) returns (d: Cluster)
    requires cfg.members == {1, 2, 3} && cfg.majority == 2 && LeadsTo(cfg, true, Boot(cfg), c) && c.nodes.Keys == cfg.members
    requires IsFresh(c, 1) && AcceptorIs(c, 1, 2, LogEntry(Ballot(1, 3), Ballot(1, 3), w)) && v != Empty
    ensures LeadsTo(cfg, true, Boot(cfg), d) && Around(c, d, {1, 2}, SecondAttempt(v))
    ensures Round(true, d, SecondAttempt(v), {}, {1, 2})
  {
    hide LeadsTo, Step, Boot, SamePast, Around;
    var r := SecondAttempt(v);
    var c1 := Submits(cfg, true, c, 1, 1, v);
    OneMoreStep(cfg, true, Boot(cfg), c, NewValue(1, v));
    OnlyIsAround(c, c1, 1, r);
    var c2 := GivesRejection(cfg, c1, w);
    OneMoreStep(cfg, true, Boot(cfg), c1, Deliver(Packet(2, Propose(1, Ballot(1, 1)))));
    SameNodesAround(c1, c2, r);
    var c3 := TakesRejection(cfg, c2, v);
    OneMoreStep(cfg, true, Boot(cfg), c2, Deliver(Packet(1, ProposeReject(2, 1, Ballot(1, 1), Ballot(1, 3)))));
    OnlyIsAround(c2, c3, 1, r);
    d := AsksAgain(cfg, c3, v);
    OneMoreStep(cfg, true, Boot(cfg), c3, ProposeTimeout(1));
    OnlyIsAround(c3, d, 1, r);
    AroundTwice(c, c1, c2, {1}, {}, {1, 2}, r);
    AroundTwice(c, c2, c3, {1, 2}, {1}, {1, 2}, r);
    AroundTwice(c, c3, d, {1, 2}, {1}, {1, 2}, r);
  }

  lemma SameNodesAround(c: Cluster, d: Cluster, r: Attempt)
    requires d.nodes == c.nodes && d.proposals == c.proposals && d.votes == c.votes
    ensures Around(c, d, {}, r)
  {
  }

  lemma GivesRejection(cfg: Config, c: Cluster, w: LogValue) returns (d: Cluster)
    requires AcceptorIs(c, 1, 2, LogEntry(Ballot(1, 3), Ballot(1, 3), w)) && Packet(2, Propose(1, Ballot(1, 1))) in c.net
    ensures d == Step(cfg, true, c, Deliver(Packet(2, Propose(1, Ballot(1, 1)))))
    ensures Packet(1, ProposeReject(2, 1, Ballot(1, 1), Ballot(1, 3))) in d.net
    ensures d.nodes == c.nodes && d.proposals == c.proposals && d.votes == c.votes
  {
    d := Step(cfg, true, c, Deliver(Packet(2, Propose(1, Ballot(1, 1)))));
  }

  /** In its first round, node 1 was rejected by node 2. */
  ghost predicate Rejected(c: Cluster, v: LogValue) {
    1 in c.nodes &&
    var n := c.nodes[1];
    && n.ins == 1 && !n.learner.learned && n.proposer.pid == 1 && n.proposer.value == v
    && n.proposer.highest == Ballot(1, 3) && n.proposer.tally.rejections == {2} && n.proposer.proposeTimer == Some(1)
  }

  lemma TakesRejection(cfg: Config, c: Cluster, v: LogValue) returns (d: Cluster)
    requires cfg.majority == 2 && Asks(c, Attempt(1, Ballot(1, 1), v, NO_BALLOT), {})
    requires c.nodes[1].proposer.tally.rejections == {}
    requires Packet(1, ProposeReject(2, 1, Ballot(1, 1), Ballot(1, 3))) in c.net
    ensures d == Step(cfg, true, c, Deliver(Packet(1, ProposeReject(2, 1, Ballot(1, 1), Ballot(1, 3)))))
    ensures Only(c, d, 1) && SameAcceptor(c, d, 1) && Rejected(d, v)
    ensures d.proposals == c.proposals && d.votes == c.votes
  {
    d := Step(cfg, true, c, Deliver(Packet(1, ProposeReject(2, 1, Ballot(1, 1), Ballot(1, 3)))));
  }

  lemma AsksAgain(cfg: Config, c: Cluster, v: LogValue) returns (d: Cluster)
    requires Rejected(c, v)
    ensures d == Step(cfg, true, c, ProposeTimeout(1))
    ensures Only(c, d, 1) && SameAcceptor(c, d, 1)
    ensures Asks(d, SecondAttempt(v), {}) && OnItsWay(d, cfg.members, Propose(1, Ballot(2, 1)))
    ensures d.proposals == c.proposals && d.votes == c.votes
  {
    d := Step(cfg, true, c, ProposeTimeout(1));
  }

  /**
    THE SINGLE FIELD LOSES AGREEMENT. Three nodes, majorities of two, no failures. Node 3 gets a value chosen by
    nodes 2 and 3 at (1, 3). Node 1 is rejected at (1, 1), and in its next round at (2, 1) the promise of node 2 reports
    the chosen value; but the rejection had already named (1, 3), so nodes 1 and 2 choose the value of node 1.
    */
  lemma OneFieldDisagrees(cfg: Config, v: LogValue, w: LogValue) returns (c: Cluster)
    requires cfg == Config({1, 2, 3}, 2, false) && v != Empty && w != Empty && v != w
    ensures cfg.Valid() && LeadsTo(cfg, true, Boot(cfg), c) && !OneValue(cfg, c)
    ensures Chosen(cfg, c, 1, Ballot(1, 3)) && ProposedAs(c, 1, Ballot(1, 3), w)
    ensures Chosen(cfg, c, 1, Ballot(2, 1)) && ProposedAs(c, 1, Ballot(2, 1), v)
  {
    hide LeadsTo, Boot, Around, Chosen, Round, Voting;
    LeadsToItself(cfg, true, Boot(cfg));
    BootIsFresh(cfg);
    var r := FirstAttempt(Boot(cfg), 1, 3, w);
    var c1 := FirstRound(cfg, true, Boot(cfg), Boot(cfg), 1, 3, w, {2, 3});
    FreshAround(Boot(cfg), c1, {2, 3} + {3}, r, 1);
    BootKeys(cfg, c1, {2, 3} + {3}, r);
    QuorumVotes(c1, r, {2, 3});
    assert HasAccepted(c1, 2, r);
    var c2 := AsksTwice(cfg, c1, v, w);
    ChosenAround(cfg, c1, c2, {1, 2}, 1, Ballot(1, 3), SecondAttempt(v));
    c := Decide(cfg, true, Boot(cfg), c2, SecondAttempt(v), {1, 2});
    ChosenAround(cfg, c2, c, {1, 2} + {1}, 1, Ballot(1, 3), SecondAttempt(v));
  }

  lemma BootKeys(cfg: Config, c: Cluster, touched: set<NodeId>, r: Attempt)
    requires Around(Boot(cfg), c, touched, r)
    ensures c.nodes.Keys == cfg.members
  {
  }
}
