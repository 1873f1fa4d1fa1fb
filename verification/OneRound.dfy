/** One proposer leads one instance, from asking to everybody having learned, step by step. */
module OneRound {
  import opened Basics
  import opened Messages
  import opened KvStateMachine
  import opened ProposalCounter
  import opened Proposer
  import opened Node
  import opened Cluster
  import opened Invariant
  import opened Paths
  import opened Exchanges
  import AsWritten
  import Acceptor

  /** A proposer's attempt in an instance: its ballot, its value, and the highest ballot it heard of. */
  datatype Attempt = Attempt(ins: Instance, ballot: Ballot, value: LogValue, heard: Ballot) {
    function Lead(): NodeId {
      ballot.node
    }

    function Ask(): Message {
      Propose(ins, ballot)
    }

    function Offer(): Message {
      Accept(ins, ballot, value)
    }

    function Entry(): LogEntry {
      LogEntry(ballot, ballot, value)
    }
  }

  // ---------------------------------------------------------------- what a round keeps

  /** The same node but for what this instance is about: its acceptor, its proposer, which never goes back, and its record. */
  ghost predicate SamePast(n: Node, m: Node) {
    && m.ins == n.ins && m.learner == n.learner && m.sm == n.sm && m.boot == n.boot && m.executed == n.executed
    && m.proposer.pid >= n.proposer.pid
    && forall j :: j in n.log && j != n.ins ==> j in m.log && m.log[j] == n.log[j]
  }

  /** A step of node `a`: the others keep their state, and only packets to `a` are used up. */
  ghost predicate Only(c: Cluster, d: Cluster, a: NodeId) {
    && d.nodes.Keys == c.nodes.Keys && a in c.nodes
    && (forall x :: x in c.nodes && x != a ==> d.nodes[x] == c.nodes[x])
    && SamePast(c.nodes[a], d.nodes[a])
    && (forall p :: p in c.net && p.dst != a ==> p in d.net)
  }

  /** Only the proposer of node `k` moved. */
  ghost predicate SameAcceptor(c: Cluster, d: Cluster, k: NodeId) {
    k in c.nodes && k in d.nodes && d.nodes[k] == c.nodes[k].(proposer := d.nodes[k].proposer)
  }

  /** What an attempt leaves alone: other nodes, the past of all nodes, other proposals, all votes. */
  ghost predicate Around(c: Cluster, d: Cluster, touched: set<NodeId>, r: Attempt) {
    && d.nodes.Keys == c.nodes.Keys
    && (forall x :: x in c.nodes && x !in touched ==> d.nodes[x] == c.nodes[x])
    && (forall x :: x in c.nodes ==> SamePast(c.nodes[x], d.nodes[x]))
    && (forall s :: s in c.proposals && s != Slot(r.ins, r.ballot) ==> s in d.proposals && d.proposals[s] == c.proposals[s])
    && c.votes <= d.votes
  }

  lemma AroundTwice(c: Cluster, d: Cluster, e: Cluster, first: set<NodeId>, second: set<NodeId>, both: set<NodeId>, r: Attempt)
    requires Around(c, d, first, r) && Around(d, e, second, r) && first <= both && second <= both
    ensures Around(c, e, both, r)
  {
  }

  lemma OnlyIsAround(c: Cluster, d: Cluster, a: NodeId, r: Attempt)
    requires Only(c, d, a) && c.votes <= d.votes
    requires forall s :: s in c.proposals && s != Slot(r.ins, r.ballot) ==> s in d.proposals && d.proposals[s] == c.proposals[s]
    ensures Around(c, d, {a}, r)
  {
  }

  // ---------------------------------------------------------------- the steps

  /** In this instance, with nothing learned, and this acceptor. */
  ghost predicate AcceptorIs(c: Cluster, i: Instance, a: NodeId, e: LogEntry) {
    a in c.nodes && c.nodes[a].ins == i && !c.nodes[a].learner.learned && c.nodes[a].acceptor == e
  }

  /** The acceptor will promise, and its report leaves the proposer's value as it is. */
  ghost predicate Grants(oneField: bool, e: LogEntry, r: Attempt) {
    e.promised.Less(r.ballot) && (e.accepted.pid == 0 || (oneField && !r.heard.Less(e.accepted)))
  }

  /** The proposer counts the promises of `done`. */
  ghost predicate Asks(c: Cluster, r: Attempt, done: set<NodeId>) {
    r.Lead() in c.nodes &&
    var n := c.nodes[r.Lead()];
    && n.ins == r.ins && !n.learner.learned
    && n.proposer.status == Proposing && n.proposer.pid == r.ballot.pid && n.proposer.value == r.value
    && n.proposer.highest == r.heard && n.proposer.tally.promises == done && n.proposer.proposeTimer == Some(r.ins)
  }

  /** The proposer counts the acceptances of `done`. */
  ghost predicate Offers(c: Cluster, r: Attempt, done: set<NodeId>) {
    r.Lead() in c.nodes &&
    var n := c.nodes[r.Lead()];
    && n.ins == r.ins && !n.learner.learned
    && n.proposer.status == Accepting && n.proposer.pid == r.ballot.pid && n.proposer.tally.approvals == done
  }

  /** The message is on its way to these nodes. */
  ghost predicate OnItsWay(c: Cluster, to: set<NodeId>, m: Message) {
    forall a {:trigger Packet(a, m)} :: a in to ==> Packet(a, m) in c.net
  }

  /** `a` promises. */
  lemma GivesPromise(cfg: Config, oneField: bool, c: Cluster, a: NodeId, r: Attempt, e: LogEntry) returns (d: Cluster)
    requires AcceptorIs(c, r.ins, a, e) && e.promised.Less(r.ballot) && Packet(a, r.Ask()) in c.net
    ensures d == Step(cfg, oneField, c, Deliver(Packet(a, r.Ask())))
    ensures var s := Acceptor.Reported(e);
      Packet(r.Lead(), Promise(a, r.ins, r.ballot, s.accepted, s.value)) in d.net
    ensures Only(c, d, a) && AcceptorIs(d, r.ins, a, e.(promised := r.ballot)) && d.nodes[a].proposer == c.nodes[a].proposer
    ensures forall p :: p in c.net && p.msg != r.Ask() ==> p in d.net
    ensures d.proposals == c.proposals && d.votes == c.votes
  {
    hide Handle;
    AskedAnswers(cfg, a, c.nodes[a], r.ballot);
    d := Step(cfg, oneField, c, Deliver(Packet(a, r.Ask())));
  }

  /** What a promise does whose report the proposer does not adopt. */
  lemma PromiseStep(cfg: Config, oneField: bool, c: Cluster, p: Packet, r: Attempt, done: set<NodeId>)
    requires p in c.net && p.dst == r.Lead() && p.msg.Promise? && p.msg.ins == r.ins && p.msg.ballot == r.ballot
    requires Asks(c, r, done)
    requires p.msg.accepted.pid == 0 || (oneField && !r.heard.Less(p.msg.accepted))
    ensures var n := c.nodes[r.Lead()];
      var (q, out) := AfterProposeAck(cfg, r.Lead(), r.ins, n.proposer.(tally := AddPromise(n.proposer.tally, p.msg.sender)));
      Step(cfg, oneField, c, Deliver(p)) ==
        Cluster(c.nodes[r.Lead() := n.(proposer := q)], c.net - multiset{p} + Packets(cfg, out),
                Proposals(c, n, p.msg, n.(proposer := q), out), c.votes)
  {
    hide AddPromise, Packets, Proposals;
    var n := c.nodes[r.Lead()];
    if oneField && Reports(p.msg) {
      assert AsWritten.AdoptOneField(n.proposer, p.msg.accepted, p.msg.value) == n.proposer;
    } else {
      assert Adopt(n.proposer, p.msg.accepted, p.msg.value) == n.proposer;
      var (q, out) := AfterProposeAck(cfg, r.Lead(), r.ins, n.proposer.(tally := AddPromise(n.proposer.tally, p.msg.sender)));
      assert ProposerHandle(cfg, r.Lead(), n, p.msg) == (n.(proposer := q), out);
      assert Handle(cfg, r.Lead(), n, p.msg) == (n.(proposer := q), out);
    }
  }

  /** A promise that can be counted now. */
  ghost predicate Countable(oneField: bool, c: Cluster, p: Packet, r: Attempt, done: set<NodeId>) {
    && p in c.net && p.dst == r.Lead() && p.msg.Promise? && p.msg.ins == r.ins && p.msg.ballot == r.ballot
    && Asks(c, r, done) && p.msg.sender !in done
    && (p.msg.accepted.pid == 0 || (oneField && !r.heard.Less(p.msg.accepted)))
  }

  /** The proposer counts it. */
  lemma CountsOne(cfg: Config, oneField: bool, c: Cluster, p: Packet, r: Attempt, done: set<NodeId>) returns (d: Cluster)
    requires Countable(oneField, c, p, r, done) && |done| + 1 < cfg.majority
    ensures d == Step(cfg, oneField, c, Deliver(p)) && Only(c, d, r.Lead()) && SameAcceptor(c, d, r.Lead())
    ensures Asks(d, r, done + {p.msg.sender})
    ensures forall q :: q in c.net && !q.msg.Promise? ==> q in d.net
    ensures d.proposals == c.proposals && d.votes == c.votes
  {
    hide Step;
    PromiseStep(cfg, oneField, c, p, r, done);
    d := Step(cfg, oneField, c, Deliver(p));
    assert d.nodes[r.Lead()].proposer.pid == c.nodes[r.Lead()].proposer.pid;
  }

  /** With a majority it asks for acceptance. */
  lemma AsksAcceptance(cfg: Config, oneField: bool, c: Cluster, p: Packet, r: Attempt, done: set<NodeId>) returns (d: Cluster)
    requires Countable(oneField, c, p, r, done) && |done| + 1 >= cfg.majority
    ensures d == Step(cfg, oneField, c, Deliver(p)) && Only(c, d, r.Lead()) && SameAcceptor(c, d, r.Lead())
    ensures OnItsWay(d, cfg.members, r.Offer()) && ProposedAs(d, r.ins, r.ballot, r.value) && Offers(d, r, {})
    ensures forall s :: s in c.proposals && s != Slot(r.ins, r.ballot) ==> s in d.proposals && d.proposals[s] == c.proposals[s]
    ensures d.votes == c.votes
  {
    hide Step, AfterProposeAck, Asks;
    PromiseStep(cfg, oneField, c, p, r, done);
    d := Step(cfg, oneField, c, Deliver(p));
    MajorityReply(cfg, oneField, c, p, r, done);
  }

  lemma MajorityReply(cfg: Config, oneField: bool, c: Cluster, p: Packet, r: Attempt, done: set<NodeId>)
    requires Countable(oneField, c, p, r, done) && |done| + 1 >= cfg.majority
    ensures r.Lead() in c.nodes && c.nodes[r.Lead()].ins == r.ins && !c.nodes[r.Lead()].learner.learned
    ensures c.nodes[r.Lead()].proposer.pid == r.ballot.pid
    ensures var q := c.nodes[r.Lead()].proposer;
      var (next, out) := AfterProposeAck(cfg, r.Lead(), r.ins, q.(tally := AddPromise(q.tally, p.msg.sender)));
      out == All(r.Offer()) && next.status == Accepting && next.pid == r.ballot.pid && next.tally == NO_VOTES
  {
    var t := c.nodes[r.Lead()].proposer.tally;
    assert AddPromise(t, p.msg.sender).promises == done + {p.msg.sender};
  }

  ghost predicate Promised(c: Cluster, a: NodeId, r: Attempt) {
    a in c.nodes && AcceptorIs(c, r.ins, a, c.nodes[a].acceptor) && c.nodes[a].acceptor.promised == r.ballot
  }

  ghost predicate Willing(oneField: bool, c: Cluster, a: NodeId, r: Attempt) {
    a in c.nodes && AcceptorIs(c, r.ins, a, c.nodes[a].acceptor) && Grants(oneField, c.nodes[a].acceptor, r)
  }

  ghost predicate HasAccepted(c: Cluster, a: NodeId, r: Attempt) {
    && AcceptorIs(c, r.ins, a, r.Entry()) && Vote(a, r.ins, r.ballot) in c.votes
    && r.ins in c.nodes[a].log && c.nodes[a].log[r.ins] == r.Entry()
  }

  /** `a` accepts. */
  lemma Accepts(cfg: Config, oneField: bool, c: Cluster, a: NodeId, r: Attempt) returns (d: Cluster)
    requires !cfg.strict && Promised(c, a, r) && Packet(a, r.Offer()) in c.net && r.ballot.pid >= 1
    ensures d == Step(cfg, oneField, c, Deliver(Packet(a, r.Offer()))) && Only(c, d, a)
    ensures HasAccepted(d, a, r) && d.nodes[a].proposer == c.nodes[a].proposer
    ensures Packet(r.Lead(), Message.Accepted(a, r.ins, r.ballot)) in d.net
    ensures forall p :: p in c.net && p.msg != r.Offer() ==> p in d.net
    ensures d.proposals == c.proposals && d.votes == c.votes + {Vote(a, r.ins, r.ballot)}
  {
    hide Handle, Settle, AsWritten.OnProposeAckOneField;
    AcceptedAnswers(cfg, a, c.nodes[a], r);
    d := Step(cfg, oneField, c, Deliver(Packet(a, r.Offer())));
  }

  lemma AcceptedAnswers(cfg: Config, a: NodeId, m: Node, r: Attempt)
    requires !cfg.strict && m.ins == r.ins && !m.learner.learned && m.acceptor.promised == r.ballot && r.ballot.pid >= 1
    ensures Handle(cfg, a, m, r.Offer()) ==
      (m.(acceptor := r.Entry(), log := m.log[r.ins := r.Entry()]), To(r.Lead(), Message.Accepted(a, r.ins, r.ballot)))
  {
  }

  // ---------------------------------------------------------------- promises

  /** In the middle of a round: `done` have promised and were counted, `todo` will promise. */
  ghost predicate Round(oneField: bool, c: Cluster, r: Attempt, done: set<NodeId>, todo: set<NodeId>) {
    && Asks(c, r, done) && done * todo == {} && OnItsWay(c, todo, r.Ask())
    && (forall a :: a in todo ==> Willing(oneField, c, a, r))
    && (forall a :: a in done ==> Promised(c, a, r))
  }

  /** The promise majority is there, and everybody is asked to accept. */
  ghost predicate Asked(cfg: Config, c: Cluster, r: Attempt, done: set<NodeId>) {
    && OnItsWay(c, cfg.members, r.Offer()) && ProposedAs(c, r.ins, r.ballot, r.value) && Offers(c, r, {})
    && (forall a :: a in done ==> Promised(c, a, r))
  }

  lemma AsksStays(c: Cluster, d: Cluster, a: NodeId, e: LogEntry, r: Attempt, done: set<NodeId>)
    requires Asks(c, r, done) && Only(c, d, a)
    requires AcceptorIs(d, r.ins, a, e) && d.nodes[a].proposer == c.nodes[a].proposer
    ensures Asks(d, r, done)
  {
  }

  /** One node is asked and promises. */
  lemma AskOne(cfg: Config, oneField: bool, start: Cluster, c: Cluster, r: Attempt, done: set<NodeId>, todo: set<NodeId>,
               a: NodeId) returns (d: Cluster, p: Packet)
    requires LeadsTo(cfg, oneField, start, c) && Round(oneField, c, r, done, todo) && a in todo
    ensures LeadsTo(cfg, oneField, start, d) && Around(c, d, {a, r.Lead()}, r)
    ensures Round(oneField, d, r, done, todo - {a}) && Promised(d, a, r)
    ensures p.msg.Promise? && p.msg.sender == a && Countable(oneField, d, p, r, done)
  {
    hide Step, LeadsTo, Asks, SamePast;
    var e := c.nodes[a].acceptor;
    assert Willing(oneField, c, a, r);
    d := GivesPromise(cfg, oneField, c, a, r, e);
    OnlyIsAround(c, d, a, r);
    AsksStays(c, d, a, e.(promised := r.ballot), r, done);
    OneMoreStep(cfg, oneField, start, c, Deliver(Packet(a, r.Ask())));
    p := Packet(r.Lead(), Promise(a, r.ins, r.ballot, Acceptor.Reported(e).accepted, Acceptor.Reported(e).value));
  }

  lemma AcceptorStays(oneField: bool, c: Cluster, d: Cluster, k: NodeId, a: NodeId, r: Attempt)
    requires Only(c, d, k) && SameAcceptor(c, d, k)
    ensures Promised(c, a, r) ==> Promised(d, a, r)
    ensures Willing(oneField, c, a, r) ==> Willing(oneField, d, a, r)
  {
    hide Grants, SamePast;
  }

  /** Its promise is counted. */
  lemma CountOne(cfg: Config, oneField: bool, start: Cluster, c: Cluster, r: Attempt, done: set<NodeId>, todo: set<NodeId>,
                 p: Packet) returns (d: Cluster)
    requires LeadsTo(cfg, oneField, start, c) && Round(oneField, c, r, done, todo)
    requires Countable(oneField, c, p, r, done) && p.msg.sender !in todo && Promised(c, p.msg.sender, r)
    ensures LeadsTo(cfg, oneField, start, d) && Around(c, d, {r.Lead()}, r)
    ensures |done| + 1 < cfg.majority ==> Round(oneField, d, r, done + {p.msg.sender}, todo)
    ensures |done| + 1 >= cfg.majority ==> Asked(cfg, d, r, done + {p.msg.sender})
  {
    hide Step, LeadsTo, Asks, Offers, Willing, Promised, SamePast;
    OneMoreStep(cfg, oneField, start, c, Deliver(p));
    if |done| + 1 < cfg.majority {
      d := CountsOne(cfg, oneField, c, p, r, done);
    } else {
      d := AsksAcceptance(cfg, oneField, c, p, r, done);
    }
    OnlyIsAround(c, d, r.Lead(), r);
    forall a | a in todo ensures Willing(oneField, d, a, r) {
      AcceptorStays(oneField, c, d, r.Lead(), a, r);
    }
    forall a | a in done + {p.msg.sender} ensures Promised(d, a, r) {
      AcceptorStays(oneField, c, d, r.Lead(), a, r);
    }
  }

  /** A majority is asked, one by one. */
  lemma {:induction false} AskAll(cfg: Config, oneField: bool, start: Cluster, c: Cluster, r: Attempt,
                                  done: set<NodeId>, todo: set<NodeId>) returns (d: Cluster)
    requires LeadsTo(cfg, oneField, start, c) && Round(oneField, c, r, done, todo)
    requires |done| + |todo| == cfg.majority && todo != {}
    ensures LeadsTo(cfg, oneField, start, d) && Around(c, d, todo + {r.Lead()}, r)
    ensures Asked(cfg, d, r, done + todo)
    decreases |todo|
  {
    hide LeadsTo, Round, Asked, Promised, Countable, Around;
    var a :| a in todo;
    var c1, p := AskOne(cfg, oneField, start, c, r, done, todo, a);
    var rest := todo - {a};
    var c2 := CountOne(cfg, oneField, start, c1, r, done, rest, p);
    AroundTwice(c, c1, c2, {a, r.Lead()}, {r.Lead()}, todo + {r.Lead()}, r);
    assert done + {a} + rest == done + todo && |rest| == |todo| - 1;
    if rest == {} {
      d := c2;
      assert done + {a} == done + todo;
    } else {
      NotCounted(oneField, c, r, done, todo, a);
      d := AskAll(cfg, oneField, start, c2, r, done + {a}, rest);
      AroundTwice(c, c2, d, todo + {r.Lead()}, rest + {r.Lead()}, todo + {r.Lead()}, r);
    }
  }

  lemma NotCounted(oneField: bool, c: Cluster, r: Attempt, done: set<NodeId>, todo: set<NodeId>, a: NodeId)
    requires Round(oneField, c, r, done, todo) && a in todo
    ensures |done + {a}| == |done| + 1
  {
    assert a !in done;
  }

  // ---------------------------------------------------------------- votes

  /** Among the nodes that promised, `done` have accepted, with the answer on its way, and the others are asked to. */
  ghost predicate Voting(c: Cluster, r: Attempt, done: set<NodeId>, todo: set<NodeId>) {
    && OnItsWay(c, todo, r.Offer()) && done * todo == {} && Offers(c, r, {})
    && (forall a :: a in todo ==> Promised(c, a, r))
    && (forall a :: a in done ==> HasAccepted(c, a, r) && Packet(r.Lead(), Message.Accepted(a, r.ins, r.ballot)) in c.net)
  }

  lemma AcceptOne(cfg: Config, oneField: bool, start: Cluster, c: Cluster, r: Attempt,
                  done: set<NodeId>, todo: set<NodeId>, a: NodeId) returns (d: Cluster)
    requires LeadsTo(cfg, oneField, start, c) && !cfg.strict && Voting(c, r, done, todo) && a in todo && r.ballot.pid >= 1
    ensures LeadsTo(cfg, oneField, start, d) && Around(c, d, {a}, r) && d.proposals == c.proposals
    ensures Voting(d, r, done + {a}, todo - {a})
  {
    hide LeadsTo, Step, SamePast;
    d := Accepts(cfg, oneField, c, a, r);
    OnlyIsAround(c, d, a, r);
    OneMoreStep(cfg, oneField, start, c, Deliver(Packet(a, r.Offer())));
  }

  /** They accept, one by one. */
  lemma {:induction false} AcceptAll(cfg: Config, oneField: bool, start: Cluster, c: Cluster, r: Attempt,
                                     done: set<NodeId>, todo: set<NodeId>) returns (d: Cluster)
    requires LeadsTo(cfg, oneField, start, c) && !cfg.strict && Voting(c, r, done, todo) && r.ballot.pid >= 1
    ensures LeadsTo(cfg, oneField, start, d) && Around(c, d, todo, r) && d.proposals == c.proposals
    ensures Voting(d, r, done + todo, {})
    decreases |todo|
  {
    hide LeadsTo, Voting, Around;
    if todo == {} {
      d := c;
      assert done + todo == done;
      AroundItself(c, r);
    } else {
      var a :| a in todo;
      var c1 := AcceptOne(cfg, oneField, start, c, r, done, todo, a);
      d := AcceptAll(cfg, oneField, start, c1, r, done + {a}, todo - {a});
      AroundTwice(c, c1, d, {a}, todo - {a}, todo, r);
      assert done + {a} + (todo - {a}) == done + todo;
    }
  }

  lemma AroundItself(c: Cluster, r: Attempt)
    ensures Around(c, c, {}, r)
  {
  }

  /** A round that a whole majority answers gets its value chosen. */
  lemma Decide(cfg: Config, oneField: bool, start: Cluster, c: Cluster, r: Attempt, quorum: set<NodeId>) returns (d: Cluster)
    requires LeadsTo(cfg, oneField, start, c) && !cfg.strict && 1 <= cfg.majority == |quorum| && quorum <= cfg.members
    requires Round(oneField, c, r, {}, quorum) && r.ballot.pid >= 1
    ensures LeadsTo(cfg, oneField, start, d) && Around(c, d, quorum + {r.Lead()}, r)
    ensures Chosen(cfg, d, r.ins, r.ballot) && ProposedAs(d, r.ins, r.ballot, r.value)
    ensures Voting(d, r, quorum, {})
  {
    hide LeadsTo, Round, Promised, Around, Offers;
    var c1 := AskAll(cfg, oneField, start, c, r, {}, quorum);
    assert {} + quorum == quorum;
    d := AcceptAll(cfg, oneField, start, c1, r, {}, quorum);
    AroundTwice(c, c1, d, quorum + {r.Lead()}, quorum, quorum + {r.Lead()}, r);
    QuorumVotes(d, r, quorum);
    SubsetSize(quorum, Voters(d, r.ins, r.ballot));
  }

  lemma QuorumVotes(c: Cluster, r: Attempt, quorum: set<NodeId>)
    requires Voting(c, r, quorum, {})
    ensures quorum <= Voters(c, r.ins, r.ballot) && forall a :: a in quorum ==> HasAccepted(c, a, r)
  {
  }

  // ---------------------------------------------------------------- the start of a round

  /** In its instance, with nothing promised, accepted, proposed or learned, and not behind anybody. */
  ghost predicate AtRest(c: Cluster, i: Instance, k: NodeId) {
    k in c.nodes &&
    var n := c.nodes[k];
    && n.ins == i && n.acceptor == NO_ENTRY && n.proposer == Proposer.Fresh(n.proposer.pid) && n.proposer.pid >= 1
    && !n.learner.learned && n.learner.highestKnown <= i + 1
  }

  ghost function FirstAttempt(c: Cluster, i: Instance, k: NodeId, v: LogValue): Attempt
    requires k in c.nodes
  {
    Attempt(i, Ballot(c.nodes[k].proposer.pid, k), v, NO_BALLOT)
  }

  lemma Submits(cfg: Config, oneField: bool, c: Cluster, i: Instance, k: NodeId, v: LogValue) returns (d: Cluster)
    requires AtRest(c, i, k) && v != Empty
    ensures d == Step(cfg, oneField, c, NewValue(k, v)) && Only(c, d, k) && SameAcceptor(c, d, k)
    ensures var r := FirstAttempt(c, i, k, v); Asks(d, r, {}) && OnItsWay(d, cfg.members, r.Ask())
    ensures d.nodes[k].proposer.tally == NO_VOTES
    ensures d.proposals == c.proposals && d.votes == c.votes
  {
    d := Step(cfg, oneField, c, NewValue(k, v));
  }

  /** A node submits a value and a majority that did nothing so far in this instance chooses it. */
  lemma FirstRound(cfg: Config, oneField: bool, start: Cluster, c: Cluster, i: Instance, k: NodeId, v: LogValue,
                   quorum: set<NodeId>) returns (d: Cluster)
    requires LeadsTo(cfg, oneField, start, c) && !cfg.strict && 1 <= cfg.majority == |quorum| && quorum <= cfg.members
    requires v != Empty && AtRest(c, i, k) && forall a :: a in quorum ==> AtRest(c, i, a)
    ensures var r := FirstAttempt(c, i, k, v);
      && LeadsTo(cfg, oneField, start, d) && Around(c, d, quorum + {k}, r)
      && Chosen(cfg, d, i, r.ballot) && ProposedAs(d, i, r.ballot, v) && Voting(d, r, quorum, {})
  {
    hide LeadsTo, Step, SamePast, Around, Chosen, Voting;
    var r := FirstAttempt(c, i, k, v);
    var c1 := Submits(cfg, oneField, c, i, k, v);
    OnlyIsAround(c, c1, k, r);
    OneMoreStep(cfg, oneField, start, c, NewValue(k, v));
    d := Decide(cfg, oneField, start, c1, r, quorum);
    AroundTwice(c, c1, d, {k}, quorum + {k}, quorum + {k}, r);
  }
}
