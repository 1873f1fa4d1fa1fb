/** Every step of the cluster keeps the invariant. */
module Preservation {
  import opened Basics
  import opened Messages
  import opened KvStateMachine
  import opened ProposalCounter
  import opened Proposer
  import opened Node
  import opened Cluster
  import opened Invariant
  import Acceptor
  import Learner

  /** `d` differs from `c` in node `k` only, and `out` is all that was sent. */
  ghost predicate OneNodeSteps(cfg: Config, c: Cluster, d: Cluster, k: NodeId, out: Send) {
    && k in c.nodes && k in d.nodes
    && d.nodes == c.nodes[k := d.nodes[k]]
    && (forall p :: p in d.net ==> p in c.net || p in Packets(cfg, out))
  }

  /** The invariant is kept once the node that stepped, its records, and everything new are in order. */
  lemma KeepInv(cfg: Config, c: Cluster, d: Cluster, k: NodeId, out: Send)
    requires Inv(cfg, c) && OneNodeSteps(cfg, c, d, k, out) && Extends(cfg, c, d)
    requires NodeOk(cfg, d, k)
    requires forall i :: RecordOk(cfg, d, k, i)
    requires forall s :: s in d.proposals && s !in c.proposals ==> ProposalOk(cfg, d, s)
    requires forall v :: v in d.votes && v !in c.votes ==> v.who == k && VoteOk(d, v)
    requires forall p :: p in Packets(cfg, out) ==> PacketOk(cfg, d, p)
    requires PromisesOnce(d)
    ensures Inv(cfg, d) && Extends(cfg, c, d)
  {
    hide ProposalOk, PacketOk, RecordOk, NodeOk, PromisesOnce;
    forall a | a in d.nodes && a != k ensures NodeOk(cfg, d, a) {
      NodeStays(cfg, c, d, a);
    }
    forall a, i | a in d.nodes ensures RecordOk(cfg, d, a, i) {
      if a != k {
        RecordStays(cfg, c, d, a, i);
      }
    }
    forall s | s in d.proposals ensures ProposalOk(cfg, d, s) {
      if s in c.proposals {
        ProposalStays(cfg, c, d, s);
      }
    }
    forall v | v in d.votes ensures VoteOk(d, v) {
      if v in c.votes {
        assert VoteOk(c, v);
      }
    }
    forall p | p in d.net ensures PacketOk(cfg, d, p) {
      if p in c.net {
        PacketStays(cfg, c, d, p);
      }
    }
  }

  ghost predicate NoNewPromises(c: Cluster, d: Cluster) {
    forall p :: p in d.net && p.msg.Promise? ==> p in c.net && d.net[p] <= c.net[p]
  }

  /** One message leaves the net, and what one node sends comes in. */
  lemma OneDelivery(cfg: Config, c: Cluster, d: Cluster, packet: Packet, n: Node, out: Send)
    requires packet in c.net && packet.dst in c.nodes && (out == Quiet || !out.msg.Promise?)
    requires d.nodes == c.nodes[packet.dst := n] && d.net == c.net - multiset{packet} + Packets(cfg, out)
    ensures OneNodeSteps(cfg, c, d, packet.dst, out) && NoNewPromises(c, d)
  {
  }

  /** Promises stay unique when no promise is sent and none is counted or spent anew. */
  lemma KeepPromisesOnce(cfg: Config, c: Cluster, d: Cluster, k: NodeId, out: Send)
    requires PromisesOnce(c) && OneNodeSteps(cfg, c, d, k, out)
    requires out == Quiet || !out.msg.Promise?
    requires NoNewPromises(c, d)
    requires d.proposals == c.proposals
    requires forall i, b :: Counting(d, i, b) <= Counting(c, i, b)
    ensures PromisesOnce(d)
  {
  }

  /** Writing one record with no lower promise, and voting at or above the promise, extends the history. */
  lemma WriteExtends(cfg: Config, c: Cluster, d: Cluster, k: NodeId, i: Instance, e: LogEntry)
    requires k in c.nodes && k in d.nodes && d.nodes == c.nodes[k := d.nodes[k]]
    requires d.nodes[k].log == c.nodes[k].log || d.nodes[k].log == c.nodes[k].log[i := e]
    requires PromisedAt(c, k, i).AtMost(e.promised)
    requires forall s :: s in c.proposals ==> s in d.proposals && d.proposals[s] == c.proposals[s]
    requires c.votes <= d.votes
    requires forall v :: v in d.votes && v !in c.votes ==>
      && PromisedAt(c, v.who, v.ins).AtMost(v.ballot)
      && (cfg.strict ==> PromisedAt(c, v.who, v.ins) != v.ballot)
    ensures Extends(cfg, c, d)
  {
    forall a, j ensures PromisedAt(c, a, j).AtMost(PromisedAt(d, a, j)) {
      if a in c.nodes && a != k {
        assert d.nodes[a] == c.nodes[a];
      }
    }
  }

  /** Writing the record of the current instance leaves the executed log alone. */
  lemma WriteKeepsExecution(n: Node, m: Node, e: LogEntry)
    requires ExecutionOk(n)
    requires m.log == n.log[n.ins := e]
    requires m.ins == n.ins && m.sm == n.sm && m.boot == n.boot && m.executed == n.executed
    ensures ExecutionOk(m)
  {
    RunExtensional(EMPTY_STORE, ValueAt(n.log), ValueAt(m.log), 1, n.ins);
  }

  /** As above for the log invariant. */
  lemma WriteKeepsLog(cfg: Config, c: Cluster, d: Cluster, n: Node, m: Node, e: LogEntry)
    requires LogOk(cfg, c, n) && Extends(cfg, c, d)
    requires m.ins == n.ins && m.log == n.log[n.ins := e]
    ensures LogOk(cfg, d, m)
  {
    LogStays(cfg, c, d, n);
    forall i | 1 <= i < m.ins ensures i in m.log && Settled(cfg, d, i, m.log[i]) {
      assert Settled(cfg, d, i, n.log[i]);
    }
  }

  // ---------------------------------------------------------------- the acceptor

  /** The acceptor wrote the record `e` of its current instance: the node and all its records are in order. */
  lemma PersistKeepsNode(cfg: Config, c: Cluster, d: Cluster, k: NodeId, e: LogEntry)
    requires k in c.nodes && NodeOk(cfg, c, k) && Extends(cfg, c, d)
    requires k in d.nodes && d.nodes[k] == Persist(c.nodes[k], e) && Acceptor.Reported(e) == e
    ensures NodeOk(cfg, d, k)
  {
    var n := c.nodes[k];
    WriteKeepsLog(cfg, c, d, n, d.nodes[k], e);
    WriteKeepsExecution(n, d.nodes[k], e);
    ProposerStays(cfg, c, d, k, n.ins, n.proposer);
  }

  lemma OtherRecordsStay(cfg: Config, c: Cluster, d: Cluster, k: NodeId, i: Instance, e: LogEntry)
    requires Extends(cfg, c, d) && k in c.nodes && k in d.nodes
    requires forall j :: RecordOk(cfg, c, k, j)
    requires d.nodes[k].log == c.nodes[k].log[i := e]
    requires forall v :: v in d.votes && v !in c.votes ==> v.ins == i
    ensures forall j :: j != i ==> RecordOk(cfg, d, k, j)
  {
    forall j | j != i ensures RecordOk(cfg, d, k, j) {
      RecordStays(cfg, c, d, k, j);
    }
  }

  /** Granting a promise. */
  lemma GrantPromise(cfg: Config, c: Cluster, d: Cluster, p: Packet)
    requires Inv(cfg, c) && p in c.net && p.dst in c.nodes && p.msg.Propose?
    requires c.nodes[p.dst].ins == p.msg.ins && c.nodes[p.dst].acceptor.promised.Less(p.msg.ballot)
    requires d == DeliverTo(cfg, c, p)
    ensures Inv(cfg, d) && Extends(cfg, c, d)
  {
    hide Inv, RecordOk, Extends, PromisesOnce, Persist, Pledged, PacketOk, LogOk, ExecutionOk, ProposerOk, DeliverTo;
    var k, n, b := p.dst, c.nodes[p.dst], p.msg.ballot;
    NodeFacts(cfg, c, k);
    var e := n.acceptor.(promised := b);
    var q := Packet(b.node, Promise(k, n.ins, b, e.accepted, e.value));
    GrantResult(cfg, c, p, e, q);
    HigherPromiseIsNew(cfg, c, q);
    OnceFact(cfg, c);
    GrantParts(cfg, c, d, p, e, q);
    KeepInv(cfg, c, d, k, To(q.dst, q.msg));
  }

  lemma GrantParts(cfg: Config, c: Cluster, d: Cluster, p: Packet, e: LogEntry, q: Packet)
    requires p.dst in c.nodes && p.msg.Propose? && NodeOk(cfg, c, p.dst) && PromisesOnce(c)
    requires forall i :: RecordOk(cfg, c, p.dst, i)
    requires c.nodes[p.dst].ins == p.msg.ins && c.nodes[p.dst].acceptor.promised.Less(p.msg.ballot)
    requires e == c.nodes[p.dst].acceptor.(promised := p.msg.ballot) && Acceptor.Reported(e) == e
    requires q == Packet(p.msg.ballot.node, Promise(p.dst, p.msg.ins, p.msg.ballot, e.accepted, e.value))
    requires c.nodes.Keys == cfg.members
    requires q.msg.sender !in Spent(c, q.msg.ins, q.msg.ballot)
    requires q.msg.sender !in Counting(c, q.msg.ins, q.msg.ballot)
    requires forall r :: r in c.net ==> !SamePromise(r, q)
    requires d == Cluster(c.nodes[p.dst := Persist(c.nodes[p.dst], e)], c.net - multiset{p} + multiset{q}, c.proposals, c.votes)
    ensures OneNodeSteps(cfg, c, d, p.dst, To(q.dst, q.msg)) && Extends(cfg, c, d) && NodeOk(cfg, d, p.dst)
    ensures forall i :: RecordOk(cfg, d, p.dst, i)
    ensures PacketOk(cfg, d, q)
    ensures PromisesOnce(d)
  {
    hide Extends, PromisesOnce, Counting, Spent, LogOk, ExecutionOk, ProposerOk, Pledged, SamePromise;
    var k, i := p.dst, p.msg.ins;
    assert RecordOk(cfg, c, k, i);
    WriteExtends(cfg, c, d, k, i, e);
    PersistKeepsNode(cfg, c, d, k, e);
    GrantKeepsRecords(cfg, c, d, k, i, e);
    NewPromiseOk(cfg, c, d, k, i, p.msg.ballot);
    PromisesOnceAfterGrant(c, d, p, q);
  }

  lemma GrantKeepsRecords(cfg: Config, c: Cluster, d: Cluster, k: NodeId, i: Instance, e: LogEntry)
    requires Extends(cfg, c, d) && k in c.nodes && k in d.nodes && d.votes == c.votes
    requires forall j :: RecordOk(cfg, c, k, j)
    requires d.nodes[k].log == c.nodes[k].log[i := e]
    requires var old_e := Read(c.nodes[k].log, i); old_e.promised.Less(e.promised) && e == old_e.(promised := e.promised)
    ensures forall j :: RecordOk(cfg, d, k, j)
  {
    assert RecordOk(cfg, c, k, i);
    OtherRecordsStay(cfg, c, d, k, i, e);
    RaisedPromiseKeepsRecord(cfg, c, d, k, i, e);
  }

  /** What the invariant says of one node. */
  lemma NodeFacts(cfg: Config, c: Cluster, k: NodeId)
    requires Inv(cfg, c) && k in c.nodes
    ensures NodeOk(cfg, c, k) && c.nodes.Keys == cfg.members
    ensures forall i :: RecordOk(cfg, c, k, i)
  {
  }

  lemma OnceFact(cfg: Config, c: Cluster)
    requires Inv(cfg, c)
    ensures PromisesOnce(c)
  {
  }

  lemma GrantResult(cfg: Config, c: Cluster, p: Packet, e: LogEntry, q: Packet)
    requires p.dst in c.nodes && p.msg.Propose? && MemoryOk(c.nodes[p.dst]) && RecordOk(cfg, c, p.dst, p.msg.ins)
    requires c.nodes[p.dst].ins == p.msg.ins && c.nodes[p.dst].acceptor.promised.Less(p.msg.ballot)
    requires e == c.nodes[p.dst].acceptor.(promised := p.msg.ballot)
    requires q == Packet(p.msg.ballot.node, Promise(p.dst, p.msg.ins, p.msg.ballot, e.accepted, e.value))
    ensures Acceptor.Reported(e) == e
    ensures DeliverTo(cfg, c, p) ==
            Cluster(c.nodes[p.dst := Persist(c.nodes[p.dst], e)], c.net - multiset{p} + multiset{q}, c.proposals, c.votes)
  {
  }

  lemma RaisedPromiseKeepsRecord(cfg: Config, c: Cluster, d: Cluster, k: NodeId, i: Instance, e: LogEntry)
    requires Extends(cfg, c, d) && k in c.nodes && k in d.nodes && RecordOk(cfg, c, k, i)
    requires Read(d.nodes[k].log, i) == e && d.votes == c.votes
    requires var old_e := Read(c.nodes[k].log, i); old_e.promised.Less(e.promised) && e == old_e.(promised := e.promised)
    ensures RecordOk(cfg, d, k, i)
  {
    forall b: Ballot | Vote(k, i, b) in d.votes
      ensures b.AtMost(e.accepted) || ChosenUpTo(cfg, d, i, e.accepted)
    {
      if !b.AtMost(e.accepted) {
        ChosenUpToStays(cfg, c, d, i, e.accepted, e.accepted);
      }
    }
  }

  /** A fresh promise reports all it has to. */
  lemma NewPromiseOk(cfg: Config, c: Cluster, d: Cluster, k: NodeId, i: Instance, b: Ballot)
    requires Extends(cfg, c, d) && k in c.nodes && RecordOk(cfg, c, k, i)
    requires PromisedAt(c, k, i).Less(b) && PromisedAt(d, k, i) == b && d.votes == c.votes
    ensures Pledged(cfg, d, k, i, b, Read(c.nodes[k].log, i).accepted)
  {
    var x := Read(c.nodes[k].log, i).accepted;
    forall e: Ballot | Vote(k, i, e) in d.votes && e.Less(b)
      ensures e.AtMost(x) || ChosenUpTo(cfg, d, i, x)
    {
      if !e.AtMost(x) {
        ChosenUpToStays(cfg, c, d, i, x, x);
      }
    }
  }

  /** Whatever shows that `a` promised `b`, its log shows it too. */
  lemma GivenIsPromised(cfg: Config, c: Cluster, a: NodeId, i: Instance, b: Ballot)
    requires Inv(cfg, c)
    requires a in Spent(c, i, b) || a in Counting(c, i, b)
          || exists p :: p in c.net && p.msg.Promise? && p.msg.sender == a && p.msg.ins == i && p.msg.ballot == b
    ensures b.AtMost(PromisedAt(c, a, i))
  {
    if a in Spent(c, i, b) {
      assert ProposalOk(cfg, c, Slot(i, b));
    } else if a in Counting(c, i, b) {
      assert NodeOk(cfg, c, b.node);
      assert Pledged(cfg, c, a, i, b, c.nodes[b.node].proposer.adopted);
    } else {
      var p :| p in c.net && p.msg.Promise? && p.msg.sender == a && p.msg.ins == i && p.msg.ballot == b;
      assert PacketOk(cfg, c, p);
    }
  }

  /** A promise nobody has seen may be sent. */
  lemma PromisesOnceWithNew(c: Cluster, d: Cluster, q: Packet)
    requires PromisesOnce(c) && q.msg.Promise?
    requires q.msg.sender !in Spent(c, q.msg.ins, q.msg.ballot)
    requires q.msg.sender !in Counting(c, q.msg.ins, q.msg.ballot)
    requires forall r :: r in c.net ==> !SamePromise(r, q)
    requires forall r :: r in d.net && r.msg.Promise? && r != q ==> r in c.net && d.net[r] <= c.net[r]
    requires q !in c.net && d.net[q] == 1
    requires forall i, b :: Counting(d, i, b) == Counting(c, i, b)
    requires d.proposals == c.proposals
    ensures PromisesOnce(d)
  {
  }

  /** A promise above what its acceptor promised so far in this instance is not there already. */
  lemma HigherPromiseIsNew(cfg: Config, c: Cluster, q: Packet)
    requires Inv(cfg, c) && q.msg.Promise?
    requires PromisedAt(c, q.msg.sender, q.msg.ins).Less(q.msg.ballot)
    ensures q.msg.sender !in Spent(c, q.msg.ins, q.msg.ballot)
    ensures q.msg.sender !in Counting(c, q.msg.ins, q.msg.ballot)
    ensures forall r :: r in c.net ==> !SamePromise(r, q)
  {
    var a, i, b := q.msg.sender, q.msg.ins, q.msg.ballot;
    if a in Spent(c, i, b) || a in Counting(c, i, b) {
      GivenIsPromised(cfg, c, a, i, b);
    }
    forall r | r in c.net ensures !SamePromise(r, q) {
      if SamePromise(r, q) {
        GivenIsPromised(cfg, c, a, i, b);
      }
    }
  }

  lemma PromisesOnceAfterGrant(c: Cluster, d: Cluster, p: Packet, q: Packet)
    requires PromisesOnce(c) && p.dst in c.nodes
    requires q.msg.Promise?
    requires q.msg.sender !in Spent(c, q.msg.ins, q.msg.ballot)
    requires q.msg.sender !in Counting(c, q.msg.ins, q.msg.ballot)
    requires forall r :: r in c.net ==> !SamePromise(r, q)
    requires d.net == c.net - multiset{p} + multiset{q} && d.proposals == c.proposals
    requires p.dst in d.nodes && d.nodes == c.nodes[p.dst := d.nodes[p.dst]]
    requires d.nodes[p.dst].ins == c.nodes[p.dst].ins && d.nodes[p.dst].proposer == c.nodes[p.dst].proposer
    ensures PromisesOnce(d)
  {
    assert SamePromise(q, q);
    PromisesOnceWithNew(c, d, q);
  }

  /** Accepting a proposal. */
  lemma CastVote(cfg: Config, c: Cluster, d: Cluster, p: Packet)
    requires Inv(cfg, c) && p in c.net && p.dst in c.nodes && p.msg.Accept?
    requires c.nodes[p.dst].ins == p.msg.ins && Acceptor.Acceptable(cfg.strict, c.nodes[p.dst].acceptor, p.msg.ballot)
    requires d == DeliverTo(cfg, c, p)
    ensures Inv(cfg, d) && Extends(cfg, c, d)
  {
    hide Inv, RecordOk, Extends, PromisesOnce, Persist, PacketOk, ProposalOk, VoteOk, LogOk, ExecutionOk, ProposerOk, DeliverTo;
    var k, b := p.dst, p.msg.ballot;
    NodeFacts(cfg, c, k);
    AcceptFacts(cfg, c, p);
    var e := LogEntry(b, b, p.msg.value);
    var q := Packet(b.node, Accepted(k, p.msg.ins, b));
    VoteResult(cfg, c, p, e, q);
    OnceFact(cfg, c);
    VoteParts(cfg, c, d, p, e, q);
    KeepInv(cfg, c, d, k, To(q.dst, q.msg));
  }

  lemma AcceptFacts(cfg: Config, c: Cluster, p: Packet)
    requires Inv(cfg, c) && p in c.net && p.msg.Accept?
    ensures ProposedAs(c, p.msg.ins, p.msg.ballot, p.msg.value) && p.msg.ballot.pid >= 1
  {
    assert PacketOk(cfg, c, p);
    assert ProposalOk(cfg, c, Slot(p.msg.ins, p.msg.ballot));
  }

  lemma VoteParts(cfg: Config, c: Cluster, d: Cluster, p: Packet, e: LogEntry, q: Packet)
    requires p.dst in c.nodes && p.msg.Accept? && NodeOk(cfg, c, p.dst) && PromisesOnce(c)
    requires forall i :: RecordOk(cfg, c, p.dst, i)
    requires c.nodes[p.dst].ins == p.msg.ins && Acceptor.Acceptable(cfg.strict, c.nodes[p.dst].acceptor, p.msg.ballot)
    requires e == LogEntry(p.msg.ballot, p.msg.ballot, p.msg.value) && p.msg.ballot.pid >= 1
    requires Acceptor.Reported(e) == e
    requires q == Packet(p.msg.ballot.node, Accepted(p.dst, p.msg.ins, p.msg.ballot))
    requires ProposedAs(c, p.msg.ins, p.msg.ballot, p.msg.value)
    requires d == Cluster(c.nodes[p.dst := Persist(c.nodes[p.dst], e)], c.net - multiset{p} + multiset{q}, c.proposals,
                          c.votes + {Vote(p.dst, p.msg.ins, p.msg.ballot)})
    ensures OneNodeSteps(cfg, c, d, p.dst, To(q.dst, q.msg)) && Extends(cfg, c, d) && NodeOk(cfg, d, p.dst)
    ensures forall i :: RecordOk(cfg, d, p.dst, i)
    ensures PacketOk(cfg, d, q)
    ensures forall v :: v in d.votes && v !in c.votes ==> v.who == p.dst && VoteOk(d, v)
    ensures PromisesOnce(d)
  {
    hide LogOk, ExecutionOk, ProposerOk, RecordOk, Extends, PromisesOnce, Counting, Spent;
    var k, i := p.dst, p.msg.ins;
    assert RecordOk(cfg, c, k, i);
    WriteExtends(cfg, c, d, k, i, e);
    PersistKeepsNode(cfg, c, d, k, e);
    OtherRecordsStay(cfg, c, d, k, i, e);
    VoteKeepsRecord(cfg, c, d, k, i, e);
    SameCounting(c, d, k);
    KeepPromisesOnce(cfg, c, d, k, To(q.dst, q.msg));
  }

  /** A node whose instance and proposer stay counts the same promises. */
  lemma SameCounting(c: Cluster, d: Cluster, k: NodeId)
    requires k in c.nodes && k in d.nodes && d.nodes == c.nodes[k := d.nodes[k]]
    requires d.nodes[k].ins == c.nodes[k].ins && d.nodes[k].proposer == c.nodes[k].proposer
    ensures forall i, b :: Counting(d, i, b) == Counting(c, i, b)
  {
  }

  lemma VoteResult(cfg: Config, c: Cluster, p: Packet, e: LogEntry, q: Packet)
    requires p.dst in c.nodes && p.msg.Accept? && MemoryOk(c.nodes[p.dst])
    requires c.nodes[p.dst].ins == p.msg.ins && Acceptor.Acceptable(cfg.strict, c.nodes[p.dst].acceptor, p.msg.ballot)
    requires e == LogEntry(p.msg.ballot, p.msg.ballot, p.msg.value) && p.msg.ballot.pid >= 1
    requires q == Packet(p.msg.ballot.node, Accepted(p.dst, p.msg.ins, p.msg.ballot))
    ensures Acceptor.Reported(e) == e
    ensures DeliverTo(cfg, c, p) ==
            Cluster(c.nodes[p.dst := Persist(c.nodes[p.dst], e)], c.net - multiset{p} + multiset{q}, c.proposals,
                    c.votes + {Vote(p.dst, p.msg.ins, p.msg.ballot)})
  {
  }

  lemma VoteKeepsRecord(cfg: Config, c: Cluster, d: Cluster, k: NodeId, i: Instance, e: LogEntry)
    requires k in c.nodes && k in d.nodes && RecordOk(cfg, c, k, i)
    requires Read(d.nodes[k].log, i) == e && e.accepted == e.promised && e.accepted.pid >= 1
    requires PromisedAt(c, k, i).AtMost(e.promised) && ProposedAs(d, i, e.accepted, e.value)
    requires d.votes == c.votes + {Vote(k, i, e.accepted)}
    ensures RecordOk(cfg, d, k, i)
  {
  }

  // ---------------------------------------------------------------- steps that leave the log alone

  /** The proposer counts no promise that it did not count before. */
  ghost predicate CountsNoMore(p: ProposerState, q: ProposerState) {
    q.status == Proposing && q.tally.promises != {} ==>
      p.status == Proposing && q.pid == p.pid && q.tally.promises <= p.tally.promises
  }

  /** A step of a proposer or learner that neither learns nor proposes. */
  lemma PlayerStep(cfg: Config, c: Cluster, d: Cluster, k: NodeId, out: Send,
                   p: ProposerState, s: Learner.LearnerState)
    requires Inv(cfg, c) && OneNodeSteps(cfg, c, d, k, out)
    requires d.nodes[k] == c.nodes[k].(proposer := p, learner := s) && LearnerOk(s)
    requires d.proposals == c.proposals && d.votes == c.votes
    requires ProposerOk(cfg, c, k, c.nodes[k].ins, p)
    requires forall q :: q in Packets(cfg, out) ==> PacketOk(cfg, c, q)
    requires PromisesOnce(d)
    ensures Inv(cfg, d) && Extends(cfg, c, d)
  {
    hide Inv, Extends, RecordOk, PromisesOnce, PacketOk, LogOk, ExecutionOk, ProposerOk;
    NodeFacts(cfg, c, k);
    SameLogExtends(cfg, c, d, k);
    PlayerNode(cfg, c, d, k, p, s);
    NewPacketsStay(cfg, c, d, out);
    KeepInv(cfg, c, d, k, out);
  }

  /** As above, when no promise is sent or counted. */
  lemma QuietPlayerStep(cfg: Config, c: Cluster, d: Cluster, k: NodeId, out: Send,
                        p: ProposerState, s: Learner.LearnerState)
    requires Inv(cfg, c) && OneNodeSteps(cfg, c, d, k, out)
    requires d.nodes[k] == c.nodes[k].(proposer := p, learner := s) && LearnerOk(s)
    requires d.proposals == c.proposals && d.votes == c.votes
    requires ProposerOk(cfg, c, k, c.nodes[k].ins, p)
    requires forall q :: q in Packets(cfg, out) ==> PacketOk(cfg, c, q)
    requires out == Quiet || !out.msg.Promise?
    requires NoNewPromises(c, d)
    requires CountsNoMore(c.nodes[k].proposer, p)
    ensures Inv(cfg, d) && Extends(cfg, c, d)
  {
    hide Inv, Extends, PacketOk, ProposerOk, PromisesOnce;
    OnceFact(cfg, c);
    PlayerCounting(c, d, k, p, s);
    KeepPromisesOnce(cfg, c, d, k, out);
    PlayerStep(cfg, c, d, k, out, p, s);
  }

  lemma SameLogExtends(cfg: Config, c: Cluster, d: Cluster, k: NodeId)
    requires k in c.nodes && k in d.nodes && d.nodes == c.nodes[k := d.nodes[k]]
    requires d.nodes[k].log == c.nodes[k].log
    requires forall s :: s in c.proposals ==> s in d.proposals && d.proposals[s] == c.proposals[s]
    requires d.votes == c.votes
    ensures Extends(cfg, c, d)
  {
    WriteExtends(cfg, c, d, k, 0, Read(c.nodes[k].log, 0));
  }

  lemma SameLogRecords(cfg: Config, c: Cluster, d: Cluster, k: NodeId)
    requires Extends(cfg, c, d) && k in c.nodes && k in d.nodes && d.nodes[k].log == c.nodes[k].log
    requires d.votes == c.votes
    requires forall i :: RecordOk(cfg, c, k, i)
    ensures forall i :: RecordOk(cfg, d, k, i)
  {
    forall i ensures RecordOk(cfg, d, k, i) {
      RecordStays(cfg, c, d, k, i);
    }
  }

  lemma PlayerNode(cfg: Config, c: Cluster, d: Cluster, k: NodeId, p: ProposerState, s: Learner.LearnerState)
    requires Extends(cfg, c, d) && k in c.nodes && k in d.nodes && NodeOk(cfg, c, k) && d.votes == c.votes
    requires d.nodes[k] == c.nodes[k].(proposer := p, learner := s) && LearnerOk(s)
    requires ProposerOk(cfg, c, k, c.nodes[k].ins, p)
    requires forall i :: RecordOk(cfg, c, k, i)
    ensures NodeOk(cfg, d, k)
    ensures forall i :: RecordOk(cfg, d, k, i)
  {
    hide Extends, RecordOk;
    var n, m := c.nodes[k], d.nodes[k];
    LogStays(cfg, c, d, n);
    assert LogOk(cfg, d, m);
    ProposerStays(cfg, c, d, k, n.ins, p);
    SameLogRecords(cfg, c, d, k);
  }

  lemma PlayerCounting(c: Cluster, d: Cluster, k: NodeId, p: ProposerState, s: Learner.LearnerState)
    requires k in c.nodes && k in d.nodes && d.nodes == c.nodes[k := d.nodes[k]]
    requires d.nodes[k] == c.nodes[k].(proposer := p, learner := s)
    requires CountsNoMore(c.nodes[k].proposer, p)
    ensures forall i, b :: Counting(d, i, b) <= Counting(c, i, b)
  {
  }

  lemma NewPacketsStay(cfg: Config, c: Cluster, d: Cluster, out: Send)
    requires Extends(cfg, c, d)
    requires forall q :: q in Packets(cfg, out) ==> PacketOk(cfg, c, q)
    ensures forall q :: q in Packets(cfg, out) ==> PacketOk(cfg, d, q)
  {
    forall q | q in Packets(cfg, out) ensures PacketOk(cfg, d, q) {
      PacketStays(cfg, c, d, q);
    }
  }

  /** Starting a round. */
  lemma StartRoundOk(cfg: Config, c: Cluster, k: NodeId, i: Instance, p: ProposerState)
    requires ProposerOk(cfg, c, k, i, p) && p.value != Empty
    ensures var (q, out) := StartRound(p, k, i);
      && ProposerOk(cfg, c, k, i, q)
      && CountsNoMore(p, q)
      && out.All? && out.msg.Propose?
  {
  }

  /** The effect of a local step of the proposer, on the proposer alone. */
  lemma ProposerLocalEffect(cfg: Config, c: Cluster, k: NodeId, n: Node, a: Action)
    requires ProposerOk(cfg, c, k, n.ins, n.proposer) && (n.proposer.value == Empty ==> n.proposer.adopted == NO_BALLOT)
    requires a.NewValue? || a.ProposeTimeout? || a.AcceptTimeout? || a.NewValueTimeout?
    ensures var (m, out) := LocalStep(k, n, a);
      && m == n.(proposer := m.proposer, learner := n.learner)
      && ProposerOk(cfg, c, k, n.ins, m.proposer)
      && CountsNoMore(n.proposer, m.proposer)
      && (out == Quiet || out.msg.Propose?)
  {
    hide Pledged, NoneOrProposed;
    var p := n.proposer;
    match a {
      case NewValue(_, value) =>
        if value != Empty {
          StartRoundOk(cfg, c, k, n.ins, if p.value == Empty then p.(value := value) else p);
        }
      case ProposeTimeout(_) =>
        if p.proposeTimer.Some? {
          StartRoundOk(cfg, c, k, n.ins, p.(proposeTimer := None));
        }
      case AcceptTimeout(_) =>
        if p.acceptTimer.Some? {
          StartRoundOk(cfg, c, k, n.ins, p.(acceptTimer := None));
        }
      case _ =>
    }
  }

  /** Only a proposed value, which is never empty, is adopted. */
  lemma AdoptedIsProposed(cfg: Config, c: Cluster, k: NodeId)
    requires Inv(cfg, c) && k in c.nodes && c.nodes[k].proposer.value == Empty
    ensures c.nodes[k].proposer.adopted == NO_BALLOT
  {
    var i, p := c.nodes[k].ins, c.nodes[k].proposer;
    assert NodeOk(cfg, c, k) && NoneOrProposed(c, i, p.adopted, p.value);
    assert Slot(i, p.adopted) in c.proposals ==> ProposalOk(cfg, c, Slot(i, p.adopted));
  }

  lemma PlainPacketsOk(cfg: Config, c: Cluster, out: Send)
    requires out == Quiet
          || out.msg.Propose? || out.msg.ProposeReject? || out.msg.AcceptReject? || out.msg.TellInstance?
          || out.msg.SyncAck? || ((out.msg.ShallILearn? || out.msg.ConfirmLearn?) && out.msg.ins >= 1)
    ensures forall q :: q in Packets(cfg, out) ==> PacketOk(cfg, c, q)
  {
  }

  /** A local step of the proposer. */
  lemma ProposerLocalStep(cfg: Config, c: Cluster, a: Action, m: Node, out: Send)
    requires Inv(cfg, c)
    requires a.NewValue? || a.ProposeTimeout? || a.AcceptTimeout? || a.NewValueTimeout?
    requires a.node in c.nodes && LocalStep(a.node, c.nodes[a.node], a) == (m, out)
    ensures Inv(cfg, Emit(cfg, c, a.node, m, out)) && Extends(cfg, c, Emit(cfg, c, a.node, m, out))
  {
    hide Inv, Extends, RecordOk, LogOk, ExecutionOk, Emit, LocalStep;
    NodeFacts(cfg, c, a.node);
    if c.nodes[a.node].proposer.value == Empty {
      AdoptedIsProposed(cfg, c, a.node);
    }
    ProposerLocalEffect(cfg, c, a.node, c.nodes[a.node], a);
    PlayerEmit(cfg, c, a.node, m, out, m.proposer, c.nodes[a.node].learner);
  }

  lemma PlayerEmit(cfg: Config, c: Cluster, k: NodeId, m: Node, out: Send, p: ProposerState, s: Learner.LearnerState)
    requires Inv(cfg, c) && k in c.nodes && m == c.nodes[k].(proposer := p, learner := s) && LearnerOk(s)
    requires ProposerOk(cfg, c, k, c.nodes[k].ins, p) && CountsNoMore(c.nodes[k].proposer, p)
    requires out == Quiet || out.msg.Propose?
    ensures Inv(cfg, Emit(cfg, c, k, m, out)) && Extends(cfg, c, Emit(cfg, c, k, m, out))
  {
    hide Inv, Extends, PacketOk, ProposerOk;
    PlainPacketsOk(cfg, c, out);
    QuietPlayerStep(cfg, c, Emit(cfg, c, k, m, out), k, out, p, s);
  }

  // ---------------------------------------------------------------- counting promises

  lemma ExtendsTransitive(cfg: Config, c: Cluster, d: Cluster, e: Cluster)
    requires Extends(cfg, c, d) && Extends(cfg, d, e)
    requires forall a, i :: PromisedAt(c, a, i) == PromisedAt(d, a, i)
    ensures Extends(cfg, c, e)
  {
    forall a, i ensures PromisedAt(c, a, i).AtMost(PromisedAt(e, a, i)) {
      assert PromisedAt(c, a, i) == PromisedAt(d, a, i);
    }
  }

  lemma ExtendsItself(cfg: Config, c: Cluster)
    ensures Extends(cfg, c, c)
  {
  }

  /** The proposer after a relevant reply to its propose broadcast, before it looks at the counts. */
  function AfterReply(p: ProposerState, m: Message): ProposerState
    requires m.Promise? || m.ProposeReject?
  {
    if m.Promise? then var q := Adopt(p, m.accepted, m.value); q.(tally := AddPromise(q.tally, m.sender))
    else var q := Hear(p, m.promised); q.(tally := AddRejection(q.tally, m.sender))
  }

  /** Adoption is safe: the remembered value covers the new promise as well as all earlier ones. */
  lemma ReplyKeepsProposer(cfg: Config, c: Cluster, k: NodeId, i: Instance, p: ProposerState, packet: Packet)
    requires ProposerOk(cfg, c, k, i, p) && PacketOk(cfg, c, packet)
    requires packet.msg.Promise? || packet.msg.ProposeReject?
    requires Relevant(p, k, i, Proposing, packet.msg)
    requires forall s :: s in c.proposals ==> ProposalOk(cfg, c, s)
    ensures ProposerOk(cfg, c, k, i, AfterReply(p, packet.msg))
  {
    var m, q := packet.msg, AfterReply(p, packet.msg);
    if m.Promise? {
      assert p.adopted.AtMost(q.adopted) && m.accepted.AtMost(q.adopted);
      ExtendsItself(cfg, c);
      forall a | a in q.tally.promises ensures Pledged(cfg, c, a, i, BallotOf(q, k), q.adopted) {
        PledgeStays(cfg, c, c, a, i, BallotOf(q, k), if a == m.sender then m.accepted else p.adopted, q.adopted);
      }
      if q.adopted != p.adopted {
        assert ProposalOk(cfg, c, Slot(i, m.accepted));
      }
    }
  }

  /** One more promise moves from the net into the count. */
  lemma PromisesOnceWhenCounted(c: Cluster, d: Cluster, packet: Packet)
    requires PromisesOnce(c) && packet in c.net && packet.msg.Promise? && d.proposals == c.proposals
    requires forall p :: p in d.net && p.msg.Promise? ==> p in c.net && d.net[p] <= c.net[p]
    requires d.net[packet] < c.net[packet]
    requires forall i, b ::
      Counting(d, i, b) <= Counting(c, i, b) +
        if i == packet.msg.ins && b == packet.msg.ballot then {packet.msg.sender} else {}
    ensures PromisesOnce(d)
  {
    assert packet !in d.net;
    forall p | p in d.net && p.msg.Promise?
      ensures p.msg.sender !in Counting(d, p.msg.ins, p.msg.ballot)
    {
      assert !SamePromise(p, packet);
    }
    forall i, b ensures Counting(d, i, b) * Spent(d, i, b) == {} {
      assert Spent(d, i, b) == Spent(c, i, b);
    }
  }

  /** All counted promises are spent on a proposal. */
  lemma PromisesOnceWhenSpent(c: Cluster, d: Cluster, i: Instance, b: Ballot, quorum: set<NodeId>)
    requires PromisesOnce(c) && NoNewPromises(c, d)
    requires forall p :: p in d.net && p.msg.Promise? && p.msg.ins == i && p.msg.ballot == b ==> p.msg.sender !in quorum
    requires forall j, e :: Spent(d, j, e) == if j == i && e == b then quorum else Spent(c, j, e)
    requires Counting(d, i, b) == {}
    requires forall j, e :: Counting(d, j, e) <= Counting(c, j, e)
    ensures PromisesOnce(d)
  {
  }

  /** No ballot gathers two promise majorities: a majority in hand means nothing was proposed at this ballot. */
  lemma MajorityMeansNewSlot(cfg: Config, c: Cluster, packet: Packet, i: Instance, b: Ballot, quorum: set<NodeId>)
    requires cfg.Valid() && Inv(cfg, c) && packet in c.net
    requires packet.msg.Promise? || packet.msg.ProposeReject?
    requires packet.msg.ins == i && packet.msg.ballot == b
    requires quorum == Counting(c, i, b) + if packet.msg.Promise? then {packet.msg.sender} else {}
    requires quorum <= cfg.members && |quorum| >= cfg.majority
    ensures Slot(i, b) !in c.proposals
  {
    if Slot(i, b) in c.proposals {
      assert ProposalOk(cfg, c, Slot(i, b));
      OnceFact(cfg, c);
      SpentIsDisjoint(c, packet, quorum);
      DisjointSubsetsFit(quorum, Spent(c, i, b), cfg.members);
    }
  }

  lemma SpentIsDisjoint(c: Cluster, packet: Packet, quorum: set<NodeId>)
    requires PromisesOnce(c) && packet in c.net && (packet.msg.Promise? || packet.msg.ProposeReject?)
    requires quorum ==
             Counting(c, packet.msg.ins, packet.msg.ballot) + if packet.msg.Promise? then {packet.msg.sender} else {}
    ensures quorum * Spent(c, packet.msg.ins, packet.msg.ballot) == {}
  {
    assert Counting(c, packet.msg.ins, packet.msg.ballot) * Spent(c, packet.msg.ins, packet.msg.ballot) == {};
  }

  /** What handling a reply to the propose broadcast amounts to. */
  lemma ProposeAckResult(cfg: Config, c: Cluster, packet: Packet)
    requires packet.dst in c.nodes && !c.nodes[packet.dst].learner.learned
    requires packet.msg.Promise? || packet.msg.ProposeReject?
    ensures var n := c.nodes[packet.dst];
      var (p, out) := OnProposeAck(cfg, packet.dst, n.ins, n.proposer, packet.msg);
      DeliverTo(cfg, c, packet) ==
        Cluster(c.nodes[packet.dst := n.(proposer := p)], c.net - multiset{packet} + Packets(cfg, out),
                Proposals(c, n, packet.msg, n.(proposer := p), out), c.votes)
  {
    var n := c.nodes[packet.dst];
    var (p, out) := OnProposeAck(cfg, packet.dst, n.ins, n.proposer, packet.msg);
    assert Handle(cfg, packet.dst, n, packet.msg) == (n.(proposer := p), out);
    ProposeAckCases(cfg, packet.dst, n.ins, n.proposer, packet.msg);
  }

  /** A relevant reply that completes no majority. */
  lemma CountReply(cfg: Config, c: Cluster, d: Cluster, packet: Packet, p: ProposerState)
    requires Inv(cfg, c) && packet in c.net && packet.dst in c.nodes
    requires packet.msg.Promise? || packet.msg.ProposeReject?
    requires var n := c.nodes[packet.dst]; Relevant(n.proposer, packet.dst, n.ins, Proposing, packet.msg)
    requires var n := c.nodes[packet.dst];
      var q := AfterReply(n.proposer, packet.msg); p == q || p == q.(proposeTimer := Some(n.ins))
    requires var n := c.nodes[packet.dst];
      d == Cluster(c.nodes[packet.dst := n.(proposer := p)], c.net - multiset{packet}, c.proposals, c.votes)
    ensures Inv(cfg, d) && Extends(cfg, c, d)
  {
    hide Inv, RecordOk, Extends, PromisesOnce, ProposalOk, PacketOk, LogOk, ExecutionOk;
    var k, n := packet.dst, c.nodes[packet.dst];
    NodeFacts(cfg, c, k);
    OnceFact(cfg, c);
    PacketFact(cfg, c, packet);
    ReplyKeepsProposer(cfg, c, k, n.ins, n.proposer, packet);
    CountedOnce(c, d, packet, p);
    PlayerStep(cfg, c, d, k, Quiet, p, n.learner);
  }

  lemma PacketFact(cfg: Config, c: Cluster, packet: Packet)
    requires Inv(cfg, c) && packet in c.net
    ensures PacketOk(cfg, c, packet)
    ensures forall s :: s in c.proposals ==> ProposalOk(cfg, c, s)
  {
  }

  lemma CountingAfterReply(c: Cluster, d: Cluster, k: NodeId, m: Message, p: ProposerState)
    requires k in c.nodes && (m.Promise? || m.ProposeReject?)
    requires Relevant(c.nodes[k].proposer, k, c.nodes[k].ins, Proposing, m)
    requires p.status == Proposing && p.pid == c.nodes[k].proposer.pid
    requires p.tally.promises == Supporters(c.nodes[k], m)
    requires d.nodes == c.nodes[k := c.nodes[k].(proposer := p)]
    ensures forall i, b ::
      Counting(d, i, b) <= Counting(c, i, b) + if i == m.ins && b == m.ballot && m.Promise? then {m.sender} else {}
  {
  }

  lemma CountedOnce(c: Cluster, d: Cluster, packet: Packet, p: ProposerState)
    requires PromisesOnce(c) && packet in c.net && packet.dst in c.nodes
    requires packet.msg.Promise? || packet.msg.ProposeReject?
    requires var n := c.nodes[packet.dst]; Relevant(n.proposer, packet.dst, n.ins, Proposing, packet.msg)
    requires var n := c.nodes[packet.dst];
      var q := AfterReply(n.proposer, packet.msg); p == q || p == q.(proposeTimer := Some(n.ins))
    requires var n := c.nodes[packet.dst];
      d == Cluster(c.nodes[packet.dst := n.(proposer := p)], c.net - multiset{packet}, c.proposals, c.votes)
    ensures PromisesOnce(d)
  {
    CountingAfterReply(c, d, packet.dst, packet.msg, p);
    if packet.msg.Promise? {
      PromisesOnceWhenCounted(c, d, packet);
    } else {
      KeepPromisesOnce(Config({}, 0, false), c, d, packet.dst, Quiet);
    }
  }

  /** A reply that the proposer it is addressed to is waiting for. */
  ghost predicate CountedReply(c: Cluster, packet: Packet) {
    && packet in c.net && packet.dst in c.nodes
    && (packet.msg.Promise? || packet.msg.ProposeReject?)
    && var n := c.nodes[packet.dst]; Relevant(n.proposer, packet.dst, n.ins, Proposing, packet.msg)
  }

  /** `q` is the proposer with this reply counted, and in `d` it has proposed its value. */
  ghost predicate ProposesOn(cfg: Config, c: Cluster, d: Cluster, packet: Packet, q: ProposerState)
    requires CountedReply(c, packet)
  {
    var n := c.nodes[packet.dst];
    var (p, out) := StartAccept(q, packet.dst, n.ins);
    && q == AfterReply(n.proposer, packet.msg)
    && d == Cluster(c.nodes[packet.dst := n.(proposer := p)], c.net - multiset{packet} + Packets(cfg, out),
                    c.proposals[Slot(n.ins, packet.msg.ballot) := Proposal(q.value, q.tally.promises, q.adopted)], c.votes)
  }

  /** The promises counted are those of a majority of members, and nothing was proposed at their ballot. */
  ghost predicate MajorityCounted(cfg: Config, c: Cluster, packet: Packet, q: ProposerState)
    requires CountedReply(c, packet)
  {
    && q.tally.promises ==
       Counting(c, packet.msg.ins, packet.msg.ballot) + (if packet.msg.Promise? then {packet.msg.sender} else {})
    && q.tally.promises <= cfg.members && |q.tally.promises| >= cfg.majority
    && Slot(packet.msg.ins, packet.msg.ballot) !in c.proposals
  }

  /** A relevant reply that completes a promise majority: the value is proposed. */
  lemma ProposeValue(cfg: Config, c: Cluster, d: Cluster, packet: Packet, q: ProposerState)
    requires cfg.Valid() && Inv(cfg, c) && CountedReply(c, packet)
    requires ProposesOn(cfg, c, d, packet, q) && |q.tally.promises| >= cfg.majority
    ensures Inv(cfg, d) && Extends(cfg, c, d)
  {
    hide Inv, Extends, RecordOk, LogOk, ExecutionOk, PacketOk, ProposalOk, PromisesOnce, ProposerOk, Counting, AfterReply;
    var k, n := packet.dst, c.nodes[packet.dst];
    NodeFacts(cfg, c, k);
    OnceFact(cfg, c);
    PacketFact(cfg, c, packet);
    ReplyKeepsProposer(cfg, c, k, n.ins, n.proposer, packet);
    QuorumFact(cfg, c, packet, q);
    MajorityMeansNewSlot(cfg, c, packet, n.ins, packet.msg.ballot, q.tally.promises);
    ProposeAll(cfg, c, d, packet, q);
    SpentOnce(cfg, c, d, packet, q);
    KeepInv(cfg, c, d, k, StartAccept(q, k, n.ins).1);
  }

  /** Everything about the cluster after the proposal that the invariant asks for. */
  lemma ProposeAll(cfg: Config, c: Cluster, d: Cluster, packet: Packet, q: ProposerState)
    requires CountedReply(c, packet) && ProposesOn(cfg, c, d, packet, q) && MajorityCounted(cfg, c, packet, q)
    requires c.nodes.Keys == cfg.members && NodeOk(cfg, c, packet.dst)
    requires forall i :: RecordOk(cfg, c, packet.dst, i)
    requires ProposerOk(cfg, c, packet.dst, c.nodes[packet.dst].ins, q)
    ensures var out := StartAccept(q, packet.dst, packet.msg.ins).1;
      && OneNodeSteps(cfg, c, d, packet.dst, out)
      && (forall r :: r in Packets(cfg, out) ==> PacketOk(cfg, d, r))
    ensures Extends(cfg, c, d) && NodeOk(cfg, d, packet.dst)
    ensures forall i :: RecordOk(cfg, d, packet.dst, i)
    ensures forall s :: s in d.proposals && s !in c.proposals ==> ProposalOk(cfg, d, s)
  {
    hide RecordOk, Extends, ProposalOk, NodeOk, ProposerOk, PacketOk, Counting;
    ProposeParts(cfg, c, d, packet, q);
    AcceptPacketsOk(cfg, d, packet.dst, packet.msg.ins, q);
  }

  lemma QuorumFact(cfg: Config, c: Cluster, packet: Packet, q: ProposerState)
    requires packet.dst in c.nodes && c.nodes.Keys == cfg.members
    requires packet.msg.Promise? || packet.msg.ProposeReject?
    requires var n := c.nodes[packet.dst]; Relevant(n.proposer, packet.dst, n.ins, Proposing, packet.msg)
    requires q == AfterReply(c.nodes[packet.dst].proposer, packet.msg)
    requires ProposerOk(cfg, c, packet.dst, c.nodes[packet.dst].ins, q)
    ensures q.tally.promises == Supporters(c.nodes[packet.dst], packet.msg)
    ensures q.tally.promises ==
            Counting(c, packet.msg.ins, packet.msg.ballot) + if packet.msg.Promise? then {packet.msg.sender} else {}
    ensures q.tally.promises <= cfg.members
  {
    var i, b := c.nodes[packet.dst].ins, BallotOf(q, packet.dst);
    forall a | a in q.tally.promises ensures a in cfg.members {
      assert Pledged(cfg, c, a, i, b, q.adopted);
    }
  }

  lemma ProposeParts(cfg: Config, c: Cluster, d: Cluster, packet: Packet, q: ProposerState)
    requires CountedReply(c, packet) && ProposesOn(cfg, c, d, packet, q) && MajorityCounted(cfg, c, packet, q)
    requires c.nodes.Keys == cfg.members && NodeOk(cfg, c, packet.dst)
    requires forall i :: RecordOk(cfg, c, packet.dst, i)
    requires ProposerOk(cfg, c, packet.dst, c.nodes[packet.dst].ins, q)
    ensures var out := StartAccept(q, packet.dst, packet.msg.ins).1;
      OneNodeSteps(cfg, c, d, packet.dst, out) && Extends(cfg, c, d)
    ensures NodeOk(cfg, d, packet.dst)
    ensures forall i :: RecordOk(cfg, d, packet.dst, i)
    ensures ProposalOk(cfg, d, Slot(packet.msg.ins, packet.msg.ballot))
  {
    hide RecordOk, Extends, ProposalOk, LogOk, ExecutionOk, Counting, ProposerOk, AfterReply, LearnerOk;
    var k, n, i := packet.dst, c.nodes[packet.dst], packet.msg.ins;
    var (p, out) := StartAccept(q, k, i);
    ReplyKeepsBallot(c, packet, q);
    SameLogExtends(cfg, c, d, k);
    assert ProposerOk(cfg, c, k, i, p) by { AcceptingProposerOk(cfg, c, k, i, q); }
    assert d.nodes[k] == n.(proposer := p, learner := n.learner);
    PlayerNode(cfg, c, d, k, p, n.learner);
    NewProposalOk(cfg, c, d, k, i, q);
  }

  lemma ReplyKeepsBallot(c: Cluster, packet: Packet, q: ProposerState)
    requires CountedReply(c, packet) && q == AfterReply(c.nodes[packet.dst].proposer, packet.msg)
    ensures q.status == Proposing && BallotOf(q, packet.dst) == packet.msg.ballot
    ensures packet.msg.ins == c.nodes[packet.dst].ins
  {
  }

  lemma AcceptPacketsOk(cfg: Config, d: Cluster, k: NodeId, i: Instance, q: ProposerState)
    requires ProposedAs(d, i, BallotOf(q, k), q.value)
    ensures forall r :: r in Packets(cfg, StartAccept(q, k, i).1) ==> PacketOk(cfg, d, r)
  {
  }

  lemma AcceptingProposerOk(cfg: Config, c: Cluster, k: NodeId, i: Instance, q: ProposerState)
    requires ProposerOk(cfg, c, k, i, q) && q.status == Proposing
    ensures ProposerOk(cfg, c, k, i, StartAccept(q, k, i).0)
  {
  }

  lemma NewProposalOk(cfg: Config, c: Cluster, d: Cluster, k: NodeId, i: Instance, q: ProposerState)
    requires Extends(cfg, c, d) && ProposerOk(cfg, c, k, i, q) && q.status == Proposing
    requires q.tally.promises <= cfg.members && |q.tally.promises| >= cfg.majority
    requires var s := Slot(i, BallotOf(q, k));
      s in d.proposals && d.proposals[s] == Proposal(q.value, q.tally.promises, q.adopted)
    ensures ProposalOk(cfg, d, Slot(i, BallotOf(q, k)))
  {
    forall a | a in q.tally.promises ensures Pledged(cfg, d, a, i, BallotOf(q, k), q.adopted) {
      PledgeStays(cfg, c, d, a, i, BallotOf(q, k), q.adopted, q.adopted);
    }
  }

  lemma SpentOnce(cfg: Config, c: Cluster, d: Cluster, packet: Packet, q: ProposerState)
    requires PromisesOnce(c) && CountedReply(c, packet)
    requires ProposesOn(cfg, c, d, packet, q) && MajorityCounted(cfg, c, packet, q)
    ensures PromisesOnce(d)
  {
    hide PromisesOnce, NoNewPromises, Spent, AfterReply;
    var k, n, i, b := packet.dst, c.nodes[packet.dst], packet.msg.ins, packet.msg.ballot;
    var (p, out) := StartAccept(q, k, n.ins);
    SpentNet(c, d, packet, Packets(cfg, out), q.tally.promises);
    PlayerCounting(c, d, k, p, n.learner);
    SpentNow(cfg, c, d, packet, q);
    PromisesOnceWhenSpent(c, d, i, b, q.tally.promises);
  }

  lemma SpentNow(cfg: Config, c: Cluster, d: Cluster, packet: Packet, q: ProposerState)
    requires CountedReply(c, packet) && ProposesOn(cfg, c, d, packet, q)
    ensures forall i, b ::
      Spent(d, i, b) == if i == packet.msg.ins && b == packet.msg.ballot then q.tally.promises else Spent(c, i, b)
    ensures Counting(d, packet.msg.ins, packet.msg.ballot) == {}
  {
  }

  /** After the last promise of a majority left the net, none of the majority's promises is in flight. */
  lemma SpentNet(c: Cluster, d: Cluster, packet: Packet, sent: multiset<Packet>, quorum: set<NodeId>)
    requires packet in c.net && PromisesOnce(c)
    requires packet.msg.Promise? || packet.msg.ProposeReject?
    requires quorum ==
             Counting(c, packet.msg.ins, packet.msg.ballot) + if packet.msg.Promise? then {packet.msg.sender} else {}
    requires forall r :: r in sent ==> r.msg.Accept?
    requires d.net == c.net - multiset{packet} + sent
    ensures NoNewPromises(c, d)
    ensures forall r :: r in d.net && r.msg.Promise? && r.msg.ins == packet.msg.ins && r.msg.ballot == packet.msg.ballot
                    ==> r.msg.sender !in quorum
  {
    forall r | r in d.net && r.msg.Promise? && r.msg.ins == packet.msg.ins && r.msg.ballot == packet.msg.ballot
      ensures r.msg.sender !in quorum
    {
      if packet.msg.Promise? && r.msg.sender == packet.msg.sender {
        assert SamePromise(r, packet);
        assert false;
      }
    }
  }

  lemma ProposeAckCases(cfg: Config, k: NodeId, i: Instance, p: ProposerState, m: Message)
    requires m.Promise? || m.ProposeReject?
    ensures !Relevant(p, k, i, Proposing, m) ==> OnProposeAck(cfg, k, i, p, m) == (p, Quiet)
    ensures Relevant(p, k, i, Proposing, m) && |AfterReply(p, m).tally.promises| >= cfg.majority ==>
      OnProposeAck(cfg, k, i, p, m) == StartAccept(AfterReply(p, m), k, i)
    ensures Relevant(p, k, i, Proposing, m) && |AfterReply(p, m).tally.promises| < cfg.majority ==>
      var (r, out) := OnProposeAck(cfg, k, i, p, m); var q := AfterReply(p, m);
      out == Quiet && (r == q || r == q.(proposeTimer := Some(i)))
  {
  }

  lemma IrrelevantMessage(cfg: Config, c: Cluster, d: Cluster, packet: Packet)
    requires Inv(cfg, c) && packet in c.net && packet.dst in c.nodes
    requires d == Cluster(c.nodes, c.net - multiset{packet}, c.proposals, c.votes)
    ensures Inv(cfg, d) && Extends(cfg, c, d)
  {
    hide Inv, RecordOk, Extends, LogOk, ExecutionOk, PacketOk;
    var k, n := packet.dst, c.nodes[packet.dst];
    NodeFacts(cfg, c, k);
    assert n == n.(proposer := n.proposer, learner := n.learner);
    QuietPlayerStep(cfg, c, d, k, Quiet, n.proposer, n.learner);
  }

  lemma PutBack(nodes: map<NodeId, Node>, k: NodeId, p: ProposerState)
    requires k in nodes && p == nodes[k].proposer
    ensures nodes[k := nodes[k].(proposer := p)] == nodes
  {
  }

  /** A reply to the propose broadcast. */
  lemma HandleProposeAck(cfg: Config, c: Cluster, packet: Packet)
    requires cfg.Valid() && Inv(cfg, c) && packet in c.net && packet.dst in c.nodes
    requires packet.msg.Promise? || packet.msg.ProposeReject?
    ensures Inv(cfg, DeliverTo(cfg, c, packet)) && Extends(cfg, c, DeliverTo(cfg, c, packet))
  {
    hide Inv, Extends, RecordOk, LogOk, ExecutionOk, ProposerOk, DeliverTo, OnProposeAck, AfterReply, Relevant, StartAccept;
    var k, n := packet.dst, c.nodes[packet.dst];
    NodeFacts(cfg, c, k);
    if !Relevant(n.proposer, k, n.ins, Proposing, packet.msg) {
      ProposeAckIgnored(cfg, c, packet);
      IrrelevantMessage(cfg, c, DeliverTo(cfg, c, packet), packet);
    } else if |AfterReply(n.proposer, packet.msg).tally.promises| >= cfg.majority {
      ProposeAckProposes(cfg, c, packet);
      ProposeValue(cfg, c, DeliverTo(cfg, c, packet), packet, AfterReply(n.proposer, packet.msg));
    } else {
      var p := ProposeAckCounts(cfg, c, packet);
      CountReply(cfg, c, DeliverTo(cfg, c, packet), packet, p);
    }
  }

  lemma ProposeAckIgnored(cfg: Config, c: Cluster, packet: Packet)
    requires packet.dst in c.nodes && !c.nodes[packet.dst].learner.learned
    requires packet.msg.Promise? || packet.msg.ProposeReject?
    requires var n := c.nodes[packet.dst]; !Relevant(n.proposer, packet.dst, n.ins, Proposing, packet.msg)
    ensures DeliverTo(cfg, c, packet) == Cluster(c.nodes, c.net - multiset{packet}, c.proposals, c.votes)
  {
    ProposeAckResult(cfg, c, packet);
    PutBack(c.nodes, packet.dst, c.nodes[packet.dst].proposer);
  }

  lemma ProposeAckProposes(cfg: Config, c: Cluster, packet: Packet)
    requires packet.dst in c.nodes && !c.nodes[packet.dst].learner.learned
    requires packet.msg.Promise? || packet.msg.ProposeReject?
    requires var n := c.nodes[packet.dst];
      && Relevant(n.proposer, packet.dst, n.ins, Proposing, packet.msg)
      && |AfterReply(n.proposer, packet.msg).tally.promises| >= cfg.majority
    ensures var n := c.nodes[packet.dst];
      var q := AfterReply(n.proposer, packet.msg);
      var (p, out) := StartAccept(q, packet.dst, n.ins);
      DeliverTo(cfg, c, packet) ==
        Cluster(c.nodes[packet.dst := n.(proposer := p)], c.net - multiset{packet} + Packets(cfg, out),
                c.proposals[Slot(n.ins, packet.msg.ballot) := Proposal(q.value, q.tally.promises, q.adopted)], c.votes)
  {
    var n := c.nodes[packet.dst];
    ProposeAckResult(cfg, c, packet);
    ProposeAckCases(cfg, packet.dst, n.ins, n.proposer, packet.msg);
    SupportersAfterReply(n, packet.msg);
  }

  lemma ProposeAckCounts(cfg: Config, c: Cluster, packet: Packet) returns (p: ProposerState)
    requires packet.dst in c.nodes && !c.nodes[packet.dst].learner.learned
    requires packet.msg.Promise? || packet.msg.ProposeReject?
    requires var n := c.nodes[packet.dst];
      && Relevant(n.proposer, packet.dst, n.ins, Proposing, packet.msg)
      && |AfterReply(n.proposer, packet.msg).tally.promises| < cfg.majority
    ensures var n := c.nodes[packet.dst];
      var q := AfterReply(n.proposer, packet.msg); p == q || p == q.(proposeTimer := Some(n.ins))
    ensures var n := c.nodes[packet.dst];
      DeliverTo(cfg, c, packet) ==
        Cluster(c.nodes[packet.dst := n.(proposer := p)], c.net - multiset{packet}, c.proposals, c.votes)
  {
    var n := c.nodes[packet.dst];
    ProposeAckResult(cfg, c, packet);
    ProposeAckCases(cfg, packet.dst, n.ins, n.proposer, packet.msg);
    p := OnProposeAck(cfg, packet.dst, n.ins, n.proposer, packet.msg).0;
  }

  lemma SupportersAfterReply(n: Node, m: Message)
    requires m.Promise? || m.ProposeReject?
    ensures AfterReply(n.proposer, m).tally.promises == Supporters(n, m)
  {
  }

  // ---------------------------------------------------------------- learning and the next instance

  /** The node moves on: the record of its instance holds the value its state machine is given. */
  lemma AdvanceKeepsNode(cfg: Config, d: Cluster, k: NodeId, n: Node)
    requires k in d.nodes && d.nodes[k] == Advance(n)
    requires LogOk(cfg, d, n) && n.ins in n.log && Settled(cfg, d, n.ins, n.log[n.ins])
    requires n.learner.value == n.log[n.ins].value
    requires ExecutionOk(n) && n.proposer.pid >= 1 && FromFirst(n.learner.job)
    ensures NodeOk(cfg, d, k)
  {
    hide Settled, Chosen;
    var m := d.nodes[k];
    assert LogOk(cfg, d, m);
    assert MemoryOk(m);
    assert ExecutionOk(m);
  }

  lemma IdleCounting(c: Cluster, d: Cluster, k: NodeId)
    requires k in c.nodes && k in d.nodes && d.nodes == c.nodes[k := d.nodes[k]]
    requires d.nodes[k].proposer.status != Proposing
    ensures forall i, b :: Counting(d, i, b) <= Counting(c, i, b)
  {
  }

  /** A majority of counted acceptances is a chosen proposal. */
  lemma ApprovalsChoose(cfg: Config, c: Cluster, i: Instance, b: Ballot, approvals: set<NodeId>)
    requires cfg.Valid() && |approvals| >= cfg.majority
    requires forall v :: v in c.votes ==> VoteOk(c, v)
    requires forall a :: a in approvals ==> Vote(a, i, b) in c.votes
    ensures Chosen(cfg, c, i, b)
  {
    var a :| a in approvals;
    assert VoteOk(c, Vote(a, i, b));
    forall x | x in approvals ensures x in Voters(c, i, b) {
      assert VoteOk(c, Vote(x, i, b));
    }
    SubsetSize(approvals, Voters(c, i, b));
  }

  /** The node learns the value its own acceptor holds, once the ballot of that value is chosen. */
  lemma LearnOwn(cfg: Config, c: Cluster, d: Cluster, k: NodeId, n: Node, out: Send)
    requires Inv(cfg, c) && OneNodeSteps(cfg, c, d, k, out)
    requires d.proposals == c.proposals && d.votes == c.votes && NoNewPromises(c, d)
    requires n == c.nodes[k].(proposer := n.proposer, learner := n.learner) && n.proposer.pid >= 1
    requires n.learner.value == n.acceptor.value && n.acceptor.accepted != NO_BALLOT && FromFirst(n.learner.job)
    requires Chosen(cfg, c, n.ins, n.acceptor.accepted)
    requires d.nodes[k] == Advance(n)
    requires out == Quiet || out == All(ChosenBroadcast(n.ins, n.acceptor.accepted, n.acceptor.value))
    ensures Inv(cfg, d) && Extends(cfg, c, d)
  {
    hide Inv, Extends, RecordOk, NodeOk, PromisesOnce, PacketOk;
    NodeFacts(cfg, c, k);
    OnceFact(cfg, c);
    LearnOwnParts(cfg, c, d, k, n);
    IdleCounting(c, d, k);
    KeepPromisesOnce(cfg, c, d, k, out);
    TaughtPackets(cfg, d, n.ins, n.acceptor.accepted, n.acceptor.value, out);
    KeepInv(cfg, c, d, k, out);
  }

  lemma LearnOwnParts(cfg: Config, c: Cluster, d: Cluster, k: NodeId, n: Node)
    requires k in c.nodes && k in d.nodes && d.nodes == c.nodes[k := d.nodes[k]]
    requires NodeOk(cfg, c, k) && forall i :: RecordOk(cfg, c, k, i)
    requires d.proposals == c.proposals && d.votes == c.votes
    requires n == c.nodes[k].(proposer := n.proposer, learner := n.learner) && n.proposer.pid >= 1
    requires n.learner.value == n.acceptor.value && n.acceptor.accepted != NO_BALLOT && FromFirst(n.learner.job)
    requires Chosen(cfg, c, n.ins, n.acceptor.accepted)
    requires d.nodes[k] == Advance(n)
    ensures Extends(cfg, c, d) && NodeOk(cfg, d, k) && forall i :: RecordOk(cfg, d, k, i)
    ensures Taught(cfg, d, n.ins, n.acceptor.accepted, n.acceptor.value)
  {
    hide RecordOk, ProposerOk, Settled, Chosen, Extends;
    SameLogExtends(cfg, c, d, k);
    OwnRecordSettled(cfg, c, d, k, n);
    LogStays(cfg, c, d, c.nodes[k]);
    AdvanceKeepsNode(cfg, d, k, n);
    SameLogRecords(cfg, c, d, k);
  }

  lemma OwnRecordSettled(cfg: Config, c: Cluster, d: Cluster, k: NodeId, n: Node)
    requires Extends(cfg, c, d) && k in c.nodes && NodeOk(cfg, c, k)
    requires forall i :: RecordOk(cfg, c, k, i)
    requires n == c.nodes[k].(proposer := n.proposer, learner := n.learner)
    requires n.acceptor.accepted != NO_BALLOT && Chosen(cfg, c, n.ins, n.acceptor.accepted)
    ensures n.ins in n.log && n.log[n.ins] == n.acceptor && Settled(cfg, d, n.ins, n.acceptor)
  {
    assert RecordOk(cfg, c, k, n.ins);
    ChosenStays(cfg, c, d, n.ins, n.acceptor.accepted);
  }

  lemma TaughtPackets(cfg: Config, d: Cluster, i: Instance, b: Ballot, value: LogValue, out: Send)
    requires Taught(cfg, d, i, b, value)
    requires out == Quiet || out == All(ChosenBroadcast(i, b, value))
    ensures forall r :: r in Packets(cfg, out) ==> PacketOk(cfg, d, r)
  {
  }

  /** The record written for a learned value is in order, and settles its instance. */
  lemma LearnedRecordOk(cfg: Config, c: Cluster, d: Cluster, k: NodeId, i: Instance, b: Ballot, value: LogValue)
    requires Extends(cfg, c, d) && k in c.nodes && k in d.nodes && RecordOk(cfg, c, k, i)
    requires d.votes == c.votes && b.pid >= 1
    requires Chosen(cfg, d, i, b) && d.proposals[Slot(i, b)].value == value
    requires Read(d.nodes[k].log, i) == Learner.LearnedRecord(Read(c.nodes[k].log, i), b, value)
    ensures RecordOk(cfg, d, k, i)
  {
    forall v: Ballot | Vote(k, i, v) in d.votes
      ensures v.AtMost(b) || ChosenUpTo(cfg, d, i, b)
    {
      assert b.AtMost(b) && Chosen(cfg, d, i, b);
    }
  }

  /** A node's log after it took a value another node teaches. */
  lemma LearnedLog(cfg: Config, c: Cluster, d: Cluster, k: NodeId, b: Ballot, value: LogValue, m: Node)
    requires k in c.nodes && k in d.nodes && d.nodes == c.nodes[k := d.nodes[k]]
    requires d.proposals == c.proposals && d.votes == c.votes
    requires NodeOk(cfg, c, k) && b.pid >= 1
    requires forall i :: RecordOk(cfg, c, k, i)
    requires Chosen(cfg, c, c.nodes[k].ins, b) && c.proposals[Slot(c.nodes[k].ins, b)].value == value
    requires var n := c.nodes[k];
      && m == n.(log := n.log[n.ins := Learner.LearnedRecord(Read(n.log, n.ins), b, value)])
      && d.nodes[k].log == m.log
    ensures Extends(cfg, c, d) && LogOk(cfg, d, m) && ExecutionOk(m)
    ensures Settled(cfg, d, m.ins, m.log[m.ins]) && m.log[m.ins].value == value
    ensures forall i :: RecordOk(cfg, d, k, i)
  {
    var n, i := c.nodes[k], c.nodes[k].ins;
    var e := Learner.LearnedRecord(Read(n.log, i), b, value);
    WriteExtends(cfg, c, d, k, i, e);
    WriteKeepsLog(cfg, c, d, n, m, e);
    WriteKeepsExecution(n, m, e);
    ChosenStays(cfg, c, d, i, b);
    OtherRecordsStay(cfg, c, d, k, i, e);
    LearnedRecordOk(cfg, c, d, k, i, b, value);
  }

  /** The node takes a value another node teaches, and moves on. */
  lemma LearnTaught(cfg: Config, c: Cluster, d: Cluster, k: NodeId, b: Ballot, value: LogValue, m: Node, out: Send)
    requires Inv(cfg, c) && OneNodeSteps(cfg, c, d, k, out)
    requires d.proposals == c.proposals && d.votes == c.votes && NoNewPromises(c, d)
    requires Chosen(cfg, c, c.nodes[k].ins, b) && c.proposals[Slot(c.nodes[k].ins, b)].value == value
    requires var n := c.nodes[k];
      m == n.(log := n.log[n.ins := Learner.LearnedRecord(Read(n.log, n.ins), b, value)])
    requires d.nodes[k] == Advance(m.(learner := Learner.Learn(m.learner, value)))
    requires out == Quiet || (out.To? && out.msg.SyncAck?)
    ensures Inv(cfg, d) && Extends(cfg, c, d)
  {
    hide Inv, Extends, RecordOk, NodeOk, PromisesOnce, ProposalOk, PacketOk, Learner.LearnedRecord;
    var n := c.nodes[k];
    NodeFacts(cfg, c, k);
    OnceFact(cfg, c);
    SlotFact(cfg, c, n.ins, b);
    LearnTaughtParts(cfg, c, d, k, b, value, m);
    IdleCounting(c, d, k);
    KeepPromisesOnce(cfg, c, d, k, out);
    PlainPacketsOk(cfg, d, out);
    KeepInv(cfg, c, d, k, out);
  }

  lemma LearnTaughtParts(cfg: Config, c: Cluster, d: Cluster, k: NodeId, b: Ballot, value: LogValue, m: Node)
    requires k in c.nodes && k in d.nodes && d.nodes == c.nodes[k := d.nodes[k]]
    requires NodeOk(cfg, c, k) && b.pid >= 1
    requires forall i :: RecordOk(cfg, c, k, i)
    requires d.proposals == c.proposals && d.votes == c.votes
    requires Chosen(cfg, c, c.nodes[k].ins, b) && c.proposals[Slot(c.nodes[k].ins, b)].value == value
    requires var n := c.nodes[k];
      m == n.(log := n.log[n.ins := Learner.LearnedRecord(Read(n.log, n.ins), b, value)])
    requires d.nodes[k] == Advance(m.(learner := Learner.Learn(m.learner, value)))
    ensures Extends(cfg, c, d) && NodeOk(cfg, d, k) && forall i :: RecordOk(cfg, d, k, i)
  {
    hide Extends, RecordOk, Settled, Chosen;
    LearnedLog(cfg, c, d, k, b, value, m);
    var r := m.(learner := Learner.Learn(m.learner, value));
    assert LogOk(cfg, d, r);
    AdvanceKeepsNode(cfg, d, k, r);
  }

  lemma SlotFact(cfg: Config, c: Cluster, i: Instance, b: Ballot)
    requires Inv(cfg, c) && Slot(i, b) in c.proposals
    ensures b.pid >= 1
  {
    assert ProposalOk(cfg, c, Slot(i, b));
  }

  // ---------------------------------------------------------------- crash and restart

  /** Restarting from a log and a state machine that executed it below `m.ins`. */
  lemma RestartKeepsNode(cfg: Config, d: Cluster, k: NodeId, m: Node)
    requires k in d.nodes && d.nodes[k] == Restart(m.log, m.sm)
    requires LogOk(cfg, d, m) && m.sm == Fold(ValueAt(m.log), m.ins)
    ensures NodeOk(cfg, d, k)
  {
    var r, last, applied := d.nodes[k], Last(m.log), m.sm.applied;
    ResumesInTime(m.log, m.sm, m.ins);
    RecoveredStore(m.log, m.sm, m.ins);
    assert LogOk(cfg, d, r);
    assert MemoryOk(r);
    assert ExecutionOk(r);
  }

  lemma RestartIsIdle(log: Log, sm: Store)
    ensures Restart(log, sm).proposer.status == Idle && Restart(log, sm).log == log
  {
  }

  /** A restarted node resumes at or before the instance it was in, and no record is beyond it. */
  lemma ResumesInTime(log: Log, sm: Store, ins: Instance)
    requires ins >= 1 && sm == Fold(ValueAt(log), ins)
    requires forall i :: i in log ==> 1 <= i <= ins
    ensures var at := ResumeAt(Last(log), sm.applied);
      1 <= at <= ins && sm.applied < at && forall i :: i in log ==> i <= at
  {
    FoldShape(ValueAt(log), ins);
  }

  /** Re-running the log at restart gives the left-to-right fold of the log below the instance resumed at. */
  lemma RecoveredStore(log: Log, sm: Store, ins: Instance)
    requires ins >= 1 && sm == Fold(ValueAt(log), ins)
    requires forall i :: i in log ==> 1 <= i <= ins
    ensures var last := Last(log);
      Restart(log, sm).sm == sm == Fold(ValueAt(log), ResumeAt(last, sm.applied))
  {
    var last, at := Last(log), ResumeAt(Last(log), sm.applied);
    ResumesInTime(log, sm, ins);
    FoldStableAfterApplied(ValueAt(log), at, ins);
    RecoveryEqualsFold(ValueAt(log), ins, last);
  }

  /** A crash at any time. */
  lemma CrashStep(cfg: Config, c: Cluster, k: NodeId)
    requires Inv(cfg, c) && k in c.nodes
    ensures var d := SetNode(c, k, Restart(c.nodes[k].log, c.nodes[k].sm)); Inv(cfg, d) && Extends(cfg, c, d)
  {
    hide Inv, RecordOk, PromisesOnce, Extends, LogOk, ProposerOk;
    var n := c.nodes[k];
    var d := SetNode(c, k, Restart(n.log, n.sm));
    NodeFacts(cfg, c, k);
    OnceFact(cfg, c);
    SameLogExtends(cfg, c, d, k);
    LogStays(cfg, c, d, n);
    RestartKeepsNode(cfg, d, k, n);
    SameLogRecords(cfg, c, d, k);
    IdleCounting(c, d, k);
    KeepPromisesOnce(cfg, c, d, k, Quiet);
    KeepInv(cfg, c, d, k, Quiet);
  }

  // ---------------------------------------------------------------- messages by receiver

  /** A delivered message whose handler sends `out` and changes neither proposals nor votes. */
  lemma DeliverResult(cfg: Config, c: Cluster, packet: Packet, post: Node, out: Send)
    requires packet.dst in c.nodes && Handle(cfg, packet.dst, c.nodes[packet.dst], packet.msg) == (post, out)
    requires out == Quiet || (!(out.All? && out.msg.Accept?) && !(out.To? && out.msg.Accepted?))
    ensures DeliverTo(cfg, c, packet) ==
      Cluster(c.nodes[packet.dst := post], c.net - multiset{packet} + Packets(cfg, out), c.proposals, c.votes)
  {
  }

  /** A message whose handler touches no more than the bookkeeping of the learner. */
  lemma BookkeepingStep(cfg: Config, c: Cluster, packet: Packet, s: Learner.LearnerState, out: Send)
    requires Inv(cfg, c) && packet in c.net && packet.dst in c.nodes && LearnerOk(s)
    requires Handle(cfg, packet.dst, c.nodes[packet.dst], packet.msg) == (c.nodes[packet.dst].(learner := s), out)
    requires out == Quiet || (!out.msg.Promise? && !out.msg.Accept? && !out.msg.Accepted?)
    requires forall r :: r in Packets(cfg, out) ==> PacketOk(cfg, c, r)
    ensures Inv(cfg, DeliverTo(cfg, c, packet)) && Extends(cfg, c, DeliverTo(cfg, c, packet))
  {
    hide Inv, RecordOk, PromisesOnce, Extends, PacketOk, Handle, LogOk, ExecutionOk, MemoryOk, OneNodeSteps, NoNewPromises, DeliverTo, LearnerOk;
    var k, n := packet.dst, c.nodes[packet.dst];
    NodeFacts(cfg, c, k);
    DeliverResult(cfg, c, packet, n.(learner := s), out);
    OneDelivery(cfg, c, DeliverTo(cfg, c, packet), packet, n.(learner := s), out);
    assert n.(learner := s) == n.(proposer := n.proposer, learner := s);
    QuietPlayerStep(cfg, c, DeliverTo(cfg, c, packet), k, out, n.proposer, s);
  }

  /** A propose or accept broadcast. */
  lemma HandleForAcceptor(cfg: Config, c: Cluster, packet: Packet)
    requires Inv(cfg, c) && packet in c.net && packet.dst in c.nodes
    requires packet.msg.Propose? || packet.msg.Accept?
    ensures Inv(cfg, DeliverTo(cfg, c, packet)) && Extends(cfg, c, DeliverTo(cfg, c, packet))
  {
    hide Inv, Extends, RecordOk, LogOk, ExecutionOk, ProposerOk, DeliverTo;
    var k, n, m := packet.dst, c.nodes[packet.dst], packet.msg;
    NodeFacts(cfg, c, k);
    if m.ins == n.ins && m.Propose? && n.acceptor.promised.Less(m.ballot) {
      GrantPromise(cfg, c, DeliverTo(cfg, c, packet), packet);
    } else if m.ins == n.ins && m.Accept? && Acceptor.Acceptable(cfg.strict, n.acceptor, m.ballot) {
      CastVote(cfg, c, DeliverTo(cfg, c, packet), packet);
    } else {
      var out := AcceptorHandle(cfg, k, n, m).1;
      PlainPacketsOk(cfg, c, out);
      BookkeepingStep(cfg, c, packet, n.learner, out);
    }
  }

  lemma AcceptAckCases(cfg: Config, k: NodeId, i: Instance, p: ProposerState, m: Message)
    requires m.Accepted? || m.AcceptReject?
    ensures var (q, chosen) := OnAcceptAck(cfg, k, i, p, m);
      && (chosen ==> Relevant(p, k, i, Accepting, m) && |q.tally.approvals| >= cfg.majority && q.pid == p.pid)
      && (m.Accepted? && chosen ==> q.tally.approvals == p.tally.approvals + {m.sender})
      && (m.AcceptReject? && chosen ==> q.tally.approvals == p.tally.approvals)
  {
  }

  lemma AcceptAckKeepsProposer(cfg: Config, c: Cluster, k: NodeId, i: Instance, p: ProposerState, packet: Packet)
    requires ProposerOk(cfg, c, k, i, p) && PacketOk(cfg, c, packet)
    requires packet.msg.Accepted? || packet.msg.AcceptReject?
    ensures var q := OnAcceptAck(cfg, k, i, p, packet.msg).0;
      ProposerOk(cfg, c, k, i, q) && CountsNoMore(p, q)
  {
  }

  /** A reply to the accept broadcast, which may complete a majority. */
  lemma HandleAcceptAck(cfg: Config, c: Cluster, packet: Packet)
    requires cfg.Valid() && Inv(cfg, c) && packet in c.net && packet.dst in c.nodes
    requires packet.msg.Accepted? || packet.msg.AcceptReject?
    ensures Inv(cfg, DeliverTo(cfg, c, packet)) && Extends(cfg, c, DeliverTo(cfg, c, packet))
  {
    hide Inv, Extends, RecordOk, LogOk, ExecutionOk, DeliverTo, Handle, PacketOk, ProposalOk, OnAcceptAck;
    var k, n, m := packet.dst, c.nodes[packet.dst], packet.msg;
    NodeFacts(cfg, c, k);
    PacketFact(cfg, c, packet);
    AcceptAckKeepsProposer(cfg, c, k, n.ins, n.proposer, packet);
    AcceptAckCases(cfg, k, n.ins, n.proposer, m);
    var (p, chosen) := OnAcceptAck(cfg, k, n.ins, n.proposer, m);
    if chosen && Learner.LearnsFromSelf(k, n.ins, n.acceptor, ValueChosen(m.ins, m.ballot)) {
      SelfChosen(cfg, c, packet, p);
      SelfLearnResult(cfg, c, packet, p);
    } else {
      AcceptAckResult(cfg, c, packet, p, chosen);
      QuietPlayerStep(cfg, c, DeliverTo(cfg, c, packet), k, Quiet, p, n.learner);
    }
  }

  /** The nested call on a chosen value that this node's acceptor does not hold changes nothing. */
  lemma NothingToLearn(cfg: Config, k: NodeId, n: Node, m: Message)
    requires m.ValueChosen? && !n.learner.learned && !Learner.LearnsFromSelf(k, n.ins, n.acceptor, m)
    ensures Handle(cfg, k, n, m) == (n, Quiet)
  {
  }

  lemma AcceptAckResult(cfg: Config, c: Cluster, packet: Packet, p: ProposerState, chosen: bool)
    requires packet.dst in c.nodes && !c.nodes[packet.dst].learner.learned
    requires packet.msg.Accepted? || packet.msg.AcceptReject?
    requires var n := c.nodes[packet.dst]; OnAcceptAck(cfg, packet.dst, n.ins, n.proposer, packet.msg) == (p, chosen)
    requires var n, m := c.nodes[packet.dst], packet.msg;
      !(chosen && Learner.LearnsFromSelf(packet.dst, n.ins, n.acceptor, ValueChosen(m.ins, m.ballot)))
    ensures var n := c.nodes[packet.dst];
      DeliverTo(cfg, c, packet) == Cluster(c.nodes[packet.dst := n.(proposer := p, learner := n.learner)],
        c.net - multiset{packet}, c.proposals, c.votes)
  {
    var n := c.nodes[packet.dst];
    if chosen {
      NothingToLearn(cfg, packet.dst, n.(proposer := p), ValueChosen(packet.msg.ins, packet.msg.ballot));
    }
    assert Handle(cfg, packet.dst, n, packet.msg) == (n.(proposer := p), Quiet);
    DeliverResult(cfg, c, packet, n.(proposer := p), Quiet);
  }

  /** The ballot whose acceptances complete a majority is chosen. */
  lemma SelfChosen(cfg: Config, c: Cluster, packet: Packet, p: ProposerState)
    requires cfg.Valid() && Inv(cfg, c) && packet in c.net && packet.dst in c.nodes
    requires packet.msg.Accepted? || packet.msg.AcceptReject?
    requires var n := c.nodes[packet.dst]; OnAcceptAck(cfg, packet.dst, n.ins, n.proposer, packet.msg) == (p, true)
    ensures packet.msg.ins == c.nodes[packet.dst].ins
    ensures Chosen(cfg, c, packet.msg.ins, packet.msg.ballot)
  {
    var k, n, m := packet.dst, c.nodes[packet.dst], packet.msg;
    NodeFacts(cfg, c, k);
    PacketFact(cfg, c, packet);
    AcceptAckCases(cfg, k, n.ins, n.proposer, m);
    ApprovalsAreVotes(cfg, c, k, n.ins, n.proposer, packet);
    ApprovalsChoose(cfg, c, n.ins, m.ballot, p.tally.approvals);
  }

  lemma ApprovalsAreVotes(cfg: Config, c: Cluster, k: NodeId, i: Instance, p: ProposerState, packet: Packet)
    requires ProposerOk(cfg, c, k, i, p) && PacketOk(cfg, c, packet)
    requires packet.msg.Accepted? || packet.msg.AcceptReject?
    requires OnAcceptAck(cfg, k, i, p, packet.msg).1
    ensures packet.msg.ins == i
    ensures forall a :: a in OnAcceptAck(cfg, k, i, p, packet.msg).0.tally.approvals ==>
      Vote(a, i, packet.msg.ballot) in c.votes
  {
    AcceptAckCases(cfg, k, i, p, packet.msg);
  }

  lemma SelfLearnResult(cfg: Config, c: Cluster, packet: Packet, p: ProposerState)
    requires Inv(cfg, c) && packet in c.net && packet.dst in c.nodes
    requires packet.msg.Accepted? || packet.msg.AcceptReject?
    requires var n := c.nodes[packet.dst]; OnAcceptAck(cfg, packet.dst, n.ins, n.proposer, packet.msg) == (p, true)
    requires p.pid >= 1 && packet.msg.ins == c.nodes[packet.dst].ins
    requires var n, m := c.nodes[packet.dst], packet.msg;
      Learner.LearnsFromSelf(packet.dst, n.ins, n.acceptor, ValueChosen(m.ins, m.ballot))
    requires Chosen(cfg, c, packet.msg.ins, packet.msg.ballot)
    ensures Inv(cfg, DeliverTo(cfg, c, packet)) && Extends(cfg, c, DeliverTo(cfg, c, packet))
  {
    hide Inv, Extends, RecordOk, LogOk, ExecutionOk, ProposerOk, Advance, Handle, OnAcceptAck;
    var k, n, m := packet.dst, c.nodes[packet.dst], packet.msg;
    NodeFacts(cfg, c, k);
    var learned := n.(proposer := p, learner := Learner.Learn(n.learner, n.acceptor.value));
    var out := All(ChosenBroadcast(n.ins, n.acceptor.accepted, n.acceptor.value));
    SelfLearnDelivered(cfg, c, packet, p, learned, out);
    LearnOwn(cfg, c, DeliverTo(cfg, c, packet), k, learned, out);
  }

  lemma SelfLearnDelivered(cfg: Config, c: Cluster, packet: Packet, p: ProposerState, learned: Node, out: Send)
    requires packet in c.net && packet.dst in c.nodes
    requires packet.msg.Accepted? || packet.msg.AcceptReject?
    requires var n, m := c.nodes[packet.dst], packet.msg;
      && OnAcceptAck(cfg, packet.dst, n.ins, n.proposer, m) == (p, true) && m.ins == n.ins
      && Learner.LearnsFromSelf(packet.dst, n.ins, n.acceptor, ValueChosen(m.ins, m.ballot))
      && learned == n.(proposer := p, learner := Learner.Learn(n.learner, n.acceptor.value))
      && out == All(ChosenBroadcast(n.ins, n.acceptor.accepted, n.acceptor.value))
    ensures DeliverTo(cfg, c, packet) ==
      Cluster(c.nodes[packet.dst := Advance(learned)], c.net - multiset{packet} + Packets(cfg, out), c.proposals, c.votes)
    ensures NoNewPromises(c, DeliverTo(cfg, c, packet))
    ensures OneNodeSteps(cfg, c, DeliverTo(cfg, c, packet), packet.dst, out)
  {
    hide Handle, OnAcceptAck, Advance, OneNodeSteps, NoNewPromises;
    SelfLearnHandle(cfg, packet.dst, c.nodes[packet.dst], packet.msg, p, learned, out);
    DeliverResult(cfg, c, packet, Advance(learned), out);
    OneDelivery(cfg, c, DeliverTo(cfg, c, packet), packet, Advance(learned), out);
  }

  /** The nested call learns and moves on; back in the outer call there is nothing left to learn. */
  lemma SelfLearnHandle(cfg: Config, k: NodeId, n: Node, m: Message, p: ProposerState, learned: Node, out: Send)
    requires m.Accepted? || m.AcceptReject?
    requires OnAcceptAck(cfg, k, n.ins, n.proposer, m) == (p, true) && m.ins == n.ins
    requires Learner.LearnsFromSelf(k, n.ins, n.acceptor, ValueChosen(m.ins, m.ballot))
    requires learned == n.(proposer := p, learner := Learner.Learn(n.learner, n.acceptor.value))
    requires out == All(ChosenBroadcast(n.ins, n.acceptor.accepted, n.acceptor.value))
    ensures Handle(cfg, k, n, m) == (Advance(learned), out)
  {
    assert Handle(cfg, k, n.(proposer := p), ValueChosen(m.ins, m.ballot)) == (Advance(learned), out);
  }

  /** A message that teaches a value. */
  lemma HandleTaught(cfg: Config, c: Cluster, packet: Packet)
    requires Inv(cfg, c) && packet in c.net && packet.dst in c.nodes
    requires packet.msg.ChosenBroadcast? || packet.msg.ValueSend? || packet.msg.ValueSync?
    ensures Inv(cfg, DeliverTo(cfg, c, packet)) && Extends(cfg, c, DeliverTo(cfg, c, packet))
  {
    hide Inv, Extends, RecordOk, LogOk, ExecutionOk, ProposerOk, DeliverTo, PacketOk;
    var k, n, m := packet.dst, c.nodes[packet.dst], packet.msg;
    if m.ins == n.ins && (m.ValueSync? || Learner.TakesPublished(n.ins, n.acceptor, m)) {
      TakesTaught(cfg, c, packet);
    } else {
      var out := if m.ValueSync? then To(m.sender, SyncAck(k, n.ins)) else Quiet;
      NodeFacts(cfg, c, k);
      PlainPacketsOk(cfg, c, out);
      BookkeepingStep(cfg, c, packet, n.learner, out);
    }
  }

  lemma TakesTaught(cfg: Config, c: Cluster, packet: Packet)
    requires Inv(cfg, c) && packet in c.net && packet.dst in c.nodes
    requires packet.msg.ChosenBroadcast? || packet.msg.ValueSend? || packet.msg.ValueSync?
    requires var n, m := c.nodes[packet.dst], packet.msg;
      m.ins == n.ins && (m.ValueSync? || Learner.TakesPublished(n.ins, n.acceptor, m))
    ensures Inv(cfg, DeliverTo(cfg, c, packet)) && Extends(cfg, c, DeliverTo(cfg, c, packet))
  {
    hide Inv, Extends, RecordOk, ProposalOk, LogOk, ExecutionOk, ProposerOk, Handle, Advance, DeliverTo, OneNodeSteps, NoNewPromises, Chosen;
    var k, n, m := packet.dst, c.nodes[packet.dst], packet.msg;
    NodeFacts(cfg, c, k);
    PacketFact(cfg, c, packet);
    var out := if m.ValueSync? then To(m.sender, SyncAck(k, n.ins)) else Quiet;
    var written := n.(log := n.log[n.ins := Learner.LearnedRecord(Read(n.log, n.ins), m.ballot, m.value)]);
    TaughtDelivered(cfg, c, packet, written, out);
    OneDelivery(cfg, c, DeliverTo(cfg, c, packet), packet, Advance(written.(learner := Learner.Learn(n.learner, m.value))), out);
    LearnTaught(cfg, c, DeliverTo(cfg, c, packet), k, m.ballot, m.value, written, out);
  }

  lemma TaughtDelivered(cfg: Config, c: Cluster, packet: Packet, written: Node, out: Send)
    requires packet.dst in c.nodes
    requires packet.msg.ChosenBroadcast? || packet.msg.ValueSend? || packet.msg.ValueSync?
    requires var n, m := c.nodes[packet.dst], packet.msg;
      && m.ins == n.ins && (m.ValueSync? || Learner.TakesPublished(n.ins, n.acceptor, m))
      && written == n.(log := n.log[n.ins := Learner.LearnedRecord(Read(n.log, n.ins), m.ballot, m.value)])
      && out == if m.ValueSync? then To(m.sender, SyncAck(packet.dst, n.ins)) else Quiet
    ensures var n := c.nodes[packet.dst];
      DeliverTo(cfg, c, packet) ==
        Cluster(c.nodes[packet.dst := Advance(written.(learner := Learner.Learn(n.learner, packet.msg.value)))],
                c.net - multiset{packet} + Packets(cfg, out), c.proposals, c.votes)
  {
    var n, m := c.nodes[packet.dst], packet.msg;
    var post := Advance(written.(learner := Learner.Learn(n.learner, m.value)));
    assert Handle(cfg, packet.dst, n, m) == (post, out);
    DeliverResult(cfg, c, packet, post, out);
  }

  /** Stored values below the current instance are chosen ones. */
  lemma StoredValueOk(cfg: Config, c: Cluster, k: NodeId, i: Instance, to: NodeId, sync: bool)
    requires k in c.nodes && LogOk(cfg, c, c.nodes[k]) && 1 <= i < c.nodes[k].ins
    ensures forall r :: r in Packets(cfg, To(to, Learner.StoredValue(k, c.nodes[k].log, i, sync))) ==> PacketOk(cfg, c, r)
  {
    assert Settled(cfg, c, i, c.nodes[k].log[i]);
  }

  /** The messages of catch-up that teach nothing. */
  predicate TeachesNothing(m: Message) {
    m.ShallILearn? || m.TellInstance? || m.ConfirmLearn? || m.SyncAck? || m.NewValueCommitted?
  }

  lemma CatchUpResult(cfg: Config, k: NodeId, n: Node, m: Message)
    requires TeachesNothing(m) && LearnerOk(n.learner) && (m.ConfirmLearn? ==> m.ins >= 1)
    ensures var (post, out) := Handle(cfg, k, n, m);
      && post == n.(learner := post.learner) && LearnerOk(post.learner)
      && (if m.ShallILearn? && m.ins + 1 == n.ins then out == To(m.sender, Learner.StoredValue(k, n.log, m.ins, false))
          else out == Quiet || out.msg.TellInstance? || (out.msg.ConfirmLearn? && out.msg.ins == n.ins))
  {
  }

  lemma HandleCatchUp(cfg: Config, c: Cluster, packet: Packet)
    requires Inv(cfg, c) && packet in c.net && packet.dst in c.nodes && TeachesNothing(packet.msg)
    ensures Inv(cfg, DeliverTo(cfg, c, packet)) && Extends(cfg, c, DeliverTo(cfg, c, packet))
  {
    hide Inv, Extends, RecordOk, ExecutionOk, ProposerOk, DeliverTo, Handle, ProposalOk;
    var k, n, m := packet.dst, c.nodes[packet.dst], packet.msg;
    NodeFacts(cfg, c, k);
    PacketFact(cfg, c, packet);
    CatchUpResult(cfg, k, n, m);
    var (post, out) := Handle(cfg, k, n, m);
    CatchUpPackets(cfg, c, k, m, out);
    BookkeepingStep(cfg, c, packet, post.learner, out);
  }

  lemma CatchUpPackets(cfg: Config, c: Cluster, k: NodeId, m: Message, out: Send)
    requires k in c.nodes && LogOk(cfg, c, c.nodes[k]) && TeachesNothing(m)
    requires if m.ShallILearn? && m.ins + 1 == c.nodes[k].ins
      then out == To(m.sender, Learner.StoredValue(k, c.nodes[k].log, m.ins, false))
      else out == Quiet || out.msg.TellInstance? || (out.msg.ConfirmLearn? && out.msg.ins == c.nodes[k].ins)
    requires m.ShallILearn? ==> m.ins >= 1
    ensures forall r :: r in Packets(cfg, out) ==> PacketOk(cfg, c, r)
  {
    if m.ShallILearn? && m.ins + 1 == c.nodes[k].ins {
      StoredValueOk(cfg, c, k, m.ins, m.sender, false);
    } else {
      PlainPacketsOk(cfg, c, out);
    }
  }

  /** Any delivery keeps the invariant. */
  lemma DeliverStep(cfg: Config, c: Cluster, packet: Packet)
    requires cfg.Valid() && Inv(cfg, c) && packet in c.net && packet.dst in c.nodes
    ensures Inv(cfg, DeliverTo(cfg, c, packet)) && Extends(cfg, c, DeliverTo(cfg, c, packet))
  {
    hide Inv, Extends, DeliverTo, ProposalOk;
    var m := packet.msg;
    PacketFact(cfg, c, packet);
    if m.Propose? || m.Accept? {
      HandleForAcceptor(cfg, c, packet);
    } else if m.Promise? || m.ProposeReject? {
      HandleProposeAck(cfg, c, packet);
    } else if m.Accepted? || m.AcceptReject? {
      HandleAcceptAck(cfg, c, packet);
    } else if m.ChosenBroadcast? || m.ValueSend? || m.ValueSync? {
      HandleTaught(cfg, c, packet);
    } else {
      HandleCatchUp(cfg, c, packet);
    }
  }

  // ---------------------------------------------------------------- local steps, loss and crashes

  /** The follower's timer and the sending loop. */
  lemma LearnerLocalStep(cfg: Config, c: Cluster, a: Action, m: Node, out: Send)
    requires Inv(cfg, c)
    requires a.AskToLearn? || a.JobStart? || a.JobSend? || a.JobRecheck? || a.JobFinish?
    requires a.node in c.nodes && LocalStep(a.node, c.nodes[a.node], a) == (m, out)
    ensures Inv(cfg, Emit(cfg, c, a.node, m, out)) && Extends(cfg, c, Emit(cfg, c, a.node, m, out))
  {
    hide Inv, RecordOk, PromisesOnce, Extends, PacketOk, LocalStep, LogOk;
    var k, n := a.node, c.nodes[a.node];
    NodeFacts(cfg, c, k);
    LearnerLocalEffect(k, n, a);
    LearnerLocalPackets(cfg, c, k, out);
    QuietPlayerStep(cfg, c, Emit(cfg, c, k, m, out), k, out, n.proposer, m.learner);
  }

  lemma LearnerLocalPackets(cfg: Config, c: Cluster, k: NodeId, out: Send)
    requires k in c.nodes && LogOk(cfg, c, c.nodes[k])
    requires var n := c.nodes[k]; var j := n.learner.job;
      || out == Quiet || out == All(ShallILearn(k, n.ins))
      || (out == To(j.receiver, Learner.StoredValue(k, n.log, j.next, true)) && 1 <= j.next < n.ins)
    ensures forall r :: r in Packets(cfg, out) ==> PacketOk(cfg, c, r)
  {
    var j := c.nodes[k].learner.job;
    if out == Quiet || out.msg.ShallILearn? {
      PlainPacketsOk(cfg, c, out);
    } else {
      StoredValueOk(cfg, c, k, j.next, j.receiver, true);
    }
  }

  lemma LearnerLocalEffect(k: NodeId, n: Node, a: Action)
    requires a.AskToLearn? || a.JobStart? || a.JobSend? || a.JobRecheck? || a.JobFinish?
    requires LearnerOk(n.learner)
    ensures var (m, out) := LocalStep(k, n, a); var j := n.learner.job;
      && m == n.(proposer := n.proposer, learner := m.learner) && LearnerOk(m.learner)
      && (out == Quiet || out == All(ShallILearn(k, n.ins))
          || (out == To(j.receiver, Learner.StoredValue(k, n.log, j.next, true)) && 1 <= j.next < n.ins))
  {
  }

  /** Losing messages is harmless. */
  lemma LossStep(cfg: Config, c: Cluster, d: Cluster)
    requires Inv(cfg, c) && d == c.(net := d.net) && d.net <= c.net
    ensures Inv(cfg, d) && Extends(cfg, c, d)
  {
    hide Extends, NodeOk, RecordOk, ProposalOk, PacketOk, PromisesOnce;
    SameHistory(cfg, c, d);
    forall k | k in d.nodes ensures NodeOk(cfg, d, k) {
      assert NodeOk(cfg, c, k);
      NodeStays(cfg, c, d, k);
    }
    forall a, i | a in d.nodes ensures RecordOk(cfg, d, a, i) {
      assert RecordOk(cfg, c, a, i);
      RecordStays(cfg, c, d, a, i);
    }
    forall s | s in d.proposals ensures ProposalOk(cfg, d, s) {
      assert ProposalOk(cfg, c, s);
      ProposalStays(cfg, c, d, s);
    }
    forall p | p in d.net ensures PacketOk(cfg, d, p) {
      assert PacketOk(cfg, c, p);
      PacketStays(cfg, c, d, p);
    }
    forall v | v in d.votes ensures VoteOk(d, v) {
      assert VoteOk(c, v);
    }
    LossKeepsOnce(c, d);
  }

  lemma SameHistory(cfg: Config, c: Cluster, d: Cluster)
    requires d == c.(net := d.net)
    ensures Extends(cfg, c, d)
  {
  }

  lemma LossKeepsOnce(c: Cluster, d: Cluster)
    requires PromisesOnce(c) && d == c.(net := d.net) && d.net <= c.net
    ensures PromisesOnce(d)
  {
    assert forall i, b :: Counting(d, i, b) == Counting(c, i, b);
  }

  /** A crash after the record of a learned value was written and before it was executed. */
  lemma DieLearningStep(cfg: Config, c: Cluster, d: Cluster, packet: Packet)
    requires Inv(cfg, c) && packet in c.net && packet.dst in c.nodes
    requires var n := c.nodes[packet.dst];
      d == SetNode(c.(net := c.net - multiset{packet}), packet.dst, Restart(LogAfterLearning(n, packet.msg), n.sm))
    ensures Inv(cfg, d) && Extends(cfg, c, d)
  {
    hide Inv, Extends, Restart, LogAfterLearning;
    var k, n, m := packet.dst, c.nodes[packet.dst], packet.msg;
    if LogAfterLearning(n, m) == n.log {
      DieUnwritten(cfg, c, packet);
    } else {
      WrittenLog(n, m);
      DieWritten(cfg, c, d, packet, Learner.LearnedRecord(Read(n.log, n.ins), m.ballot, m.value));
    }
  }

  lemma DieUnwritten(cfg: Config, c: Cluster, packet: Packet)
    requires Inv(cfg, c) && packet in c.net && packet.dst in c.nodes
    ensures var n := c.nodes[packet.dst];
      var d := SetNode(c.(net := c.net - multiset{packet}), packet.dst, Restart(n.log, n.sm));
      Inv(cfg, d) && Extends(cfg, c, d)
  {
    hide Inv, Extends, Restart;
    var lost := c.(net := c.net - multiset{packet});
    LossStep(cfg, c, lost);
    CrashStep(cfg, lost, packet.dst);
    ExtendsTransitive(cfg, c, lost, SetNode(lost, packet.dst, Restart(c.nodes[packet.dst].log, c.nodes[packet.dst].sm)));
  }

  lemma WrittenLog(n: Node, m: Message)
    requires LogAfterLearning(n, m) != n.log
    ensures (m.ChosenBroadcast? || m.ValueSend? || m.ValueSync?) && m.ins == n.ins
    ensures LogAfterLearning(n, m) == n.log[n.ins := Learner.LearnedRecord(Read(n.log, n.ins), m.ballot, m.value)]
  {
  }

  lemma DieWritten(cfg: Config, c: Cluster, d: Cluster, packet: Packet, e: LogEntry)
    requires Inv(cfg, c) && packet in c.net && packet.dst in c.nodes
    requires var m := packet.msg; (m.ChosenBroadcast? || m.ValueSend? || m.ValueSync?) && m.ins == c.nodes[packet.dst].ins
    requires var n := c.nodes[packet.dst];
      && e == Learner.LearnedRecord(Read(n.log, n.ins), packet.msg.ballot, packet.msg.value)
      && d == SetNode(c.(net := c.net - multiset{packet}), packet.dst, Restart(n.log[n.ins := e], n.sm))
    ensures Inv(cfg, d) && Extends(cfg, c, d)
  {
    hide Inv, NodeOk, RecordOk, ProposalOk, PromisesOnce, Extends, Restart;
    var k, m := packet.dst, packet.msg;
    NodeFacts(cfg, c, k);
    PacketFact(cfg, c, packet);
    OnceFact(cfg, c);
    SlotFact(cfg, c, m.ins, m.ballot);
    DieParts(cfg, c, d, k, m.ballot, m.value);
    RestartIsIdle(c.nodes[k].log[c.nodes[k].ins := e], c.nodes[k].sm);
    CrashKeepsOnce(cfg, c, d, k);
    KeepInv(cfg, c, d, k, Quiet);
  }

  lemma CrashKeepsOnce(cfg: Config, c: Cluster, d: Cluster, k: NodeId)
    requires PromisesOnce(c) && k in c.nodes && k in d.nodes && d.nodes == c.nodes[k := d.nodes[k]]
    requires d.nodes[k].proposer.status == Idle && d.proposals == c.proposals && d.net <= c.net
    ensures PromisesOnce(d)
  {
    IdleCounting(c, d, k);
    KeepPromisesOnce(cfg, c, d, k, Quiet);
  }

  lemma DieParts(cfg: Config, c: Cluster, d: Cluster, k: NodeId, b: Ballot, value: LogValue)
    requires k in c.nodes && k in d.nodes && d.nodes == c.nodes[k := d.nodes[k]]
    requires NodeOk(cfg, c, k) && b.pid >= 1
    requires forall i :: RecordOk(cfg, c, k, i)
    requires d.proposals == c.proposals && d.votes == c.votes
    requires Chosen(cfg, c, c.nodes[k].ins, b) && c.proposals[Slot(c.nodes[k].ins, b)].value == value
    requires var n := c.nodes[k];
      d.nodes[k] == Restart(n.log[n.ins := Learner.LearnedRecord(Read(n.log, n.ins), b, value)], n.sm)
    ensures Extends(cfg, c, d) && NodeOk(cfg, d, k) && forall i :: RecordOk(cfg, d, k, i)
  {
    var n := c.nodes[k];
    var m := n.(log := n.log[n.ins := Learner.LearnedRecord(Read(n.log, n.ins), b, value)]);
    assert d.nodes[k].log == m.log;
    LearnedLog(cfg, c, d, k, b, value, m);
    RestartKeepsNode(cfg, d, k, m);
  }

  lemma DeliverKeepsInv(cfg: Config, c: Cluster, p: Packet)
    requires cfg.Valid() && Inv(cfg, c)
    ensures Inv(cfg, Next(cfg, c, Deliver(p))) && Extends(cfg, c, Next(cfg, c, Deliver(p)))
  {
    hide Inv, Extends, DeliverTo;
    if p in c.net && p.dst in c.nodes {
      DeliverStep(cfg, c, p);
    } else {
      ExtendsItself(cfg, c);
    }
  }

  lemma CrashKeepsInv(cfg: Config, c: Cluster, k: NodeId)
    requires cfg.Valid() && Inv(cfg, c)
    ensures Inv(cfg, Next(cfg, c, Crash(k))) && Extends(cfg, c, Next(cfg, c, Crash(k)))
  {
    hide Inv, Extends, Restart;
    if k in c.nodes {
      CrashStep(cfg, c, k);
    } else {
      ExtendsItself(cfg, c);
    }
  }

  lemma DieLearningKeepsInv(cfg: Config, c: Cluster, p: Packet)
    requires cfg.Valid() && Inv(cfg, c)
    ensures Inv(cfg, Next(cfg, c, DieLearning(p))) && Extends(cfg, c, Next(cfg, c, DieLearning(p)))
  {
    hide Inv, Extends, Restart;
    if p in c.net && p.dst in c.nodes {
      DieLearningStep(cfg, c, Next(cfg, c, DieLearning(p)), p);
    } else {
      ExtendsItself(cfg, c);
    }
  }

  /** Every action of the cluster keeps the invariant. */
  lemma NextKeepsInv(cfg: Config, c: Cluster, a: Action)
    requires cfg.Valid() && Inv(cfg, c)
    ensures Inv(cfg, Next(cfg, c, a)) && Extends(cfg, c, Next(cfg, c, a))
  {
    hide Inv, Extends, DeliverTo, LocalStep, Emit, SetNode, Restart;
    match a {
      case Deliver(p) => DeliverKeepsInv(cfg, c, p);
      case Drop(_) => LossStep(cfg, c, Next(cfg, c, a));
      case Crash(k) => CrashKeepsInv(cfg, c, k);
      case DieLearning(p) => DieLearningKeepsInv(cfg, c, p);
      case _ => LocalKeepsInv(cfg, c, a);
    }
  }

  predicate IsLocal(a: Action) {
    !a.Deliver? && !a.Drop? && !a.Crash? && !a.DieLearning?
  }

  lemma LocalKeepsInv(cfg: Config, c: Cluster, a: Action)
    requires Inv(cfg, c) && IsLocal(a)
    ensures Inv(cfg, Next(cfg, c, a)) && Extends(cfg, c, Next(cfg, c, a))
  {
    hide Inv, Extends, LocalStep, Emit;
    ExtendsItself(cfg, c);
    if a.node in c.nodes {
      var (n, out) := LocalStep(a.node, c.nodes[a.node], a);
      if a.NewValue? || a.ProposeTimeout? || a.AcceptTimeout? || a.NewValueTimeout? {
        ProposerLocalStep(cfg, c, a, n, out);
      } else {
        LearnerLocalStep(cfg, c, a, n, out);
      }
    }
  }

  lemma BootNode()
    ensures var n := Restart(map[], EMPTY_STORE);
      n == Node(1, NO_ENTRY, Proposer.Fresh(1), Learner.FRESH, map[], EMPTY_STORE, 1, [])
  {
  }

  lemma BootInv(cfg: Config)
    requires cfg.Valid()
    ensures Inv(cfg, Boot(cfg))
  {
    hide Restart;
    var c := Boot(cfg);
    BootNode();
    forall k | k in c.nodes ensures NodeOk(cfg, c, k) {
    }
  }

  /** The invariant holds in every reachable cluster. */
  lemma {:induction false} RunInv(cfg: Config, states: seq<Cluster>, actions: seq<Action>, n: nat)
    requires cfg.Valid() && IsRun(cfg, states, actions) && n <= |actions|
    ensures Inv(cfg, states[n])
  {
    hide Next, Inv, Boot;
    if n == 0 {
      BootInv(cfg);
    } else {
      RunInv(cfg, states, actions, n - 1);
      NextKeepsInv(cfg, states[n - 1], actions[n - 1]);
    }
  }
}
