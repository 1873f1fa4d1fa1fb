/** The main theorems about every run of the cluster. */
module Agreement {
  import opened Basics
  import opened Messages
  import opened KvStateMachine
  import opened Proposer
  import opened Node
  import opened Cluster
  import opened Invariant
  import opened Preservation
  import Learner

  // ---------------------------------------------------------------- one value per instance

  /** A chosen proposal binds every proposal with a higher ballot, whatever rounds its value was adopted in. */
  lemma {:induction false} ChosenBinds(cfg: Config, c: Cluster, i: Instance, low: Ballot, high: Ballot)
    requires cfg.Valid() && Inv(cfg, c)
    requires Chosen(cfg, c, i, low) && Slot(i, high) in c.proposals && low.Less(high)
    ensures c.proposals[Slot(i, high)].value == c.proposals[Slot(i, low)].value
    decreases high.pid, high.node
  {
    var basis := c.proposals[Slot(i, high)].basis;
    var b := BasisCovers(cfg, c, i, low, high);
    if b != low {
      ChosenBinds(cfg, c, i, b, low);
    }
    if b != basis {
      ChosenBinds(cfg, c, i, b, basis);
    }
  }

  /** At or below the ballot the value of `high` was adopted from, `low` or something below it is chosen. */
  lemma BasisCovers(cfg: Config, c: Cluster, i: Instance, low: Ballot, high: Ballot) returns (b: Ballot)
    requires cfg.Valid() && Inv(cfg, c)
    requires Chosen(cfg, c, i, low) && Slot(i, high) in c.proposals && low.Less(high)
    ensures var p := c.proposals[Slot(i, high)];
      && Chosen(cfg, c, i, b) && b.AtMost(p.basis) && b.AtMost(low)
      && p.basis.Less(high) && ProposedAs(c, i, p.basis, p.value)
  {
    var a := SharedMember(cfg, c, i, low, high);
    VoteBelow(cfg, c, a, i, low, high);
    b := AtOrBelow(cfg, c, i, low, c.proposals[Slot(i, high)].basis);
  }

  lemma AtOrBelow(cfg: Config, c: Cluster, i: Instance, low: Ballot, basis: Ballot) returns (b: Ballot)
    requires Chosen(cfg, c, i, low) && (low.AtMost(basis) || ChosenUpTo(cfg, c, i, basis))
    ensures Chosen(cfg, c, i, b) && b.AtMost(basis) && b.AtMost(low)
  {
    if low.AtMost(basis) {
      b := low;
    } else {
      b :| b.AtMost(basis) && Chosen(cfg, c, i, b);
    }
  }

  /** The promises behind a proposal and the votes for a chosen one have a node in common. */
  lemma SharedMember(cfg: Config, c: Cluster, i: Instance, low: Ballot, high: Ballot) returns (a: NodeId)
    requires cfg.Valid() && Inv(cfg, c)
    requires Chosen(cfg, c, i, low) && Slot(i, high) in c.proposals
    ensures a in c.proposals[Slot(i, high)].quorum && Vote(a, i, low) in c.votes
  {
    assert ProposalOk(cfg, c, Slot(i, high));
    var quorum, voters := c.proposals[Slot(i, high)].quorum, Voters(c, i, low);
    if quorum * voters == {} {
      DisjointSubsetsFit(quorum, voters, cfg.members);
    }
    a :| a in quorum * voters;
  }

  /** That node's vote is covered by the ballot the proposal's value was adopted from. */
  lemma VoteBelow(cfg: Config, c: Cluster, a: NodeId, i: Instance, low: Ballot, high: Ballot)
    requires Inv(cfg, c) && Slot(i, high) in c.proposals && low.Less(high)
    requires a in c.proposals[Slot(i, high)].quorum && Vote(a, i, low) in c.votes
    ensures var p := c.proposals[Slot(i, high)];
      && p.basis.Less(high)
      && (low.AtMost(p.basis) || ChosenUpTo(cfg, c, i, p.basis))
      && (p.basis == NO_BALLOT || ProposedAs(c, i, p.basis, p.value))
      && (forall b: Ballot :: b.AtMost(NO_BALLOT) ==> Slot(i, b) !in c.proposals)
      && Slot(i, low) in c.proposals
  {
    assert ProposalOk(cfg, c, Slot(i, high));
    assert Pledged(cfg, c, a, i, high, c.proposals[Slot(i, high)].basis);
    assert VoteOk(c, Vote(a, i, low));
    forall b: Ballot | b.AtMost(NO_BALLOT) ensures Slot(i, b) !in c.proposals {
      assert Slot(i, b) in c.proposals ==> ProposalOk(cfg, c, Slot(i, b));
    }
  }

  lemma ChosenOnce(cfg: Config, c: Cluster, i: Instance, b: Ballot, d: Ballot)
    requires cfg.Valid() && Inv(cfg, c) && Chosen(cfg, c, i, b) && Chosen(cfg, c, i, d)
    ensures c.proposals[Slot(i, b)].value == c.proposals[Slot(i, d)].value
  {
    if b.Less(d) {
      ChosenBinds(cfg, c, i, b, d);
    } else if b != d {
      ChosenBinds(cfg, c, i, d, b);
    }
  }

  /** What the continuation of a run keeps of its history. */
  ghost predicate Continues(c: Cluster, d: Cluster) {
    && c.nodes.Keys == d.nodes.Keys
    && (forall s :: s in c.proposals ==> s in d.proposals && d.proposals[s] == c.proposals[s])
    && c.votes <= d.votes
    && (forall a, i :: PromisedAt(c, a, i).AtMost(PromisedAt(d, a, i)))
  }

  lemma StepContinues(cfg: Config, c: Cluster, d: Cluster, a: Action, e: Cluster)
    requires cfg.Valid() && Inv(cfg, d) && Continues(c, d) && e == Next(cfg, d, a)
    ensures Continues(c, e)
  {
    hide Inv, Next, Extends;
    NextKeepsInv(cfg, d, a);
    ContinuesTransitive(cfg, c, d, e);
  }

  lemma ContinuesTransitive(cfg: Config, c: Cluster, d: Cluster, e: Cluster)
    requires Continues(c, d) && Extends(cfg, d, e)
    ensures Continues(c, e)
  {
    forall a, i ensures PromisedAt(c, a, i).AtMost(PromisedAt(e, a, i)) {
      assert PromisedAt(c, a, i).AtMost(PromisedAt(d, a, i)) && PromisedAt(d, a, i).AtMost(PromisedAt(e, a, i));
    }
  }

  /** Continuing a run only extends its history. */
  lemma {:induction false} RunExtends(cfg: Config, states: seq<Cluster>, actions: seq<Action>, m: nat, n: nat)
    requires cfg.Valid() && IsRun(cfg, states, actions) && m <= n <= |actions|
    ensures Continues(states[m], states[n])
  {
    hide Next, Inv, Boot;
    if m == n {
    } else {
      RunExtends(cfg, states, actions, m, n - 1);
      RunInv(cfg, states, actions, n - 1);
      StepContinues(cfg, states[m], states[n - 1], actions[n - 1], states[n]);
    }
  }

  /**
    AGREEMENT. Whatever was ever accepted by a majority in an instance has one value: with loss, reordering,
    competing proposers, timeouts, crashes and restarts, for any number of nodes with intersecting majorities,
    and for either test of `HandleAccept`.
    */
  lemma AgreementForever(cfg: Config, states: seq<Cluster>, actions: seq<Action>, m: nat, n: nat,
                         i: Instance, b: Ballot, d: Ballot)
    requires cfg.Valid() && IsRun(cfg, states, actions) && m <= n <= |actions|
    requires Chosen(cfg, states[m], i, b) && Chosen(cfg, states[n], i, d)
    ensures states[m].proposals[Slot(i, b)].value == states[n].proposals[Slot(i, d)].value
  {
    hide Inv, Next, Boot;
    RunExtends(cfg, states, actions, m, n);
    RunInv(cfg, states, actions, n);
    SubsetSize(Voters(states[m], i, b), Voters(states[n], i, b));
    ChosenOnce(cfg, states[n], i, b, d);
  }

  /**
    BALLOT RE-USE. Accept broadcasts seen at any two times of a run for the same instance and ballot carry the
    same value, although a proposer keeps its ballot over rounds and may even come back to it after a restart.
    */
  lemma OneValuePerBallot(cfg: Config, states: seq<Cluster>, actions: seq<Action>, m: nat, n: nat, p: Packet, q: Packet)
    requires cfg.Valid() && IsRun(cfg, states, actions) && m <= n <= |actions|
    requires p in states[m].net && q in states[n].net
    requires p.msg.Accept? && q.msg.Accept? && p.msg.ins == q.msg.ins && p.msg.ballot == q.msg.ballot
    ensures p.msg.value == q.msg.value
  {
    hide Next, Boot, NodeOk, RecordOk, ProposalOk, VoteOk, PromisesOnce;
    RunExtends(cfg, states, actions, m, n);
    RunInv(cfg, states, actions, m);
    RunInv(cfg, states, actions, n);
    assert PacketOk(cfg, states[m], p);
    assert PacketOk(cfg, states[n], q);
  }

  // ---------------------------------------------------------------- one log, one state machine

  /** LOG AGREEMENT. Below its instance every node stores a chosen value, however it learned it. */
  lemma LogHoldsChosen(cfg: Config, states: seq<Cluster>, actions: seq<Action>, n: nat, k: NodeId, i: Instance)
    requires cfg.Valid() && IsRun(cfg, states, actions) && n <= |actions|
    requires k in states[n].nodes && 1 <= i < states[n].nodes[k].ins
    ensures var c := states[n]; var log := c.nodes[k].log;
      && i in log && Chosen(cfg, c, i, log[i].accepted)
      && c.proposals[Slot(i, log[i].accepted)].value == log[i].value != Empty
  {
    hide Next, Boot, Pledged;
    RunInv(cfg, states, actions, n);
    var c := states[n];
    NodeFacts(cfg, c, k);
    assert Settled(cfg, c, i, c.nodes[k].log[i]);
    assert ProposalOk(cfg, c, Slot(i, c.nodes[k].log[i].accepted));
  }

  /** Any two nodes, at any two times of a run, agree on the instances both have left. */
  lemma LogsAgree(cfg: Config, states: seq<Cluster>, actions: seq<Action>, m: nat, n: nat, k: NodeId, l: NodeId, i: Instance)
    requires cfg.Valid() && IsRun(cfg, states, actions) && m <= n <= |actions|
    requires k in states[m].nodes && l in states[n].nodes
    requires 1 <= i < states[m].nodes[k].ins && i < states[n].nodes[l].ins
    ensures i in states[m].nodes[k].log && i in states[n].nodes[l].log
    ensures states[m].nodes[k].log[i].value == states[n].nodes[l].log[i].value
  {
    LogHoldsChosen(cfg, states, actions, m, k, i);
    LogHoldsChosen(cfg, states, actions, n, l, i);
    AgreementForever(cfg, states, actions, m, n, i, states[m].nodes[k].log[i].accepted, states[n].nodes[l].log[i].accepted);
  }

  /**
    REPLICATION. The store of a node is the left-to-right execution of the log below its instance, be it built by
    learning, by catching up, or by recovery; so any two nodes at the same instance have the same store.
    */
  lemma StoresAgree(cfg: Config, states: seq<Cluster>, actions: seq<Action>, m: nat, n: nat, k: NodeId, l: NodeId)
    requires cfg.Valid() && IsRun(cfg, states, actions) && m <= n <= |actions|
    requires k in states[m].nodes && l in states[n].nodes
    requires states[m].nodes[k].ins <= states[n].nodes[l].ins
    ensures var a, b := states[m].nodes[k], states[n].nodes[l];
      && a.sm == Fold(ValueAt(a.log), a.ins)
      && (a.ins == b.ins ==> a.sm == b.sm)
  {
    StoreIsFold(cfg, states, actions, m, k);
    StoreIsFold(cfg, states, actions, n, l);
    PrefixesAgree(cfg, states, actions, m, n, k, l);
  }

  lemma StoreIsFold(cfg: Config, states: seq<Cluster>, actions: seq<Action>, n: nat, k: NodeId)
    requires cfg.Valid() && IsRun(cfg, states, actions) && n <= |actions| && k in states[n].nodes
    ensures var a := states[n].nodes[k]; a.ins >= 1 && a.sm == Fold(ValueAt(a.log), a.ins)
  {
    hide Inv, Next, Boot, Fold;
    RunInv(cfg, states, actions, n);
    NodeFacts(cfg, states[n], k);
  }

  /**
    WHAT CLIENTS READ. In every run, a node holds under each key the data of the last chosen put of it that named the
    version before, and nothing if there is none.
    */
  lemma StoreHoldsChosenPuts(cfg: Config, states: seq<Cluster>, actions: seq<Action>, n: nat, k: NodeId, key: Key)
    requires cfg.Valid() && IsRun(cfg, states, actions) && n <= |actions| && k in states[n].nodes
    ensures var c, a := states[n], states[n].nodes[k];
      var i := LastPut(ValueAt(a.log), key, a.ins);
      && (key in a.sm.data <==> i != 0)
      && (i != 0 ==>
            && i in a.log && Chosen(cfg, c, i, a.log[i].accepted)
            && c.proposals[Slot(i, a.log[i].accepted)].value == a.log[i].value && IsPut(a.log[i].value, key)
            && var put := a.log[i].value.command;
               a.sm.data[key] == Versioned(put.data, (put.version + 1) % VERSION_LIMIT))
  {
    hide Next, Boot, Chosen, Fold;
    var a := states[n].nodes[k];
    StoreIsFold(cfg, states, actions, n, k);
    StoreHoldsLastPuts(ValueAt(a.log), key, a.ins);
    var i := LastPut(ValueAt(a.log), key, a.ins);
    if i != 0 {
      LogHoldsChosen(cfg, states, actions, n, k, i);
    }
  }

  lemma PrefixesAgree(cfg: Config, states: seq<Cluster>, actions: seq<Action>, m: nat, n: nat, k: NodeId, l: NodeId)
    requires cfg.Valid() && IsRun(cfg, states, actions) && m <= n <= |actions|
    requires k in states[m].nodes && l in states[n].nodes
    requires states[m].nodes[k].ins <= states[n].nodes[l].ins
    ensures var a, b := states[m].nodes[k], states[n].nodes[l];
      Fold(ValueAt(a.log), a.ins) == Fold(ValueAt(b.log), a.ins)
  {
    var a, b := states[m].nodes[k], states[n].nodes[l];
    forall i | 1 <= i < a.ins ensures ValueAt(a.log)(i) == ValueAt(b.log)(i) {
      LogsAgree(cfg, states, actions, m, n, k, l, i);
    }
    RunExtensional(EMPTY_STORE, ValueAt(a.log), ValueAt(b.log), 1, a.ins);
  }

  /** Nothing but chosen values is ever taught to another node. */
  lemma SyncSendsChosen(cfg: Config, states: seq<Cluster>, actions: seq<Action>, n: nat, p: Packet)
    requires cfg.Valid() && IsRun(cfg, states, actions) && n <= |actions| && p in states[n].net
    requires p.msg.ChosenBroadcast? || p.msg.ValueSend? || p.msg.ValueSync?
    ensures Chosen(cfg, states[n], p.msg.ins, p.msg.ballot)
    ensures states[n].proposals[Slot(p.msg.ins, p.msg.ballot)].value == p.msg.value
  {
    hide Next, Boot, NodeOk, RecordOk, ProposalOk, VoteOk, PromisesOnce, Chosen;
    RunInv(cfg, states, actions, n);
    assert PacketOk(cfg, states[n], p);
  }

  // ---------------------------------------------------------------- execution

  /** Whether an action restarts node `k`. */
  predicate Restarts(k: NodeId, a: Action) {
    (a.Crash? && a.node == k) || (a.DieLearning? && a.packet.dst == k)
  }

  lemma AcceptorKeepsBoot(cfg: Config, me: NodeId, n: Node, m: Message)
    requires m.Propose? || m.Accept?
    ensures AcceptorHandle(cfg, me, n, m).0.boot == n.boot
  {
  }

  lemma LearnerKeepsBoot(me: NodeId, n: Node, m: Message)
    requires m.ValueChosen? || m.ChosenBroadcast? || m.ShallILearn? || m.ValueSend? || m.TellInstance?
          || m.ConfirmLearn? || m.ValueSync? || m.SyncAck?
    ensures LearnerHandle(me, n, m).0.boot == n.boot
  {
  }

  lemma SettleKeepsBoot(n: Node)
    ensures Settle(n).boot == n.boot
  {
  }

  lemma ChosenKeepsBoot(cfg: Config, me: NodeId, n: Node, m: Message)
    requires m.ValueChosen?
    ensures Handle(cfg, me, n, m).0.boot == n.boot
  {
    hide LearnerHandle, Settle;
    LearnerKeepsBoot(me, n, m);
    SettleKeepsBoot(LearnerHandle(me, n, m).0);
  }

  lemma ProposerKeepsBoot(cfg: Config, me: NodeId, n: Node, m: Message)
    requires m.Promise? || m.ProposeReject? || m.Accepted? || m.AcceptReject?
    ensures ProposerHandle(cfg, me, n, m).0.boot == n.boot
  {
    hide Handle, OnProposeAck, OnAcceptAck;
    if m.Accepted? || m.AcceptReject? {
      ChosenKeepsBoot(cfg, me, n.(proposer := OnAcceptAck(cfg, me, n.ins, n.proposer, m).0), ValueChosen(m.ins, m.ballot));
    }
  }

  lemma HandleKeepsBoot(cfg: Config, me: NodeId, n: Node, m: Message)
    ensures Handle(cfg, me, n, m).0.boot == n.boot
  {
    hide AcceptorHandle, ProposerHandle, LearnerHandle, Settle;
    if m.Propose? || m.Accept? {
      AcceptorKeepsBoot(cfg, me, n, m);
      SettleKeepsBoot(AcceptorHandle(cfg, me, n, m).0);
    } else if m.Promise? || m.ProposeReject? || m.Accepted? || m.AcceptReject? {
      ProposerKeepsBoot(cfg, me, n, m);
      SettleKeepsBoot(ProposerHandle(cfg, me, n, m).0);
    } else if !m.NewValueCommitted? {
      LearnerKeepsBoot(me, n, m);
      SettleKeepsBoot(LearnerHandle(me, n, m).0);
    }
  }

  lemma LocalStepKeepsBoot(me: NodeId, n: Node, a: Action)
    ensures LocalStep(me, n, a).0.boot == n.boot
  {
  }

  lemma NextKeepsBoot(cfg: Config, c: Cluster, a: Action, k: NodeId)
    requires k in c.nodes && !Restarts(k, a)
    ensures k in Next(cfg, c, a).nodes && Next(cfg, c, a).nodes[k].boot == c.nodes[k].boot
  {
    hide Handle, LocalStep, Restart;
    match a {
      case Deliver(p) => if p in c.net && p.dst in c.nodes { HandleKeepsBoot(cfg, p.dst, c.nodes[p.dst], p.msg); }
      case Drop(_) =>
      case Crash(_) =>
      case DieLearning(_) =>
      case _ => if a.node in c.nodes { LocalStepKeepsBoot(a.node, c.nodes[a.node], a); }
    }
  }

  lemma {:induction false} BootIsFirst(cfg: Config, states: seq<Cluster>, actions: seq<Action>, n: nat, k: NodeId)
    requires IsRun(cfg, states, actions) && n <= |actions| && k in cfg.members
    requires forall m :: 0 <= m < n ==> !Restarts(k, actions[m])
    ensures k in states[n].nodes && states[n].nodes[k].boot == 1
  {
    hide Next;
    if n == 0 {
      BootNode();
    } else {
      BootIsFirst(cfg, states, actions, n - 1, k);
      NextKeepsBoot(cfg, states[n - 1], actions[n - 1], k);
    }
  }

  /**
    EXACTLY ONCE. A node that was not restarted has executed instances 1, 2, 3, ... below its own, each once and in
    order, with the chosen value, although a chosen value re-enters the controller through the proposer.
    */
  lemma ExecutedExactlyOnce(cfg: Config, states: seq<Cluster>, actions: seq<Action>, n: nat, k: NodeId)
    requires cfg.Valid() && IsRun(cfg, states, actions) && n <= |actions| && k in cfg.members
    requires forall m :: 0 <= m < n ==> !Restarts(k, actions[m])
    ensures k in states[n].nodes && ExecutedChosen(cfg, states[n], states[n].nodes[k])
  {
    hide Inv, Next, Boot, ExecutedChosen;
    BootIsFirst(cfg, states, actions, n, k);
    RunInv(cfg, states, actions, n);
    NodeFacts(cfg, states[n], k);
    ExecutedFromOne(cfg, states[n], states[n].nodes[k]);
  }

  /** The state machine was given the chosen values of instances 1, 2, 3, ... below the current one. */
  ghost predicate ExecutedChosen(cfg: Config, c: Cluster, n: Node) {
    && |n.executed| == n.ins - 1
    && forall j :: 0 <= j < |n.executed| ==> GivenChosen(cfg, c, j + 1, n.executed[j])
  }

  ghost predicate GivenChosen(cfg: Config, c: Cluster, i: Instance, e: Execution) {
    e.ins == i && exists b :: Chosen(cfg, c, i, b) && c.proposals[Slot(i, b)].value == e.value
  }

  lemma ExecutedFromOne(cfg: Config, c: Cluster, n: Node)
    requires LogOk(cfg, c, n) && ExecutionOk(n) && n.boot == 1
    ensures ExecutedChosen(cfg, c, n)
  {
    forall j | 0 <= j < |n.executed| ensures GivenChosen(cfg, c, j + 1, n.executed[j]) {
      assert Settled(cfg, c, j + 1, n.log[j + 1]);
      assert Chosen(cfg, c, j + 1, n.log[j + 1].accepted);
    }
  }

  // ---------------------------------------------------------------- restart

  /**
    RESTART IS A STUTTER. A crash changes no record, so it takes back no promise and no acceptance. A node that has
    promised or accepted anything in its instance resumes there and finds its acceptor as it left it. It resumes
    earlier, by one instance, only if its acceptor has done nothing yet and only at a record it has. Its store is
    the one it had. Its proposer starts above what its acceptor accepted.
    */
  lemma RestartIsStutter(cfg: Config, states: seq<Cluster>, actions: seq<Action>, n: nat, k: NodeId)
    requires cfg.Valid() && IsRun(cfg, states, actions) && n <= |actions| && k in states[n].nodes
    ensures var a := states[n].nodes[k]; var r := Restart(a.log, a.sm);
      && r.log == a.log && r.sm == a.sm
      && 1 <= r.ins <= a.ins
      && r.acceptor == Read(a.log, r.ins)
      && r.acceptor.accepted.AtMost(r.acceptor.promised)
      && r.acceptor.accepted.Less(BallotOf(r.proposer, k)) && r.proposer == Proposer.Fresh(r.proposer.pid)
      && r.learner == Learner.FRESH
      && (a.ins in a.log ==> r.ins == a.ins)
      && (r.ins == a.ins ==> r.acceptor == a.acceptor)
      && (r.ins < a.ins ==> a.acceptor == NO_ENTRY && r.ins == a.ins - 1 && r.ins in a.log)
  {
    hide Inv, ProposalOk, PacketOk, PromisesOnce, ProposerOk, ExecutionOk, Chosen, Settled, Fold, Next;
    RunInv(cfg, states, actions, n);
    var a := states[n].nodes[k];
    NodeFacts(cfg, states[n], k);
    StoreIsFold(cfg, states, actions, n, k);
    RecoveredStore(a.log, a.sm, a.ins);
    ResumesAtRecord(a.log, a.sm, a.ins);
    assert RecordOk(cfg, states[n], k, Restart(a.log, a.sm).ins);
  }

  /** Where a node resumes whose log has a record of every instance it has left. */
  lemma ResumesAtRecord(log: Log, sm: Store, ins: Instance)
    requires ins >= 1 && sm == Fold(ValueAt(log), ins)
    requires forall i :: i in log ==> 1 <= i <= ins
    requires forall i :: 1 <= i < ins ==> i in log
    ensures var r := Restart(log, sm);
      && 1 <= r.ins <= ins && r.acceptor == Read(log, r.ins)
      && (ins in log ==> r.ins == ins) && (r.ins < ins ==> r.ins == ins - 1 && r.ins in log)
  {
    hide Fold, IsLast;
    ResumesInTime(log, sm, ins);
    LastOfPrefix(log, ins);
  }

  lemma LastOfPrefix(log: Log, ins: Instance)
    requires ins >= 1
    requires forall i :: i in log ==> 1 <= i <= ins
    requires forall i :: 1 <= i < ins ==> i in log
    ensures Last(log) == if ins in log then ins else ins - 1
  {
    assert ins > 1 ==> ins - 1 in log;
  }

  /** Promises never decrease, over steps, crashes and restarts. */
  lemma PromisesNeverDecrease(cfg: Config, states: seq<Cluster>, actions: seq<Action>, m: nat, n: nat, a: NodeId, i: Instance)
    requires cfg.Valid() && IsRun(cfg, states, actions) && m <= n <= |actions|
    ensures PromisedAt(states[m], a, i).AtMost(PromisedAt(states[n], a, i))
  {
    RunExtends(cfg, states, actions, m, n);
  }

  // ---------------------------------------------------------------- the test as written

  /**
    The strict test of `HandleAccept`, as the source has it, rejects every acceptor of the promise majority: no
    proposal is ever accepted by a majority, and no node ever leaves its first instance.
    */
  lemma StrictTestChoosesNothing(cfg: Config, states: seq<Cluster>, actions: seq<Action>, n: nat)
    requires cfg.Valid() && cfg.strict && IsRun(cfg, states, actions) && n <= |actions|
    ensures forall i, b :: !Chosen(cfg, states[n], i, b)
    ensures forall k :: k in states[n].nodes ==> states[n].nodes[k].ins == 1
  {
    hide Inv, Next, Boot, Chosen;
    RunInv(cfg, states, actions, n);
    var c := states[n];
    forall i, b ensures !Chosen(cfg, c, i, b) {
      NothingChosen(cfg, c, i, b);
    }
    forall k | k in c.nodes ensures c.nodes[k].ins == 1 {
      NodeFacts(cfg, c, k);
      assert c.nodes[k].ins > 1 ==> Settled(cfg, c, 1, c.nodes[k].log[1]);
    }
  }

  /** Under the strict test no node is behind a proposal and also votes for it. */
  lemma NeverBoth(cfg: Config, c: Cluster, a: NodeId, i: Instance, b: Ballot)
    requires cfg.strict && Inv(cfg, c) && Slot(i, b) in c.proposals && a in c.proposals[Slot(i, b)].quorum
    ensures Vote(a, i, b) !in c.votes
  {
    assert ProposalOk(cfg, c, Slot(i, b));
    assert Pledged(cfg, c, a, i, b, c.proposals[Slot(i, b)].basis);
  }

  lemma NothingChosen(cfg: Config, c: Cluster, i: Instance, b: Ballot)
    requires cfg.Valid() && cfg.strict && Inv(cfg, c)
    ensures !Chosen(cfg, c, i, b)
  {
    if Chosen(cfg, c, i, b) {
      var a := SharedMember(cfg, c, i, b, b);
      NeverBoth(cfg, c, a, i, b);
    }
  }
}
