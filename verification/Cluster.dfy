/** The cluster as a state machine: nodes, the messages in flight, and the history of proposals and votes. */
module Cluster {
  import opened Messages
  import opened KvStateMachine
  import opened Node
  import Proposer
  import Learner
  import SyncJob

  datatype Packet = Packet(dst: NodeId, msg: Message)

  /** A proposal is identified by its instance and ballot. */
  datatype Slot = Slot(ins: Instance, ballot: Ballot)

  /** History of an accept broadcast: its value, the promises it rests on, and the ballot its value was adopted from. */
  datatype Proposal = Proposal(value: LogValue, quorum: set<NodeId>, basis: Ballot)

  /** History of an acceptance. */
  datatype Vote = Vote(who: NodeId, ins: Instance, ballot: Ballot)

  /** `proposals` and `votes` only record what happened; no node reads them. */
  datatype Cluster = Cluster(
    nodes: map<NodeId, Node>,
    net: multiset<Packet>,
    proposals: map<Slot, Proposal>,
    votes: set<Vote>)

  /**
    What can happen next. A message is delivered at most once, in any order, or dropped; timers fire at any
    time; a client may submit a value whenever the node would propose; any node may crash and restart.
    `DieLearning` is the crash between the two durable writes of learning: the record is written, the state
    machine has not executed it.
    */
  datatype Action =
    | Deliver(packet: Packet)
    | Drop(packet: Packet)
    | NewValue(node: NodeId, value: LogValue)
    | ProposeTimeout(node: NodeId)
    | AcceptTimeout(node: NodeId)
    | NewValueTimeout(node: NodeId)
    | AskToLearn(node: NodeId)
    | JobStart(node: NodeId)
    | JobSend(node: NodeId)
    | JobRecheck(node: NodeId)
    | JobFinish(node: NodeId)
    | Crash(node: NodeId)
    | DieLearning(packet: Packet)

  /** Packets of one send; a broadcast reaches every member, the sender included. */
  function Packets(cfg: Config, out: Send): multiset<Packet> {
    match out
    case Quiet => multiset{}
    case To(dst, msg) => multiset{Packet(dst, msg)}
    case All(msg) => multiset(set d | d in cfg.members :: Packet(d, msg))
  }

  /** The promises counted once `m` is handled. */
  function Supporters(pre: Node, m: Message): set<NodeId> {
    if m.Promise? then pre.proposer.tally.promises + {m.sender} else pre.proposer.tally.promises
  }

  /** Records the accept broadcast in `out`, sent by a node that was `pre` on handling `m`. */
  function Proposals(c: Cluster, pre: Node, m: Message, post: Node, out: Send): map<Slot, Proposal> {
    if out.All? && out.msg.Accept? then
      c.proposals[Slot(out.msg.ins, out.msg.ballot) :=
        Proposal(out.msg.value, Supporters(pre, m), post.proposer.adopted)]
    else c.proposals
  }

  function Votes(c: Cluster, out: Send): set<Vote> {
    if out.To? && out.msg.Accepted? then c.votes + {Vote(out.msg.sender, out.msg.ins, out.msg.ballot)} else c.votes
  }

  /** A node changes without sending or receiving. */
  function SetNode(c: Cluster, k: NodeId, n: Node): Cluster {
    c.(nodes := c.nodes[k := n])
  }

  /** A node changes and sends. */
  function Emit(cfg: Config, c: Cluster, k: NodeId, n: Node, out: Send): Cluster {
    c.(nodes := c.nodes[k := n], net := c.net + Packets(cfg, out))
  }

  ghost function DeliverTo(cfg: Config, c: Cluster, p: Packet): Cluster
    requires p.dst in c.nodes
  {
    var pre := c.nodes[p.dst];
    var (post, out) := Handle(cfg, p.dst, pre, p.msg);
    Cluster(c.nodes[p.dst := post], c.net - multiset{p} + Packets(cfg, out),
            Proposals(c, pre, p.msg, post, out), Votes(c, out))
  }

  /** A local step of a node: a timer or the sending loop; (n, Quiet) when it is not enabled. */
  function LocalStep(me: NodeId, n: Node, a: Action): (Node, Send) {
    match a
    case NewValue(_, value) =>
      if value == Empty || Learner.AnymoreToLearn(n.learner, n.ins) then (n, Quiet)
      else var (p, out) := Proposer.SubmitValue(n.proposer, me, n.ins, value); (n.(proposer := p), out)
    case ProposeTimeout(_) =>
      var (p, out) := Proposer.OnProposeTimer(n.proposer, me, n.ins); (n.(proposer := p), out)
    case AcceptTimeout(_) =>
      var (p, out) := Proposer.OnAcceptTimer(n.proposer, me, n.ins); (n.(proposer := p), out)
    case NewValueTimeout(_) =>
      (n.(proposer := Proposer.GiveUp(n.proposer)), Quiet)
    case AskToLearn(_) =>
      (n.(learner := n.learner.(isLearning := false)), All(ShallILearn(me, n.ins)))
    case JobStart(_) =>
      (n.(learner := n.learner.(job := SyncJob.Start(n.learner.job))), Quiet)
    case JobSend(_) =>
      var j := n.learner.job;
      (n.(learner := n.learner.(job := SyncJob.SendNext(j, n.ins))),
       if SyncJob.CanSend(j, n.ins) then To(j.receiver, Learner.StoredValue(me, n.log, j.next, true)) else Quiet)
    case JobRecheck(_) =>
      (n.(learner := n.learner.(job := SyncJob.Recheck(n.learner.job))), Quiet)
    case JobFinish(_) =>
      (n.(learner := n.learner.(job := SyncJob.Finish(n.learner.job, n.ins))), Quiet)
    case _ => (n, Quiet)
  }

  /** The record a node would write on this message if it learned from it; the log as it is otherwise. */
  function LogAfterLearning(n: Node, m: Message): Log {
    if m.ValueSync? then LearnFromOthers(n, m).log
    else if (m.ChosenBroadcast? || m.ValueSend?) && Learner.TakesPublished(n.ins, n.acceptor, m) then
      LearnFromOthers(n, m).log
    else n.log
  }

  /** One step of the cluster; an action that is not enabled changes nothing. */
  ghost function Next(cfg: Config, c: Cluster, a: Action): Cluster {
    match a
    case Deliver(p) => if p in c.net && p.dst in c.nodes then DeliverTo(cfg, c, p) else c
    case Drop(p) => c.(net := c.net - multiset{p})
    case Crash(k) => if k in c.nodes then SetNode(c, k, Restart(c.nodes[k].log, c.nodes[k].sm)) else c
    case DieLearning(p) =>
      if p in c.net && p.dst in c.nodes then
        var n := c.nodes[p.dst];
        SetNode(c.(net := c.net - multiset{p}), p.dst, Restart(LogAfterLearning(n, p.msg), n.sm))
      else c
    case _ =>
      if a.node in c.nodes then
        var (n, out) := LocalStep(a.node, c.nodes[a.node], a);
        Emit(cfg, c, a.node, n, out)
      else c
  }

  ghost function Boot(cfg: Config): Cluster {
    Cluster(map k | k in cfg.members :: Restart(map[], EMPTY_STORE), multiset{}, map[], {})
  }

  /** A run: the clusters before, between and after these actions, from the start. */
  ghost predicate IsRun(cfg: Config, states: seq<Cluster>, actions: seq<Action>) {
    && |states| == |actions| + 1
    && states[0] == Boot(cfg)
    && forall n {:trigger actions[n]} :: 0 <= n < |actions| ==> states[n + 1] == Next(cfg, states[n], actions[n])
  }
}
