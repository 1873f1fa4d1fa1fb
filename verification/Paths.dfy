/** Sequences of steps, taken by either form of the proposer. */
module Paths {
  import opened Messages
  import opened Node
  import opened Cluster
  import AsWritten

  /** A promise that reports something accepted. */
  predicate Reports(m: Message) {
    m.Promise? && m.accepted.pid != 0
  }

  /** A step of the cluster, where with `oneField` the proposer handles promises with the single field of the source. */
  ghost function Step(cfg: Config, oneField: bool, c: Cluster, a: Action): Cluster {
    if oneField && a.Deliver? && Reports(a.packet.msg) && a.packet in c.net && a.packet.dst in c.nodes then
      var p, pre := a.packet, c.nodes[a.packet.dst];
      var (q, out) := AsWritten.OnProposeAckOneField(cfg, p.dst, pre.ins, pre.proposer, p.msg);
      var post := Settle(pre.(proposer := q));
      Cluster(c.nodes[p.dst := post], c.net - multiset{p} + Packets(cfg, out),
              Proposals(c, pre, p.msg, post, out), c.votes)
    else Next(cfg, c, a)
  }

  /** The cluster after a sequence of actions. */
  ghost function After(cfg: Config, oneField: bool, c: Cluster, actions: seq<Action>): Cluster {
    if actions == [] then c
    else Step(cfg, oneField, After(cfg, oneField, c, actions[..|actions| - 1]), actions[|actions| - 1])
  }

  ghost predicate LeadsTo(cfg: Config, oneField: bool, c: Cluster, d: Cluster) {
    exists actions :: After(cfg, oneField, c, actions) == d
  }

  lemma LeadsToItself(cfg: Config, oneField: bool, c: Cluster)
    ensures LeadsTo(cfg, oneField, c, c)
  {
    assert After(cfg, oneField, c, []) == c;
  }

  lemma OneMoreStep(cfg: Config, oneField: bool, c: Cluster, d: Cluster, a: Action)
    requires LeadsTo(cfg, oneField, c, d)
    ensures LeadsTo(cfg, oneField, c, Step(cfg, oneField, d, a))
  {
    hide Step;
    var actions :| After(cfg, oneField, c, actions) == d;
    assert (actions + [a])[..|actions|] == actions;
    assert After(cfg, oneField, c, actions + [a]) == Step(cfg, oneField, d, a);
  }

  lemma {:induction false} PathsJoin(cfg: Config, oneField: bool, b: Cluster, c: Cluster, actions: seq<Action>)
    requires LeadsTo(cfg, oneField, b, c)
    ensures LeadsTo(cfg, oneField, b, After(cfg, oneField, c, actions))
  {
    hide Step;
    if actions == [] {
    } else {
      var before, last := actions[..|actions| - 1], actions[|actions| - 1];
      PathsJoin(cfg, oneField, b, c, before);
      OneMoreStep(cfg, oneField, b, After(cfg, oneField, c, before), last);
    }
  }

  lemma LeadsOn(cfg: Config, oneField: bool, b: Cluster, c: Cluster, d: Cluster)
    requires LeadsTo(cfg, oneField, b, c) && LeadsTo(cfg, oneField, c, d)
    ensures LeadsTo(cfg, oneField, b, d)
  {
    hide Step, After;
    var actions :| After(cfg, oneField, c, actions) == d;
    PathsJoin(cfg, oneField, b, c, actions);
  }

  /** From the start, and with the repaired proposer, these are the runs of the cluster. */
  lemma LeadsToHasRun(cfg: Config, c: Cluster) returns (states: seq<Cluster>, actions: seq<Action>)
    requires LeadsTo(cfg, false, Boot(cfg), c)
    ensures IsRun(cfg, states, actions) && states[|actions|] == c
  {
    hide Next, Boot;
    actions :| After(cfg, false, Boot(cfg), actions) == c;
    states := seq(|actions| + 1, n requires 0 <= n <= |actions| => After(cfg, false, Boot(cfg), actions[..n]));
    forall n | 0 <= n < |actions| ensures states[n + 1] == Next(cfg, states[n], actions[n]) {
      assert actions[..n + 1][..n] == actions[..n];
    }
    assert actions[..|actions|] == actions;
  }

  /** A message that is no answer to a propose broadcast is delivered. */
  lemma Exchange(cfg: Config, start: Cluster, c: Cluster, p: Packet) returns (d: Cluster)
    requires LeadsTo(cfg, false, start, c) && p in c.net && p.dst in c.nodes
    requires !p.msg.Promise? && !p.msg.ProposeReject?
    ensures LeadsTo(cfg, false, start, d)
    ensures var (n, out) := Handle(cfg, p.dst, c.nodes[p.dst], p.msg);
      && d.nodes == c.nodes[p.dst := n] && d.net == c.net - multiset{p} + Packets(cfg, out)
      && (out.Quiet? || !(out.msg.Accept? || out.msg.Accepted?) ==> d.proposals == c.proposals && d.votes == c.votes)
  {
    hide Handle, Packets;
    OneMoreStep(cfg, false, start, c, Deliver(p));
    d := Step(cfg, false, c, Deliver(p));
  }
}
