/** How a follower catches up: the handshake that starts it, and the values streamed until it is level. */
module CatchUp {
  import opened Messages
  import opened KvStateMachine
  import opened Node
  import opened Cluster
  import opened Paths
  import opened Exchanges
  import SyncJob

  function Higher(a: Instance, b: Instance): Instance {
    if a < b then b else a
  }

  // ---------------------------------------------------------------- the handshake

  /** The follower's timer asks everybody. */
  lemma Asks(k: NodeId, f: Node)
    ensures LocalStep(k, f, AskToLearn(k)) ==
            (f.(learner := f.learner.(isLearning := false)), All(ShallILearn(k, f.ins)))
  {
  }

  /**
    THE HANDSHAKE. Whoever is asked answers the follower. A node one instance ahead answers with the value stored for the
    follower's instance; the follower learns it exactly if its own acceptor accepted that very proposal. Any other
    node answers with both instances. On that answer the follower, if it is still in its instance and not learning,
    remembers how far the other is, and confirms exactly if the other is not behind: for its own instance, to
    the node that answered, and prepares the job of that node if it has none.
    */
  lemma Handshake(cfg: Config, k: NodeId, asked: Instance, a: NodeId, l: Node, f: Node, later: Node)
    requires !l.learner.learned && !f.learner.learned && !later.learner.learned
    ensures var (m, answer) := Handle(cfg, a, l, ShallILearn(k, asked));
      && m == l.(learner := l.learner.(highestKnown := Higher(l.learner.highestKnown, asked)))
      && answer.To? && answer.dst == k
      && if l.ins == asked + 1 then
           var stored := Read(l.log, asked);
           && answer.msg == ValueSend(a, asked, stored.accepted, stored.value)
           && var (g, out) := Handle(cfg, k, f, answer.msg);
              out == Quiet &&
              if f.ins == asked && stored.accepted.pid != 0 && f.acceptor.accepted == stored.accepted
              then Finishes(f, stored.value, g) else g == f
         else
           var (g, confirm) := Handle(cfg, k, f, answer.msg);
           var confirms := f.ins == asked && l.ins >= asked && !f.learner.isLearning;
           && g == f.(learner := f.learner.(highestKnown := Higher(f.learner.highestKnown, l.ins),
                                            isLearning := f.learner.isLearning || confirms))
           && if !confirms then confirm == Quiet
              else
                confirm.To? && confirm.dst == a &&
                var (n, out) := Handle(cfg, a, later, confirm.msg);
                && out == Quiet && n == later.(learner := later.learner.(job := n.learner.job))
                && n.learner.job ==
                   if later.learner.job.status == SyncJob.Stale
                   then later.learner.job.(status := SyncJob.Prepared, receiver := k, begin := asked)
                   else later.learner.job
  {
    hide Finishes;
    Answers(cfg, k, asked, a, l);
    var answer := Handle(cfg, a, l, ShallILearn(k, asked)).1;
    if l.ins == asked + 1 {
      AcceptedIsLearned(cfg, k, f, answer.msg);
    } else {
      Confirms(cfg, k, asked, a, l.ins, f);
      ConfirmationTaken(cfg, k, asked, a, later);
    }
  }

  lemma Answers(cfg: Config, k: NodeId, asked: Instance, a: NodeId, l: Node)
    requires !l.learner.learned
    ensures var stored := Read(l.log, asked);
      Handle(cfg, a, l, ShallILearn(k, asked)) ==
        (l.(learner := l.learner.(highestKnown := Higher(l.learner.highestKnown, asked))),
         To(k, if l.ins == asked + 1 then ValueSend(a, asked, stored.accepted, stored.value)
               else TellInstance(a, asked, l.ins)))
  {
  }

  lemma Confirms(cfg: Config, k: NodeId, asked: Instance, a: NodeId, leading: Instance, f: Node)
    requires !f.learner.learned
    ensures var confirms := f.ins == asked && leading >= asked && !f.learner.isLearning;
      Handle(cfg, k, f, TellInstance(a, asked, leading)) ==
        (f.(learner := f.learner.(highestKnown := Higher(f.learner.highestKnown, leading),
                                  isLearning := f.learner.isLearning || confirms)),
         if confirms then To(a, ConfirmLearn(k, asked)) else Quiet)
  {
  }

  lemma ConfirmationTaken(cfg: Config, k: NodeId, asked: Instance, a: NodeId, l: Node)
    requires !l.learner.learned
    ensures var job := l.learner.job;
      Handle(cfg, a, l, ConfirmLearn(k, asked)) ==
        (l.(learner := l.learner.(job :=
           if job.status == SyncJob.Stale then job.(status := SyncJob.Prepared, receiver := k, begin := asked) else job)),
         Quiet)
  {
  }

  /** A synchronized value is learned exactly in its instance, and acknowledged in any case. */
  lemma SyncIsTaken(cfg: Config, k: NodeId, f: Node, a: NodeId, i: Instance, b: Ballot, v: LogValue)
    requires !f.learner.learned
    ensures var (g, out) := Handle(cfg, k, f, ValueSync(a, i, b, v));
      && out == To(a, SyncAck(k, f.ins))
      && if i == f.ins then
           Finishes(f, v, g) && g.log == f.log[i := LogEntry(Read(f.log, i).promised.Max(b), b, v)]
         else g == f
  {
  }

  lemma AckIsTaken(cfg: Config, a: NodeId, l: Node, k: NodeId, i: Instance)
    requires !l.learner.learned && l.learner.job.status == SyncJob.Sending && l.learner.job.receiver == k
    ensures Handle(cfg, a, l, SyncAck(k, i)) ==
      (l.(learner := l.learner.(job := l.learner.job.(ack := Higher(l.learner.job.ack, i)))), Quiet)
  {
  }

  // ---------------------------------------------------------------- streaming

  lemma Local(cfg: Config, start: Cluster, c: Cluster, k: NodeId, a: Action) returns (d: Cluster)
    requires LeadsTo(cfg, false, start, c) && k in c.nodes
    requires a.AskToLearn? || a.JobStart? || a.JobSend? || a.JobRecheck? || a.JobFinish?
    requires a.node == k
    ensures LeadsTo(cfg, false, start, d)
    ensures var (n, out) := LocalStep(k, c.nodes[k], a); d.nodes == c.nodes[k := n] && d.net == c.net + Packets(cfg, out)
  {
    hide LocalStep, Packets;
    OneMoreStep(cfg, false, start, c, a);
    d := Step(cfg, false, c, a);
  }

  /** The job of `l` is about to send instance `x`, where its follower `k` is. */
  ghost predicate Streams(c: Cluster, l: NodeId, k: NodeId, x: Instance) {
    l != k && l in c.nodes && k in c.nodes &&
    var job := c.nodes[l].learner.job;
    && !c.nodes[l].learner.learned && !c.nodes[k].learner.learned && c.nodes[k].ins == x
    && job.status == SyncJob.Sending && job.receiver == k && job.next == x && !job.waiting && job.ack <= x
  }

  /** The same node but for its job. */
  ghost predicate SameButJob(n: Node, m: Node) {
    m == n.(learner := n.learner.(job := m.learner.job))
  }

  /** One value: sent, learned, acknowledged, and the window is open again. */
  lemma StreamOne(cfg: Config, start: Cluster, c: Cluster, l: NodeId, k: NodeId, x: Instance) returns (d: Cluster)
    requires LeadsTo(cfg, false, start, c) && Streams(c, l, k, x) && x < c.nodes[l].ins
    ensures LeadsTo(cfg, false, start, d) && Streams(d, l, k, x + 1)
    ensures d.nodes == c.nodes[l := d.nodes[l]][k := d.nodes[k]] && SameButJob(c.nodes[l], d.nodes[l])
    ensures var stored, f := Read(c.nodes[l].log, x), c.nodes[k];
      && Finishes(f, stored.value, d.nodes[k])
      && d.nodes[k].log == f.log[x := LogEntry(Read(f.log, x).promised.Max(stored.accepted), stored.accepted, stored.value)]
  {
    hide LeadsTo, Handle, LocalStep, Finishes;
    var stored := Read(c.nodes[l].log, x);
    SendsNext(l, c.nodes[l], k, x);
    var c1 := Local(cfg, start, c, l, JobSend(l));
    SyncIsTaken(cfg, k, c1.nodes[k], l, x, stored.accepted, stored.value);
    var c2 := Exchange(cfg, start, c1, Packet(k, ValueSync(l, x, stored.accepted, stored.value)));
    AckIsTaken(cfg, l, c2.nodes[l], k, x);
    var c3 := Exchange(cfg, start, c2, Packet(l, SyncAck(k, x)));
    Rechecks(l, c3.nodes[l], x);
    d := Local(cfg, start, c3, l, JobRecheck(l));
    FinishesUnlearned(c.nodes[k], stored.value, d.nodes[k]);
  }

  lemma FinishesUnlearned(n: Node, v: LogValue, d: Node)
    requires Finishes(n, v, d)
    ensures !d.learner.learned && d.ins == n.ins + 1
  {
  }

  lemma SendsNext(l: NodeId, n: Node, k: NodeId, x: Instance)
    requires var job := n.learner.job;
      job.status == SyncJob.Sending && job.receiver == k && job.next == x && !job.waiting && x < n.ins
    ensures var (m, out) := LocalStep(l, n, JobSend(l));
      && SameButJob(n, m) && m.learner.job == n.learner.job.(next := x + 1, waiting := m.learner.job.waiting)
      && out == To(k, ValueSync(l, x, Read(n.log, x).accepted, Read(n.log, x).value))
  {
  }

  lemma Rechecks(l: NodeId, n: Node, x: Instance)
    requires n.learner.job.status == SyncJob.Sending && n.learner.job.next == x + 1 && n.learner.job.ack == x
    ensures LocalStep(l, n, JobRecheck(l)) == (n.(learner := n.learner.(job := n.learner.job.(waiting := false))), Quiet)
  {
  }

  function Executions(log: Log, from: Instance, end: Instance): seq<Execution>
    requires from <= end
  {
    seq(end - from, j requires 0 <= j < end - from => Execution(from + j, Read(log, from + j).value))
  }

  /** The follower has the leader's values from `from` on below `end`, executed in order. */
  ghost predicate Follows(f: Node, d: Node, log: Log, from: Instance, end: Instance) {
    && from <= end == d.ins && !d.learner.learned && d.boot == f.boot
    && d.sm == Run(f.sm, ValueAt(log), from, end)
    && d.executed == f.executed + Executions(log, from, end)
    && (forall y :: from <= y < end ==> y in d.log && d.log[y].value == Read(log, y).value)
    && (forall y: nat :: y < from ==> Read(d.log, y) == Read(f.log, y))
  }

  lemma FollowsOne(f: Node, d: Node, e: Node, log: Log, from: Instance, x: Instance, entry: LogEntry)
    requires Follows(f, d, log, from, x) && Finishes(d, Read(log, x).value, e)
    requires e.log == d.log[x := entry] && entry.value == Read(log, x).value
    ensures Follows(f, e, log, from, x + 1)
  {
    assert Executions(log, from, x + 1) == Executions(log, from, x) + [Execution(x, Read(log, x).value)];
  }

  /** All values, one by one. */
  lemma {:induction false} StreamTo(cfg: Config, start: Cluster, c: Cluster, l: NodeId, k: NodeId, from: Instance, x: Instance)
    returns (d: Cluster)
    requires LeadsTo(cfg, false, start, c) && Streams(c, l, k, from) && from <= x <= c.nodes[l].ins
    ensures LeadsTo(cfg, false, start, d) && Streams(d, l, k, x)
    ensures d.nodes == c.nodes[l := d.nodes[l]][k := d.nodes[k]] && SameButJob(c.nodes[l], d.nodes[l])
    ensures Follows(c.nodes[k], d.nodes[k], c.nodes[l].log, from, x)
    decreases x
  {
    hide LeadsTo, Finishes, Follows, Run;
    if from == x {
      d := c;
      FollowsNothing(c.nodes[k], c.nodes[l].log, from);
    } else {
      var b := StreamTo(cfg, start, c, l, k, from, x - 1);
      d := StreamOne(cfg, start, b, l, k, x - 1);
      FollowsOne(c.nodes[k], b.nodes[k], d.nodes[k], c.nodes[l].log, from, x - 1, d.nodes[k].log[x - 1]);
    }
  }

  lemma FollowsNothing(f: Node, log: Log, from: Instance)
    requires f.ins == from && !f.learner.learned
    ensures Follows(f, f, log, from, from)
  {
    assert Executions(log, from, from) == [];
  }

  /** The messages and timers of the handshake, up to the job that sends. */
  lemma HandshakeRun(cfg: Config, c: Cluster, l: NodeId, k: NodeId) returns (d: Cluster)
    requires l != k && l in c.nodes && k in c.nodes && l in cfg.members
    requires !c.nodes[l].learner.learned && !c.nodes[k].learner.learned
    requires c.nodes[l].ins > c.nodes[k].ins + 1 && c.nodes[l].learner.job == SyncJob.NO_JOB
    ensures LeadsTo(cfg, false, c, d) && Streams(d, l, k, c.nodes[k].ins)
    ensures d.nodes == c.nodes[l := d.nodes[l]][k := d.nodes[k]]
    ensures var n := c.nodes[l];
      SameButJob(n.(learner := n.learner.(highestKnown := Higher(n.learner.highestKnown, c.nodes[k].ins))), d.nodes[l])
    ensures var n := c.nodes[k];
      d.nodes[k] == n.(learner := n.learner.(highestKnown := Higher(n.learner.highestKnown, c.nodes[l].ins), isLearning := true))
  {
    hide LeadsTo, Handle, LocalStep;
    var asked, leading := c.nodes[k].ins, c.nodes[l].ins;
    LeadsToItself(cfg, false, c);
    Asks(k, c.nodes[k]);
    var c1 := Local(cfg, c, c, k, AskToLearn(k));
    Answers(cfg, k, asked, l, c1.nodes[l]);
    var c2 := Exchange(cfg, c, c1, Packet(l, ShallILearn(k, asked)));
    Confirms(cfg, k, asked, l, leading, c2.nodes[k]);
    var c3 := Exchange(cfg, c, c2, Packet(k, TellInstance(l, asked, leading)));
    ConfirmationTaken(cfg, k, asked, l, c3.nodes[l]);
    var c4 := Exchange(cfg, c, c3, Packet(l, ConfirmLearn(k, asked)));
    JobStarts(l, c4.nodes[l]);
    d := Local(cfg, c, c4, l, JobStart(l));
  }

  lemma JobStarts(l: NodeId, n: Node)
    requires n.learner.job.status == SyncJob.Prepared
    ensures var job := n.learner.job;
      LocalStep(l, n, JobStart(l)) ==
        (n.(learner := n.learner.(job := job.(status := SyncJob.Sending, next := job.begin, waiting := false))), Quiet)
  {
  }

  lemma JobFinishes(l: NodeId, n: Node)
    requires n.learner.job.status == SyncJob.Sending && n.learner.job.next >= n.ins
    ensures LocalStep(l, n, JobFinish(l)) == (n.(learner := n.learner.(job := SyncJob.NO_JOB)), Quiet)
  {
  }

  /**
    CATCH-UP COMPLETES. However far a follower is behind a node whose job is free -- two instances or more --, the steps
    from its timer to the end of the job bring it level: it has the leader's values in its log, has executed them once
    each and in order, and the leader is as before, with its job free for the next follower.
    */
  lemma CatchesUp(cfg: Config, c: Cluster, l: NodeId, k: NodeId) returns (d: Cluster)
    requires l != k && l in c.nodes && k in c.nodes && l in cfg.members
    requires !c.nodes[l].learner.learned && !c.nodes[k].learner.learned
    requires c.nodes[l].ins > c.nodes[k].ins + 1 && c.nodes[l].learner.job == SyncJob.NO_JOB
    ensures LeadsTo(cfg, false, c, d) && l in d.nodes && k in d.nodes
    ensures d.nodes == c.nodes[l := d.nodes[l]][k := d.nodes[k]]
    ensures var n := c.nodes[l];
      d.nodes[l] == n.(learner := n.learner.(highestKnown := Higher(n.learner.highestKnown, c.nodes[k].ins)))
    ensures Follows(c.nodes[k], d.nodes[k], c.nodes[l].log, c.nodes[k].ins, c.nodes[l].ins)
  {
    hide LeadsTo, Follows, LocalStep;
    var c1 := HandshakeRun(cfg, c, l, k);
    var c2 := StreamTo(cfg, c, c1, l, k, c.nodes[k].ins, c.nodes[l].ins);
    JobFinishes(l, c2.nodes[l]);
    d := Local(cfg, c, c2, l, JobFinish(l));
    FollowsSame(c.nodes[k], c1.nodes[k], d.nodes[k], c.nodes[l].log, c.nodes[k].ins, c.nodes[l].ins);
  }

  lemma FollowsSame(e: Node, f: Node, d: Node, log: Log, from: Instance, end: Instance)
    requires Follows(f, d, log, from, end) && e.sm == f.sm && e.executed == f.executed && e.log == f.log && e.boot == f.boot
    ensures Follows(e, d, log, from, end)
  {
  }
}
