/** Routing over whole runs: no join is missed, and stale routing has exactly the
    causes listed here. */
module ClusterRoutingRuns {
  import opened Ids
  import opened Groups
  import opened Registries
  import opened Clusters
  import opened ClusterStructure
  import opened ClusterRouting

  ghost predicate RoutingInv(c: Cluster) {
    Sound(c) && forall w <- c.workers, u, g :: PairInv(c, w, u, g)
  }

  lemma InitIsFine(c: Cluster)
    requires Init(c)
    ensures RoutingInv(c)
  {}

  lemma SocketStepKeepsPair(c: Cluster, step: Step, w: WorkerId, u: UserId, g: GroupId)
    requires Sound(c) && Enabled(c, step) && w in c.workers && PairInv(c, w, u, g)
    requires step.Open? || step.Close? || step.Merge?
    ensures w in Apply(c, step).workers && PairInv(Apply(c, step), w, u, g)
  {
    match step
    case Open(v, x, s) => OpenKeepsPair(c, v, x, s, w, u, g);
    case Close(s) => CloseKeepsPair(c, s, w, u, g);
    case Merge(s) => MergeKeepsPair(c, s, w, u, g, ApplyMerge(c, s));
  }

  lemma PushStepKeepsPair(c: Cluster, step: Step, w: WorkerId, u: UserId, g: GroupId)
    requires Sound(c) && Enabled(c, step) && w in c.workers && PairInv(c, w, u, g)
    requires step.Transact? || step.Deliver? || step.FinishDeletion?
    ensures w in Apply(c, step).workers && PairInv(Apply(c, step), w, u, g)
  {
    match step
    case Transact(op) => TransactKeepsPair(c, op, w, u, g);
    case Deliver(v, i) => DeliverKeepsPair(c, v, i, w, u, g);
    case FinishDeletion(v, h) =>
      FinishDeletionKeepsPair(c, v, h, c.workers[v].deleting[h], Apply(c, step), w, u, g);
  }

  lemma StepKeepsPair(c: Cluster, step: Step, w: WorkerId, u: UserId, g: GroupId)
    requires Sound(c) && Enabled(c, step) && w in c.workers && PairInv(c, w, u, g)
    ensures w in Apply(c, step).workers && PairInv(Apply(c, step), w, u, g)
  {
    if Quiet(step) {
      QuietFrame(c, step);
      QuietKeepsPair(c, step, w, u, g);
    } else if step.Open? || step.Close? || step.Merge? {
      SocketStepKeepsPair(c, step, w, u, g);
    } else {
      PushStepKeepsPair(c, step, w, u, g);
    }
  }

  lemma WorkersStay(c: Cluster, step: Step)
    requires Enabled(c, step)
    ensures Apply(c, step).workers.Keys == c.workers.Keys
  {
    if Quiet(step) { QuietFrame(c, step); }
  }

  lemma {:induction false} RunKeepsRouting(c0: Cluster, steps: seq<Step>)
    requires Init(c0) && CanRun(c0, steps)
    ensures RoutingInv(Run(c0, steps))
    decreases |steps|
  {
    if steps == [] {
      InitIsFine(c0);
    } else {
      var (before, step) := (steps[..|steps| - 1], steps[|steps| - 1]);
      RunKeepsRouting(c0, before);
      var c := Run(c0, before);
      StepKeepsSound(c, step);
      WorkersStay(c, step);
      forall w <- c.workers, u, g { StepKeepsPair(c, step, w, u, g); }
    }
  }

  /** A worker that has handled every push about u in g routes g's messages to u if
      u is a member and has a live socket whose registration completed with a
      successful read. */
  lemma NoMissedJoins(c0: Cluster, steps: seq<Step>, c: Cluster, w: WorkerId, u: UserId, g: GroupId, s: SocketId)
    requires Reached(c0, steps, c) && w in c.workers
    requires Settled(c.log, c.workers[w], u, g) && (g, u) in c.db.members
    requires s in c.socks && c.socks[s] == Connection(w, u, Registered(true))
    ensures c.workers[w].reg.Routed(u, g) && c.workers[w].reg.Indexed(u, g)
  {
    RunKeepsRouting(c0, steps);
    assert PairInv(c, w, u, g);
    assert Mine(c, w, u, s) && !Marks(c, w, u, g)[s].covers;
  }

  /** Once the pushes about u in g are handled, a routed user whose account exists is
      no member exactly when a registration merged g after a LEAVE or a deletion of g
      took effect on the worker, and no JOIN, LEAVE, deletion or teardown came later. */
  lemma StaleExactlyWhenReadded(c0: Cluster, steps: seq<Step>, c: Cluster, w: WorkerId, u: UserId, g: GroupId)
    requires Reached(c0, steps, c) && w in c.workers
    requires Settled(c.log, c.workers[w], u, g) && g !in c.workers[w].deleting
    requires c.workers[w].reg.Routed(u, g)
    ensures (g, u) !in c.db.members <==> (w, u, g) in c.readded || u in c.db.deletedUsers
  {
    RunKeepsRouting(c0, steps);
    assert PairInv(c, w, u, g) && DbMatchesLog(c.db, c.log);
  }

  /** Deleting an account pushes nothing: whoever is routed when it commits is routed
      afterwards, though no longer a member of anything, with no push more to handle. */
  lemma AccountDeletionLeavesRouting(c0: Cluster, steps: seq<Step>, c: Cluster, u: UserId, w: WorkerId, g: GroupId)
    requires Reached(c0, steps, c) && w in c.workers && c.workers[w].reg.Routed(u, g)
    requires Exec(c.db, DeleteAccount(u)).1.Committed?
    ensures Enabled(c, Transact(DeleteAccount(u)))
    ensures var (steps', c') := (steps + [Transact(DeleteAccount(u))], Apply(c, Transact(DeleteAccount(u))));
      && Reached(c0, steps', c') && w in c'.workers && c'.workers[w].reg.Routed(u, g)
      && u !in c'.db.users && (g, u) !in c'.db.members
      && (Settled(c'.log, c'.workers[w], u, g) <==> Settled(c.log, c.workers[w], u, g))
  {
    RunOneMore(c0, steps, Transact(DeleteAccount(u)));
    DeleteAccountCommitsIff(c.db, u);
    assert Apply(c, Transact(DeleteAccount(u))) == ApplyTransact(c, DeleteAccount(u));
  }

  /** At every await point the reverse index has every routed pair, and the other way
      round for every group whose deletion the worker has not started to handle. */
  lemma IndexAgreement(c0: Cluster, steps: seq<Step>, c: Cluster, w: WorkerId, u: UserId, g: GroupId)
    requires Reached(c0, steps, c) && w in c.workers
    ensures c.workers[w].reg.Routed(u, g) ==> c.workers[w].reg.Indexed(u, g)
    ensures c.workers[w].reg.Indexed(u, g) ==>
              c.workers[w].reg.Routed(u, g) || DeletionStarted(c.log, c.workers[w], g)
  {
    RunKeepsRouting(c0, steps);
  }

  /** Routing and index hold only users with an open socket, and no key is kept for an
      empty set, whatever deletions are unfinished. */
  lemma CleanTeardown(c0: Cluster, steps: seq<Step>, c: Cluster, w: WorkerId, u: UserId, g: GroupId)
    requires Reached(c0, steps, c) && w in c.workers
    ensures WellFormed(c.workers[w].reg)
    ensures c.workers[w].reg.Routed(u, g) || c.workers[w].reg.Indexed(u, g) ==>
              exists s :: Mine(c, w, u, s)
  {
    RunKeepsRouting(c0, steps);
    var r := c.workers[w].reg;
    if forall s :: !r.Live(u, s) {
      NoSocketNoRouting(r, u, g);
    } else {
      var s :| r.Live(u, s);
      assert Mine(c, w, u, s);
    }
  }

  /** A group message finds, through the group index, the sockets that a scan of every
      local user would find. */
  lemma FanOutFindsEveryone(c0: Cluster, steps: seq<Step>, c: Cluster, w: WorkerId, g: GroupId, sender: Option<UserId>)
    requires Reached(c0, steps, c) && w in c.workers && !DeletionStarted(c.log, c.workers[w], g)
    ensures Recipients(c.workers[w].reg, g, sender) == ScanRecipients(c.workers[w].reg, g, sender)
  {
    RunKeepsRouting(c0, steps);
    FanOutIsScan(c.workers[w].reg, g, sender);
  }
}
