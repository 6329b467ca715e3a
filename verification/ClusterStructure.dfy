/** What every step keeps: the registries are well formed and list exactly the open
    sockets, the index and the routing agree, pushes are handled in order, and the
    memberships table says what the log of pushes says. */
module ClusterStructure {
  import opened Ids
  import opened Groups
  import opened Registries
  import opened Clusters

  /** The last push that touches (u, g) is a JOIN. */
  ghost predicate JoinedLast(log: seq<Event>, u: UserId, g: GroupId) {
    log != [] &&
    var e := log[|log| - 1];
    if Touches(e, u, g) then e.Join? else JoinedLast(log[..|log| - 1], u, g)
  }

  ghost predicate DbMatchesLog(db: Db, log: seq<Event>) {
    && Consistent(db)
    && (forall u, g :: (g, u) in db.members ==> JoinedLast(log, u, g))
    && (forall u, g :: JoinedLast(log, u, g) ==> g in db.groups && ((g, u) in db.members || u in db.deletedUsers))
    && (forall e <- log :: e.Deleted? ==> e.group in db.usedGroups && e.group !in db.groups)
  }

  ghost predicate SocketsMatch(c: Cluster) {
    && (forall s <- c.socks :: c.socks[s].worker in c.workers && s in c.home
                               && c.home[s] == (c.socks[s].worker, c.socks[s].user))
    && (forall w <- c.workers, u, s :: c.workers[w].reg.Live(u, s) <==>
          s in c.socks && c.socks[s].worker == w && c.socks[s].user == u)
  }

  /** The worker has started handling g's deletion. */
  ghost predicate DeletionStarted(log: seq<Event>, k: Worker, g: GroupId) {
    exists i :: i in k.seen && i < |log| && log[i] == Deleted(g)
  }

  ghost predicate InOrder(log: seq<Event>, seen: set<nat>) {
    && (forall i <- seen :: i < |log|)
    && (forall i, j | i in seen && 0 <= j < i && Conflict(log[j], log[i]) :: j in seen)
  }

  ghost predicate WorkerSound(log: seq<Event>, k: Worker) {
    && WellFormed(k.reg)
    && InOrder(log, k.seen)
    && (forall g <- k.deleting :: DeletionStarted(log, k, g))
    && (forall u, g :: k.reg.Indexed(u, g) && !k.reg.Routed(u, g) ==> DeletionStarted(log, k, g))
  }

  ghost predicate Sound(c: Cluster) {
    && DbMatchesLog(c.db, c.log)
    && SocketsMatch(c)
    && (forall w <- c.workers :: WorkerSound(c.log, c.workers[w]))
  }

  lemma JoinedLastAppend(log: seq<Event>, e: Event, u: UserId, g: GroupId)
    ensures JoinedLast(log + [e], u, g) == if Touches(e, u, g) then e.Join? else JoinedLast(log, u, g)
  {
    assert (log + [e])[..|log|] == log;
  }

  lemma TransactKeepsDb(db: Db, log: seq<Event>, op: Op)
    requires DbMatchesLog(db, log) && FreshKeys(db, op)
    ensures var (db', o) := Exec(db, op);
      DbMatchesLog(db', if o.Committed? && o.push.Some? then log + [o.push.value] else log)
  {
    ExecKeepsConsistent(db, op);
    var (db', o) := Exec(db, op);
    if o.Committed? && o.push.Some? {
      forall u, g { JoinedLastAppend(log, o.push.value, u, g); }
    }
  }

  lemma StartedStaysStarted(log: seq<Event>, more: seq<Event>, k: Worker, k': Worker, g: GroupId)
    requires DeletionStarted(log, k, g) && k.seen <= k'.seen
    ensures DeletionStarted(log + more, k', g)
  {
    var i :| i in k.seen && i < |log| && log[i] == Deleted(g);
    assert i in k'.seen && (log + more)[i] == Deleted(g);
  }

  lemma LongerLogKeepsWorker(log: seq<Event>, e: Event, k: Worker)
    requires WorkerSound(log, k)
    ensures WorkerSound(log + [e], k)
  {
    forall g | DeletionStarted(log, k, g) { StartedStaysStarted(log, [e], k, k, g); }
  }

  /** A worker's registry may change as long as it gains no index entry that is not routed. */
  lemma NewRegKeepsWorker(log: seq<Event>, k: Worker, k': Worker)
    requires WorkerSound(log, k) && WellFormed(k'.reg) && k.seen <= k'.seen && InOrder(log, k'.seen)
    requires forall g <- k'.deleting :: g in k.deleting || DeletionStarted(log, k', g)
    requires forall u, g :: k'.reg.Indexed(u, g) && !k'.reg.Routed(u, g) ==>
        (k.reg.Indexed(u, g) && !k.reg.Routed(u, g)) || DeletionStarted(log, k', g)
    ensures WorkerSound(log, k')
  {
    assert log + [] == log;
    forall g | DeletionStarted(log, k, g) { StartedStaysStarted(log, [], k, k', g); }
  }

  lemma HandlePushKeepsWorker(log: seq<Event>, k: Worker, i: nat)
    requires WorkerSound(log, k) && i < |log|
    requires forall j | 0 <= j < i && Conflict(log[j], log[i]) :: j in k.seen
    ensures WorkerSound(log, HandlePush(k, i, log[i]))
    ensures HandlePush(k, i, log[i]).reg.conns == k.reg.conns
  {
    var k' := HandlePush(k, i, log[i]);
    assert i in k'.seen;
    match log[i] {
      case Join(u, g) => HandleJoinEffect(k.reg, u, g);
      case Leave(u, g) => HandleLeaveEffect(k.reg, u, g);
      case Deleted(g) =>
        FinishDeletionEffect(k.reg, g, {});
        assert DeletionStarted(log, k', g);
    }
    NewRegKeepsWorker(log, k, k');
  }

  lemma CleanUpKeepsWorker(log: seq<Event>, k: Worker, g: GroupId, members: set<UserId>)
    requires WorkerSound(log, k) && g in k.deleting
    ensures WorkerSound(log, CleanUp(k, g, members))
    ensures CleanUp(k, g, members).reg.conns == k.reg.conns
  {
    FinishDeletionEffect(k.reg, g, members);
    var k' := CleanUp(k, g, members);
    assert log + [] == log;
    StartedStaysStarted(log, [], k, k', g);
    NewRegKeepsWorker(log, k, k');
  }

  /** The same sockets, at the same workers and users; only phases may differ. */
  ghost predicate SameSockets(c: Cluster, c': Cluster) {
    && c'.home == c.home && c'.socks.Keys == c.socks.Keys
    && forall s <- c.socks :: c'.socks[s].worker == c.socks[s].worker && c'.socks[s].user == c.socks[s].user
  }

  lemma SocketsStay(c: Cluster, c': Cluster)
    requires SocketsMatch(c) && SameSockets(c, c')
    requires c'.workers.Keys == c.workers.Keys
    requires forall w <- c.workers :: c'.workers[w].reg.conns == c.workers[w].reg.conns
    ensures SocketsMatch(c')
  {
    forall w <- c'.workers, u, s ensures c'.workers[w].reg.Live(u, s) <==>
          s in c'.socks && c'.socks[s].worker == w && c'.socks[s].user == u
    {
      assert c'.workers[w].reg.Live(u, s) == c.workers[w].reg.Live(u, s);
    }
  }

  /** A step that changes one worker, keeping its sockets, is sound if the worker is. */
  lemma OneWorkerKeepsSound(c: Cluster, c': Cluster, w: WorkerId)
    requires Sound(c) && SameSockets(c, c') && c'.db == c.db && c'.log == c.log
    requires w in c.workers && w in c'.workers && c'.workers == c.workers[w := c'.workers[w]]
    requires WorkerSound(c.log, c'.workers[w]) && c'.workers[w].reg.conns == c.workers[w].reg.conns
    ensures Sound(c')
  {
    SocketsStay(c, c');
  }

  lemma QuietKeepsSound(c: Cluster, c': Cluster)
    requires Sound(c) && SameSockets(c, c') && c'.db == c.db && c'.log == c.log && c'.workers == c.workers
    ensures Sound(c')
  {
    SocketsStay(c, c');
  }

  lemma Assemble(c: Cluster, c': Cluster, w: WorkerId)
    requires Sound(c) && SocketsMatch(c') && c'.db == c.db && c'.log == c.log
    requires w in c.workers && w in c'.workers && c'.workers == c.workers[w := c'.workers[w]]
    requires WorkerSound(c.log, c'.workers[w])
    ensures Sound(c')
  {}

  lemma OpenKeepsSockets(c: Cluster, w: WorkerId, u: UserId, s: SocketId)
    requires SocketsMatch(c) && w in c.workers && s !in c.home && WellFormed(c.workers[w].reg)
    ensures SocketsMatch(ApplyOpen(c, w, u, s))
  {
    AddSocketEffect(c.workers[w].reg, u, s);
    assert s !in c.socks;
  }

  lemma OpenKeepsSound(c: Cluster, w: WorkerId, u: UserId, s: SocketId)
    requires Sound(c) && w in c.workers && s !in c.home
    ensures Sound(ApplyOpen(c, w, u, s))
  {
    var k, k' := c.workers[w], ApplyOpen(c, w, u, s).workers[w];
    AddSocketEffect(k.reg, u, s);
    NewRegKeepsWorker(c.log, k, k');
    OpenKeepsSockets(c, w, u, s);
    Assemble(c, ApplyOpen(c, w, u, s), w);
  }

  lemma CloseKeepsSockets(c: Cluster, s: SocketId, c': Cluster, reg': Registry)
    requires SocketsMatch(c) && s in c.socks && c.socks[s].worker in c.workers
    requires var (w, u) := (c.socks[s].worker, c.socks[s].user);
      && c'.workers == c.workers[w := c.workers[w].(reg := reg')]
      && forall v, t :: reg'.Live(v, t) <==> c.workers[w].reg.Live(v, t) && !(v == u && t == s)
    requires c'.socks == c.socks - {s} && c'.home == c.home
    ensures SocketsMatch(c')
  {
  }

  lemma CloseKeepsSound(c: Cluster, s: SocketId)
    requires Sound(c) && CanClose(c, s)
    ensures Sound(ApplyClose(c, s))
  {
    var (w, u) := (c.socks[s].worker, c.socks[s].user);
    var k, k' := c.workers[w], ApplyClose(c, s).workers[w];
    RemoveSocketEffect(k.reg, u, s);
    NewRegKeepsWorker(c.log, k, k');
    CloseKeepsSockets(c, s, ApplyClose(c, s), k'.reg);
    Assemble(c, ApplyClose(c, s), w);
  }

  lemma RegistryChangeKeepsSound(c: Cluster, c': Cluster, w: WorkerId, k': Worker)
    requires Sound(c) && SameSockets(c, c') && c'.db == c.db && c'.log == c.log
    requires w in c.workers && c'.workers == c.workers[w := k']
    requires WorkerSound(c.log, k') && k'.reg.conns == c.workers[w].reg.conns
    ensures Sound(c')
  {
    OneWorkerKeepsSound(c, c', w);
  }

  lemma MergeFrame(c: Cluster, s: SocketId)
    requires CanMerge(c, s)
    ensures var (c', conn) := (ApplyMerge(c, s), c.socks[s]);
      SameSockets(c, c') && c'.db == c.db && c'.log == c.log
      && c'.workers == WithReg(c.workers, conn.worker,
           MergeGroups(c.workers[conn.worker].reg, conn.user, s, conn.phase.groups))
  {}

  lemma MergeKeepsWorker(c: Cluster, s: SocketId)
    requires Sound(c) && CanMerge(c, s)
    ensures var Connection(w, u, phase) := c.socks[s];
      var k' := c.workers[w].(reg := MergeGroups(c.workers[w].reg, u, s, phase.groups));
      WorkerSound(c.log, k') && k'.reg.conns == c.workers[w].reg.conns
  {
    var Connection(w, u, phase) := c.socks[s];
    assert c.workers[w].reg.Live(u, s);
    MergeGroupsEffect(c.workers[w].reg, u, s, phase.groups);
    NewRegKeepsWorker(c.log, c.workers[w], c.workers[w].(reg := MergeGroups(c.workers[w].reg, u, s, phase.groups)));
  }

  lemma DeliverSameSockets(c: Cluster, w: WorkerId, i: nat)
    requires w in c.workers && i < |c.log|
    ensures SameSockets(c, ApplyDeliver(c, w, i))
  {}

  lemma DeliverFrame(c: Cluster, w: WorkerId, i: nat)
    requires w in c.workers && i < |c.log|
    ensures var c' := ApplyDeliver(c, w, i);
      c'.db == c.db && c'.log == c.log && c'.workers == c.workers[w := HandlePush(c.workers[w], i, c.log[i])]
  {}

  lemma FinishDeletionFrame(c: Cluster, w: WorkerId, g: GroupId, members: set<UserId>)
    requires w in c.workers
    ensures var c' := ApplyFinishDeletion(c, w, g, members);
      SameSockets(c, c') && c'.db == c.db && c'.log == c.log
      && c'.workers == c.workers[w := CleanUp(c.workers[w], g, members)]
  {}

  lemma TransactKeepsSound(c: Cluster, op: Op)
    requires Sound(c) && FreshKeys(c.db, op)
    ensures Sound(ApplyTransact(c, op))
  {
    TransactKeepsDb(c.db, c.log, op);
    SocketsStay(c, ApplyTransact(c, op));
    var o := Exec(c.db, op).1;
    if o.Committed? && o.push.Some? {
      forall w <- c.workers { LongerLogKeepsWorker(c.log, o.push.value, c.workers[w]); }
    }
  }

  /** Steps that change no registry and open or close no socket. */
  predicate Quiet(step: Step) {
    step.Increment? || step.FetchGroups? || step.FetchFails? || step.RemoveActive?
    || step.Decrement? || step.HashDelete? || step.Dispatch? || step.SendTo?
  }

  lemma QuietFrame(c: Cluster, step: Step)
    requires Enabled(c, step) && Quiet(step)
    ensures var c' := Apply(c, step);
      SameSockets(c, c') && c'.db == c.db && c'.log == c.log && c'.workers == c.workers && c'.readded == c.readded
  {}

  lemma MergeKeepsSound(c: Cluster, s: SocketId)
    requires Sound(c) && CanMerge(c, s)
    ensures Sound(ApplyMerge(c, s))
  {
    MergeFrame(c, s);
    MergeKeepsWorker(c, s);
    var w := c.socks[s].worker;
    RegistryChangeKeepsSound(c, ApplyMerge(c, s), w, ApplyMerge(c, s).workers[w]);
  }

  lemma DeliverKeepsSound(c: Cluster, w: WorkerId, i: nat)
    requires Sound(c) && CanDeliver(c, w, i)
    ensures Sound(ApplyDeliver(c, w, i))
  {
    DeliverFrame(c, w, i);
    DeliverSameSockets(c, w, i);
    HandlePushKeepsWorker(c.log, c.workers[w], i);
    RegistryChangeKeepsSound(c, ApplyDeliver(c, w, i), w, HandlePush(c.workers[w], i, c.log[i]));
  }

  lemma FinishDeletionKeepsSound(c: Cluster, w: WorkerId, g: GroupId, members: set<UserId>)
    requires Sound(c) && w in c.workers && g in c.workers[w].deleting
    ensures Sound(ApplyFinishDeletion(c, w, g, members))
  {
    FinishDeletionFrame(c, w, g, members);
    CleanUpKeepsWorker(c.log, c.workers[w], g, members);
    RegistryChangeKeepsSound(c, ApplyFinishDeletion(c, w, g, members), w, CleanUp(c.workers[w], g, members));
  }

  lemma StepKeepsSound(c: Cluster, step: Step)
    requires Sound(c) && Enabled(c, step)
    ensures Sound(Apply(c, step))
  {
    if Quiet(step) {
      QuietStepKeepsSound(c, step);
    } else {
      match step
      case Transact(op) => TransactKeepsSound(c, op);
      case Open(w, u, s) => OpenKeepsSound(c, w, u, s);
      case Close(s) => CloseKeepsSound(c, s);
      case Merge(s) => MergeKeepsSound(c, s);
      case Deliver(w, i) => DeliverKeepsSound(c, w, i);
      case FinishDeletion(w, g) => FinishDeletionKeepsSound(c, w, g, c.workers[w].deleting[g]);
    }
  }

  lemma QuietStepKeepsSound(c: Cluster, step: Step)
    requires Sound(c) && Enabled(c, step) && Quiet(step)
    ensures Sound(Apply(c, step))
  {
    QuietFrame(c, step);
    QuietKeepsSound(c, Apply(c, step));
  }
}
