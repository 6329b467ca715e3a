/** The whole cluster as a transition system: the database, the pushes in commit
    order, every worker's registry with its registrations and deletions in flight,
    and the presence counters in Redis. One step is one stretch of code between two
    awaits, one committed transaction or one Redis command. */
module Clusters {
  import opened Ids
  import opened Groups
  import Registries
  type Registry = Registries.Registry

  /** How far register_connection has come for a socket. `undone` is history: the
      groups whose LEAVE or deletion took effect on the worker after the read and
      was not followed by a JOIN. `ok` says whether the database read succeeded. */
  datatype Phase =
    | Added
    | Counted
    | Fetched(groups: set<GroupId>, undone: set<GroupId>, ok: bool)
    | Registered(ok: bool)

  datatype Connection = Connection(worker: WorkerId, user: UserId, phase: Phase)

  /** `seen` are the pushes whose handler has started; `deleting` maps each group
      whose deletion handler is awaiting its sends to the snapshot of members. */
  datatype Worker = Worker(reg: Registry, seen: set<nat>, deleting: map<GroupId, set<UserId>>)

  /** Where remove_active_user stands: before HINCRBY, or between it and HDEL. */
  datatype Removal = BeforeDecrement | BeforeDelete

  datatype Cluster = Cluster(
    db: Db,
    log: seq<Event>,
    workers: map<WorkerId, Worker>,
    socks: map<SocketId, Connection>,
    presence: map<UserId, int>,
    removals: map<(WorkerId, UserId), Removal>,
    sending: map<(WorkerId, MessageId), set<UserId>>,
    // History: owner of every socket ever opened, closes that were not the last on
    // their worker, counter values thrown away by HDEL, stale re-additions, frames.
    home: map<SocketId, (WorkerId, UserId)>,
    keptCloses: map<UserId, int>,
    dropped: map<UserId, int>,
    readded: set<(WorkerId, UserId, GroupId)>,
    frames: multiset<(SocketId, MessageId)>)

  datatype Step =
    | Transact(op: Op)
    | Open(worker: WorkerId, user: UserId, sock: SocketId)
    | Increment(sock: SocketId)
    | FetchGroups(sock: SocketId)
    | FetchFails(sock: SocketId)
    | Merge(sock: SocketId)
    | Close(sock: SocketId)
    | RemoveActive(worker: WorkerId, user: UserId)
    | Decrement(worker: WorkerId, user: UserId)
    | HashDelete(worker: WorkerId, user: UserId)
    | Deliver(worker: WorkerId, index: nat)
    | FinishDeletion(worker: WorkerId, group: GroupId)
    | Dispatch(worker: WorkerId, message: MessageId, group: GroupId, sender: Option<UserId>)
    | SendTo(worker: WorkerId, message: MessageId, user: UserId)

  predicate Init(c: Cluster) {
    && c.db == Groups.EMPTY && c.log == []
    && (forall w <- c.workers :: c.workers[w] == Worker(Registries.EMPTY, {}, map[]))
    && c.socks == map[] && c.presence == map[] && c.removals == map[] && c.sending == map[]
    && c.home == map[] && c.keptCloses == map[] && c.dropped == map[] && c.readded == {}
    && c.frames == multiset{}
  }

  /** Pushes about the same user and group, or a group's deletion and anything in it. */
  predicate Conflict(a: Event, b: Event) {
    a.group == b.group && (a.Deleted? || b.Deleted? || a.user == b.user)
  }

  predicate Touches(e: Event, u: UserId, g: GroupId) {
    e.group == g && (e.Deleted? || e.user == u)
  }

  predicate CanMerge(c: Cluster, s: SocketId) {
    s in c.socks && c.socks[s].phase.Fetched? && c.socks[s].worker in c.workers
  }

  /** The endpoint unregisters only what it registered, and under the user's lock,
      which a removal in progress on the same worker still holds. */
  predicate CanClose(c: Cluster, s: SocketId) {
    && s in c.socks && c.socks[s].phase.Registered? && c.socks[s].worker in c.workers
    && (c.socks[s].worker, c.socks[s].user) !in c.removals
  }

  /** Every push reaches every worker, pushes that conflict in commit order. */
  predicate CanDeliver(c: Cluster, w: WorkerId, i: nat) {
    && w in c.workers && i < |c.log| && i !in c.workers[w].seen
    && forall j | 0 <= j < i && Conflict(c.log[j], c.log[i]) :: j in c.workers[w].seen
  }

  predicate Enabled(c: Cluster, step: Step) {
    match step
    case Transact(op) => FreshKeys(c.db, op)
    case Open(w, _, s) => w in c.workers && s !in c.home
    case Increment(s) => s in c.socks && c.socks[s].phase.Added?
    case FetchGroups(s) => s in c.socks && c.socks[s].phase.Counted?
    case FetchFails(s) => s in c.socks && c.socks[s].phase.Counted?
    case Merge(s) => CanMerge(c, s)
    case Close(s) => CanClose(c, s)
    case RemoveActive(w, u) => (w, u) in c.removals && c.removals[(w, u)].BeforeDecrement?
    case Decrement(w, u) => (w, u) in c.removals && c.removals[(w, u)].BeforeDecrement?
    case HashDelete(w, u) => (w, u) in c.removals && c.removals[(w, u)].BeforeDelete?
    case Deliver(w, i) => CanDeliver(c, w, i)
    case FinishDeletion(w, g) => w in c.workers && g in c.workers[w].deleting
    case Dispatch(w, m, _, _) => w in c.workers && (w, m) !in c.sending
    case SendTo(w, m, u) => w in c.workers && (w, m) in c.sending && u in c.sending[(w, m)]
  }

  function Apply(c: Cluster, step: Step): Cluster
    requires Enabled(c, step)
  {
    match step
    case Transact(op) => ApplyTransact(c, op)
    case Open(w, u, s) => ApplyOpen(c, w, u, s)
    case Increment(s) => ApplyIncrement(c, s)
    case FetchGroups(s) => ApplyFetch(c, s, UserGroups(c.db, c.socks[s].user), true)
    case FetchFails(s) => ApplyFetch(c, s, {}, false)
    case Merge(s) => ApplyMerge(c, s)
    case Close(s) => ApplyClose(c, s)
    case RemoveActive(w, u) => ApplyRemoveActive(c, w, u)
    case Decrement(w, u) => ApplyDecrement(c, w, u)
    case HashDelete(w, u) => ApplyHashDelete(c, w, u)
    case Deliver(w, i) => ApplyDeliver(c, w, i)
    case FinishDeletion(w, g) => ApplyFinishDeletion(c, w, g, c.workers[w].deleting[g])
    case Dispatch(w, m, g, sender) => ApplyDispatch(c, w, m, g, sender)
    case SendTo(w, m, u) => ApplySendTo(c, w, m, u)
  }

  function ApplyTransact(c: Cluster, op: Op): Cluster {
    var (db, outcome) := Exec(c.db, op);
    c.(db := db,
       log := if outcome.Committed? && outcome.push.Some? then c.log + [outcome.push.value] else c.log)
  }

  function WithReg(workers: map<WorkerId, Worker>, w: WorkerId, reg: Registry): map<WorkerId, Worker>
    requires w in workers
  {
    workers[w := workers[w].(reg := reg)]
  }

  function WithPhase(socks: map<SocketId, Connection>, s: SocketId, phase: Phase): map<SocketId, Connection>
    requires s in socks
  {
    socks[s := socks[s].(phase := phase)]
  }

  function ApplyOpen(c: Cluster, w: WorkerId, u: UserId, s: SocketId): Cluster
    requires w in c.workers
  {
    c.(workers := WithReg(c.workers, w, Registries.AddSocket(c.workers[w].reg, u, s)),
       socks := c.socks[s := Connection(w, u, Added)],
       home := c.home[s := (w, u)])
  }

  /** HINCRBY +1. */
  function ApplyIncrement(c: Cluster, s: SocketId): Cluster
    requires s in c.socks
  {
    var u := c.socks[s].user;
    c.(socks := WithPhase(c.socks, s, Counted), presence := c.presence[u := Count(c.presence, u) + 1])
  }

  /** The join of groups and memberships for one user. */
  function UserGroups(db: Db, u: UserId): set<GroupId> {
    set p | p in db.members && p.1 == u && p.0 in db.groups :: p.0
  }

  function ApplyFetch(c: Cluster, s: SocketId, gs: set<GroupId>, ok: bool): Cluster
    requires s in c.socks
  {
    c.(socks := WithPhase(c.socks, s, Fetched(gs, {}, ok)))
  }

  function ApplyMerge(c: Cluster, s: SocketId): Cluster
    requires s in c.socks && c.socks[s].phase.Fetched? && c.socks[s].worker in c.workers
  {
    var Connection(w, u, phase) := c.socks[s];
    var late := set g | g in phase.groups * phase.undone :: (w, u, g);
    c.(workers := WithReg(c.workers, w, Registries.MergeGroups(c.workers[w].reg, u, s, phase.groups)),
       socks := WithPhase(c.socks, s, Registered(phase.ok)),
       readded := c.readded + late)
  }

  function ApplyClose(c: Cluster, s: SocketId): Cluster
    requires s in c.socks && c.socks[s].worker in c.workers
  {
    var (w, u) := (c.socks[s].worker, c.socks[s].user);
    var last := Registries.IsLastSocket(c.workers[w].reg, u, s);
    c.(workers := WithReg(c.workers, w, Registries.RemoveSocket(c.workers[w].reg, u, s)),
       socks := c.socks - {s},
       removals := if last then c.removals[(w, u) := BeforeDecrement] else c.removals,
       readded := if last then set k | k in c.readded && !(k.0 == w && k.1 == u) else c.readded,
       keptCloses := if last then c.keptCloses else c.keptCloses[u := Count(c.keptCloses, u) + 1])
  }

  /** HINCRBY -1; the removal goes on to HDEL only when the result is not positive. */
  function ApplyDecrement(c: Cluster, w: WorkerId, u: UserId): Cluster {
    var count := Count(c.presence, u) - 1;
    c.(presence := c.presence[u := count],
       removals := if count <= 0 then c.removals[(w, u) := BeforeDelete] else c.removals - {(w, u)})
  }

  function ApplyHashDelete(c: Cluster, w: WorkerId, u: UserId): Cluster {
    c.(dropped := c.dropped[u := Count(c.dropped, u) + Count(c.presence, u)],
       presence := c.presence - {u},
       removals := c.removals - {(w, u)})
  }

  /** remove_active_user with nothing between its two commands. */
  function ApplyRemoveActive(c: Cluster, w: WorkerId, u: UserId): Cluster {
    var c' := ApplyDecrement(c, w, u);
    if (w, u) in c'.removals then ApplyHashDelete(c', w, u) else c'
  }

  /** Handling push number i on a worker, up to the handler's first await. */
  function HandlePush(k: Worker, i: nat, e: Event): Worker {
    var k' := k.(seen := k.seen + {i});
    match e
    case Join(u, g) => k'.(reg := Registries.HandleJoin(k.reg, u, g))
    case Leave(u, g) => k'.(reg := Registries.HandleLeave(k.reg, u, g))
    case Deleted(g) =>
      // Without local members there is nothing to await before the clean-up.
      var members := At(k.reg.groupConns, g);
      if members == {} then CleanUp(k', g, {}) else k'.(deleting := k.deleting[g := members])
  }

  function CleanUp(k: Worker, g: GroupId, members: set<UserId>): Worker {
    k.(reg := Registries.FinishDeletion(k.reg, g, members), deleting := k.deleting - {g})
  }

  /** Bookkeeping for registrations of `who` (everyone, for None) that have read but
      not merged: whether g has been taken away since the read. */
  function Record(socks: map<SocketId, Connection>, w: WorkerId, who: Option<UserId>, g: GroupId, gone: bool)
    : map<SocketId, Connection>
  {
    map s | s in socks ::
      var conn := socks[s];
      if conn.worker == w && (who.None? || conn.user == who.value) && conn.phase.Fetched? then
        conn.(phase := conn.phase.(undone := if gone then conn.phase.undone + {g} else conn.phase.undone - {g}))
      else conn
  }

  function Forget(readded: set<(WorkerId, UserId, GroupId)>, w: WorkerId, who: Option<UserId>, g: GroupId)
    : set<(WorkerId, UserId, GroupId)>
  {
    set k | k in readded && !(k.0 == w && (who.None? || k.1 == who.value) && k.2 == g)
  }

  function ApplyDeliver(c: Cluster, w: WorkerId, i: nat): Cluster
    requires w in c.workers && i < |c.log|
  {
    var e := c.log[i];
    var k' := HandlePush(c.workers[w], i, e);
    var waiting := e.Deleted? && e.group in k'.deleting;
    var who := if e.Deleted? then None else Some(e.user);
    c.(workers := c.workers[w := k'],
       socks := if waiting then c.socks else Record(c.socks, w, who, e.group, !e.Join?),
       readded := if waiting then c.readded else Forget(c.readded, w, who, e.group))
  }

  function ApplyFinishDeletion(c: Cluster, w: WorkerId, g: GroupId, members: set<UserId>): Cluster
    requires w in c.workers
  {
    c.(workers := c.workers[w := CleanUp(c.workers[w], g, members)],
       socks := Record(c.socks, w, None, g, true),
       readded := Forget(c.readded, w, None, g))
  }

  /** Snapshot of the group's local members; one send task for each follows. */
  function ApplyDispatch(c: Cluster, w: WorkerId, m: MessageId, g: GroupId, sender: Option<UserId>): Cluster
    requires w in c.workers
  {
    var members := set u | u in At(c.workers[w].reg.groupConns, g) && Some(u) != sender;
    c.(sending := c.sending[(w, m) := members])
  }

  /** One send task: a frame for each socket the user has when the task starts. */
  function ApplySendTo(c: Cluster, w: WorkerId, m: MessageId, u: UserId): Cluster
    requires w in c.workers && (w, m) in c.sending
  {
    var out := set s | s in At(c.workers[w].reg.conns, u) :: (s, m);
    c.(sending := c.sending[(w, m) := c.sending[(w, m)] - {u}],
       frames := c.frames + multiset(out))
  }

  /** s is an open socket of u on w. */
  predicate Mine(c: Cluster, w: WorkerId, u: UserId, s: SocketId) {
    s in c.socks && c.socks[s].worker == w && c.socks[s].user == u
  }

  /** remove_active_user is never interrupted between its two commands. */
  predicate Uninterrupted(step: Step) {
    !step.Decrement? && !step.HashDelete?
  }

  /** Every step is enabled in the state the earlier ones lead to. */
  predicate CanRun(c: Cluster, steps: seq<Step>)
    decreases |steps|, 0
  {
    steps == [] ||
    var before := steps[..|steps| - 1];
    CanRun(c, before) && Enabled(Run(c, before), steps[|steps| - 1])
  }

  function Run(c: Cluster, steps: seq<Step>): Cluster
    requires CanRun(c, steps)
    decreases |steps|, 1
  {
    if steps == [] then c else Apply(Run(c, steps[..|steps| - 1]), steps[|steps| - 1])
  }

  /** c is reached from an initial state by these steps. */
  ghost predicate Reached(c0: Cluster, steps: seq<Step>, c: Cluster) {
    Init(c0) && CanRun(c0, steps) && c == Run(c0, steps)
  }

  lemma RunOneMore(c: Cluster, steps: seq<Step>, step: Step)
    requires CanRun(c, steps) && Enabled(Run(c, steps), step)
    ensures CanRun(c, steps + [step]) && Run(c, steps + [step]) == Apply(Run(c, steps), step)
  {
    assert (steps + [step])[..|steps|] == steps;
  }

  lemma {:induction false} PrefixRuns(c0: Cluster, steps: seq<Step>, n: nat)
    requires CanRun(c0, steps) && n <= |steps|
    ensures CanRun(c0, steps[..n])
    decreases |steps|
  {
    if n == |steps| {
      assert steps[..n] == steps;
    } else {
      assert steps[..|steps| - 1][..n] == steps[..n];
      PrefixRuns(c0, steps[..|steps| - 1], n);
    }
  }

  /** The state before step n. */
  function StateAt(c0: Cluster, steps: seq<Step>, n: nat): Cluster
    requires CanRun(c0, steps) && n <= |steps|
  {
    PrefixRuns(c0, steps, n);
    Run(c0, steps[..n])
  }

  lemma NextState(c0: Cluster, steps: seq<Step>, n: nat)
    requires CanRun(c0, steps) && n < |steps|
    ensures Enabled(StateAt(c0, steps, n), steps[n])
    ensures StateAt(c0, steps, n + 1) == Apply(StateAt(c0, steps, n), steps[n])
  {
    PrefixRuns(c0, steps, n + 1);
    assert steps[..n + 1][..n] == steps[..n];
  }
}
