/** Runs in which the cluster does what its documentation rules out. */
module ClusterWitnesses {
  import opened Ids
  import opened Groups
  import opened Registries
  import opened Clusters
  import opened ClusterRouting
  import opened ClusterRoutingRuns
  import opened ClusterPresenceRuns

  const START := Cluster(Groups.EMPTY, [], map[0 := Worker(Registries.EMPTY, {}, map[])], map[], map[], map[], map[],
                         map[], map[], map[], {}, multiset{})

  lemma Extend(c0: Cluster, steps: seq<Step>, c: Cluster, step: Step) returns (steps': seq<Step>, c': Cluster)
    requires Reached(c0, steps, c) && Enabled(c, step)
    ensures steps' == steps + [step] && Reached(c0, steps', c') && c' == Apply(c, step)
  {
    RunOneMore(c0, steps, step);
    steps', c' := steps + [step], Apply(c, step);
  }

  /** The tables the presence counters depend on, besides the open sockets. */
  predicate SameRemovals(c: Cluster, c': Cluster) {
    c'.removals == c.removals && c'.dropped == c.dropped && c'.keptCloses == c.keptCloses
    && c'.workers.Keys == c.workers.Keys
  }

  /** The tables, their pushes, what the workers have handled of them, and the messages. */
  predicate SamePushes(c: Cluster, c': Cluster) {
    && c'.sending == c.sending && c'.frames == c.frames
    && c'.db == c.db && c'.log == c.log && c'.workers.Keys == c.workers.Keys
    && forall w <- c.workers :: c'.workers[w].seen == c.workers[w].seen
  }

  /** Whatever steps were added leave remove_active_user uninterrupted. */
  predicate AddsUninterrupted(steps: seq<Step>, steps': seq<Step>) {
    forall step <- steps' :: step in steps || Uninterrupted(step)
  }

  /** A connection registers completely. */
  lemma Connect(c0: Cluster, steps: seq<Step>, c: Cluster, w: WorkerId, u: UserId, s: SocketId)
    returns (steps': seq<Step>, c': Cluster)
    requires Reached(c0, steps, c) && w in c.workers && s !in c.home
    ensures AddsUninterrupted(steps, steps') && Reached(c0, steps', c')
    ensures c'.socks == c.socks[s := Connection(w, u, Registered(true))]
    ensures c'.presence == c.presence[u := Count(c.presence, u) + 1]
    ensures SameRemovals(c, c') && SamePushes(c, c') && c'.home == c.home[s := (w, u)]
  {
    var steps1, c1 := OpenedCounted(c0, steps, c, w, u, s);
    steps', c' := ReadMerged(c0, steps1, c1, s);
  }

  lemma OpenedCounted(c0: Cluster, steps: seq<Step>, c: Cluster, w: WorkerId, u: UserId, s: SocketId)
    returns (steps': seq<Step>, c': Cluster)
    requires Reached(c0, steps, c) && w in c.workers && s !in c.home
    ensures AddsUninterrupted(steps, steps') && Reached(c0, steps', c')
    ensures c'.socks == c.socks[s := Connection(w, u, Counted)] && c'.home == c.home[s := (w, u)]
    ensures c'.presence == c.presence[u := Count(c.presence, u) + 1] && SameRemovals(c, c') && SamePushes(c, c')
  {
    var steps1, c1 := Opened(c0, steps, c, w, u, s);
    steps', c' := Incremented(c0, steps1, c1, s);
  }

  lemma ReadMerged(c0: Cluster, steps: seq<Step>, c: Cluster, s: SocketId)
    returns (steps': seq<Step>, c': Cluster)
    requires Reached(c0, steps, c) && s in c.socks && c.socks[s].phase.Counted? && c.socks[s].worker in c.workers
    ensures AddsUninterrupted(steps, steps') && Reached(c0, steps', c')
    ensures c'.socks == c.socks[s := c.socks[s].(phase := Registered(true))] && c'.home == c.home
    ensures c'.presence == c.presence && SameRemovals(c, c') && SamePushes(c, c')
  {
    var steps1, c1 := Read(c0, steps, c, s);
    steps', c' := Merged(c0, steps1, c1, s);
  }

  lemma Opened(c0: Cluster, steps: seq<Step>, c: Cluster, w: WorkerId, u: UserId, s: SocketId)
    returns (steps': seq<Step>, c': Cluster)
    requires Reached(c0, steps, c) && w in c.workers && s !in c.home
    ensures AddsUninterrupted(steps, steps') && Reached(c0, steps', c')
    ensures c'.socks == c.socks[s := Connection(w, u, Added)] && c'.home == c.home[s := (w, u)]
    ensures c'.presence == c.presence && SameRemovals(c, c') && SamePushes(c, c')
  {
    steps', c' := Extend(c0, steps, c, Open(w, u, s));
    assert c' == ApplyOpen(c, w, u, s);
  }

  lemma Incremented(c0: Cluster, steps: seq<Step>, c: Cluster, s: SocketId)
    returns (steps': seq<Step>, c': Cluster)
    requires Reached(c0, steps, c) && s in c.socks && c.socks[s].phase.Added?
    ensures AddsUninterrupted(steps, steps') && Reached(c0, steps', c')
    ensures c'.socks == c.socks[s := c.socks[s].(phase := Counted)] && c'.home == c.home
    ensures c'.presence == c.presence[c.socks[s].user := Count(c.presence, c.socks[s].user) + 1]
    ensures SameRemovals(c, c') && SamePushes(c, c')
  {
    steps', c' := Extend(c0, steps, c, Increment(s));
    assert c' == ApplyIncrement(c, s);
  }

  lemma Read(c0: Cluster, steps: seq<Step>, c: Cluster, s: SocketId) returns (steps': seq<Step>, c': Cluster)
    requires Reached(c0, steps, c) && s in c.socks && c.socks[s].phase.Counted?
    ensures AddsUninterrupted(steps, steps') && Reached(c0, steps', c')
    ensures var read := Fetched(UserGroups(c.db, c.socks[s].user), {}, true);
      c'.socks == c.socks[s := c.socks[s].(phase := read)] && c'.home == c.home
    ensures c'.presence == c.presence && SameRemovals(c, c') && SamePushes(c, c')
  {
    steps', c' := Extend(c0, steps, c, FetchGroups(s));
    assert c' == ApplyFetch(c, s, UserGroups(c.db, c.socks[s].user), true);
  }

  lemma Merged(c0: Cluster, steps: seq<Step>, c: Cluster, s: SocketId) returns (steps': seq<Step>, c': Cluster)
    requires Reached(c0, steps, c) && CanMerge(c, s)
    ensures AddsUninterrupted(steps, steps') && Reached(c0, steps', c')
    ensures c'.socks == c.socks[s := c.socks[s].(phase := Registered(c.socks[s].phase.ok))] && c'.home == c.home
    ensures c'.presence == c.presence && SameRemovals(c, c') && SamePushes(c, c')
  {
    steps', c' := Extend(c0, steps, c, Merge(s));
    assert c' == ApplyMerge(c, s);
  }

  /** A registered socket closes: whether it was its worker's last for the user is
      decided by the other open sockets. */
  lemma Disconnect(c0: Cluster, steps: seq<Step>, c: Cluster, s: SocketId) returns (steps': seq<Step>, c': Cluster)
    requires Reached(c0, steps, c) && CanClose(c, s)
    ensures AddsUninterrupted(steps, steps') && Reached(c0, steps', c')
    ensures c'.socks == c.socks - {s} && c'.presence == c.presence && c'.dropped == c.dropped
    ensures c'.home == c.home && c'.workers.Keys == c.workers.Keys
    ensures var (w, u) := (c.socks[s].worker, c.socks[s].user);
      c'.removals == if exists t :: t != s && Mine(c, w, u, t) then c.removals
                     else c.removals[(w, u) := BeforeDecrement]
  {
    LastOnWorker(c0, steps, c, s);
    steps', c' := Extend(c0, steps, c, Close(s));
    assert c' == ApplyClose(c, s);
  }

  /** The registry's test says whether the user has another open socket on the worker. */
  lemma LastOnWorker(c0: Cluster, steps: seq<Step>, c: Cluster, s: SocketId)
    requires Reached(c0, steps, c) && CanClose(c, s)
    ensures var (w, u) := (c.socks[s].worker, c.socks[s].user);
      IsLastSocket(c.workers[w].reg, u, s) <==> !exists t :: t != s && Mine(c, w, u, t)
  {
    var (w, u) := (c.socks[s].worker, c.socks[s].user);
    RunKeepsRouting(c0, steps);
    var others := At(c.workers[w].reg.conns, u) - {s};
    forall t ensures t in others <==> t != s && Mine(c, w, u, t) {
      assert c.workers[w].reg.Live(u, t) <==> Mine(c, w, u, t);
    }
    if others != {} {
      var t :| t in others;
    }
  }

  /** A user opens two sockets on one worker and closes both. The one decrement does
      not undo the two increments: the user stays listed with no socket open. */
  lemma ClosedButListed() returns (steps: seq<Step>, c: Cluster)
    ensures Reached(START, steps, c) && (forall step <- steps :: Uninterrupted(step)) && AtRest(c, 5)
    ensures c.socks == map[] && 5 in c.presence
  {
    var d;
    steps, d := TwoConnected();
    steps, d := Disconnect(START, steps, d, 1);
    steps, d := Disconnect(START, steps, d, 2);
    steps, c := Extend(START, steps, d, RemoveActive(0, 5));
    assert c == ApplyRemoveActive(d, 0, 5);
  }

  lemma TwoConnected() returns (steps: seq<Step>, c: Cluster)
    ensures Reached(START, steps, c) && (forall step <- steps :: Uninterrupted(step))
    ensures c.socks == map[1 := Connection(0, 5, Registered(true)), 2 := Connection(0, 5, Registered(true))]
    ensures c.presence == map[5 := 2] && c.removals == map[] && 0 in c.workers
    ensures Mine(c, 0, 5, 2)
  {
    steps, c := Connect(START, [], START, 0, 5, 1);
    steps, c := Connect(START, steps, c, 0, 5, 2);
  }

  /** A user reconnects between the decrement and the HDEL of their last close: the
      counter of the new socket is deleted, and a registered user is not listed. */
  lemma RegisteredButNotListed() returns (steps: seq<Step>, c: Cluster)
    ensures Reached(START, steps, c) && AtRest(c, 5)
    ensures 2 in c.socks && c.socks[2] == Connection(0, 5, Registered(true)) && 5 !in c.presence
  {
    var d;
    steps, d := Decremented();
    steps, d := Connect(START, steps, d, 0, 5, 2);
    steps, c := Extend(START, steps, d, HashDelete(0, 5));
    assert c == ApplyHashDelete(d, 0, 5);
  }

  /** The user's one socket is closed, the counter is zero, and HDEL is to come. */
  lemma Decremented() returns (steps: seq<Step>, c: Cluster)
    ensures Reached(START, steps, c) && c.socks == map[] && 2 !in c.home && 0 in c.workers
    ensures c.removals == map[(0, 5) := BeforeDelete]
  {
    var d;
    steps, d := Connect(START, [], START, 0, 5, 1);
    steps, d := Disconnect(START, steps, d, 1);
    steps, c := Extend(START, steps, d, Decrement(0, 5));
    assert c == ApplyDecrement(d, 0, 5);
  }

  predicate NothingSent(c: Cluster) { c.sending == map[] && c.frames == multiset{} }

  lemma GroupExists() returns (steps: seq<Step>, c: Cluster)
    ensures Reached(START, steps, c) && c.log == [Join(1, 1)] && c.home == map[] && c.socks == map[]
    ensures c.db == Db({1}, map[1 := 1], {(1, 1)}, {}, {1})
    ensures 0 in c.workers && c.workers[0].reg == Registries.EMPTY
    ensures c.workers[0].seen == {0} && c.workers[0].deleting == map[] && NothingSent(c)
  {
    var c1, c2;
    steps, c1 := Extend(START, [], START, Transact(CreateUser(1)));
    assert c1 == ApplyTransact(START, CreateUser(1)) && c1.db == Db({1}, map[], {}, {}, {});
    steps, c2 := Extend(START, steps, c1, Transact(CreateGroup(1, 1)));
    assert c2 == ApplyTransact(c1, CreateGroup(1, 1));
    steps, c := Extend(START, steps, c2, Deliver(0, 0));
    assert c == ApplyDeliver(c2, 0, 0);
  }

  /** User 1 is registering, and has not read yet. */
  lemma GroupCounted() returns (steps: seq<Step>, c: Cluster)
    ensures Reached(START, steps, c) && c.log == [Join(1, 1)]
    ensures c.db == Db({1}, map[1 := 1], {(1, 1)}, {}, {1})
    ensures 0 in c.workers && c.workers[0].seen == {0} && c.workers[0].deleting == map[]
    ensures c.workers[0].reg.groupConns == map[] && c.socks == map[9 := Connection(0, 1, Counted)]
  {
    var c1, c2;
    steps, c1 := GroupExists();
    steps, c2 := Extend(START, steps, c1, Open(0, 1, 9));
    assert c2 == ApplyOpen(c1, 0, 1, 9);
    steps, c := Extend(START, steps, c2, Increment(9));
    assert c == ApplyIncrement(c2, 9);
  }

  /** The read that still finds group 1 is behind it. */
  lemma GroupRead() returns (steps: seq<Step>, c: Cluster)
    ensures Reached(START, steps, c) && c.log == [Join(1, 1)]
    ensures c.db == Db({1}, map[1 := 1], {(1, 1)}, {}, {1})
    ensures 0 in c.workers && c.workers[0].seen == {0} && c.workers[0].deleting == map[]
    ensures c.workers[0].reg.groupConns == map[]
    ensures c.socks == map[9 := Connection(0, 1, Fetched({1}, {}, true))]
  {
    var c1;
    steps, c1 := GroupCounted();
    steps, c := Extend(START, steps, c1, FetchGroups(9));
    assert (1, 1) in c1.db.members && UserGroups(c1.db, 1) == {1};
    assert c == ApplyFetch(c1, 9, {1}, true);
  }

  lemma GroupDeleted() returns (steps: seq<Step>, c: Cluster)
    ensures Reached(START, steps, c) && c.log == [Join(1, 1), Event.Deleted(1)]
    ensures c.db == Db({1}, map[], {}, {}, {1})
    ensures 0 in c.workers && c.workers[0].seen == {0} && c.workers[0].deleting == map[]
    ensures c.workers[0].reg.groupConns == map[]
    ensures c.socks == map[9 := Connection(0, 1, Fetched({1}, {}, true))]
  {
    var c1;
    steps, c1 := GroupRead();
    steps, c := Extend(START, steps, c1, Transact(DeleteGroup(1, 1)));
    assert c == ApplyTransact(c1, DeleteGroup(1, 1));
  }

  lemma GroupGone() returns (steps: seq<Step>, c: Cluster)
    ensures Reached(START, steps, c) && c.log == [Join(1, 1), Event.Deleted(1)]
    ensures c.db == Db({1}, map[], {}, {}, {1})
    ensures 0 in c.workers && c.workers[0].seen == {0, 1} && c.workers[0].deleting == map[]
    ensures CanMerge(c, 9) && Mine(c, 0, 1, 9) && 1 in c.socks[9].phase.groups
  {
    var c1;
    steps, c1 := GroupDeleted();
    steps, c := Extend(START, steps, c1, Deliver(0, 1));
    assert c == ApplyDeliver(c1, 0, 1);
  }

  lemma MergeRoutes(c: Cluster, s: SocketId, g: GroupId)
    requires CanMerge(c, s) && g in c.socks[s].phase.groups
    requires var reg := c.workers[c.socks[s].worker].reg; WellFormed(reg) && reg.Live(c.socks[s].user, s)
    ensures var (w, c') := (c.socks[s].worker, ApplyMerge(c, s));
      && c'.db == c.db && c'.log == c.log && w in c'.workers && c'.workers[w].reg.Routed(c.socks[s].user, g)
      && c'.workers[w].seen == c.workers[w].seen && c'.workers[w].deleting == c.workers[w].deleting
  {
    var Connection(w, u, phase) := c.socks[s];
    MergeGroupsEffect(c.workers[w].reg, u, s, phase.groups);
  }

  lemma OpenIsLive(steps: seq<Step>, c: Cluster, w: WorkerId, u: UserId, s: SocketId)
    requires Reached(START, steps, c) && Mine(c, w, u, s)
    ensures w in c.workers && WellFormed(c.workers[w].reg) && c.workers[w].reg.Live(u, s)
  {
    RunKeepsRouting(START, steps);
  }

  /** The deletion is handled between the read and the merge of a registration: every
      push is handled, and the worker still routes a group that no longer exists. */
  lemma RoutedToDeletedGroup() returns (steps: seq<Step>, c: Cluster)
    ensures Reached(START, steps, c) && 0 in c.workers && c.workers[0].deleting == map[]
    ensures Settled(c.log, c.workers[0], 1, 1) && c.workers[0].reg.Routed(1, 1)
    ensures (1, 1) !in c.db.members && 1 in c.db.users
  {
    var c1;
    steps, c1 := GroupGone();
    OpenIsLive(steps, c1, 0, 1, 9);
    MergeRoutes(c1, 9, 1);
    steps, c := Extend(START, steps, c1, Merge(9));
    assert c == ApplyMerge(c1, 9);
  }

  /** Users 1 and 2 are the members of group 1, which user 1 created. */
  lemma TwoMembers() returns (steps: seq<Step>, c: Cluster)
    ensures Reached(START, steps, c) && c.log == [Join(1, 1), Join(2, 1)] && c.home == map[]
    ensures c.db == Db({1, 2}, map[1 := 1], {(1, 1), (1, 2)}, {}, {1})
    ensures 0 in c.workers && c.workers[0].seen == {0} && c.socks == map[] && NothingSent(c)
  {
    var c1, c2;
    steps, c1 := GroupExists();
    steps, c2 := Extend(START, steps, c1, Transact(CreateUser(2)));
    assert c2 == ApplyTransact(c1, CreateUser(2)) && c2.db == Db({1, 2}, map[1 := 1], {(1, 1)}, {}, {1});
    steps, c := Extend(START, steps, c2, Transact(AddMember(1, 1, 2)));
    assert c == ApplyTransact(c2, AddMember(1, 1, 2));
  }

  /** Worker 0 has handled both pushes. */
  lemma BothJoined() returns (steps: seq<Step>, c: Cluster)
    ensures Reached(START, steps, c) && c.log == [Join(1, 1), Join(2, 1)] && c.home == map[]
    ensures c.db == Db({1, 2}, map[1 := 1], {(1, 1), (1, 2)}, {}, {1})
    ensures 0 in c.workers && c.workers[0].seen == {0, 1} && c.socks == map[] && NothingSent(c)
  {
    var c1;
    steps, c1 := TwoMembers();
    steps, c := Extend(START, steps, c1, Deliver(0, 1));
    assert c == ApplyDeliver(c1, 0, 1);
  }

  /** User 2 is online at worker 0, by socket 9. */
  lemma MemberOnline() returns (steps: seq<Step>, c: Cluster)
    ensures Reached(START, steps, c) && 0 in c.workers && c.socks == map[9 := Connection(0, 2, Registered(true))]
    ensures c.db == Db({1, 2}, map[1 := 1], {(1, 1), (1, 2)}, {}, {1}) && NothingSent(c)
    ensures c.log == [Join(1, 1), Join(2, 1)] && c.workers[0].seen == {0, 1}
  {
    var c1;
    steps, c1 := BothJoined();
    steps, c := Connect(START, steps, c1, 0, 2, 9);
  }

  lemma MemberConnected() returns (steps: seq<Step>, c: Cluster)
    ensures Reached(START, steps, c) && 0 in c.workers && c.socks == map[9 := Connection(0, 2, Registered(true))]
    ensures c.db == Db({1, 2}, map[1 := 1], {(1, 1), (1, 2)}, {}, {1}) && NothingSent(c)
    ensures c.log == [Join(1, 1), Join(2, 1)] && c.workers[0].seen == {0, 1}
    ensures Settled(c.log, c.workers[0], 2, 1) && c.workers[0].reg.Routed(2, 1)
  {
    steps, c := MemberOnline();
    NoMissedJoins(START, steps, c, 0, 2, 1, 9);
  }

  /** User 2 is routed to group 1 as a member and deletes the account: every push is
      handled, and the worker still routes the group to a user who is gone. */
  lemma RoutedWithoutAccount() returns (steps: seq<Step>, c: Cluster)
    ensures Reached(START, steps, c) && 0 in c.workers
    ensures Settled(c.log, c.workers[0], 2, 1) && c.workers[0].reg.Routed(2, 1)
    ensures (1, 2) !in c.db.members && 2 !in c.db.users
  {
    var c1;
    steps, c1 := MemberConnected();
    DeleteAccountCommitsIff(c1.db, 2);
    AccountDeletionLeavesRouting(START, steps, c1, 2, 0, 1);
    steps, c := steps + [Transact(DeleteAccount(2))], Apply(c1, Transact(DeleteAccount(2)));
  }

  // What does work.

  /** A group message of user 1 reaches the socket of user 2. */
  lemma MessageArrives() returns (steps: seq<Step>, c: Cluster)
    ensures Reached(START, steps, c) && Mine(c, 0, 2, 9) && c.frames[(9, 77)] == 1
  {
    var c1, c2;
    steps, c1 := MemberConnected();
    steps, c2 := Extend(START, steps, c1, Dispatch(0, 77, 1, Some(1)));
    assert c2 == ApplyDispatch(c1, 0, 77, 1, Some(1));
    SocketIsLive(steps, c2);
    steps, c := Extend(START, steps, c2, SendTo(0, 77, 2));
    assert c == ApplySendTo(c2, 0, 77, 2);
    SendReaches(c2, 0, 77, 2, 9);
  }

  lemma SocketIsLive(steps: seq<Step>, c: Cluster)
    requires Reached(START, steps, c) && Mine(c, 0, 2, 9)
    ensures 0 in c.workers && c.workers[0].reg.Live(2, 9)
  {
    RunKeepsRouting(START, steps);
  }

  lemma SendReaches(c: Cluster, w: WorkerId, m: MessageId, u: UserId, s: SocketId)
    requires w in c.workers && (w, m) in c.sending && c.workers[w].reg.Live(u, s) && c.frames == multiset{}
    ensures ApplySendTo(c, w, m, u).frames[(s, m)] == 1
  {
    var out := set t | t in At(c.workers[w].reg.conns, u) :: (t, m);
    assert (s, m) in out;
  }

  /** User 1 deletes the group: the push is handled in two stretches, and user 2 is routed
      no more. */
  lemma GroupIsCleanedUp() returns (steps: seq<Step>, c: Cluster)
    ensures Reached(START, steps, c) && 0 in c.workers && 1 !in c.db.groups
    ensures !c.workers[0].reg.Routed(2, 1) && !c.workers[0].reg.Indexed(2, 1)
  {
    var c1, c2, c3;
    steps, c1 := MemberConnected();
    steps, c2 := Extend(START, steps, c1, Transact(DeleteGroup(1, 1)));
    DeleteGroupCommitsIff(c1.db, 1, 1);
    assert c2 == ApplyTransact(c1, DeleteGroup(1, 1)) && c2.log[2] == Event.Deleted(1);
    steps, c3 := Extend(START, steps, c2, Deliver(0, 2));
    assert c3 == ApplyDeliver(c2, 0, 2);
    DeletionWaits(c2.workers[0], 2, 1);
    steps, c := FinishCleanUp(steps, c3);
  }

  lemma FinishCleanUp(before: seq<Step>, c1: Cluster) returns (steps: seq<Step>, c: Cluster)
    requires Reached(START, before, c1) && 0 in c1.workers && 1 in c1.workers[0].deleting && 1 !in c1.db.groups
    requires 2 in c1.workers[0].deleting[1]
    ensures Reached(START, steps, c) && 0 in c.workers && 1 !in c.db.groups
    ensures !c.workers[0].reg.Routed(2, 1) && !c.workers[0].reg.Indexed(2, 1)
  {
    RunKeepsRouting(START, before);
    FinishDeletionEffect(c1.workers[0].reg, 1, c1.workers[0].deleting[1]);
    steps, c := Extend(START, before, c1, Step.FinishDeletion(0, 1));
    assert c == ApplyFinishDeletion(c1, 0, 1, c1.workers[0].deleting[1]);
  }
}
