/** What a worker's routing of one user in one group has to do with the memberships
    table, in every state of every run. */
module ClusterRouting {
  import opened Ids
  import opened Groups
  import opened Registries
  import opened Clusters
  import opened ClusterStructure

  /** The worker has handled every push about u in g. */
  ghost predicate Settled(log: seq<Event>, k: Worker, u: UserId, g: GroupId) {
    forall i | 0 <= i < |log| && Touches(log[i], u, g) :: i in k.seen
  }

  /** A registration in this phase needs no JOIN for g: it has yet to read, it has
      read g, or its read failed. */
  predicate Covers(phase: Phase, g: GroupId) {
    match phase
    case Added => true
    case Counted => true
    case Fetched(gs, _, ok) => !ok || g in gs
    case Registered(ok) => !ok
  }

  predicate WillAdd(phase: Phase, g: GroupId) {
    phase.Fetched? && g in phase.groups && g !in phase.undone
  }

  predicate SawRemoval(phase: Phase, g: GroupId) {
    phase.Fetched? && g in phase.undone
  }

  /** Everything about (w, u, g) that the invariant speaks of, sockets aside. */
  datatype View = View(
    routed: bool, deleting: bool, settled: bool, readded: bool, // on the worker
    member: bool, joined: bool, gone: bool)                     // in the database and the log

  ghost function ViewOf(c: Cluster, w: WorkerId, u: UserId, g: GroupId): View
    requires w in c.workers
  {
    var k := c.workers[w];
    View(k.reg.Routed(u, g), g in k.deleting, Settled(c.log, k, u, g), (w, u, g) in c.readded,
         (g, u) in c.db.members, JoinedLast(c.log, u, g), u in c.db.deletedUsers)
  }

  /** What a registration in progress may still do to u's routing in g. */
  datatype Mark = Mark(covers: bool, willAdd: bool, sawRemoval: bool)

  function MarkOf(phase: Phase, g: GroupId): Mark {
    Mark(Covers(phase, g), WillAdd(phase, g), SawRemoval(phase, g))
  }

  function Marks(c: Cluster, w: WorkerId, u: UserId, g: GroupId): map<SocketId, Mark> {
    map s | s in c.socks && Mine(c, w, u, s) :: MarkOf(c.socks[s].phase, g)
  }

  predicate Fine(v: View, marks: map<SocketId, Mark>) {
    && (v.readded ==> v.routed)
    && (v.settled ==>
          // a member who is not routed is still being registered
          && (v.member && !v.routed ==> forall s <- marks :: marks[s].covers)
          // who is routed, or about to be, without being a member was re-added late
          && (!v.deleting && !v.member && !v.gone ==>
                (v.routed ==> v.readded) && forall s <- marks :: !marks[s].willAdd)
          // late re-additions come after a removal
          && (v.joined ==> !v.readded && forall s <- marks :: !marks[s].sawRemoval))
  }

  ghost predicate PairInv(c: Cluster, w: WorkerId, u: UserId, g: GroupId)
    requires w in c.workers
  {
    Fine(ViewOf(c, w, u, g), Marks(c, w, u, g))
  }

  // What each step does to the view of one pair and to its marks.

  lemma OpenView(c: Cluster, v: WorkerId, x: UserId, t: SocketId, w: WorkerId, u: UserId, g: GroupId)
    requires v in c.workers && WellFormed(c.workers[v].reg) && t !in c.socks && w in c.workers
    ensures ViewOf(ApplyOpen(c, v, x, t), w, u, g) == ViewOf(c, w, u, g)
  {
    AddSocketEffect(c.workers[v].reg, x, t);
  }

  lemma OpenMarks(c: Cluster, v: WorkerId, x: UserId, t: SocketId, w: WorkerId, u: UserId, g: GroupId)
    requires v in c.workers && t !in c.socks
    ensures Marks(ApplyOpen(c, v, x, t), w, u, g)
         == if (v, x) == (w, u) then Marks(c, w, u, g)[t := Mark(true, false, false)] else Marks(c, w, u, g)
  {}

  lemma CloseView(c: Cluster, t: SocketId, w: WorkerId, u: UserId, g: GroupId)
    requires CanClose(c, t) && WellFormed(c.workers[c.socks[t].worker].reg) && w in c.workers
    ensures var (v, x, c') := (c.socks[t].worker, c.socks[t].user, ApplyClose(c, t));
      var wiped := (v, x) == (w, u) && IsLastSocket(c.workers[v].reg, x, t);
      ViewOf(c', w, u, g) == (if wiped then ViewOf(c, w, u, g).(routed := false, readded := false)
                             else ViewOf(c, w, u, g))
      && Marks(c', w, u, g) == Marks(c, w, u, g) - {t}
  {
    RemoveSocketEffect(c.workers[c.socks[t].worker].reg, c.socks[t].user, t);
  }

  lemma MergeView(c: Cluster, t: SocketId, w: WorkerId, u: UserId, g: GroupId)
    requires CanMerge(c, t) && WellFormed(c.workers[c.socks[t].worker].reg) && w in c.workers
    requires c.workers[c.socks[t].worker].reg.Live(c.socks[t].user, t)
    ensures var (Connection(v, x, phase), c') := (c.socks[t], ApplyMerge(c, t));
      var adds := (v, x) == (w, u) && g in phase.groups;
      ViewOf(c', w, u, g) == ViewOf(c, w, u, g).(
          routed := ViewOf(c, w, u, g).routed || adds,
          readded := ViewOf(c, w, u, g).readded || (adds && g in phase.undone))
  {
    var Connection(v, x, phase) := c.socks[t];
    MergeGroupsEffect(c.workers[v].reg, x, t, phase.groups);
  }

  lemma MergeMarks(c: Cluster, t: SocketId, w: WorkerId, u: UserId, g: GroupId)
    requires CanMerge(c, t)
    ensures var (Connection(v, x, phase), c') := (c.socks[t], ApplyMerge(c, t));
      Marks(c', w, u, g) == if (v, x) == (w, u) then Marks(c, w, u, g)[t := Mark(!phase.ok, false, false)]
                            else Marks(c, w, u, g)
  {}

  lemma RecordElsewhere(c: Cluster, v: WorkerId, who: Option<UserId>, h: GroupId, gone: bool,
                        c': Cluster, w: WorkerId, u: UserId, g: GroupId)
    requires c'.socks == Record(c.socks, v, who, h, gone)
    requires v != w || h != g || (who.Some? && who.value != u)
    ensures Marks(c', w, u, g) == Marks(c, w, u, g)
  {
    forall s | s in c.socks && Mine(c, w, u, s)
      ensures MarkOf(c'.socks[s].phase, g) == MarkOf(c.socks[s].phase, g) {}
    assert forall s :: Mine(c', w, u, s) <==> Mine(c, w, u, s);
  }

  lemma RecordHere(c: Cluster, w: WorkerId, who: Option<UserId>, g: GroupId, gone: bool, c': Cluster, u: UserId)
    requires c'.socks == Record(c.socks, w, who, g, gone)
    requires who.None? || who.value == u
    ensures var marks := Marks(c', w, u, g);
      marks.Keys == Marks(c, w, u, g).Keys
      && forall s <- marks :: if gone then !marks[s].willAdd else !marks[s].sawRemoval
  {
    assert forall s :: Mine(c', w, u, s) <==> Mine(c, w, u, s);
  }

  lemma SettledElsewhere(log: seq<Event>, k: Worker, k': Worker, i: nat, u: UserId, g: GroupId)
    requires k'.seen == k.seen + {i} && i < |log| && !Touches(log[i], u, g)
    ensures Settled(log, k', u, g) == Settled(log, k, u, g)
  {}

  /** Delivery in commit order: once everything about (u, g) is handled, what was
      handled last is what was committed last. */
  lemma LastHandledIsLast(log: seq<Event>, k: Worker, k': Worker, i: nat, u: UserId, g: GroupId)
    requires InOrder(log, k.seen) && i < |log| && i !in k.seen && k'.seen == k.seen + {i}
    requires Touches(log[i], u, g) && Settled(log, k', u, g)
    ensures JoinedLast(log, u, g) == log[i].Join?
  {
    forall j | i < j < |log| ensures !Touches(log[j], u, g) {
      assert Touches(log[j], u, g) ==> Conflict(log[i], log[j]) && j in k.seen;
    }
    LastTouch(log, i, u, g);
  }

  lemma {:induction false} LastTouch(log: seq<Event>, i: nat, u: UserId, g: GroupId)
    requires i < |log| && Touches(log[i], u, g)
    requires forall j | i < j < |log| :: !Touches(log[j], u, g)
    ensures JoinedLast(log, u, g) == log[i].Join?
  {
    if i < |log| - 1 {
      LastTouch(log[..|log| - 1], i, u, g);
    }
  }

  lemma DeliverElsewhereRouting(k: Worker, i: nat, e: Event, u: UserId, g: GroupId)
    requires WellFormed(k.reg) && !Touches(e, u, g)
    ensures var k' := HandlePush(k, i, e);
      k'.reg.Routed(u, g) == k.reg.Routed(u, g) && (g in k'.deleting <==> g in k.deleting)
      && k'.seen == k.seen + {i}
  {
    match e
    case Join(x, h) => HandleJoinEffect(k.reg, x, h);
    case Leave(x, h) => HandleLeaveEffect(k.reg, x, h);
    case Deleted(h) => FinishDeletionEffect(k.reg, h, {});
  }

  lemma DeliverElsewhereView(c: Cluster, v: WorkerId, i: nat, w: WorkerId, u: UserId, g: GroupId)
    requires v in c.workers && i < |c.log| && w in c.workers && WellFormed(c.workers[w].reg)
    requires v != w || !Touches(c.log[i], u, g)
    ensures ViewOf(ApplyDeliver(c, v, i), w, u, g) == ViewOf(c, w, u, g)
  {
    if v == w {
      DeliverElsewhereRouting(c.workers[w], i, c.log[i], u, g);
      SettledElsewhere(c.log, c.workers[w], HandlePush(c.workers[w], i, c.log[i]), i, u, g);
    }
  }

  lemma DeliverElsewhereMarks(c: Cluster, v: WorkerId, i: nat, w: WorkerId, u: UserId, g: GroupId)
    requires v in c.workers && i < |c.log| && w in c.workers
    requires v != w || !Touches(c.log[i], u, g)
    ensures Marks(ApplyDeliver(c, v, i), w, u, g) == Marks(c, w, u, g)
  {
    var e, c' := c.log[i], ApplyDeliver(c, v, i);
    if e.Deleted? && e.group in c'.workers[v].deleting {
      assert c'.socks == c.socks;
    } else {
      RecordElsewhere(c, v, if e.Deleted? then None else Some(e.user), e.group, !e.Join?, c', w, u, g);
    }
  }

  lemma DeliverHereRouting(k: Worker, i: nat, e: Event, u: UserId, g: GroupId)
    requires WellFormed(k.reg) && Touches(e, u, g)
    ensures var k' := HandlePush(k, i, e);
      && k'.seen == k.seen + {i}
      && (e.Join? ==> (k'.reg.Routed(u, g) <==> k.reg.Routed(u, g) || u in k.reg.conns))
      && (e.Leave? ==> !k'.reg.Routed(u, g))
      && (e.Deleted? && g in k'.deleting ==> (k'.reg.Routed(u, g) <==> k.reg.Routed(u, g)))
      && (e.Deleted? && g !in k'.deleting ==> !k'.reg.Routed(u, g))
  {
    match e
    case Join(x, h) => HandleJoinEffect(k.reg, x, h);
    case Leave(x, h) => HandleLeaveEffect(k.reg, x, h);
    case Deleted(h) => FinishDeletionEffect(k.reg, h, {});
  }

  /** A deletion with local members waits for its frames: until then it changes no routing
      and no index, and it remembers the members of the moment it started. */
  lemma DeletionWaits(k: Worker, i: nat, g: GroupId)
    requires g in k.reg.groupConns && k.reg.groupConns[g] != {}
    ensures var k' := HandlePush(k, i, Event.Deleted(g));
      k'.reg == k.reg && k'.seen == k.seen + {i} && k'.deleting == k.deleting[g := k.reg.groupConns[g]]
  {}

  // Every step keeps the invariant of every pair.

  /** Phases a step without registry changes may lead to. */
  predicate Advances(db: Db, u: UserId, old_: Phase, new_: Phase) {
    new_ == old_ || new_.Counted? || new_ == Fetched({}, {}, false) || new_ == Fetched(UserGroups(db, u), {}, true)
  }

  lemma PhasesKeepPair(c: Cluster, c': Cluster, w: WorkerId, u: UserId, g: GroupId)
    requires w in c.workers && PairInv(c, w, u, g) && SameSockets(c, c') && DbMatchesLog(c.db, c.log)
    requires c'.db == c.db && c'.log == c.log && c'.workers == c.workers && c'.readded == c.readded
    requires forall s | Mine(c, w, u, s) :: Advances(c.db, u, c.socks[s].phase, c'.socks[s].phase)
    ensures PairInv(c', w, u, g)
  {
    var (v, marks, marks') := (ViewOf(c, w, u, g), Marks(c, w, u, g), Marks(c', w, u, g));
    assert ViewOf(c', w, u, g) == v;
    assert g in UserGroups(c.db, u) <==> v.member;
    forall s <- marks'
      ensures s in marks
      ensures marks'[s] == marks[s]
           || ((v.member ==> marks'[s].covers) && (marks'[s].willAdd ==> v.member) && !marks'[s].sawRemoval)
    {
      assert Mine(c, w, u, s);
    }
  }

  /** Who has a socket on the worker is in its connection table. */
  lemma MarkedIsOnline(c: Cluster, w: WorkerId, u: UserId, g: GroupId)
    requires SocketsMatch(c) && w in c.workers
    ensures Marks(c, w, u, g) != map[] ==> u in c.workers[w].reg.conns
  {
    if s :| s in Marks(c, w, u, g) {
      assert Mine(c, w, u, s) && c.workers[w].reg.Live(u, s);
    }
  }

  lemma OpenKeepsPair(c: Cluster, v: WorkerId, x: UserId, t: SocketId, w: WorkerId, u: UserId, g: GroupId)
    requires Sound(c) && v in c.workers && t !in c.home && w in c.workers && PairInv(c, w, u, g)
    ensures PairInv(ApplyOpen(c, v, x, t), w, u, g)
  {
    OpenView(c, v, x, t, w, u, g);
    OpenMarks(c, v, x, t, w, u, g);
  }

  lemma CloseKeepsPair(c: Cluster, t: SocketId, w: WorkerId, u: UserId, g: GroupId)
    requires Sound(c) && CanClose(c, t) && w in c.workers && PairInv(c, w, u, g)
    ensures PairInv(ApplyClose(c, t), w, u, g)
  {
    CloseView(c, t, w, u, g);
    var k := c.workers[w];
    forall s <- Marks(c, w, u, g) ensures k.reg.Live(u, s) { assert Mine(c, w, u, s); }
  }

  lemma MergeFine(v: View, marks: map<SocketId, Mark>, t: SocketId, phase: Phase, g: GroupId)
    requires Fine(v, marks) && phase.Fetched? && t in marks && marks[t] == MarkOf(phase, g)
    ensures Fine(
      v.(routed := v.routed || g in phase.groups, readded := v.readded || (g in phase.groups && g in phase.undone)),
      marks[t := Mark(!phase.ok, false, false)])
  {}

  lemma MergeKeepsPair(c: Cluster, t: SocketId, w: WorkerId, u: UserId, g: GroupId, c': Cluster)
    requires Sound(c) && CanMerge(c, t) && w in c.workers && PairInv(c, w, u, g)
    requires c' == ApplyMerge(c, t)
    ensures PairInv(c', w, u, g)
  {
    var Connection(v, x, phase) := c.socks[t];
    assert c.workers[v].reg.Live(x, t);
    MergeView(c, t, w, u, g);
    MergeMarks(c, t, w, u, g);
    if (v, x) == (w, u) {
      assert Mine(c, w, u, t);
      MergeFine(ViewOf(c, w, u, g), Marks(c, w, u, g), t, phase, g);
    }
  }

  lemma DeliverKeepsPair(c: Cluster, v: WorkerId, i: nat, w: WorkerId, u: UserId, g: GroupId)
    requires Sound(c) && CanDeliver(c, v, i) && w in c.workers && PairInv(c, w, u, g)
    ensures PairInv(ApplyDeliver(c, v, i), w, u, g)
  {
    var e := c.log[i];
    if v != w || !Touches(e, u, g) {
      DeliverElsewhereView(c, v, i, w, u, g);
      DeliverElsewhereMarks(c, v, i, w, u, g);
    } else {
      DeliverHereKeepsPair(c, w, i, u, g, ApplyDeliver(c, w, i));
    }
  }

  lemma DeliverHereKeepsPair(c: Cluster, w: WorkerId, i: nat, u: UserId, g: GroupId, c': Cluster)
    requires Sound(c) && CanDeliver(c, w, i) && PairInv(c, w, u, g) && Touches(c.log[i], u, g)
    requires c' == ApplyDeliver(c, w, i)
    ensures PairInv(c', w, u, g)
  {
    var e, k, k' := c.log[i], c.workers[w], c'.workers[w];
    var who := if e.Deleted? then None else Some(e.user);
    var (v, v', marks') := (ViewOf(c, w, u, g), ViewOf(c', w, u, g), Marks(c', w, u, g));
    DeliverHereRouting(k, i, e, u, g);
    if v'.settled {
      LastHandledIsLast(c.log, k, k', i, u, g);
      assert v'.joined == e.Join?;
      assert v'.member ==> v'.joined;
      assert v'.joined ==> v'.member || v'.gone;
    }
    if e.Deleted? && g in k'.deleting {
      assert v'.readded == v.readded;
    } else {
      RecordHere(c, w, who, g, !e.Join?, c', u);
      assert !v'.readded;
      MarkedIsOnline(c, w, u, g);
    }
  }

  lemma FinishDeletionKeepsPair(c: Cluster, v: WorkerId, h: GroupId, members: set<UserId>, c': Cluster,
                                w: WorkerId, u: UserId, g: GroupId)
    requires Sound(c) && v in c.workers && h in c.workers[v].deleting && w in c.workers && PairInv(c, w, u, g)
    requires c' == ApplyFinishDeletion(c, v, h, members)
    ensures PairInv(c', w, u, g)
  {
    if v != w || h != g {
      RecordElsewhere(c, v, None, h, true, c', w, u, g);
      FinishElsewhereView(c, v, h, members, w, u, g);
    } else {
      RecordHere(c, w, None, g, true, c', u);
      FinishHereView(c, g, members, w, u);
    }
  }

  lemma FinishElsewhereView(c: Cluster, v: WorkerId, h: GroupId, members: set<UserId>, w: WorkerId, u: UserId, g: GroupId)
    requires Sound(c) && v in c.workers && w in c.workers && (v != w || h != g)
    ensures ViewOf(ApplyFinishDeletion(c, v, h, members), w, u, g) == ViewOf(c, w, u, g)
  {
    FinishDeletionEffect(c.workers[v].reg, h, members);
  }

  lemma FinishHereView(c: Cluster, g: GroupId, members: set<UserId>, w: WorkerId, u: UserId)
    requires Sound(c) && w in c.workers && g in c.workers[w].deleting
    ensures var v' := ViewOf(ApplyFinishDeletion(c, w, g, members), w, u, g);
      !v'.member && !v'.joined && !v'.routed && !v'.readded
  {
    FinishDeletionEffect(c.workers[w].reg, g, members);
    var i :| i in c.workers[w].seen && i < |c.log| && c.log[i] == Event.Deleted(g);
    assert c.log[i] in c.log && g !in c.db.groups;
  }

  lemma TransactView(c: Cluster, op: Op, w: WorkerId, u: UserId, g: GroupId)
    requires DbMatchesLog(c.db, c.log) && w in c.workers && InOrder(c.log, c.workers[w].seen)
    ensures var (v, v') := (ViewOf(c, w, u, g), ViewOf(ApplyTransact(c, op), w, u, g));
      && v'.routed == v.routed && v'.deleting == v.deleting && v'.readded == v.readded
      && (v'.settled ==> v.settled && v'.joined == v.joined
                         && (v'.member == v.member || (v'.gone && !v'.member)) && (v.gone ==> v'.gone))
  {
    if op.DeleteAccount? { DeleteUserRowEffect(c.db, op.user); }
    var c', k := ApplyTransact(c, op), c.workers[w];
    if c'.log != c.log {
      var e := c'.log[|c.log|];
      JoinedLastAppend(c.log, e, u, g);
      if Touches(e, u, g) {
        assert |c.log| !in k.seen;
      } else {
        forall i | 0 <= i < |c.log| ensures c'.log[i] == c.log[i] {}
      }
    }
  }

  lemma TransactKeepsPair(c: Cluster, op: Op, w: WorkerId, u: UserId, g: GroupId)
    requires Sound(c) && FreshKeys(c.db, op) && w in c.workers && PairInv(c, w, u, g)
    ensures PairInv(ApplyTransact(c, op), w, u, g)
  {
    TransactView(c, op, w, u, g);
    TransactMarks(c, op, w, u, g);
  }

  lemma TransactMarks(c: Cluster, op: Op, w: WorkerId, u: UserId, g: GroupId)
    ensures Marks(ApplyTransact(c, op), w, u, g) == Marks(c, w, u, g)
  {}

  lemma QuietKeepsPair(c: Cluster, step: Step, w: WorkerId, u: UserId, g: GroupId)
    requires Sound(c) && Enabled(c, step) && Quiet(step) && w in c.workers && PairInv(c, w, u, g)
    ensures w in Apply(c, step).workers && PairInv(Apply(c, step), w, u, g)
  {
    QuietFrame(c, step);
    QuietPhases(c, step);
    PhasesKeepPair(c, Apply(c, step), w, u, g);
  }

  lemma QuietPhases(c: Cluster, step: Step)
    requires Enabled(c, step) && Quiet(step)
    ensures var c' := Apply(c, step);
      forall s <- c.socks :: s in c'.socks && Advances(c.db, c.socks[s].user, c.socks[s].phase, c'.socks[s].phase)
  {}
}
