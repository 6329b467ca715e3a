/** Stale routing in terms of the run: a registration read the user's groups, then the
    user was taken out of the group on that worker, and then the registration merged
    what it had read, with nothing since to undo that. */
module ClusterOverlap {
  import opened Ids
  import opened Groups
  import opened Registries
  import opened Clusters
  import opened ClusterStructure
  import opened ClusterRouting
  import opened ClusterRoutingRuns

  // What a step means for user u, group g and worker w.

  /** s is registering, and its read finds u in g. */
  predicate Reads(c: Cluster, step: Step, s: SocketId, w: WorkerId, u: UserId, g: GroupId) {
    step == FetchGroups(s) && Mine(c, w, u, s) && (g, u) in c.db.members
  }

  /** w stops routing g to u because of a LEAVE or a deletion. */
  predicate TakesAway(c: Cluster, step: Step, w: WorkerId, u: UserId, g: GroupId) {
    || step == Step.FinishDeletion(w, g)
    || (step.Deliver? && step.worker == w && step.index < |c.log| && Touches(c.log[step.index], u, g)
        && (c.log[step.index].Leave? || (c.log[step.index].Deleted? && w in c.workers
            && g !in HandlePush(c.workers[w], step.index, c.log[step.index]).deleting)))
  }

  /** w handles a JOIN of u to g. */
  predicate Rejoins(c: Cluster, step: Step, w: WorkerId, u: UserId, g: GroupId) {
    step.Deliver? && step.worker == w && step.index < |c.log| && c.log[step.index] == Join(u, g)
  }

  /** A JOIN, LEAVE, deletion or the close of u's last socket takes effect on w. */
  predicate Clears(c: Cluster, step: Step, w: WorkerId, u: UserId, g: GroupId) {
    || TakesAway(c, step, w, u, g) || Rejoins(c, step, w, u, g)
    || (step.Close? && Mine(c, w, u, step.sock) && w in c.workers && IsLastSocket(c.workers[w].reg, u, step.sock))
  }

  // The same for step i of a run.

  lemma SoundAt(c0: Cluster, steps: seq<Step>, n: nat)
    requires Init(c0) && CanRun(c0, steps) && n <= |steps|
    ensures Sound(StateAt(c0, steps, n))
  {
    PrefixRuns(c0, steps, n);
    RunKeepsRouting(c0, steps[..n]);
  }

  /** What a step means for the triple, all in one. */
  datatype Happened = Happened(reader: Option<SocketId>, takes: bool, rejoins: bool, clears: bool, merger: Option<SocketId>)

  function Happens(c: Cluster, step: Step, w: WorkerId, u: UserId, g: GroupId): Happened {
    Happened(
      if step.FetchGroups? && Reads(c, step, step.sock, w, u, g) then Some(step.sock) else None,
      TakesAway(c, step, w, u, g), Rejoins(c, step, w, u, g), Clears(c, step, w, u, g),
      if step.Merge? then Some(step.sock) else None)
  }

  function History(c0: Cluster, steps: seq<Step>, w: WorkerId, u: UserId, g: GroupId): (h: seq<Happened>)
    requires CanRun(c0, steps)
    ensures |h| == |steps|
    ensures forall i | 0 <= i < |h| :: h[i] == Happens(StateAt(c0, steps, i), steps[i], w, u, g)
  {
    seq(|steps|, i requires 0 <= i < |steps| => Happens(StateAt(c0, steps, i), steps[i], w, u, g))
  }

  /** Before step n, s has read g. */
  predicate HasRead(h: seq<Happened>, n: nat, s: SocketId)
    requires n <= |h|
  {
    exists i :: 0 <= i < n && h[i].reader == Some(s)
  }

  /** Before step n, s has read g, then u was taken out of g, and no JOIN came after. */
  predicate Outdated(h: seq<Happened>, n: nat, s: SocketId)
    requires n <= |h|
  {
    exists j :: 0 <= j < n && h[j].takes && HasRead(h, j, s) && forall l | j < l < n :: !h[l].rejoins
  }

  /** Before step n, a registration merged what was outdated when it did, and nothing has
      taken effect on u in g at w since. */
  predicate LateMerge(h: seq<Happened>, n: nat)
    requires n <= |h|
  {
    exists k :: 0 <= k < n && h[k].merger.Some? && Outdated(h, k, h[k].merger.value) && forall l | k < l < n :: !h[l].clears
  }

  // How the three follow the run.

  lemma HasReadNext(h: seq<Happened>, n: nat, s: SocketId)
    requires n < |h|
    ensures HasRead(h, n + 1, s) <==> HasRead(h, n, s) || h[n].reader == Some(s)
  {}

  lemma OutdatedNext(h: seq<Happened>, n: nat, s: SocketId)
    requires n < |h|
    ensures Outdated(h, n + 1, s) <==> (HasRead(h, n, s) && h[n].takes) || (Outdated(h, n, s) && !h[n].rejoins)
  {
    if Outdated(h, n, s) && !h[n].rejoins {
      var j :| 0 <= j < n && h[j].takes && HasRead(h, j, s) && forall l | j < l < n :: !h[l].rejoins;
      assert forall l | j < l < n + 1 :: !h[l].rejoins;
    }
  }

  lemma LateMergeNext(h: seq<Happened>, n: nat)
    requires n < |h|
    ensures LateMerge(h, n + 1) <==>
      (h[n].merger.Some? && Outdated(h, n, h[n].merger.value)) || (LateMerge(h, n) && !h[n].clears)
  {
    if LateMerge(h, n) && !h[n].clears {
      var k :| 0 <= k < n && h[k].merger.Some? && Outdated(h, k, h[k].merger.value) && forall l | k < l < n :: !h[l].clears;
      assert forall l | k < l < n + 1 :: !h[l].clears;
    }
  }

  lemma OutdatedHasRead(h: seq<Happened>, n: nat, s: SocketId)
    requires n <= |h| && Outdated(h, n, s)
    ensures HasRead(h, n, s)
  {
    var j :| 0 <= j < n && h[j].takes && HasRead(h, j, s);
    var i :| 0 <= i < j && h[i].reader == Some(s);
  }

  // How the bookkeeping of registrations follows it.

  predicate Reading(c: Cluster, s: SocketId) {
    s in c.socks && c.socks[s].phase.Fetched?
  }

  /** The read of s is still to come. */
  predicate Unread(c: Cluster, s: SocketId) {
    s !in c.home || (s in c.socks && (c.socks[s].phase.Added? || c.socks[s].phase.Counted?))
  }

  lemma UnreadHistory(c: Cluster, step: Step, s: SocketId)
    requires Enabled(c, step) && SocketsMatch(c)
    ensures Unread(Apply(c, step), s) ==> Unread(c, s) && step != FetchGroups(s)
    ensures s in c.home ==> s in Apply(c, step).home && Apply(c, step).home[s] == c.home[s]
  {}

  /** What a step does to the phase of a registration of u that has read. */
  predicate PhaseFollows(c: Cluster, step: Step, c': Cluster, s: SocketId, w: WorkerId, u: UserId, g: GroupId)
    requires Mine(c', w, u, s) && Reading(c', s)
  {
    var phase' := c'.socks[s].phase;
    && Mine(c, w, u, s)
    && (|| (Unread(c, s) && (g in phase'.groups <==> Reads(c, step, s, w, u, g)) && g !in phase'.undone)
        || (Reading(c, s) && phase'.groups == c.socks[s].phase.groups && step != FetchGroups(s)
            && (g in phase'.undone <==>
                  TakesAway(c, step, w, u, g) || (g in c.socks[s].phase.undone && !Rejoins(c, step, w, u, g)))))
  }

  lemma DeliverPhase(c: Cluster, v: WorkerId, i: nat, c': Cluster, s: SocketId, w: WorkerId, u: UserId, g: GroupId)
    requires CanDeliver(c, v, i) && c' == ApplyDeliver(c, v, i) && Mine(c', w, u, s) && Reading(c', s)
    ensures PhaseFollows(c, Deliver(v, i), c', s, w, u, g)
  {}

  lemma FinishDeletionPhase(c: Cluster, v: WorkerId, h: GroupId, members: set<UserId>, c': Cluster,
                            s: SocketId, w: WorkerId, u: UserId, g: GroupId)
    requires v in c.workers && c' == ApplyFinishDeletion(c, v, h, members) && Mine(c', w, u, s) && Reading(c', s)
    ensures PhaseFollows(c, Step.FinishDeletion(v, h), c', s, w, u, g)
  {}

  lemma OtherPhase(c: Cluster, step: Step, s: SocketId, w: WorkerId, u: UserId, g: GroupId)
    requires Enabled(c, step) && Consistent(c.db) && !step.Deliver? && !step.FinishDeletion?
    requires Mine(Apply(c, step), w, u, s) && Reading(Apply(c, step), s)
    ensures PhaseFollows(c, step, Apply(c, step), s, w, u, g)
  {}

  lemma PhaseHistory(c: Cluster, step: Step, c': Cluster, s: SocketId, w: WorkerId, u: UserId, g: GroupId)
    requires Enabled(c, step) && c' == Apply(c, step) && Consistent(c.db) && Mine(c', w, u, s) && Reading(c', s)
    ensures PhaseFollows(c, step, c', s, w, u, g)
  {
    match step
    case Deliver(v, i) => DeliverPhase(c, v, i, c', s, w, u, g);
    case FinishDeletion(v, h) => FinishDeletionPhase(c, v, h, c.workers[v].deleting[h], c', s, w, u, g);
    case _ => OtherPhase(c, step, s, w, u, g);
  }

  /** What a step does to the record of late re-additions. */
  predicate ReaddedFollows(c: Cluster, step: Step, c': Cluster, w: WorkerId, u: UserId, g: GroupId) {
    (w, u, g) in c'.readded <==>
      || (step.Merge? && Mine(c, w, u, step.sock) && Reading(c, step.sock)
          && g in c.socks[step.sock].phase.groups && g in c.socks[step.sock].phase.undone)
      || ((w, u, g) in c.readded && !Clears(c, step, w, u, g))
  }

  lemma DeliverReadded(c: Cluster, v: WorkerId, i: nat, c': Cluster, w: WorkerId, u: UserId, g: GroupId)
    requires CanDeliver(c, v, i) && c' == ApplyDeliver(c, v, i)
    ensures ReaddedFollows(c, Deliver(v, i), c', w, u, g)
  {}

  lemma SocketReadded(c: Cluster, step: Step, c': Cluster, w: WorkerId, u: UserId, g: GroupId)
    requires (step.Merge? && CanMerge(c, step.sock) && c' == ApplyMerge(c, step.sock))
          || (step.Close? && CanClose(c, step.sock) && c' == ApplyClose(c, step.sock))
    ensures ReaddedFollows(c, step, c', w, u, g)
  {}

  lemma ReaddedHistory(c: Cluster, step: Step, c': Cluster, w: WorkerId, u: UserId, g: GroupId)
    requires Enabled(c, step) && c' == Apply(c, step)
    ensures ReaddedFollows(c, step, c', w, u, g)
  {
    if step.Deliver? {
      DeliverReadded(c, step.worker, step.index, c', w, u, g);
    } else if step.Merge? || step.Close? {
      SocketReadded(c, step, c', w, u, g);
    } else if Quiet(step) {
      QuietFrame(c, step);
    }
  }

  /** What the bookkeeping says of socket s in state c, against what has happened. */
  predicate SocketExplained(c: Cluster, h: seq<Happened>, n: nat, s: SocketId, w: WorkerId, u: UserId, g: GroupId)
    requires n <= |h|
  {
    && (Unread(c, s) ==> !HasRead(h, n, s))
    && (HasRead(h, n, s) ==> s in c.home && c.home[s] == (w, u))
    && (Mine(c, w, u, s) && Reading(c, s) ==>
          && (g in c.socks[s].phase.groups <==> HasRead(h, n, s))
          && (g in c.socks[s].phase.groups && g in c.socks[s].phase.undone <==> Outdated(h, n, s)))
  }

  lemma StepKeepsExplained(c: Cluster, step: Step, c': Cluster, h: seq<Happened>, n: nat,
                           s: SocketId, w: WorkerId, u: UserId, g: GroupId)
    requires Enabled(c, step) && c' == Apply(c, step) && Consistent(c.db) && SocketsMatch(c)
    requires n < |h| && h[n] == Happens(c, step, w, u, g) && SocketExplained(c, h, n, s, w, u, g)
    ensures SocketExplained(c', h, n + 1, s, w, u, g)
  {
    HasReadNext(h, n, s);
    OutdatedNext(h, n, s);
    UnreadHistory(c, step, s);
    assert h[n].reader == Some(s) <==> Reads(c, step, s, w, u, g);
    if Outdated(h, n, s) { OutdatedHasRead(h, n, s); }
    if Mine(c', w, u, s) && Reading(c', s) { PhaseHistory(c, step, c', s, w, u, g); }
  }

  lemma {:induction false} SocketIsExplained(c0: Cluster, steps: seq<Step>, n: nat,
                                             s: SocketId, w: WorkerId, u: UserId, g: GroupId)
    requires Init(c0) && CanRun(c0, steps) && n <= |steps|
    ensures SocketExplained(StateAt(c0, steps, n), History(c0, steps, w, u, g), n, s, w, u, g)
    decreases n
  {
    var h := History(c0, steps, w, u, g);
    if n > 0 {
      var m := n - 1;
      SocketIsExplained(c0, steps, m, s, w, u, g);
      NextState(c0, steps, m);
      SoundAt(c0, steps, m);
      StepKeepsExplained(StateAt(c0, steps, m), steps[m], StateAt(c0, steps, n), h, m, s, w, u, g);
    }
  }

  lemma MergesOutdated(c: Cluster, h: seq<Happened>, n: nat, s: SocketId, w: WorkerId, u: UserId, g: GroupId)
    requires CanMerge(c, s) && SocketsMatch(c) && n <= |h| && SocketExplained(c, h, n, s, w, u, g)
    ensures Outdated(h, n, s) <==> Mine(c, w, u, s) && g in c.socks[s].phase.groups && g in c.socks[s].phase.undone
  {
    if Outdated(h, n, s) { OutdatedHasRead(h, n, s); }
  }

  lemma StepKeepsReadded(c: Cluster, step: Step, c': Cluster, h: seq<Happened>, n: nat, w: WorkerId, u: UserId, g: GroupId)
    requires Enabled(c, step) && c' == Apply(c, step) && SocketsMatch(c)
    requires n < |h| && h[n] == Happens(c, step, w, u, g)
    requires step.Merge? ==> SocketExplained(c, h, n, step.sock, w, u, g)
    requires (w, u, g) in c.readded <==> LateMerge(h, n)
    ensures (w, u, g) in c'.readded <==> LateMerge(h, n + 1)
  {
    ReaddedHistory(c, step, c', w, u, g);
    LateMergeNext(h, n);
    if step.Merge? { MergesOutdated(c, h, n, step.sock, w, u, g); }
  }

  /** The re-additions on record are the late merges of the run. */
  lemma {:induction false} ReaddedIsLateMerge(c0: Cluster, steps: seq<Step>, n: nat, w: WorkerId, u: UserId, g: GroupId)
    requires Init(c0) && CanRun(c0, steps) && n <= |steps|
    ensures (w, u, g) in StateAt(c0, steps, n).readded <==> LateMerge(History(c0, steps, w, u, g), n)
    decreases n
  {
    var h := History(c0, steps, w, u, g);
    if n > 0 {
      var m := n - 1;
      ReaddedIsLateMerge(c0, steps, m, w, u, g);
      NextState(c0, steps, m);
      SoundAt(c0, steps, m);
      if steps[m].Merge? { SocketIsExplained(c0, steps, m, steps[m].sock, w, u, g); }
      StepKeepsReadded(StateAt(c0, steps, m), steps[m], StateAt(c0, steps, n), h, m, w, u, g);
    }
  }

  /** A worker that has handled every push about u in g routes g's messages to u, though
      u is no member, exactly when some registration's read and merge enclose u's removal
      on that worker and nothing has taken effect on the pair there since. That is as long
      as the account exists. */
  lemma StaleIffLateMerge(c0: Cluster, steps: seq<Step>, c: Cluster, w: WorkerId, u: UserId, g: GroupId)
    requires Reached(c0, steps, c) && w in c.workers && u !in c.db.deletedUsers
    requires Settled(c.log, c.workers[w], u, g) && g !in c.workers[w].deleting
    ensures c.workers[w].reg.Routed(u, g) && (g, u) !in c.db.members <==>
            LateMerge(History(c0, steps, w, u, g), |steps|)
  {
    assert steps[..|steps|] == steps;
    ReaddedIsLateMerge(c0, steps, |steps|, w, u, g);
    RunKeepsRouting(c0, steps);
    assert PairInv(c, w, u, g);
    if c.workers[w].reg.Routed(u, g) { StaleExactlyWhenReadded(c0, steps, c, w, u, g); }
  }
}
