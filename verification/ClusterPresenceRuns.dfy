/** Presence over whole runs, with remove_active_user interrupted and not. */
module ClusterPresenceRuns {
  import opened Ids
  import opened Clusters
  import opened ClusterStructure
  import opened ClusterRoutingRuns
  import opened ClusterPresence

  ghost predicate PresenceInv(c: Cluster, u: UserId) {
    Conservation(c, u) && Positive(c, u)
  }

  predicate NotCounting(step: Step) {
    step.Transact? || step.FetchGroups? || step.FetchFails? || step.Merge? || step.Deliver?
    || step.FinishDeletion? || step.Dispatch? || step.SendTo?
  }

  lemma CountersStay(c: Cluster, step: Step)
    requires Enabled(c, step) && NotCounting(step)
    ensures var c' := Apply(c, step);
      && c'.presence == c.presence && c'.removals == c.removals
      && c'.keptCloses == c.keptCloses && c'.dropped == c.dropped
  {}

  lemma AddedStays(c: Cluster, step: Step)
    requires Enabled(c, step) && NotCounting(step)
    ensures var c' := Apply(c, step);
      SameSockets(c, c') && forall s <- c.socks :: c'.socks[s].phase.Added? == c.socks[s].phase.Added?
  {}

  lemma SocketStepKeepsPresence(c: Cluster, step: Step, u: UserId)
    requires Enabled(c, step) && PresenceInv(c, u) && forall s <- c.socks :: s in c.home
    requires step.Open? || step.Increment? || step.Close?
    ensures PresenceInv(Apply(c, step), u)
  {
    match step
    case Open(w, x, s) => OpenConserves(c, w, x, s, u);
    case Increment(s) => IncrementConserves(c, s, u); IncrementKeepsPositive(c, s, u);
    case Close(s) => CloseConserves(c, s, u); CloseKeepsPositive(c, s, u);
  }

  lemma RemovalStepKeepsPresence(c: Cluster, step: Step, u: UserId)
    requires Enabled(c, step) && PresenceInv(c, u)
    requires step.Decrement? || step.HashDelete? || step.RemoveActive?
    ensures PresenceInv(Apply(c, step), u)
  {
    match step
    case Decrement(w, x) => DecrementConserves(c, w, x, u); DecrementKeepsPositive(c, w, x, u);
    case HashDelete(w, x) => HashDeleteConserves(c, w, x, u); HashDeleteKeepsPositive(c, w, x, u);
    case RemoveActive(w, x) => RemoveActiveConserves(c, w, x, u); RemoveActiveKeepsPositive(c, w, x, u);
  }

  lemma StepKeepsPresence(c: Cluster, step: Step, u: UserId)
    requires Enabled(c, step) && PresenceInv(c, u) && forall s <- c.socks :: s in c.home
    ensures PresenceInv(Apply(c, step), u)
  {
    if NotCounting(step) {
      CountersStay(c, step);
      AddedStays(c, step);
      OthersConserve(c, Apply(c, step), u);
    } else if step.Open? || step.Increment? || step.Close? {
      SocketStepKeepsPresence(c, step, u);
    } else {
      RemovalStepKeepsPresence(c, step, u);
    }
  }

  lemma {:induction false} RunKeepsPresence(c0: Cluster, steps: seq<Step>, u: UserId)
    requires Init(c0) && CanRun(c0, steps)
    ensures PresenceInv(Run(c0, steps), u)
    decreases |steps|
  {
    if steps != [] {
      var before := steps[..|steps| - 1];
      RunKeepsPresence(c0, before, u);
      RunKeepsRouting(c0, before);
      StepKeepsPresence(Run(c0, before), steps[|steps| - 1], u);
    }
  }

  /** The law in every state of every run, with HDEL a step of its own. */
  lemma PresenceConservation(c0: Cluster, steps: seq<Step>, c: Cluster, u: UserId)
    requires Reached(c0, steps, c)
    ensures Count(c.presence, u) + |Uncounted(c.socks, u)| - |Undecremented(c.removals, u)|
         == |SocketsOf(c.socks, u)| + Count(c.keptCloses, u) - Count(c.dropped, u)
    ensures u in c.presence && c.presence[u] <= 0 ==>
              exists w :: (w, u) in c.removals && c.removals[(w, u)].BeforeDelete?
  {
    RunKeepsPresence(c0, steps, u);
  }

  /** Nothing about u's presence is under way. */
  predicate AtRest(c: Cluster, u: UserId) {
    (forall s <- c.socks :: c.socks[s].user == u ==> !c.socks[s].phase.Added?)
    && forall k <- c.removals :: k.1 != u
  }

  /** At rest every listed user has a positive counter, and is listed exactly when open
      sockets and kept closes outnumber what HDEL threw away. */
  lemma ListedAtRest(c0: Cluster, steps: seq<Step>, c: Cluster, u: UserId)
    requires Reached(c0, steps, c) && AtRest(c, u)
    ensures u in c.presence ==> c.presence[u] > 0
    ensures u in c.presence <==>
              |SocketsOf(c.socks, u)| + Count(c.keptCloses, u) != Count(c.dropped, u)
  {
    RunKeepsPresence(c0, steps, u);
    assert Uncounted(c.socks, u) == {} && Undecremented(c.removals, u) == {};
  }

  // Runs in which remove_active_user is one step.

  /** HDEL has thrown nothing away. */
  predicate NothingDropped(c: Cluster, u: UserId) {
    Count(c.dropped, u) == 0 && forall k <- c.removals :: c.removals[k].BeforeDecrement?
  }

  /** With nothing dropped, a decrement about to happen finds the socket it undoes. */
  lemma CounterCoversRemovals(c: Cluster, u: UserId)
    requires Conservation(c, u) && NothingDropped(c, u)
    ensures Count(c.presence, u) >= |SocketsOf(c.socks, u)| - |Uncounted(c.socks, u)| + |Undecremented(c.removals, u)|
    ensures |SocketsOf(c.socks, u)| - |Uncounted(c.socks, u)| == |SocketsOf(c.socks, u) - Uncounted(c.socks, u)|
  {
    assert Uncounted(c.socks, u) <= SocketsOf(c.socks, u);
    assert SocketsOf(c.socks, u) == (SocketsOf(c.socks, u) - Uncounted(c.socks, u)) + Uncounted(c.socks, u);
  }

  lemma DecrementSeesPositive(c: Cluster, w: WorkerId, u: UserId)
    requires Conservation(c, u) && NothingDropped(c, u) && (w, u) in c.removals
    ensures Count(c.presence, u) >= 1
  {
    CounterCoversRemovals(c, u);
    assert (w, u) in Undecremented(c.removals, u);
    assert Undecremented(c.removals, u) == (Undecremented(c.removals, u) - {(w, u)}) + {(w, u)};
  }

  lemma RemoveActiveDropsNothing(c: Cluster, w: WorkerId, x: UserId, u: UserId)
    requires (w, x) in c.removals && Conservation(c, x) && NothingDropped(c, x) && NothingDropped(c, u)
    ensures NothingDropped(ApplyRemoveActive(c, w, x), u)
  {
    DecrementSeesPositive(c, w, x);
  }

  lemma OtherStepsDropNothing(c: Cluster, step: Step, u: UserId)
    requires Enabled(c, step) && Uninterrupted(step) && !step.RemoveActive? && NothingDropped(c, u)
    ensures NothingDropped(Apply(c, step), u)
  {}

  lemma {:induction false} RunDropsNothing(c0: Cluster, steps: seq<Step>, u: UserId)
    requires Init(c0) && CanRun(c0, steps) && forall step <- steps :: Uninterrupted(step)
    ensures NothingDropped(Run(c0, steps), u)
    decreases |steps|
  {
    if steps != [] {
      var (before, step) := (steps[..|steps| - 1], steps[|steps| - 1]);
      RunDropsNothing(c0, before, u);
      if step.RemoveActive? {
        RunDropsNothing(c0, before, step.user);
        RunKeepsPresence(c0, before, step.user);
        RemoveActiveDropsNothing(Run(c0, before), step.worker, step.user, u);
      } else {
        OtherStepsDropNothing(Run(c0, before), step, u);
      }
    }
  }

  /** The conservation law, and what follows: no decrement meets a counter below one,
      and a user with a socket past its increment is listed. */
  lemma UninterruptedPresence(c0: Cluster, steps: seq<Step>, c: Cluster, u: UserId)
    requires Reached(c0, steps, c) && forall step <- steps :: Uninterrupted(step)
    ensures Count(c.presence, u) + |Uncounted(c.socks, u)| - |Undecremented(c.removals, u)|
         == |SocketsOf(c.socks, u)| + Count(c.keptCloses, u)
    ensures forall w :: (w, u) in c.removals ==> Count(c.presence, u) >= 1
    ensures forall s <- c.socks :: c.socks[s].user == u && !c.socks[s].phase.Added? ==>
              u in c.presence && c.presence[u] >= 1
  {
    RunKeepsPresence(c0, steps, u);
    RunDropsNothing(c0, steps, u);
    forall w | (w, u) in c.removals { DecrementSeesPositive(c, w, u); }
    CounterCoversRemovals(c, u);
    var counted := SocketsOf(c.socks, u) - Uncounted(c.socks, u);
    forall s <- c.socks | c.socks[s].user == u && !c.socks[s].phase.Added?
      ensures u in c.presence && c.presence[u] >= 1
    {
      assert s in counted && counted == (counted - {s}) + {s};
    }
  }

  /** At rest, whatever was interrupted, the counter says how many sockets are open
      exactly when the closes that left other sockets of the user on their worker are as
      many as what HDEL threw away. */
  lemma AccurateIff(c0: Cluster, steps: seq<Step>, c: Cluster, u: UserId)
    requires Reached(c0, steps, c) && AtRest(c, u)
    ensures Count(c.presence, u) == |SocketsOf(c.socks, u)| <==> Count(c.keptCloses, u) == Count(c.dropped, u)
  {
    PresenceConservation(c0, steps, c, u);
    assert Uncounted(c.socks, u) == {} && Undecremented(c.removals, u) == {};
  }

  /** With removals never interrupted HDEL throws nothing away: accurate exactly when no
      close took the branch that leaves other sockets of the user on its worker. */
  lemma AccurateIffNoKeptClose(c0: Cluster, steps: seq<Step>, c: Cluster, u: UserId)
    requires Reached(c0, steps, c) && (forall step <- steps :: Uninterrupted(step)) && AtRest(c, u)
    ensures Count(c.presence, u) == |SocketsOf(c.socks, u)| <==> Count(c.keptCloses, u) == 0
    ensures u in c.presence <==> |SocketsOf(c.socks, u)| + Count(c.keptCloses, u) > 0
  {
    AccurateIff(c0, steps, c, u);
    RunKeepsPresence(c0, steps, u);
    RunDropsNothing(c0, steps, u);
    ListedAtRest(c0, steps, c, u);
  }

  // Who is listed, in steps of the run.

  /** What a step does to the user's field: a command leaves it set or removed. */
  datatype Command = NoCommand | Sets | Removes

  function CommandOn(c: Cluster, step: Step, u: UserId): Command {
    match step
    case Increment(s) => if s in c.socks && c.socks[s].user == u then Sets else NoCommand
    case Decrement(_, v) => if v == u then Sets else NoCommand
    case HashDelete(_, v) => if v == u then Removes else NoCommand
    case RemoveActive(_, v) =>
      if v != u then NoCommand else if Count(c.presence, u) - 1 <= 0 then Removes else Sets
    case _ => NoCommand
  }

  function Commands(c0: Cluster, steps: seq<Step>, u: UserId): (h: seq<Command>)
    requires CanRun(c0, steps)
    ensures |h| == |steps|
    ensures forall i | 0 <= i < |h| :: h[i] == CommandOn(StateAt(c0, steps, i), steps[i], u)
  {
    seq(|steps|, i requires 0 <= i < |steps| => CommandOn(StateAt(c0, steps, i), steps[i], u))
  }

  /** Of the first n steps, the last with a command on the field removes it, or none has
      one. */
  predicate LastRemoves(h: seq<Command>, n: nat)
    requires n <= |h|
  {
    || (forall l | 0 <= l < n :: h[l].NoCommand?)
    || exists i :: 0 <= i < n && h[i].Removes? && forall l | i < l < n :: h[l].NoCommand?
  }

  lemma LastRemovesNext(h: seq<Command>, n: nat)
    requires n < |h|
    ensures LastRemoves(h, n + 1) <==> h[n].Removes? || (h[n].NoCommand? && LastRemoves(h, n))
  {
    if h[n].NoCommand? && LastRemoves(h, n) && !(forall l | 0 <= l < n :: h[l].NoCommand?) {
      var i :| 0 <= i < n && h[i].Removes? && forall l | i < l < n :: h[l].NoCommand?;
      assert forall l | i < l < n + 1 :: h[l].NoCommand?;
    }
  }

  lemma ListingFollows(c: Cluster, step: Step, u: UserId)
    requires Enabled(c, step)
    ensures var c' := Apply(c, step);
      match CommandOn(c, step, u)
      case NoCommand => u in c'.presence <==> u in c.presence
      case Sets => u in c'.presence
      case Removes => u !in c'.presence
  {}

  lemma {:induction false} UnlistedFollows(c0: Cluster, steps: seq<Step>, n: nat, u: UserId)
    requires Init(c0) && CanRun(c0, steps) && n <= |steps|
    ensures u !in StateAt(c0, steps, n).presence <==> LastRemoves(Commands(c0, steps, u), n)
    decreases n
  {
    if n > 0 {
      var m := n - 1;
      UnlistedFollows(c0, steps, m, u);
      NextState(c0, steps, m);
      ListingFollows(StateAt(c0, steps, m), steps[m], u);
      LastRemovesNext(Commands(c0, steps, u), m);
    }
  }

  /** In every state of every run a user is not listed, sockets or no sockets, exactly
      when the last command on the user's field was an HDEL, or a removal that ended in
      one, or there was no command. */
  lemma UnlistedIffLastRemoves(c0: Cluster, steps: seq<Step>, c: Cluster, u: UserId)
    requires Reached(c0, steps, c)
    ensures u !in c.presence <==> LastRemoves(Commands(c0, steps, u), |steps|)
  {
    assert steps[..|steps|] == steps;
    UnlistedFollows(c0, steps, |steps|, u);
  }
}
