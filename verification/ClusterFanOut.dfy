/** Group messages under any interleaving: no socket gets a message twice, and a
    socket that stays open gets each message dispatched to its user. */
module ClusterFanOut {
  import opened Ids
  import opened Clusters
  import opened ClusterStructure
  import opened ClusterRoutingRuns

  /** The send task for s's user is done wherever a frame of m has gone to s. */
  predicate Once(c: Cluster, s: SocketId, m: MessageId) {
    && c.frames[(s, m)] <= 1
    && (c.frames[(s, m)] == 1 ==>
          s in c.home && var (w, u) := c.home[s]; (w, m) in c.sending && u !in c.sending[(w, m)])
  }

  predicate Sends(step: Step) { step.Open? || step.Dispatch? || step.SendTo? }

  lemma OthersSendNothing(c: Cluster, step: Step)
    requires Enabled(c, step) && !Sends(step)
    ensures var c' := Apply(c, step);
      c'.frames == c.frames && c'.sending == c.sending && c'.home == c.home
  {}

  lemma OpenKeepsOnce(c: Cluster, w: WorkerId, x: UserId, t: SocketId, s: SocketId, m: MessageId)
    requires w in c.workers && t !in c.home && Once(c, s, m)
    ensures Once(ApplyOpen(c, w, x, t), s, m)
  {}

  lemma DispatchKeepsOnce(c: Cluster, w: WorkerId, n: MessageId, g: GroupId, sender: Option<UserId>,
                          s: SocketId, m: MessageId)
    requires w in c.workers && (w, n) !in c.sending && Once(c, s, m)
    ensures Once(ApplyDispatch(c, w, n, g, sender), s, m)
  {}

  lemma SendToKeepsOnce(c: Cluster, w: WorkerId, n: MessageId, x: UserId, s: SocketId, m: MessageId)
    requires SocketsMatch(c) && w in c.workers && (w, n) in c.sending && x in c.sending[(w, n)] && Once(c, s, m)
    ensures Once(ApplySendTo(c, w, n, x), s, m)
    ensures m == n && c.workers[w].reg.Live(x, s) ==> ApplySendTo(c, w, n, x).frames[(s, m)] == 1
  {
    var out := set t | t in At(c.workers[w].reg.conns, x) :: (t, n);
    assert ApplySendTo(c, w, n, x).frames == c.frames + multiset(out);
    if (s, m) in out {
      assert c.workers[w].reg.Live(x, s) && c.home[s] == (w, x);
    }
  }

  lemma StepKeepsOnce(c: Cluster, step: Step, s: SocketId, m: MessageId)
    requires SocketsMatch(c) && Enabled(c, step) && Once(c, s, m)
    ensures Once(Apply(c, step), s, m)
  {
    match step
    case Open(w, x, t) => OpenKeepsOnce(c, w, x, t, s, m);
    case Dispatch(w, n, g, sender) => DispatchKeepsOnce(c, w, n, g, sender, s, m);
    case SendTo(w, n, x) => SendToKeepsOnce(c, w, n, x, s, m);
    case _ => OthersSendNothing(c, step);
  }

  /** No socket in the cluster gets the same group message twice. */
  lemma {:induction false} NeverTwice(c0: Cluster, steps: seq<Step>, s: SocketId, m: MessageId)
    requires Init(c0) && CanRun(c0, steps)
    ensures Run(c0, steps).frames[(s, m)] <= 1
    ensures Once(Run(c0, steps), s, m)
    decreases |steps|
  {
    if steps != [] {
      var before := steps[..|steps| - 1];
      NeverTwice(c0, before, s, m);
      RunKeepsRouting(c0, before);
      StepKeepsOnce(Run(c0, before), steps[|steps| - 1], s, m);
    }
  }

  /** u's send task for m on w is still to come, or s has got its frame. */
  predicate Served(c: Cluster, w: WorkerId, m: MessageId, u: UserId, s: SocketId) {
    (w, m) in c.sending && (u in c.sending[(w, m)] || c.frames[(s, m)] == 1)
  }

  lemma StepKeepsServed(c: Cluster, step: Step, w: WorkerId, m: MessageId, u: UserId, s: SocketId)
    requires SocketsMatch(c) && Enabled(c, step) && Once(c, s, m) && s in c.socks && c.home[s] == (w, u)
    requires Served(c, w, m, u, s)
    ensures Served(Apply(c, step), w, m, u, s)
  {
    match step
    case Open(v, x, t) => assert Apply(c, step) == ApplyOpen(c, v, x, t);
    case Dispatch(v, n, g, sender) => assert Apply(c, step) == ApplyDispatch(c, v, n, g, sender);
    case SendTo(v, n, x) =>
      assert c.workers[w].reg.Live(u, s);
      SendToKeepsOnce(c, v, n, x, s, m);
    case _ => OthersSendNothing(c, step);
  }

  lemma OpenSocketsWereOpen(c: Cluster, step: Step, s: SocketId)
    requires Enabled(c, step) && s in Apply(c, step).socks && s in c.home
    ensures s in c.socks && s in Apply(c, step).home && Apply(c, step).home[s] == c.home[s]
  {}

  lemma HomesStay(c: Cluster, step: Step)
    requires Enabled(c, step)
    ensures c.home.Keys <= Apply(c, step).home.Keys
  {
    if !Sends(step) { OthersSendNothing(c, step); }
  }

  /** A socket that is open when the message is dispatched to its user, and still open
      later, has by then got the message or has its user's send task pending. */
  lemma {:induction false} NobodySkipped(c0: Cluster, steps: seq<Step>, more: seq<Step>,
                                         w: WorkerId, m: MessageId, u: UserId, s: SocketId)
    requires Init(c0) && CanRun(c0, steps) && CanRun(c0, steps + more)
    requires Mine(Run(c0, steps), w, u, s) && Served(Run(c0, steps), w, m, u, s)
    ensures s in Run(c0, steps + more).home
    ensures s in Run(c0, steps + more).socks ==>
              Mine(Run(c0, steps + more), w, u, s) && Served(Run(c0, steps + more), w, m, u, s)
    decreases |more|
  {
    RunKeepsRouting(c0, steps + more);
    if more == [] {
      assert steps + more == steps;
    } else {
      var (all, less, step) := (steps + more, more[..|more| - 1], more[|more| - 1]);
      assert all[..|all| - 1] == steps + less && all[|all| - 1] == step;
      NobodySkipped(c0, steps, less, w, m, u, s);
      RunKeepsRouting(c0, steps + less);
      NeverTwice(c0, steps + less, s, m);
      StepSkipsNobody(Run(c0, steps + less), step, w, m, u, s);
    }
  }

  lemma StepSkipsNobody(c: Cluster, step: Step, w: WorkerId, m: MessageId, u: UserId, s: SocketId)
    requires Enabled(c, step) && SocketsMatch(c) && SocketsMatch(Apply(c, step)) && Once(c, s, m) && s in c.home
    requires s in c.socks ==> Mine(c, w, u, s) && Served(c, w, m, u, s)
    ensures var c' := Apply(c, step);
      s in c'.home && (s in c'.socks ==> Mine(c', w, u, s) && Served(c', w, m, u, s))
  {
    HomesStay(c, step);
    if s in Apply(c, step).socks {
      OpenSocketsWereOpen(c, step, s);
      StepKeepsServed(c, step, w, m, u, s);
    }
  }

  /** Dispatching to u's group, then waiting until every send task has run: the sockets
      of u that stayed open got the message exactly once. */
  lemma ExactlyOnce(c0: Cluster, steps: seq<Step>, more: seq<Step>, w: WorkerId, m: MessageId,
                    g: GroupId, sender: Option<UserId>, u: UserId, s: SocketId)
    requires Init(c0) && CanRun(c0, steps) && CanRun(c0, steps + [Dispatch(w, m, g, sender)] + more)
    requires Enabled(Run(c0, steps), Dispatch(w, m, g, sender))
    requires Mine(Run(c0, steps), w, u, s) && Run(c0, steps).workers[w].reg.Routed(u, g) && Some(u) != sender
    requires var c := Run(c0, steps + [Dispatch(w, m, g, sender)] + more);
      s in c.socks && ((w, m) in c.sending ==> c.sending[(w, m)] == {})
    ensures Run(c0, steps + [Dispatch(w, m, g, sender)] + more).frames[(s, m)] == 1
  {
    var c, dispatch := Run(c0, steps), Dispatch(w, m, g, sender);
    RunOneMore(c0, steps, dispatch);
    assert Apply(c, dispatch) == ApplyDispatch(c, w, m, g, sender);
    NobodySkipped(c0, steps + [dispatch], more, w, m, u, s);
  }

  /** Step i dispatched m on w to u: u was routed there, and is not the sender. */
  ghost predicate DispatchedAt(c0: Cluster, steps: seq<Step>, i: nat, w: WorkerId, m: MessageId, u: UserId) {
    i < |steps| && steps[i].Dispatch? && steps[i].worker == w && steps[i].message == m && steps[i].sender != Some(u)
    && CanRun(c0, steps[..i]) && w in Run(c0, steps[..i]).workers
    && Run(c0, steps[..i]).workers[w].reg.Routed(u, steps[i].group)
  }

  ghost predicate Dispatched(c0: Cluster, steps: seq<Step>, w: WorkerId, m: MessageId, u: UserId) {
    exists i: nat :: DispatchedAt(c0, steps, i, w, m, u)
  }

  lemma DispatchedLonger(c0: Cluster, steps: seq<Step>, w: WorkerId, m: MessageId, u: UserId)
    requires steps != [] && Dispatched(c0, steps[..|steps| - 1], w, m, u)
    ensures Dispatched(c0, steps, w, m, u)
  {
    var i: nat :| DispatchedAt(c0, steps[..|steps| - 1], i, w, m, u);
    assert steps[..|steps| - 1][..i] == steps[..i];
    assert DispatchedAt(c0, steps, i, w, m, u);
  }

  /** Where pending send tasks and frames come from. */
  lemma SendHistory(c: Cluster, step: Step, w: WorkerId, m: MessageId, u: UserId)
    requires Enabled(c, step) && (w, m) in Apply(c, step).sending && u in Apply(c, step).sending[(w, m)]
    ensures ((w, m) in c.sending && u in c.sending[(w, m)])
         || (step.Dispatch? && step.worker == w && step.message == m && step.sender != Some(u)
             && c.workers[w].reg.Routed(u, step.group))
  {
    if !Sends(step) { OthersSendNothing(c, step); }
  }

  lemma FrameHistory(c: Cluster, step: Step, s: SocketId, m: MessageId)
    requires SocketsMatch(c) && Enabled(c, step)
    requires Apply(c, step).frames[(s, m)] > 0 && c.frames[(s, m)] == 0
    ensures s in c.home && Apply(c, step).home == c.home
    ensures (c.home[s].0, m) in c.sending && c.home[s].1 in c.sending[(c.home[s].0, m)]
  {
    if step.SendTo? {
      var SendTo(w, n, x) := step;
      var out := set t | t in At(c.workers[w].reg.conns, x) :: (t, n);
      assert Apply(c, step) == ApplySendTo(c, w, n, x) && Apply(c, step).frames == c.frames + multiset(out);
      assert (s, m) in out && c.workers[w].reg.Live(x, s);
    } else if !Sends(step) {
      OthersSendNothing(c, step);
    }
  }

  ghost predicate Accounted(c0: Cluster, steps: seq<Step>, s: SocketId, m: MessageId)
    requires CanRun(c0, steps)
  {
    var c := Run(c0, steps);
    && (forall w, u :: (w, m) in c.sending && u in c.sending[(w, m)] ==> Dispatched(c0, steps, w, m, u))
    && (c.frames[(s, m)] > 0 ==> s in c.home && Dispatched(c0, steps, c.home[s].0, m, c.home[s].1))
  }

  lemma PendingAccounted(c0: Cluster, steps: seq<Step>, w: WorkerId, m: MessageId, u: UserId)
    requires steps != [] && CanRun(c0, steps) && CanRun(c0, steps[..|steps| - 1])
    requires var c := Run(c0, steps[..|steps| - 1]);
      (w, m) in c.sending && u in c.sending[(w, m)] ==> Dispatched(c0, steps[..|steps| - 1], w, m, u)
    requires (w, m) in Run(c0, steps).sending && u in Run(c0, steps).sending[(w, m)]
    ensures Dispatched(c0, steps, w, m, u)
  {
    var (before, step) := (steps[..|steps| - 1], steps[|steps| - 1]);
    var c := Run(c0, before);
    SendHistory(c, step, w, m, u);
    if (w, m) in c.sending && u in c.sending[(w, m)] {
      DispatchedLonger(c0, steps, w, m, u);
    } else {
      DispatchedJustNow(c0, steps, w, m, u);
    }
  }

  lemma DispatchedJustNow(c0: Cluster, steps: seq<Step>, w: WorkerId, m: MessageId, u: UserId)
    requires steps != [] && CanRun(c0, steps[..|steps| - 1])
    requires var (c, step) := (Run(c0, steps[..|steps| - 1]), steps[|steps| - 1]);
      step.Dispatch? && step.worker == w && step.message == m && step.sender != Some(u)
      && w in c.workers && c.workers[w].reg.Routed(u, step.group)
    ensures Dispatched(c0, steps, w, m, u)
  {
    assert DispatchedAt(c0, steps, |steps| - 1, w, m, u);
  }

  lemma FrameAccounted(c0: Cluster, steps: seq<Step>, s: SocketId, m: MessageId)
    requires steps != [] && CanRun(c0, steps) && CanRun(c0, steps[..|steps| - 1])
    requires Accounted(c0, steps[..|steps| - 1], s, m) && SocketsMatch(Run(c0, steps[..|steps| - 1]))
    requires Run(c0, steps).frames[(s, m)] > 0
    ensures s in Run(c0, steps).home
    ensures Dispatched(c0, steps, Run(c0, steps).home[s].0, m, Run(c0, steps).home[s].1)
  {
    var c := Run(c0, steps[..|steps| - 1]);
    FrameOwner(c, steps[|steps| - 1], s, m);
    DispatchedLonger(c0, steps, c.home[s].0, m, c.home[s].1);
  }

  /** Only the sockets of routed users other than the sender get a group message. */
  lemma {:induction false} OnlyToRouted(c0: Cluster, steps: seq<Step>, s: SocketId, m: MessageId)
    requires Init(c0) && CanRun(c0, steps)
    ensures Accounted(c0, steps, s, m)
    decreases |steps|
  {
    if steps != [] {
      var before := steps[..|steps| - 1];
      OnlyToRouted(c0, before, s, m);
      RunKeepsRouting(c0, before);
      var c := Run(c0, steps);
      forall w, u | (w, m) in c.sending && u in c.sending[(w, m)] { PendingAccounted(c0, steps, w, m, u); }
      if c.frames[(s, m)] > 0 { FrameAccounted(c0, steps, s, m); }
    }
  }

  lemma FrameOwner(c: Cluster, step: Step, s: SocketId, m: MessageId)
    requires SocketsMatch(c) && Enabled(c, step) && Apply(c, step).frames[(s, m)] > 0
    requires c.frames[(s, m)] > 0 ==> s in c.home
    ensures s in c.home && s in Apply(c, step).home && Apply(c, step).home[s] == c.home[s]
    ensures c.frames[(s, m)] > 0 ||
            ((c.home[s].0, m) in c.sending && c.home[s].1 in c.sending[(c.home[s].0, m)])
  {
    if c.frames[(s, m)] == 0 {
      FrameHistory(c, step, s, m);
    } else if !Sends(step) {
      OthersSendNothing(c, step);
    }
  }
}
