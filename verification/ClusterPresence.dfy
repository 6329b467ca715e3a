/** The presence counters: what they count, and what they do not. */
module ClusterPresence {
  import opened Ids
  import opened Clusters
  import opened ClusterStructure

  function SocketsOf(socks: map<SocketId, Connection>, u: UserId): set<SocketId> {
    set s | s in socks && socks[s].user == u
  }

  /** Sockets added locally whose increment has not reached Redis. */
  function Uncounted(socks: map<SocketId, Connection>, u: UserId): set<SocketId> {
    set s | s in socks && socks[s].user == u && socks[s].phase.Added?
  }

  /** Removals whose decrement has not reached Redis. */
  function Undecremented(removals: map<(WorkerId, UserId), Removal>, u: UserId): set<(WorkerId, UserId)> {
    set k | k in removals && k.1 == u && removals[k].BeforeDecrement?
  }

  /** Increments and decrements in flight included, the counter is the number of open
      sockets on all workers, plus the closes that were not a worker's last for the
      user, minus what HDEL threw away. */
  predicate Conservation(c: Cluster, u: UserId) {
    && Count(c.presence, u) + Count(c.dropped, u) + |Uncounted(c.socks, u)| - |Undecremented(c.removals, u)|
        == |SocketsOf(c.socks, u)| + Count(c.keptCloses, u)
    && Count(c.keptCloses, u) >= 0
  }

  /** A counter that is not positive is about to be deleted by somebody. */
  ghost predicate Positive(c: Cluster, u: UserId) {
    u in c.presence && c.presence[u] <= 0 ==>
      exists w :: (w, u) in c.removals && c.removals[(w, u)].BeforeDelete?
  }

  // How the three sets follow the tables they are read from.

  lemma SocketAdded(socks: map<SocketId, Connection>, t: SocketId, conn: Connection, u: UserId)
    requires t !in socks && conn.phase.Added?
    ensures var (socks', one) := (socks[t := conn], if conn.user == u then 1 else 0);
      |SocketsOf(socks', u)| == |SocketsOf(socks, u)| + one && |Uncounted(socks', u)| == |Uncounted(socks, u)| + one
  {
    var socks' := socks[t := conn];
    if conn.user == u {
      assert SocketsOf(socks', u) == SocketsOf(socks, u) + {t};
      assert Uncounted(socks', u) == Uncounted(socks, u) + {t};
    } else {
      assert SocketsOf(socks', u) == SocketsOf(socks, u);
      assert Uncounted(socks', u) == Uncounted(socks, u);
    }
  }

  lemma SocketCounted(socks: map<SocketId, Connection>, t: SocketId, u: UserId)
    requires t in socks && socks[t].phase.Added?
    ensures var socks' := WithPhase(socks, t, Counted);
      && |SocketsOf(socks', u)| == |SocketsOf(socks, u)|
      && |Uncounted(socks', u)| == |Uncounted(socks, u)| - if socks[t].user == u then 1 else 0
  {
    var (socks', old_) := (WithPhase(socks, t, Counted), if socks[t].user == u then {t} else {});
    assert SocketsOf(socks', u) == SocketsOf(socks, u);
    assert Uncounted(socks', u) == Uncounted(socks, u) - old_ && old_ <= Uncounted(socks, u);
  }

  lemma SocketClosed(socks: map<SocketId, Connection>, t: SocketId, u: UserId)
    requires t in socks && !socks[t].phase.Added?
    ensures var socks' := socks - {t};
      && |SocketsOf(socks', u)| == |SocketsOf(socks, u)| - (if socks[t].user == u then 1 else 0)
      && |Uncounted(socks', u)| == |Uncounted(socks, u)|
  {
    var (socks', old_) := (socks - {t}, if socks[t].user == u then {t} else {});
    assert SocketsOf(socks', u) == SocketsOf(socks, u) - old_ && old_ <= SocketsOf(socks, u);
    assert Uncounted(socks', u) == Uncounted(socks, u);
  }

  lemma RemovalAdded(removals: map<(WorkerId, UserId), Removal>, k: (WorkerId, UserId), u: UserId)
    requires k !in removals
    ensures |Undecremented(removals[k := BeforeDecrement], u)| == |Undecremented(removals, u)| + if k.1 == u then 1 else 0
  {
    var new_ := if k.1 == u then {k} else {};
    assert Undecremented(removals[k := BeforeDecrement], u) == Undecremented(removals, u) + new_;
  }

  /** The decrement is done, whether or not HDEL is still to come. */
  lemma RemovalDecremented(removals: map<(WorkerId, UserId), Removal>, removals': map<(WorkerId, UserId), Removal>,
                           k: (WorkerId, UserId), u: UserId)
    requires k in removals && removals' in {removals - {k}, removals[k := BeforeDelete]}
    ensures |Undecremented(removals', u)|
         == |Undecremented(removals, u)| - if removals[k].BeforeDecrement? && k.1 == u then 1 else 0
  {
    var old_ := if removals[k].BeforeDecrement? && k.1 == u then {k} else {};
    assert Undecremented(removals', u) == Undecremented(removals, u) - old_ && old_ <= Undecremented(removals, u);
  }

  // Every step keeps the law.

  /** Steps that leave the counters alone, and every socket's user and Added phase. */
  lemma OthersConserve(c: Cluster, c': Cluster, u: UserId)
    requires SameSockets(c, c') && c'.presence == c.presence && c'.removals == c.removals
    requires c'.keptCloses == c.keptCloses && c'.dropped == c.dropped
    requires forall s <- c.socks :: c'.socks[s].phase.Added? == c.socks[s].phase.Added?
    ensures Conservation(c, u) ==> Conservation(c', u)
    ensures Positive(c, u) ==> Positive(c', u)
  {
    assert SocketsOf(c'.socks, u) == SocketsOf(c.socks, u) && Uncounted(c'.socks, u) == Uncounted(c.socks, u);
  }

  lemma OpenConserves(c: Cluster, w: WorkerId, x: UserId, t: SocketId, u: UserId)
    requires w in c.workers && t !in c.socks && Conservation(c, u)
    ensures Conservation(ApplyOpen(c, w, x, t), u)
  {
    SocketAdded(c.socks, t, Connection(w, x, Added), u);
  }

  lemma IncrementConserves(c: Cluster, t: SocketId, u: UserId)
    requires t in c.socks && c.socks[t].phase.Added? && Conservation(c, u)
    ensures Conservation(ApplyIncrement(c, t), u)
  {
    SocketCounted(c.socks, t, u);
  }

  lemma CloseConserves(c: Cluster, t: SocketId, u: UserId)
    requires CanClose(c, t) && Conservation(c, u)
    ensures Conservation(ApplyClose(c, t), u)
  {
    SocketClosed(c.socks, t, u);
    RemovalAdded(c.removals, (c.socks[t].worker, c.socks[t].user), u);
  }

  lemma DecrementConserves(c: Cluster, w: WorkerId, x: UserId, u: UserId)
    requires (w, x) in c.removals && c.removals[(w, x)].BeforeDecrement? && Conservation(c, u)
    ensures Conservation(ApplyDecrement(c, w, x), u)
  {
    RemovalDecremented(c.removals, ApplyDecrement(c, w, x).removals, (w, x), u);
  }

  lemma HashDeleteConserves(c: Cluster, w: WorkerId, x: UserId, u: UserId)
    requires (w, x) in c.removals && c.removals[(w, x)].BeforeDelete? && Conservation(c, u)
    ensures Conservation(ApplyHashDelete(c, w, x), u)
  {
    RemovalDecremented(c.removals, ApplyHashDelete(c, w, x).removals, (w, x), u);
  }

  lemma RemoveActiveConserves(c: Cluster, w: WorkerId, x: UserId, u: UserId)
    requires (w, x) in c.removals && c.removals[(w, x)].BeforeDecrement? && Conservation(c, u)
    ensures Conservation(ApplyRemoveActive(c, w, x), u)
  {
    DecrementConserves(c, w, x, u);
    var c' := ApplyDecrement(c, w, x);
    if (w, x) in c'.removals { HashDeleteConserves(c', w, x, u); }
  }

  // A counter that is not positive exists only between two commands.

  lemma DecrementKeepsPositive(c: Cluster, w: WorkerId, x: UserId, u: UserId)
    requires (w, x) in c.removals && c.removals[(w, x)].BeforeDecrement? && Positive(c, u)
    ensures Positive(ApplyDecrement(c, w, x), u)
  {
    var c' := ApplyDecrement(c, w, x);
    if u in c'.presence && c'.presence[u] <= 0 {
      if x == u {
        assert (w, u) in c'.removals && c'.removals[(w, u)].BeforeDelete?;
      } else {
        var v :| (v, u) in c.removals && c.removals[(v, u)].BeforeDelete?;
        assert (v, u) in c'.removals && c'.removals[(v, u)].BeforeDelete?;
      }
    }
  }

  lemma HashDeleteKeepsPositive(c: Cluster, w: WorkerId, x: UserId, u: UserId)
    requires (w, x) in c.removals && c.removals[(w, x)].BeforeDelete? && Positive(c, u)
    ensures Positive(ApplyHashDelete(c, w, x), u)
  {
    var c' := ApplyHashDelete(c, w, x);
    if u in c'.presence && c'.presence[u] <= 0 {
      var v :| (v, u) in c.removals && c.removals[(v, u)].BeforeDelete?;
      assert (v, u) in c'.removals;
    }
  }

  lemma RemoveActiveKeepsPositive(c: Cluster, w: WorkerId, x: UserId, u: UserId)
    requires (w, x) in c.removals && c.removals[(w, x)].BeforeDecrement? && Positive(c, u)
    ensures Positive(ApplyRemoveActive(c, w, x), u)
  {
    DecrementKeepsPositive(c, w, x, u);
    var c' := ApplyDecrement(c, w, x);
    if (w, x) in c'.removals { HashDeleteKeepsPositive(c', w, x, u); }
  }

  lemma IncrementKeepsPositive(c: Cluster, t: SocketId, u: UserId)
    requires t in c.socks && Positive(c, u)
    ensures Positive(ApplyIncrement(c, t), u)
  {
    var c' := ApplyIncrement(c, t);
    if u in c'.presence && c'.presence[u] <= 0 {
      var v :| (v, u) in c.removals && c.removals[(v, u)].BeforeDelete?;
      assert (v, u) in c'.removals;
    }
  }

  lemma CloseKeepsPositive(c: Cluster, t: SocketId, u: UserId)
    requires CanClose(c, t) && Positive(c, u)
    ensures Positive(ApplyClose(c, t), u)
  {
    var c' := ApplyClose(c, t);
    if u in c'.presence && c'.presence[u] <= 0 {
      var v :| (v, u) in c.removals && c.removals[(v, u)].BeforeDelete?;
      assert (v, u) in c'.removals && c'.removals[(v, u)].BeforeDelete?;
    }
  }
}
