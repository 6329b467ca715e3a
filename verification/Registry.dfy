/** One worker's routing registry: who has local sockets, who is routed to which
    group, and the reverse index. Each function is what one uninterrupted stretch
    of the handlers (the code between two awaits) does to the three maps. */
module Registries {
  import opened Ids

  datatype Registry = Registry(
    conns: map<UserId, set<SocketId>>,
    groupConns: map<GroupId, set<UserId>>,
    userGroups: map<UserId, set<GroupId>>)
  {
    predicate Live(u: UserId, s: SocketId) { s in At(conns, u) }

    /** Group messages for g reach u on this worker. */
    predicate Routed(u: UserId, g: GroupId) { u in At(groupConns, g) }

    /** The reverse index lists g for u. */
    predicate Indexed(u: UserId, g: GroupId) { g in At(userGroups, u) }
  }

  const EMPTY := Registry(map[], map[], map[])

  /** No key is kept for an empty socket or member set; every routed pair is in the
      reverse index; only users with a live socket are in the reverse index. */
  ghost predicate WellFormed(r: Registry) {
    && (forall u <- r.conns :: r.conns[u] != {})
    && (forall g <- r.groupConns :: r.groupConns[g] != {})
    && (forall u, g :: r.Routed(u, g) ==> r.Indexed(u, g))
    && r.userGroups.Keys <= r.conns.Keys
  }

  /** Stores a member set, dropping the key when the set is empty. */
  function Put<K, V>(m: map<K, set<V>>, k: K, vs: set<V>): map<K, set<V>> {
    if vs == {} then m - {k} else m[k := vs]
  }

  /** u added to the members of every group in gs. */
  function WithMember(m: map<GroupId, set<UserId>>, gs: set<GroupId>, u: UserId): map<GroupId, set<UserId>> {
    map g | g in m.Keys + gs :: At(m, g) + (if g in gs then {u} else {})
  }

  /** u taken out of every group in gs, and groups left empty by that dropped. */
  function WithoutMember(m: map<GroupId, set<UserId>>, gs: set<GroupId>, u: UserId): map<GroupId, set<UserId>> {
    map g | g in m && !(g in gs && m[g] <= {u}) :: if g in gs then m[g] - {u} else m[g]
  }

  lemma NoGroupsNoChange(m: map<GroupId, set<UserId>>, u: UserId)
    ensures WithMember(m, {}, u) == m == WithoutMember(m, {}, u)
  {
    assert WithMember(m, {}, u).Keys == m.Keys;
    forall g <- m ensures WithMember(m, {}, u)[g] == m[g] {
      assert m[g] + {} == m[g];
    }
  }

  lemma WithMemberStep(m: map<GroupId, set<UserId>>, gs: set<GroupId>, u: UserId, g: GroupId)
    requires g !in gs
    ensures var n := WithMember(m, gs, u);
      WithMember(m, gs + {g}, u) == n[g := At(n, g) + {u}]
  {
    var n, n' := WithMember(m, gs, u), WithMember(m, gs + {g}, u);
    assert n'.Keys == n.Keys + {g};
    forall h <- n' ensures n'[h] == n[g := At(n, g) + {u}][h] {
      assert h == g ==> At(n, g) == At(m, g) + {};
    }
  }

  lemma WithoutMemberStep(m: map<GroupId, set<UserId>>, gs: set<GroupId>, u: UserId, g: GroupId)
    requires g !in gs
    ensures var n := WithoutMember(m, gs, u);
      WithoutMember(m, gs + {g}, u) == Put(n, g, At(n, g) - {u})
  {}

  function AddSocket(r: Registry, u: UserId, s: SocketId): Registry {
    r.(conns := r.conns[u := At(r.conns, u) + {s}])
  }

  /** The end of a registration: the groups read from the database are merged in,
      provided the socket is still there. */
  function MergeGroups(r: Registry, u: UserId, s: SocketId, gs: set<GroupId>): Registry {
    if !r.Live(u, s) then r else
      r.(groupConns := WithMember(r.groupConns, gs, u),
         userGroups := r.userGroups[u := At(r.userGroups, u) + gs])
  }

  predicate IsLastSocket(r: Registry, u: UserId, s: SocketId) {
    At(r.conns, u) - {s} == {}
  }

  /** Closing a socket; with the last one the user's routing goes too. */
  function RemoveSocket(r: Registry, u: UserId, s: SocketId): Registry {
    if !IsLastSocket(r, u, s) then r.(conns := r.conns[u := r.conns[u] - {s}]) else
      Registry(
        r.conns - {u},
        WithoutMember(r.groupConns, At(r.userGroups, u), u),
        r.userGroups - {u})
  }

  function HandleJoin(r: Registry, u: UserId, g: GroupId): Registry {
    if u !in r.conns then r else
      r.(groupConns := r.groupConns[g := At(r.groupConns, g) + {u}],
         userGroups := r.userGroups[u := At(r.userGroups, u) + {g}])
  }

  function HandleLeave(r: Registry, u: UserId, g: GroupId): Registry {
    r.(groupConns := Put(r.groupConns, g, At(r.groupConns, g) - {u}),
       userGroups := if u in r.userGroups then r.userGroups[u := r.userGroups[u] - {g}] else r.userGroups)
  }

  /** The part of a group deletion that runs after the frames were sent: `members`
      is the snapshot taken before sending. */
  function FinishDeletion(r: Registry, g: GroupId, members: set<UserId>): Registry {
    r.(groupConns := r.groupConns - {g},
       userGroups := map u | u in r.userGroups ::
         if u in members then r.userGroups[u] - {g} else r.userGroups[u])
  }

  // What each stretch does to the three relations, pair by pair.

  lemma AddSocketEffect(r: Registry, u: UserId, s: SocketId)
    requires WellFormed(r)
    ensures var r' := AddSocket(r, u, s);
      r'.conns.Keys == r.conns.Keys + {u}
      && (forall v, t :: r'.Live(v, t) <==> r.Live(v, t) || (v == u && t == s))
      && (forall v, h :: r'.Routed(v, h) <==> r.Routed(v, h))
      && (forall v, h :: r'.Indexed(v, h) <==> r.Indexed(v, h))
      && WellFormed(r')
  {}

  lemma MergeGroupsEffect(r: Registry, u: UserId, s: SocketId, gs: set<GroupId>)
    requires WellFormed(r) && r.Live(u, s)
    ensures var r' := MergeGroups(r, u, s, gs);
      r'.conns == r.conns
      && (forall v, h :: r'.Routed(v, h) <==> r.Routed(v, h) || (v == u && h in gs))
      && (forall v, h :: r'.Indexed(v, h) <==> r.Indexed(v, h) || (v == u && h in gs))
      && WellFormed(r')
  {}

  /** A socket that has gone meanwhile gets nothing merged. */
  lemma MergeNeedsTheSocket(r: Registry, u: UserId, s: SocketId, gs: set<GroupId>)
    requires u !in r.conns || s !in r.conns[u]
    ensures MergeGroups(r, u, s, gs) == r
  {}

  lemma RemoveSocketEffect(r: Registry, u: UserId, s: SocketId)
    requires WellFormed(r)
    ensures var r' := RemoveSocket(r, u, s);
      (forall v, t :: r'.Live(v, t) <==> r.Live(v, t) && !(v == u && t == s))
      && (u in r'.conns <==> !IsLastSocket(r, u, s))
      && (forall v, h :: r'.Routed(v, h) <==> r.Routed(v, h) && (v != u || !IsLastSocket(r, u, s)))
      && (forall v, h :: r'.Indexed(v, h) <==> r.Indexed(v, h) && (v != u || !IsLastSocket(r, u, s)))
      && WellFormed(r')
  {
    var r' := RemoveSocket(r, u, s);
    if IsLastSocket(r, u, s) {
      forall h ensures At(r'.groupConns, h) == if r.Indexed(u, h) then At(r.groupConns, h) - {u} else At(r.groupConns, h) {
      }
    }
  }

  lemma HandleJoinEffect(r: Registry, u: UserId, g: GroupId)
    requires WellFormed(r)
    ensures var r' := HandleJoin(r, u, g);
      r'.conns == r.conns
      && (forall v, h :: r'.Routed(v, h) <==> r.Routed(v, h) || (v == u && h == g && u in r.conns))
      && (forall v, h :: r'.Indexed(v, h) <==> r.Indexed(v, h) || (v == u && h == g && u in r.conns))
      && WellFormed(r')
  {}

  lemma HandleLeaveEffect(r: Registry, u: UserId, g: GroupId)
    requires WellFormed(r)
    ensures var r' := HandleLeave(r, u, g);
      r'.conns == r.conns
      && (forall v, h :: r'.Routed(v, h) <==> r.Routed(v, h) && !(v == u && h == g))
      && (forall v, h :: r'.Indexed(v, h) <==> r.Indexed(v, h) && !(v == u && h == g))
      && WellFormed(r')
  {}

  lemma FinishDeletionEffect(r: Registry, g: GroupId, members: set<UserId>)
    requires WellFormed(r)
    ensures var r' := FinishDeletion(r, g, members);
      r'.conns == r.conns
      && (forall v, h :: r'.Routed(v, h) <==> r.Routed(v, h) && h != g)
      && (forall v, h :: r'.Indexed(v, h) <==> r.Indexed(v, h) && !(h == g && v in members))
      && WellFormed(r')
  {}

  /** Once a user has no live socket, the worker routes nothing to them. */
  lemma NoSocketNoRouting(r: Registry, u: UserId, g: GroupId)
    requires WellFormed(r) && forall s :: !r.Live(u, s)
    ensures u !in r.conns && !r.Routed(u, g) && !r.Indexed(u, g)
  {
    if u in r.conns {
      var s :| s in r.conns[u];
      assert r.Live(u, s);
    }
  }

  /** Sockets a group message is sent to: those of the group's local members. */
  function Recipients(r: Registry, g: GroupId, sender: Option<UserId>): set<SocketId> {
    set u, s | u in At(r.groupConns, g) && s in At(r.conns, u) && Some(u) != sender :: s
  }

  /** A socket is one of them exactly if it is a local socket of a member who is not the
      sender. */
  lemma RecipientIff(r: Registry, g: GroupId, sender: Option<UserId>, s: SocketId)
    ensures s in Recipients(r, g, sender) <==>
      exists u :: u in r.conns && s in r.conns[u] && g in r.groupConns && u in r.groupConns[g]
                  && (sender.None? || sender.value != u)
  {
    if u :| u in r.conns && s in r.conns[u] && g in r.groupConns && u in r.groupConns[g]
            && (sender.None? || sender.value != u) {
      assert u in At(r.groupConns, g) && s in At(r.conns, u) && Some(u) != sender;
    }
  }

  /** The same by scanning every local user instead of using the group index. */
  function ScanRecipients(r: Registry, g: GroupId, sender: Option<UserId>): set<SocketId> {
    set u, s | u in r.conns && s in r.conns[u] && r.Indexed(u, g) && Some(u) != sender :: s
  }

  lemma FanOutIsScan(r: Registry, g: GroupId, sender: Option<UserId>)
    requires WellFormed(r)
    requires forall u :: r.Indexed(u, g) ==> r.Routed(u, g)
    ensures Recipients(r, g, sender) == ScanRecipients(r, g, sender)
  {
    forall s ensures s in Recipients(r, g, sender) <==> s in ScanRecipients(r, g, sender) {
      if u :| u in At(r.groupConns, g) && s in At(r.conns, u) && Some(u) != sender {
        assert r.Routed(u, g);
      }
      if u :| u in r.conns && s in r.conns[u] && r.Indexed(u, g) && Some(u) != sender {
        assert r.Routed(u, g);
      }
    }
  }
}
