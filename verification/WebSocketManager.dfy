/** The registry as the worker holds it: three dictionaries changed in place. Each
    method is one stretch of a handler between two awaits. */
module WebSocketManagers {
  import opened Ids
  import opened Registries

  datatype MembershipAction = JOIN | LEAVE

  class WebSocketManager {
    var localConnections: map<UserId, set<SocketId>>
    var groupConnections: map<GroupId, set<UserId>>
    var userGroups: map<UserId, set<GroupId>>

    ghost function Contents(): Registry
      reads this
    {
      Registry(localConnections, groupConnections, userGroups)
    }

    ghost predicate Valid()
      reads this
    {
      WellFormed(Contents())
    }

    constructor ()
      ensures Contents() == EMPTY
      ensures Valid()
    {
      localConnections, groupConnections, userGroups := map[], map[], map[];
    }

    /** The start of register_connection: the socket is added before anything is awaited. */
    method RegisterSocket(u: UserId, ws: SocketId)
      requires Valid()
      modifies `localConnections
      ensures Contents() == AddSocket(old(Contents()), u, ws)
      ensures Valid()
    {
      AddSocketEffect(Contents(), u, ws);
      localConnections := localConnections[u := At(localConnections, u) + {ws}];
    }

    /** The end of register_connection: merges what the database read returned. */
    method MergeUserGroups(u: UserId, ws: SocketId, groupIds: set<GroupId>)
      requires Valid()
      modifies `groupConnections, `userGroups
      ensures Contents() == MergeGroups(old(Contents()), u, ws, groupIds)
      ensures u !in localConnections || ws !in localConnections[u] ==> Contents() == old(Contents())
      ensures Valid()
    {
      if u in localConnections && ws in localConnections[u] {
        MergeGroupsEffect(Contents(), u, ws, groupIds);
        userGroups := userGroups[u := At(userGroups, u) + groupIds];
        ghost var before, index := groupConnections, userGroups;
        var todo := groupIds;
        NoGroupsNoChange(before, u);
        assert groupIds - todo == {};
        while todo != {}
          invariant todo <= groupIds
          invariant userGroups == index
          invariant groupConnections == WithMember(before, groupIds - todo, u)
        {
          var g :| g in todo;
          WithMemberStep(before, groupIds - todo, u, g);
          assert groupIds - (todo - {g}) == groupIds - todo + {g};
          groupConnections := groupConnections[g := At(groupConnections, g) + {u}];
          todo := todo - {g};
        }
        assert groupIds - todo == groupIds;
      }
    }

    /** discard, then drop the key if nothing is left. */
    method DiscardMember(g: GroupId, u: UserId)
      modifies `groupConnections
      ensures groupConnections == Put(old(groupConnections), g, At(old(groupConnections), g) - {u})
    {
      groupConnections := groupConnections[g := At(groupConnections, g) - {u}];
      if groupConnections[g] == {} {
        groupConnections := groupConnections - {g};
      }
    }

    /** unregister_connection up to its await: says whether the presence counter is
        to be decremented. */
    method UnregisterSocket(u: UserId, ws: SocketId) returns (last: bool)
      requires Valid()
      modifies this
      ensures Contents() == RemoveSocket(old(Contents()), u, ws)
      ensures Valid()
      ensures last == IsLastSocket(old(Contents()), u, ws)
    {
      RemoveSocketEffect(Contents(), u, ws);
      ghost var before := Contents();
      if At(localConnections, u) != {} {
        localConnections := localConnections[u := localConnections[u] - {ws}];
      }
      last := At(localConnections, u) == {};
      if last {
        localConnections := localConnections - {u};
        var groups := At(userGroups, u);
        userGroups := userGroups - {u};
        var todo := groups;
        NoGroupsNoChange(before.groupConns, u);
        assert groups - todo == {};
        while todo != {}
          invariant todo <= groups
          invariant localConnections == before.conns - {u} && userGroups == before.userGroups - {u}
          invariant groupConnections == WithoutMember(before.groupConns, groups - todo, u)
        {
          var g :| g in todo;
          WithoutMemberStep(before.groupConns, groups - todo, u, g);
          assert groups - (todo - {g}) == groups - todo + {g};
          DiscardMember(g, u);
          todo := todo - {g};
        }
        assert groups - todo == groups;
      }
    }

    /** The registry part of _handle_membership_change, which runs before its await. */
    method HandleMembershipChange(u: UserId, g: GroupId, action: MembershipAction)
      requires Valid()
      modifies `groupConnections, `userGroups
      ensures Contents() == if action.JOIN? then HandleJoin(old(Contents()), u, g)
                            else HandleLeave(old(Contents()), u, g)
      ensures Valid()
    {
      HandleJoinEffect(Contents(), u, g);
      HandleLeaveEffect(Contents(), u, g);
      match action
      case JOIN =>
        if u in localConnections {
          groupConnections := groupConnections[g := At(groupConnections, g) + {u}];
          userGroups := userGroups[u := At(userGroups, u) + {g}];
        }
      case LEAVE =>
        DiscardMember(g, u);
        if u in userGroups {
          userGroups := userGroups[u := userGroups[u] - {g}];
        }
    }

    /** _handle_group_deleted after its await: `localMembers` was read before it. */
    method FinishGroupDeletion(g: GroupId, localMembers: set<UserId>)
      requires Valid()
      modifies `groupConnections, `userGroups
      ensures Contents() == FinishDeletion(old(Contents()), g, localMembers)
      ensures Valid()
    {
      FinishDeletionEffect(Contents(), g, localMembers);
      ghost var before := userGroups;
      var todo := localMembers;
      while todo != {}
        invariant todo <= localMembers
        invariant groupConnections == old(groupConnections)
        invariant userGroups == map u | u in before ::
            if u in localMembers - todo then before[u] - {g} else before[u]
      {
        var m :| m in todo;
        if m in userGroups {
          userGroups := userGroups[m := userGroups[m] - {g}];
        }
        todo := todo - {m};
      }
      assert localMembers - todo == localMembers;
      groupConnections := groupConnections - {g};
    }

    /** _send_frame_to_user_sockets: one frame for each of the user's sockets. */
    method SendFrameToUserSockets(u: UserId) returns (frames: multiset<SocketId>)
      ensures frames == multiset(At(localConnections, u))
    {
      frames := multiset{};
      var sockets := At(localConnections, u);
      var todo := sockets;
      while todo != {}
        invariant todo <= sockets
        invariant frames == multiset(sockets - todo)
      {
        var ws :| ws in todo;
        frames := frames + multiset{ws};
        todo := todo - {ws};
      }
      assert sockets - todo == sockets;
    }

    /** _dispatch_group_message when nothing interleaves with it: every recipient
        socket gets the frame, once. */
    method DispatchGroupMessage(g: GroupId, sender: Option<UserId>) returns (frames: multiset<SocketId>)
      requires forall u, v :: u in localConnections && v in localConnections && u != v ==>
                                localConnections[u] !! localConnections[v]
      ensures frames == multiset(Recipients(Contents(), g, sender))
    {
      frames := multiset{};
      var localMembers := set u | u in At(groupConnections, g) && Some(u) != sender;
      var todo := localMembers;
      while todo != {}
        invariant todo <= localMembers
        invariant frames == multiset(set u, s | u in localMembers - todo && s in At(localConnections, u) :: s)
      {
        var m :| m in todo;
        var sent := SendFrameToUserSockets(m);
        ghost var done := set u, s | u in localMembers - todo && s in At(localConnections, u) :: s;
        assert done !! At(localConnections, m);
        assert (set u, s | u in localMembers - (todo - {m}) && s in At(localConnections, u) :: s)
            == done + At(localConnections, m);
        frames := frames + sent;
        todo := todo - {m};
      }
      assert localMembers - todo == localMembers;
      assert Recipients(Contents(), g, sender)
          == set u, s | u in localMembers && s in At(localConnections, u) :: s;
    }
  }
}
