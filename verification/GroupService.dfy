/** The group and account transactions as the service runs them: statements that
    change the tables in place, undone together when one of them fails. */
module GroupServices {
  import opened Ids
  import opened Groups

  class GroupService {
    var users: set<UserId>
    /** groups: id to created_by, which a running transaction may have set to NULL. */
    var groups: map<GroupId, Option<UserId>>
    var members: set<(GroupId, UserId)>
    ghost var deletedUsers: set<UserId>
    ghost var usedGroups: set<GroupId>

    ghost function Rows(): Draft
      reads this
    {
      Draft(users, groups, members)
    }

    /** The committed tables. */
    ghost function Tables(): Db
      requires NotNull(Rows())
      reads this
    {
      Commit(EMPTY.(deletedUsers := deletedUsers, usedGroups := usedGroups), Rows())
    }

    ghost predicate Valid()
      reads this
    {
      NotNull(Rows()) && Consistent(Tables())
    }

    constructor ()
      ensures Valid() && Tables() == EMPTY
    {
      users, groups, members := {}, map[], {};
      deletedUsers, usedGroups := {}, {};
    }

    /** INSERT INTO memberships, with the primary key and both foreign keys. */
    method InsertMember(g: GroupId, u: UserId) returns (error: Option<Error>)
      modifies `members
      ensures error == if (g, u) in old(members) then Some(AlreadyMember)
                       else if g !in groups || u !in users then Some(UserNotFound) else None
      ensures members == if error.None? then old(members) + {(g, u)} else old(members)
    {
      if (g, u) in members {
        return Some(AlreadyMember);
      }
      if g !in groups || u !in users {
        return Some(UserNotFound);
      }
      members := members + {(g, u)};
      return None;
    }

    method CreateGroup(actor: UserId, g: GroupId) returns (r: Outcome)
      requires Valid() && FreshKeys(Tables(), Op.CreateGroup(actor, g))
      modifies this
      ensures Valid() && (Tables(), r) == Exec(old(Tables()), Op.CreateGroup(actor, g))
      ensures r.Committed? <==> actor in old(users)
      ensures r.Committed? ==> groups == old(groups)[g := Some(actor)] && members == old(members) + {(g, actor)}
    {
      ExecKeepsConsistent(Tables(), Op.CreateGroup(actor, g));
      if actor !in users {
        return RolledBack(UserNotFound);
      }
      groups := groups[g := Some(actor)];
      var error := InsertMember(g, actor);
      assert error.None?;
      usedGroups := usedGroups + {g};
      assert NotNull(Rows()) && Tables().groups == old(Tables()).groups[g := actor];
      return Committed(Some(Join(actor, g)));
    }

    method AddMember(actor: UserId, g: GroupId, target: UserId) returns (r: Outcome)
      requires Valid()
      modifies this
      ensures Valid() && (Tables(), r) == Exec(old(Tables()), Op.AddMember(actor, g, target))
      ensures r.Committed? <==>
        g in groups && groups[g] == Some(actor) && (g, target) !in old(members) && target in users
      ensures members == if r.Committed? then old(members) + {(g, target)} else old(members)
    {
      ExecKeepsConsistent(Tables(), Op.AddMember(actor, g, target));
      if g !in groups {
        return RolledBack(GroupNotFound);
      }
      if groups[g] != Some(actor) {
        return RolledBack(InsufficientPermission);
      }
      var error := InsertMember(g, target);
      if error.Some? {
        return RolledBack(error.value);
      }
      return Committed(Some(Join(target, g)));
    }

    method RemoveMember(actor: UserId, g: GroupId, target: UserId) returns (r: Outcome)
      requires Valid()
      modifies this
      ensures Valid() && (Tables(), r) == Exec(old(Tables()), Op.RemoveMember(actor, g, target))
      ensures r.Committed? <==>
        && g in groups && groups[g] != Some(target) && (actor == target || groups[g] == Some(actor))
        && (g, target) in old(members)
      ensures members == if r.Committed? then old(members) - {(g, target)} else old(members)
    {
      ExecKeepsConsistent(Tables(), Op.RemoveMember(actor, g, target));
      if g !in groups {
        return RolledBack(GroupNotFound);
      }
      if groups[g] == Some(target) {
        return RolledBack(InsufficientPermission);
      }
      var isSelfRemoval := actor == target;
      var isCreator := groups[g] == Some(actor);
      if !(isSelfRemoval || isCreator) {
        return RolledBack(InsufficientPermission);
      }
      if (g, target) !in members {
        return RolledBack(NotGroupMember);
      }
      members := members - {(g, target)};
      return Committed(Some(Leave(target, g)));
    }

    method DeleteGroup(actor: UserId, g: GroupId) returns (r: Outcome)
      requires Valid()
      modifies this
      ensures Valid() && (Tables(), r) == Exec(old(Tables()), Op.DeleteGroup(actor, g))
      ensures r.Committed? <==> g in old(groups) && old(groups)[g] == Some(actor)
      ensures groups == if r.Committed? then old(groups) - {g} else old(groups)
      ensures members == if r.Committed? then set p | p in old(members) && p.0 != g else old(members)
    {
      ExecKeepsConsistent(Tables(), Op.DeleteGroup(actor, g));
      if g !in groups {
        return RolledBack(GroupNotFound);
      }
      if groups[g] != Some(actor) {
        return RolledBack(InsufficientPermission);
      }
      groups := groups - {g};
      members := set p | p in members && p.0 != g;
      assert NotNull(Rows()) && Tables().groups == old(Tables()).groups - {g};
      return Committed(Some(Event.Deleted(g)));
    }

    /** DELETE FROM users, with the actions of the two foreign keys. */
    method DeleteUserRow(u: UserId)
      modifies `users, `groups, `members
      ensures Rows() == Groups.DeleteUserRow(old(Rows()), u)
    {
      users := users - {u};
      members := set p | p in members && p.1 != u;
      var todo := groups.Keys;
      ghost var before := groups;
      ghost var end := Groups.DeleteUserRow(old(Rows()), u);
      while todo != {}
        invariant users == end.users && members == end.members
        invariant todo <= groups.Keys == before.Keys
        invariant forall g <- groups :: groups[g] == if g !in todo && before[g] == Some(u) then None else before[g]
      {
        var g :| g in todo;
        if groups[g] == Some(u) {
          groups := groups[g := None];
        }
        todo := todo - {g};
      }
      assert groups == end.groups;
    }

    /** The memberships cascade, while a group the user created gets a NULL creator,
        which aborts the transaction. */
    method DeleteAccount(u: UserId) returns (r: Outcome)
      requires Valid()
      modifies this
      ensures Valid() && (Tables(), r) == Exec(old(Tables()), Op.DeleteAccount(u))
    {
      ExecKeepsConsistent(Tables(), Op.DeleteAccount(u));
      BeginIsRows();
      var savedUsers, savedGroups, savedMembers := users, groups, members;
      if u !in users {
        return RolledBack(UserNotFound);
      }
      DeleteUserRow(u);
      if exists g <- groups :: groups[g] == None {
        users, groups, members := savedUsers, savedGroups, savedMembers;
        return RolledBack(DatabaseError);
      }
      deletedUsers := deletedUsers + {u};
      return Committed(None);
    }

    /** A transaction starts from the committed rows. */
    lemma BeginIsRows()
      requires NotNull(Rows())
      ensures Begin(Tables()) == Rows()
    {}
  }
}
