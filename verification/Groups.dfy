/** The relational core of group management: the users, groups and memberships
    tables, and the service transactions over them. */
module Groups {
  import opened Ids

  /** Committed rows. `deletedUsers` and `usedGroups` are history: identifiers
      are random UUIDs, so a deleted row's key never comes back. */
  datatype Db = Db(
    users: set<UserId>,
    groups: map<GroupId, UserId>,
    members: set<(GroupId, UserId)>,
    deletedUsers: set<UserId>,
    usedGroups: set<GroupId>)

  /** What a committed transaction pushes to the other workers. */
  datatype Event =
    | Join(user: UserId, group: GroupId)
    | Leave(user: UserId, group: GroupId)
    | Deleted(group: GroupId)

  datatype Error =
    | UserNotFound | GroupNotFound | NotGroupMember
    | AlreadyMember | InsufficientPermission | DatabaseError

  datatype Outcome = Committed(push: Option<Event>) | RolledBack(error: Error)

  datatype Op =
    | CreateUser(user: UserId)
    | CreateGroup(actor: UserId, group: GroupId)
    | AddMember(actor: UserId, group: GroupId, target: UserId)
    | RemoveMember(actor: UserId, group: GroupId, target: UserId)
    | DeleteGroup(actor: UserId, group: GroupId)
    | DeleteAccount(user: UserId)

  const EMPTY := Db({}, map[], {}, {}, {})

  /** The tables inside a transaction, before a statement's constraints are checked: a
      group's creator may be NULL. */
  datatype Draft = Draft(users: set<UserId>, groups: map<GroupId, Option<UserId>>, members: set<(GroupId, UserId)>)

  function Begin(db: Db): Draft {
    Draft(db.users, map g | g in db.groups :: Some(db.groups[g]), db.members)
  }

  // DELETE FROM users, and the actions of the foreign keys that refer to the row.

  function CascadeMembers(d: Draft, u: UserId): Draft {
    d.(members := set p | p in d.members && p.1 != u)
  }

  function SetCreatorNull(d: Draft, u: UserId): Draft {
    d.(groups := map g | g in d.groups :: if d.groups[g] == Some(u) then None else d.groups[g])
  }

  function DeleteUserRow(d: Draft, u: UserId): Draft {
    SetCreatorNull(CascadeMembers(d.(users := d.users - {u}), u), u)
  }

  /** created_by is NOT NULL. */
  predicate NotNull(d: Draft) {
    forall g <- d.groups :: d.groups[g].Some?
  }

  function Commit(db: Db, d: Draft): Db
    requires NotNull(d)
  {
    db.(users := d.users, groups := map g | g in d.groups :: d.groups[g].value, members := d.members)
  }

  /** The deletion leaves no NULL exactly when the user created none of the groups, and
      then it touches no group. */
  lemma DeleteUserRowEffect(db: Db, u: UserId)
    ensures var d := DeleteUserRow(Begin(db), u);
      && (NotNull(d) <==> forall g <- db.groups :: db.groups[g] != u)
      && (NotNull(d) ==> Commit(db, d) == db.(users := db.users - {u}, members := set p | p in db.members && p.1 != u))
  {
    var d := DeleteUserRow(Begin(db), u);
    assert d.groups.Keys == db.groups.Keys;
    forall g <- db.groups ensures d.groups[g].Some? <==> db.groups[g] != u {}
    if NotNull(d) { assert Commit(db, d).groups == db.groups; }
  }

  /** The error, if any, that makes the operation's transaction roll back. */
  function Refusal(db: Db, op: Op): Option<Error> {
    match op
    case CreateUser(u) =>
      if u in db.users then Some(DatabaseError) else None
    case CreateGroup(actor, g) =>
      if g in db.groups then Some(DatabaseError)
      else if actor !in db.users then Some(UserNotFound) else None
    case AddMember(actor, g, target) =>
      if g !in db.groups then Some(GroupNotFound)
      else if db.groups[g] != actor then Some(InsufficientPermission)
      else if (g, target) in db.members then Some(AlreadyMember)
      else if target !in db.users then Some(UserNotFound) else None
    case RemoveMember(actor, g, target) =>
      if g !in db.groups then Some(GroupNotFound)
      else if target == db.groups[g] then Some(InsufficientPermission)
      else if actor != target && actor != db.groups[g] then Some(InsufficientPermission)
      else if (g, target) !in db.members then Some(NotGroupMember) else None
    case DeleteGroup(actor, g) =>
      if g !in db.groups then Some(GroupNotFound)
      else if db.groups[g] != actor then Some(InsufficientPermission) else None
    case DeleteAccount(u) =>
      if u !in db.users then Some(UserNotFound)
      else if !NotNull(DeleteUserRow(Begin(db), u)) then Some(DatabaseError) else None
  }

  /** Tables after the operation commits. */
  function Effect(db: Db, op: Op): Db
    requires Refusal(db, op).None?
  {
    match op
    case CreateUser(u) => db.(users := db.users + {u})
    case CreateGroup(actor, g) =>
      db.(groups := db.groups[g := actor], members := db.members + {(g, actor)},
          usedGroups := db.usedGroups + {g})
    case AddMember(_, g, target) => db.(members := db.members + {(g, target)})
    case RemoveMember(_, g, target) => db.(members := db.members - {(g, target)})
    case DeleteGroup(_, g) =>
      db.(groups := db.groups - {g}, members := (set p | p in db.members && p.0 != g))
    case DeleteAccount(u) =>
      Commit(db, DeleteUserRow(Begin(db), u)).(deletedUsers := db.deletedUsers + {u})
  }

  function Push(op: Op): Option<Event> {
    match op
    case CreateGroup(actor, g) => Some(Join(actor, g))
    case AddMember(_, g, target) => Some(Join(target, g))
    case RemoveMember(_, g, target) => Some(Leave(target, g))
    case DeleteGroup(_, g) => Some(Deleted(g))
    case CreateUser(_) => None
    case DeleteAccount(_) => None
  }

  /** One whole transaction: all of its effect, or none of it. */
  function Exec(db: Db, op: Op): (Db, Outcome) {
    match Refusal(db, op)
    case Some(e) => (db, RolledBack(e))
    case None => (Effect(db, op), Committed(Push(op)))
  }

  /** Keys drawn by the operation are new. */
  predicate FreshKeys(db: Db, op: Op) {
    (op.CreateUser? ==> op.user !in db.users + db.deletedUsers) &&
    (op.CreateGroup? ==> op.group !in db.usedGroups)
  }

  /** The foreign keys, and what the service adds to them: the creator of a group
      is one of its members. */
  predicate Consistent(db: Db) {
    && (forall g <- db.groups :: db.groups[g] in db.users && (g, db.groups[g]) in db.members)
    && (forall p <- db.members :: p.0 in db.groups && p.1 in db.users)
    && db.users !! db.deletedUsers
    && db.groups.Keys <= db.usedGroups
  }

  lemma ExecKeepsConsistent(db: Db, op: Op)
    requires Consistent(db) && FreshKeys(db, op)
    ensures Consistent(Exec(db, op).0)
  {
    if op.DeleteAccount? { DeleteUserRowEffect(db, op.user); }
  }

  /** Tables after a history of transactions, starting from an empty database. */
  function History(ops: seq<Op>): Db {
    if ops == [] then EMPTY else Exec(History(ops[..|ops| - 1]), ops[|ops| - 1]).0
  }

  predicate FreshHistory(ops: seq<Op>) {
    ops == [] || (FreshHistory(ops[..|ops| - 1]) && FreshKeys(History(ops[..|ops| - 1]), ops[|ops| - 1]))
  }

  /** In every committed state every group's creator exists and belongs to it. */
  lemma {:induction false} CreatorAlwaysMember(ops: seq<Op>, g: GroupId)
    requires FreshHistory(ops)
    ensures Consistent(History(ops))
    ensures g in History(ops).groups ==>
              History(ops).groups[g] in History(ops).users
              && (g, History(ops).groups[g]) in History(ops).members
  {
    if ops != [] {
      CreatorAlwaysMember(ops[..|ops| - 1], g);
      ExecKeepsConsistent(History(ops[..|ops| - 1]), ops[|ops| - 1]);
    }
  }

  /** Deleting an account commits exactly when the account exists and created no
      group that is still there: the SET NULL action leaves a NULL creator otherwise,
      which the column forbids. When it commits, what goes is the account and its
      memberships. */
  lemma DeleteAccountCommitsIff(db: Db, u: UserId)
    ensures var (db', outcome) := Exec(db, DeleteAccount(u));
      && (outcome.Committed? <==> u in db.users && forall g <- db.groups :: db.groups[g] != u)
      && (outcome.Committed? ==> db' == db.(users := db.users - {u}, deletedUsers := db.deletedUsers + {u},
                                            members := set p | p in db.members && p.1 != u))
      && (outcome.RolledBack? ==> db' == db)
  {
    DeleteUserRowEffect(db, u);
  }

  // Who may do what, on the tables alone.

  lemma CreateGroupCommitsIff(db: Db, actor: UserId, g: GroupId)
    ensures var (db', outcome) := Exec(db, CreateGroup(actor, g));
      && (outcome.Committed? <==> g !in db.groups && actor in db.users)
      && (outcome.Committed? ==>
            && db' == db.(groups := db.groups[g := actor], members := db.members + {(g, actor)},
                          usedGroups := db.usedGroups + {g})
            && outcome.push == Some(Join(actor, g)))
      && (outcome.RolledBack? ==> db' == db && outcome.error == if g in db.groups then DatabaseError else UserNotFound)
  {}

  /** Only the group's creator adds, only existing users are added, and nobody twice. */
  lemma AddMemberCommitsIff(db: Db, actor: UserId, g: GroupId, target: UserId)
    ensures var (db', outcome) := Exec(db, AddMember(actor, g, target));
      && (outcome.Committed? <==>
            g in db.groups && db.groups[g] == actor && (g, target) !in db.members && target in db.users)
      && (outcome.Committed? ==>
            db' == db.(members := db.members + {(g, target)}) && outcome.push == Some(Join(target, g)))
      && (outcome.RolledBack? ==>
            && db' == db
            && outcome.error == (if g !in db.groups then GroupNotFound
                                 else if db.groups[g] != actor then InsufficientPermission
                                 else if (g, target) in db.members then AlreadyMember
                                 else UserNotFound))
  {}

  /** Members leave, or the creator removes them; the creator never goes. */
  lemma RemoveMemberCommitsIff(db: Db, actor: UserId, g: GroupId, target: UserId)
    ensures var (db', outcome) := Exec(db, RemoveMember(actor, g, target));
      && (outcome.Committed? <==>
            && g in db.groups && target != db.groups[g] && (actor == target || actor == db.groups[g])
            && (g, target) in db.members)
      && (outcome.Committed? ==>
            db' == db.(members := db.members - {(g, target)}) && outcome.push == Some(Leave(target, g)))
      && (outcome.RolledBack? ==>
            && db' == db
            && outcome.error == (if g !in db.groups then GroupNotFound
                                 else if target == db.groups[g] then InsufficientPermission
                                 else if actor != target && actor != db.groups[g] then InsufficientPermission
                                 else NotGroupMember))
  {}

  /** Only the creator deletes the group, and its memberships go with it. */
  lemma DeleteGroupCommitsIff(db: Db, actor: UserId, g: GroupId)
    ensures var (db', outcome) := Exec(db, DeleteGroup(actor, g));
      && (outcome.Committed? <==> g in db.groups && db.groups[g] == actor)
      && (outcome.Committed? ==>
            && db' == db.(groups := db.groups - {g}, members := set p | p in db.members && p.0 != g)
            && outcome.push == Some(Deleted(g)))
      && (outcome.RolledBack? ==>
            db' == db && outcome.error == if g !in db.groups then GroupNotFound else InsufficientPermission)
  {}

  // Over whole histories.

  lemma NextTables(ops: seq<Op>, n: nat)
    requires n < |ops|
    ensures History(ops[..n + 1]) == Exec(History(ops[..n]), ops[n]).0
  {
    assert ops[..n + 1][..n] == ops[..n];
  }

  lemma {:induction false} FreshPrefix(ops: seq<Op>, n: nat)
    requires FreshHistory(ops) && n <= |ops|
    ensures FreshHistory(ops[..n])
    decreases |ops|
  {
    if n == |ops| {
      assert ops[..n] == ops;
    } else {
      assert ops[..|ops| - 1][..n] == ops[..n];
      FreshPrefix(ops[..|ops| - 1], n);
    }
  }

  lemma TablesAt(ops: seq<Op>, n: nat)
    requires FreshHistory(ops) && n < |ops|
    ensures Consistent(History(ops[..n])) && FreshKeys(History(ops[..n]), ops[n])
  {
    FreshPrefix(ops, n + 1);
    assert ops[..n + 1][..n] == ops[..n];
    FreshPrefix(ops, n);
    CreatorAlwaysMember(ops[..n], 0);
  }

  /** u becomes a member of g: as its creator, or added by its creator. */
  predicate Joins(db: Db, op: Op, g: GroupId, u: UserId) {
    && u in db.users
    && (|| op == CreateGroup(u, g)
        || (op.AddMember? && op.group == g && op.target == u && g in db.groups && op.actor == db.groups[g]))
  }

  /** u's membership of g ends: u leaves or the creator of g removes u, who is another, the
      creator deletes g, or u's account goes, which created no group. */
  predicate Parts(db: Db, op: Op, g: GroupId, u: UserId) {
    || (op.RemoveMember? && op.group == g && op.target == u && g in db.groups && u != db.groups[g]
        && (op.actor == u || op.actor == db.groups[g]))
    || (op.DeleteGroup? && op.group == g && g in db.groups && op.actor == db.groups[g])
    || (op == DeleteAccount(u) && forall h <- db.groups :: db.groups[h] != u)
  }

  lemma MembershipFollows(db: Db, op: Op, g: GroupId, u: UserId)
    requires Consistent(db) && FreshKeys(db, op)
    ensures (g, u) in Exec(db, op).0.members <==> Joins(db, op, g, u) || ((g, u) in db.members && !Parts(db, op, g, u))
  {
    match op
    case CreateUser(v) =>
    case CreateGroup(actor, h) => CreateGroupCommitsIff(db, actor, h);
    case AddMember(actor, h, target) => AddMemberCommitsIff(db, actor, h, target);
    case RemoveMember(actor, h, target) => RemoveMemberCommitsIff(db, actor, h, target);
    case DeleteGroup(actor, h) => DeleteGroupCommitsIff(db, actor, h);
    case DeleteAccount(v) => DeleteAccountCommitsIff(db, v);
  }

  datatype Change = Change(joins: bool, parts: bool)

  /** What each operation of a history does to u's membership of g. */
  function Changes(ops: seq<Op>, g: GroupId, u: UserId): (h: seq<Change>)
    ensures |h| == |ops|
    ensures forall i | 0 <= i < |h| ::
              h[i] == Change(Joins(History(ops[..i]), ops[i], g, u), Parts(History(ops[..i]), ops[i], g, u))
  {
    seq(|ops|, i requires 0 <= i < |ops| =>
      Change(Joins(History(ops[..i]), ops[i], g, u), Parts(History(ops[..i]), ops[i], g, u)))
  }

  /** Before operation n, u joined and has not parted since. */
  predicate HasJoined(h: seq<Change>, n: nat)
    requires n <= |h|
  {
    exists i :: 0 <= i < n && h[i].joins && forall j | i < j < n :: !h[j].parts
  }

  lemma HasJoinedNext(h: seq<Change>, n: nat)
    requires n < |h|
    ensures HasJoined(h, n + 1) <==> h[n].joins || (HasJoined(h, n) && !h[n].parts)
  {
    if HasJoined(h, n) && !h[n].parts {
      var i :| 0 <= i < n && h[i].joins && forall j | i < j < n :: !h[j].parts;
      assert forall j | i < j < n + 1 :: !h[j].parts;
    }
  }

  /** In every history, the members of a group are its creator and those its creator
      added, less those who left, whom its creator removed or whose accounts went, as long
      as its creator has not deleted it. */
  lemma {:induction false} MemberIffJoined(ops: seq<Op>, n: nat, g: GroupId, u: UserId)
    requires FreshHistory(ops) && n <= |ops|
    ensures (g, u) in History(ops[..n]).members <==> HasJoined(Changes(ops, g, u), n)
    decreases n
  {
    if n > 0 {
      var m := n - 1;
      MemberIffJoined(ops, m, g, u);
      NextTables(ops, m);
      TablesAt(ops, m);
      MembershipFollows(History(ops[..m]), ops[m], g, u);
      HasJoinedNext(Changes(ops, g, u), m);
    }
  }
}
