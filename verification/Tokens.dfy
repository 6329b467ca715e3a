/** Token rows and the transactions over them. A token stands for its SHA-256 hash:
    tokens are random, so hashing is taken to be injective and new tokens to be new. */
module Tokens {
  import opened Ids

  type Token = nat

  datatype Row = Row(user: UserId, expiresAt: int, revoked: bool)

  /** users maps each account to its deactivated flag. */
  datatype AuthDb = AuthDb(users: map<UserId, bool>, access: map<Token, Row>, refresh: map<Token, Row>)

  datatype Pair = Pair(access: Token, refresh: Token, accessExpiry: int, refreshExpiry: int)

  datatype StreamEvent = TokenRevoked(token: Token) | UserInvalidated(user: UserId)

  datatype AuthError =
    | InvalidCredentials | InvalidToken | TokenExpired | TokenReuse | UserExists
    | Unauthorized

  datatype Result<+T> = Ok(value: T) | Err(error: AuthError)

  /** _issue_token_pair. */
  function Issue(db: AuthDb, u: UserId, pair: Pair): AuthDb {
    db.(access := db.access[pair.access := Row(u, pair.accessExpiry, false)],
        refresh := db.refresh[pair.refresh := Row(u, pair.refreshExpiry, false)])
  }

  /** Register and login: the account is active, and has a new pair. */
  function StartTx(db: AuthDb, u: UserId, pair: Pair): AuthDb {
    Issue(db.(users := db.users[u := false]), u, pair)
  }

  function LoginEvents(db: AuthDb, u: UserId, needsRehash: bool): seq<StreamEvent> {
    if (u in db.users && db.users[u]) || needsRehash then [UserInvalidated(u)] else []
  }

  function Revoke(rows: map<Token, Row>, t: Token): map<Token, Row> {
    if t in rows then rows[t := rows[t].(revoked := true)] else rows
  }

  function RevokeAllOf(rows: map<Token, Row>, u: UserId): map<Token, Row> {
    map t | t in rows :: if rows[t].user == u then rows[t].(revoked := true) else rows[t]
  }

  datatype RefreshOutcome = Unknown | Reused(user: UserId) | Expired | Rotated

  /** What the row read under the lock decides. */
  function RefreshDecision(db: AuthDb, t: Token, now: int): RefreshOutcome {
    if t !in db.refresh then Unknown
    else if db.refresh[t].revoked then Reused(db.refresh[t].user)
    else if now >= db.refresh[t].expiresAt then Expired
    else Rotated
  }

  function RefreshTx(db: AuthDb, t: Token, pair: Pair, now: int): AuthDb {
    match RefreshDecision(db, t, now)
    case Unknown => db
    case Expired => db
    case Reused(u) => db.(access := RevokeAllOf(db.access, u), refresh := RevokeAllOf(db.refresh, u))
    case Rotated => Issue(db.(refresh := Revoke(db.refresh, t)), db.refresh[t].user, pair)
  }

  function RefreshEvents(db: AuthDb, t: Token, now: int): seq<StreamEvent> {
    match RefreshDecision(db, t, now)
    case Reused(u) => [UserInvalidated(u)]
    case Rotated => [TokenRevoked(t)]
    case _ => []
  }

  /** All the tokens named are there, so the transaction commits. */
  predicate LogoutCommits(db: AuthDb, refresh: Token, access: Option<Token>) {
    refresh in db.refresh && (access.Some? ==> access.value in db.access)
  }

  function LogoutTx(db: AuthDb, refresh: Token, access: Option<Token>): AuthDb {
    if !LogoutCommits(db, refresh, access) then db
    else db.(refresh := Revoke(db.refresh, refresh),
             access := if access.Some? then Revoke(db.access, access.value) else db.access)
  }

  function LogoutEvents(refresh: Token, access: Option<Token>): seq<StreamEvent> {
    [TokenRevoked(refresh)] + if access.Some? then [TokenRevoked(access.value)] else []
  }

  /** Foreign keys cascade: an account's tokens go with it. */
  function DeleteUser(db: AuthDb, u: UserId): AuthDb {
    AuthDb(db.users - {u},
           map t | t in db.access && db.access[t].user != u :: db.access[t],
           map t | t in db.refresh && db.refresh[t].user != u :: db.refresh[t])
  }

  /** Exactly the account and its tokens go; the rows of others stay as they are. */
  lemma DeleteUserTakesItsTokens(db: AuthDb, u: UserId)
    ensures var db' := DeleteUser(db, u);
      && (forall v :: v in db'.users <==> v in db.users && v != u)
      && (forall v <- db'.users :: db'.users[v] == db.users[v])
      && (forall t :: t in db'.access <==> t in db.access && db.access[t].user != u)
      && (forall t <- db'.access :: db'.access[t] == db.access[t])
      && (forall t :: t in db'.refresh <==> t in db.refresh && db.refresh[t].user != u)
      && (forall t <- db'.refresh :: db'.refresh[t] == db.refresh[t])
  {}

  /** A token that can no longer be used: revoked, or gone. */
  predicate Dead(db: AuthDb, t: Token) {
    (t in db.access ==> db.access[t].revoked) && (t in db.refresh ==> db.refresh[t].revoked)
  }

  /** After a logout commits, every event it publishes names a dead token. */
  lemma LogoutKills(db: AuthDb, refresh: Token, access: Option<Token>)
    requires db.access.Keys !! db.refresh.Keys && LogoutCommits(db, refresh, access)
    ensures forall e <- LogoutEvents(refresh, access) :: e.TokenRevoked? && Dead(LogoutTx(db, refresh, access), e.token)
  {}
}
