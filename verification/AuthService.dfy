/** Register, login, refresh and logout as the service runs them: a transaction over
    the tables, then the local eviction, then the published events. */
module AuthServices {
  import opened Ids
  import opened Tokens
  import opened TokenCaches

  class AuthService {
    var users: map<UserId, bool>
    var access: map<Token, Row>
    var refresh: map<Token, Row>
    var stream: seq<StreamEvent>
    const cache: TokenCache

    constructor (cache: TokenCache)
      ensures Valid() && Db() == AuthDb(map[], map[], map[]) && stream == [] && this.cache == cache
    {
      users, access, refresh, stream := map[], map[], map[], [];
      this.cache := cache;
    }

    ghost function Db(): AuthDb
      reads this
    {
      AuthDb(users, access, refresh)
    }

    /** No token is both an access and a refresh token. */
    ghost predicate Valid()
      reads this
    {
      access.Keys !! refresh.Keys
    }

    /** New tokens, different from each other. */
    ghost predicate NewPair(pair: Pair)
      reads this
    {
      pair.access !in access.Keys + refresh.Keys && pair.refresh !in access.Keys + refresh.Keys
      && pair.access != pair.refresh
    }

    method IssueTokenPair(u: UserId, pair: Pair)
      requires Valid() && NewPair(pair)
      modifies `access, `refresh
      ensures Valid() && Db() == Issue(old(Db()), u, pair)
      ensures access == old(access)[pair.access := Row(u, pair.accessExpiry, false)]
      ensures refresh == old(refresh)[pair.refresh := Row(u, pair.refreshExpiry, false)]
    {
      access := access[pair.access := Row(u, pair.accessExpiry, false)];
      refresh := refresh[pair.refresh := Row(u, pair.refreshExpiry, false)];
    }

    method Register(u: UserId, pair: Pair) returns (r: Result<Pair>)
      requires Valid() && NewPair(pair)
      modifies this
      ensures Valid()
      ensures r == if u in old(users) then Err(UserExists) else Ok(pair)
      ensures Db() == if r.Ok? then StartTx(old(Db()), u, pair) else old(Db())
      ensures r.Ok? ==>
        && users == old(users)[u := false]
        && access == old(access)[pair.access := Row(u, pair.accessExpiry, false)]
        && refresh == old(refresh)[pair.refresh := Row(u, pair.refreshExpiry, false)]
      ensures stream == old(stream)
    {
      if u in users {
        return Err(UserExists);
      }
      users := users[u := false];
      IssueTokenPair(u, pair);
      return Ok(pair);
    }

    /** The user found by name, whether the password fits, whether its hash is outdated
        and whether it is still the one that was read are passed in. Replacing a hash
        that has changed meanwhile updates no row, and the login rolls back. */
    method Login(found: Option<UserId>, verified: bool, needsRehash: bool, untouched: bool, pair: Pair)
      returns (r: Result<Pair>)
      requires Valid() && NewPair(pair) && (found.Some? ==> found.value in users)
      modifies this
      ensures Valid()
      ensures r == if found.Some? && verified && (needsRehash ==> untouched) then Ok(pair) else Err(InvalidCredentials)
      ensures r.Err? ==> Db() == old(Db()) && stream == old(stream)
      ensures r.Ok? ==>
        var u := found.value;
        && Db() == StartTx(old(Db()), u, pair) && stream == old(stream) + LoginEvents(old(Db()), u, needsRehash)
        && users == old(users)[u := false]
        && access == old(access)[pair.access := Row(u, pair.accessExpiry, false)]
        && refresh == old(refresh)[pair.refresh := Row(u, pair.refreshExpiry, false)]
        && stream == old(stream) + if old(users)[u] || needsRehash then [UserInvalidated(u)] else []
    {
      if found.None? || !verified {
        return Err(InvalidCredentials);
      }
      var u := found.value;
      var savedUsers := users;
      var cacheNeedsInvalidation := false;
      if users[u] {
        users := users[u := false];
        cacheNeedsInvalidation := true;
      }
      assert users == old(users)[u := false];
      if needsRehash {
        if !untouched {
          users := savedUsers;
          return Err(InvalidCredentials);
        }
        cacheNeedsInvalidation := true;
      }
      IssueTokenPair(u, pair);
      if cacheNeedsInvalidation {
        stream := stream + [UserInvalidated(u)];
      }
      return Ok(pair);
    }

    /** rows with exactly u's revoked. */
    ghost predicate RevokedFor(rows: map<Token, Row>, rows': map<Token, Row>, u: UserId) {
      rows'.Keys == rows.Keys && forall t <- rows ::
        rows'[t] == if rows[t].user == u then Row(u, rows[t].expiresAt, true) else rows[t]
    }

    method RevokeAllUserTokens(u: UserId)
      requires Valid()
      modifies `access, `refresh
      ensures Valid()
      ensures Db() == old(Db()).(access := RevokeAllOf(old(access), u), refresh := RevokeAllOf(old(refresh), u))
      ensures RevokedFor(old(access), access, u) && RevokedFor(old(refresh), refresh, u)
    {
      access := map t | t in access :: if access[t].user == u then access[t].(revoked := true) else access[t];
      refresh := map t | t in refresh :: if refresh[t].user == u then refresh[t].(revoked := true) else refresh[t];
    }

    /** A reuse commits its revocations before the error is raised; an expired or
        unknown token changes nothing. */
    method Refresh(t: Token, pair: Pair, now: int) returns (r: Result<Pair>)
      requires Valid() && NewPair(pair)
      modifies this
      ensures Valid() && Db() == RefreshTx(old(Db()), t, pair, now)
      ensures stream == old(stream) + RefreshEvents(old(Db()), t, now)
      ensures users == old(users)
      // What the row says decides.
      ensures r.Ok? <==> t in old(refresh) && !old(refresh)[t].revoked && now < old(refresh)[t].expiresAt
      ensures r == Err(InvalidToken) <==> t !in old(refresh)
      ensures r == Err(TokenReuse) <==> t in old(refresh) && old(refresh)[t].revoked
      ensures r == Err(TokenExpired) <==>
        t in old(refresh) && !old(refresh)[t].revoked && old(refresh)[t].expiresAt <= now
      // A success revokes the token and adds a pair of its user's; nothing else changes.
      ensures r.Ok? ==>
        var row := old(refresh)[t];
        && r.value == pair && stream == old(stream) + [TokenRevoked(t)]
        && refresh == old(refresh)[t := Row(row.user, row.expiresAt, true)]
                                  [pair.refresh := Row(row.user, pair.refreshExpiry, false)]
        && access == old(access)[pair.access := Row(row.user, pair.accessExpiry, false)]
      // A reuse revokes all of its user's, and theirs only; the other errors nothing.
      ensures r == Err(TokenReuse) ==>
        var u := old(refresh)[t].user;
        && stream == old(stream) + [UserInvalidated(u)]
        && RevokedFor(old(access), access, u) && RevokedFor(old(refresh), refresh, u)
      ensures r == Err(InvalidToken) || r == Err(TokenExpired) ==>
        access == old(access) && refresh == old(refresh) && stream == old(stream)
    {
      if t !in refresh {
        return Err(InvalidToken);
      }
      var record := refresh[t];
      var isReused := false;
      if record.revoked {
        RevokeAllUserTokens(record.user);
        isReused := true;
      } else if now >= record.expiresAt {
        return Err(TokenExpired);
      } else {
        refresh := refresh[t := record.(revoked := true)];
        IssueTokenPair(record.user, pair);
      }
      if isReused {
        stream := stream + [UserInvalidated(record.user)];
        return Err(TokenReuse);
      }
      stream := stream + [TokenRevoked(t)];
      return Ok(pair);
    }

    /** Missing tokens make the whole transaction roll back, silently; nothing is evicted
        or published then. */
    method Logout(refreshToken: Token, accessToken: Option<Token>)
      requires Valid() && cache.Valid()
      modifies this, cache
      ensures Valid() && cache.Valid()
      ensures Db() == LogoutTx(old(Db()), refreshToken, accessToken) && users == old(users)
      ensures var done := refreshToken in old(refresh) && (accessToken.Some? ==> accessToken.value in old(access));
        && refresh == (if done then old(refresh)[refreshToken := old(refresh)[refreshToken].(revoked := true)]
                       else old(refresh))
        && access == (if done && accessToken.Some?
                      then old(access)[accessToken.value := old(access)[accessToken.value].(revoked := true)]
                      else old(access))
        && stream == (if !done then old(stream)
                      else if accessToken.Some?
                      then old(stream) + [TokenRevoked(refreshToken), TokenRevoked(accessToken.value)]
                      else old(stream) + [TokenRevoked(refreshToken)])
      ensures var done := LogoutCommits(old(Db()), refreshToken, accessToken);
        && stream == old(stream) + (if done then LogoutEvents(refreshToken, accessToken) else [])
        && cache.entries == (if done && accessToken.Some? then old(cache.entries) - {accessToken.value}
                             else old(cache.entries))
        && (done ==> forall e <- stream[|old(stream)|..] :: e.TokenRevoked? && Dead(Db(), e.token))
        && (!done ==> Db() == old(Db()))
    {
      if LogoutCommits(Db(), refreshToken, accessToken) { LogoutKills(Db(), refreshToken, accessToken); }
      ghost var published := stream;
      var savedRefresh := refresh;
      if refreshToken !in refresh {
        return;
      }
      refresh := refresh[refreshToken := refresh[refreshToken].(revoked := true)];
      if accessToken.Some? {
        if accessToken.value !in access {
          refresh := savedRefresh;
          return;
        }
        access := access[accessToken.value := access[accessToken.value].(revoked := true)];
        cache.Evict(accessToken.value);
      }
      stream := stream + [TokenRevoked(refreshToken)];
      if accessToken.Some? {
        stream := stream + [TokenRevoked(accessToken.value)];
      }
      assert stream[|published|..] == LogoutEvents(refreshToken, accessToken);
    }
  }
}
