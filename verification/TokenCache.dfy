/** One worker's token cache and the authentication path through it. */
module TokenCaches {
  import opened Ids
  import opened Tokens

  const TTL := 300
  const MAX_SIZE := 10000

  datatype User = User(id: UserId, deactivated: bool)

  datatype CacheEntry = CacheEntry(user: UserId, deactivated: bool, expiresAt: int)

  predicate Fresh(e: CacheEntry, now: int) { now < e.expiresAt }

  predicate Matches(e: StreamEvent, t: Token, u: UserId) {
    e == TokenRevoked(t) || e == UserInvalidated(u)
  }

  /** The cache after an invalidation event. Reading the entries of a user skips the
      expired ones, which nothing returns any more. */
  function Invalidate(entries: map<Token, CacheEntry>, e: StreamEvent, now: int): map<Token, CacheEntry> {
    match e
    case TokenRevoked(t) => entries - {t}
    case UserInvalidated(u) =>
      map t | t in entries && !(entries[t].user == u && Fresh(entries[t], now)) :: entries[t]
  }

  lemma OneMoreGone(entries: map<Token, CacheEntry>, gone: set<Token>, t: Token)
    ensures entries - gone - {t} == entries - (gone + {t})
  {}

  lemma InvalidateUser(entries: map<Token, CacheEntry>, u: UserId, now: int, hashes: set<Token>)
    requires hashes == set t | t in entries && Fresh(entries[t], now) && entries[t].user == u
    ensures entries - hashes == Invalidate(entries, UserInvalidated(u), now)
  {}

  class TokenCache {
    var entries: map<Token, CacheEntry>

    ghost predicate Valid()
      reads this
    {
      |entries| <= MAX_SIZE
    }

    constructor ()
      ensures Valid() && entries == map[]
    {
      entries := map[];
    }

    method Clear()
      modifies this
      ensures Valid() && entries == map[]
    {
      entries := map[];
    }

    method Get(t: Token, now: int) returns (e: Option<CacheEntry>)
      ensures e == if t in entries && now < entries[t].expiresAt then Some(entries[t]) else None
    {
      if t in entries && Fresh(entries[t], now) {
        return Some(entries[t]);
      }
      return None;
    }

    /** Storing starts a new time to live; it may push other entries out, but it changes
        none of those that stay. */
    method Set(t: Token, user: User, now: int)
      requires Valid()
      modifies this
      ensures Valid()
      ensures t in entries && entries[t] == CacheEntry(user.id, user.deactivated, now + TTL)
      ensures forall x <- entries :: x != t ==> x in old(entries) && entries[x] == old(entries[x])
      ensures |old(entries)| < MAX_SIZE ==>
                forall x <- old(entries) :: Fresh(old(entries)[x], now) ==> x in entries
    {
      MakeRoom(t, now);
      var entry := CacheEntry(user.id, user.deactivated, now + TTL);
      AtMostOneMore(entries, t, entry);
      entries := entries[t := entry];
    }

    /** Drops what has expired, and when that is not enough, some other entry. */
    method MakeRoom(t: Token, now: int)
      requires Valid()
      modifies this
      ensures Valid() && (t in entries || |entries| < MAX_SIZE)
      ensures forall x <- entries :: x in old(entries) && entries[x] == old(entries[x])
      ensures |old(entries)| < MAX_SIZE ==>
                forall x <- old(entries) :: Fresh(old(entries)[x], now) ==> x in entries
    {
      var live := map x | x in entries && Fresh(entries[x], now) :: entries[x];
      SmallerMap(live, entries);
      if t !in live && |live| >= MAX_SIZE {
        var victim :| victim in live;
        OneFewer(live, victim);
        live := live - {victim};
      }
      entries := live;
    }

    method Evict(t: Token)
      requires Valid()
      modifies this
      ensures Valid() && entries == old(entries) - {t}
    {
      SmallerMap(entries - {t}, entries);
      entries := entries - {t};
    }

    method EvictUser(u: UserId, now: int)
      requires Valid()
      modifies this
      ensures Valid() && entries == Invalidate(old(entries), UserInvalidated(u), now)
      ensures forall t :: t in entries <==>
                t in old(entries) && !(old(entries)[t].user == u && now < old(entries)[t].expiresAt)
      ensures forall t <- entries :: entries[t] == old(entries)[t]
    {
      var hashesToRemove := set t | t in entries && Fresh(entries[t], now) && entries[t].user == u;
      var todo := hashesToRemove;
      assert entries - (hashesToRemove - todo) == entries;
      while todo != {}
        invariant todo <= hashesToRemove
        invariant entries == old(entries) - (hashesToRemove - todo)
      {
        var t :| t in todo;
        assert hashesToRemove - (todo - {t}) == hashesToRemove - todo + {t};
        OneMoreGone(old(entries), hashesToRemove - todo, t);
        entries := entries - {t};
        todo := todo - {t};
      }
      assert hashesToRemove - todo == hashesToRemove;
      InvalidateUser(old(entries), u, now, hashesToRemove);
      SmallerMap(entries, old(entries));
    }

    method HandleInvalidationEvent(e: StreamEvent, now: int)
      requires Valid()
      modifies this
      ensures Valid() && entries == Invalidate(old(entries), e, now)
      ensures forall t :: t in entries <==>
                && t in old(entries) && e != TokenRevoked(t)
                && !(e == UserInvalidated(old(entries)[t].user) && now < old(entries)[t].expiresAt)
      ensures forall t <- entries :: entries[t] == old(entries)[t]
    {
      match e
      case TokenRevoked(t) => Evict(t);
      case UserInvalidated(u) => EvictUser(u, now);
    }

    // authenticate_token, one method for each stretch between its awaits.

    /** Up to the first database read: None goes on to it. */
    method LookUp(t: Token, allowDeactivated: bool, now: int) returns (r: Option<Result<User>>)
      ensures r == if !(t in entries && Fresh(entries[t], now)) then None
                   else if entries[t].deactivated && !allowDeactivated then Some(Err(Unauthorized))
                   else Some(Ok(User(entries[t].user, entries[t].deactivated)))
    {
      var cached := Get(t, now);
      if cached.None? {
        return None;
      }
      if cached.value.deactivated && !allowDeactivated {
        return Some(Err(Unauthorized));
      }
      return Some(Ok(User(cached.value.user, cached.value.deactivated)));
    }

    /** With the token's row read. */
    method AcceptRow(row: Option<Row>, now: int) returns (accepted: bool)
      ensures accepted <==> row.Some? && !row.value.revoked && now < row.value.expiresAt
    {
      if row.None? {
        return false;
      }
      if row.value.revoked {
        return false;
      }
      return !(now >= row.value.expiresAt);
    }

    /** With the user's row read: a success is stored as it is, whatever has happened to
        the token meanwhile. */
    method AcceptUser(t: Token, u: UserId, deactivated: Option<bool>, allowDeactivated: bool, now: int)
      returns (r: Result<User>)
      requires Valid()
      modifies this
      ensures Valid()
      ensures r == if deactivated.Some? && (deactivated.value ==> allowDeactivated)
                   then Ok(User(u, deactivated.value)) else Err(Unauthorized)
      ensures r.Ok? ==> t in entries && entries[t] == CacheEntry(u, deactivated.value, now + TTL)
      ensures r.Err? ==> entries == old(entries)
    {
      if deactivated.None? || (deactivated.value && !allowDeactivated) {
        return Err(Unauthorized);
      }
      var user := User(u, deactivated.value);
      Set(t, user, now);
      return Ok(user);
    }

    /** The whole of it, when nothing interleaves. What the two database reads return is passed in: the token's
        row, and the deactivated flag of the row's user. */
    method Authenticate(t: Token, allowDeactivated: bool, now: int,
                        row: Option<Row>, deactivated: Option<bool>, setNow: int)
      returns (r: Result<User>)
      requires Valid() && now <= setNow
      modifies this
      ensures Valid()
      // A fresh entry decides alone, and stays as it is.
      ensures t in old(entries) && Fresh(old(entries)[t], now) ==>
        var e := old(entries)[t];
        && r == (if e.deactivated && !allowDeactivated then Err(Unauthorized) else Ok(User(e.user, e.deactivated)))
        && entries == old(entries)
      // Otherwise the rows read decide, and only a success is stored.
      ensures !(t in old(entries) && Fresh(old(entries)[t], now)) ==>
        && (r.Ok? <==> row.Some? && !row.value.revoked && now < row.value.expiresAt
                       && deactivated.Some? && (deactivated.value ==> allowDeactivated))
        && (r.Ok? ==> r.value == User(row.value.user, deactivated.value)
                      && t in entries && entries[t] == CacheEntry(row.value.user, deactivated.value, setNow + TTL))
        && (r.Err? ==> entries == old(entries) && r.error == Unauthorized)
    {
      var early := LookUp(t, allowDeactivated, now);
      if early.Some? {
        return early.value;
      }
      var accepted := AcceptRow(row, now);
      if !accepted {
        return Err(Unauthorized);
      }
      r := AcceptUser(t, row.value.user, deactivated, allowDeactivated, setNow);
    }
  }

  lemma OneFewer<K, V>(m: map<K, V>, k: K)
    requires k in m
    ensures |m - {k}| == |m| - 1
  {
    assert (m - {k}).Keys == m.Keys - {k};
  }

  lemma AtMostOneMore<K, V>(m: map<K, V>, k: K, v: V)
    ensures |m[k := v]| == if k in m then |m| else |m| + 1
  {
    assert (m[k := v]).Keys == m.Keys + {k};
  }

  lemma SmallerMap<K, V>(a: map<K, V>, b: map<K, V>)
    requires a.Keys <= b.Keys
    ensures |a| <= |b|
  {
    assert b.Keys == a.Keys + (b.Keys - a.Keys);
  }
}
