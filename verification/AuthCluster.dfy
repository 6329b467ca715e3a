/** Many workers, one database and one event stream: token transactions, published
    invalidations, and authentications that interleave at every await. */
module AuthCluster {
  import opened Ids
  import opened Tokens
  import opened TokenCaches

  type TaskId = nat

  /** An authentication that missed the cache: what it has read so far. readStep and
      userStep number the steps of its database reads, readPos is the worker's stream
      cursor at the first; they are history. */
  datatype Fill = Fill(
    token: Token, allow: bool, row: Row, checked: bool, deactivated: Option<bool>,
    readStep: nat, readPos: nat, userStep: nat)

  /** All but cached is history: the authentication that stored the entry, the step at
      which it did, the worker's stream cursor then, and whether the token had been
      revoked by then. */
  datatype Entry = Entry(cached: CacheEntry, from: Fill, setStep: nat, setPos: nat, tooLate: bool)

  /** cursor is the position of the next stream event; skipped, which is history, holds
      the positions the listener has passed without handling their events. */
  datatype Worker = Worker(cache: map<Token, Entry>, cursor: nat, skipped: set<nat>, fills: map<TaskId, Fill>)

  /** outbox holds the events that committed operations have still to publish. owner,
      pairs, revoked and clock are history: the user each token was issued to and the pair
      it was issued in, the access tokens ever seen revoked, and the number of steps. */
  datatype State = State(
    now: int,
    db: AuthDb,
    outbox: multiset<StreamEvent>,
    stream: seq<StreamEvent>,
    workers: map<WorkerId, Worker>,
    owner: map<Token, UserId>,
    pairs: map<Token, Pair>,
    revoked: set<Token>,
    clock: nat)

  datatype Transaction =
    | Register(user: UserId, pair: Pair)
    | Login(user: UserId, pair: Pair, needsRehash: bool)
    | Refresh(token: Token, pair: Pair)
    | Logout(refresh: Token, access: Option<Token>)
    | Deactivate(user: UserId)
    | Reactivate(user: UserId)
    | DeleteAccount(user: UserId)

  datatype Action =
    | Handle
    | Skip
    | FetchRow(task: TaskId, token: Token, allow: bool)
    | CheckRow(task: TaskId)
    | FetchUser(task: TaskId)
    | Store(task: TaskId)
    | Abandon(task: TaskId)
    | Hit(token: Token, allow: bool)
    | Drop(token: Token)

  datatype Step =
    | Tick(d: nat)
    | Transact(tx: Transaction)
    | Publish(event: StreamEvent)
    | StartWorker(worker: WorkerId, cursor: nat)
    | AtWorker(worker: WorkerId, action: Action)

  const INIT := State(0, AuthDb(map[], map[], map[]), multiset{}, [], map[], map[], map[], {}, 0)

  // Transactions.

  predicate NewPair(owner: map<Token, UserId>, pair: Pair) {
    pair.access !in owner && pair.refresh !in owner && pair.access != pair.refresh
  }

  predicate CanTransact(s: State, tx: Transaction) {
    match tx
    case Register(u, pair) => u !in s.db.users && NewPair(s.owner, pair)
    case Login(u, pair, _) => u in s.db.users && NewPair(s.owner, pair)
    case Refresh(_, pair) => NewPair(s.owner, pair)
    case Logout(_, _) => true
    case Deactivate(u) => u in s.db.users
    case Reactivate(u) => u in s.db.users
    case DeleteAccount(_) => true
  }

  function TxDb(db: AuthDb, now: int, tx: Transaction): AuthDb {
    match tx
    case Register(u, pair) => StartTx(db, u, pair)
    case Login(u, pair, _) => StartTx(db, u, pair)
    case Refresh(t, pair) => RefreshTx(db, t, pair, now)
    case Logout(refresh, access) => LogoutTx(db, refresh, access)
    case Deactivate(u) => db.(users := db.users[u := true])
    case Reactivate(u) => db.(users := db.users[u := false])
    case DeleteAccount(u) => DeleteUser(db, u)
  }

  /** What the service publishes once the transaction has committed. */
  function TxEvents(db: AuthDb, now: int, tx: Transaction): multiset<StreamEvent> {
    match tx
    case Login(u, _, needsRehash) => multiset(LoginEvents(db, u, needsRehash))
    case Refresh(t, _) => multiset(RefreshEvents(db, t, now))
    case Logout(refresh, access) =>
      if LogoutCommits(db, refresh, access) then multiset(LogoutEvents(refresh, access)) else multiset{}
    case _ => multiset{}
  }

  function Issued(owner: map<Token, UserId>, u: UserId, pair: Pair): map<Token, UserId> {
    owner[pair.access := u][pair.refresh := u]
  }

  function TxOwner(s: State, tx: Transaction): map<Token, UserId> {
    match tx
    case Register(u, pair) => Issued(s.owner, u, pair)
    case Login(u, pair, _) => Issued(s.owner, u, pair)
    case Refresh(t, pair) =>
      if RefreshDecision(s.db, t, s.now).Rotated? then Issued(s.owner, s.db.refresh[t].user, pair) else s.owner
    case _ => s.owner
  }

  /** The pair a transaction issues, if it does. */
  function NewTokens(s: State, tx: Transaction): Option<Pair> {
    match tx
    case Register(_, pair) => Some(pair)
    case Login(_, pair, _) => Some(pair)
    case Refresh(t, pair) => if RefreshDecision(s.db, t, s.now).Rotated? then Some(pair) else None
    case _ => None
  }

  function TxPairs(s: State, tx: Transaction): map<Token, Pair> {
    match NewTokens(s, tx)
    case Some(pair) => s.pairs[pair.access := pair][pair.refresh := pair]
    case None => s.pairs
  }

  function RevokedIn(db: AuthDb): set<Token> {
    set t | t in db.access && db.access[t].revoked
  }

  function ApplyTransact(s: State, tx: Transaction): State {
    var db := TxDb(s.db, s.now, tx);
    s.(db := db, owner := TxOwner(s, tx), pairs := TxPairs(s, tx), outbox := s.outbox + TxEvents(s.db, s.now, tx),
       revoked := s.revoked + RevokedIn(db), clock := s.clock + 1)
  }

  /** Deactivating and reactivating set the account's flag and touch nothing else. */
  lemma FlagTxTouchesOneFlag(db: AuthDb, now: int, u: UserId, tx: Transaction)
    requires tx == Deactivate(u) || tx == Reactivate(u)
    ensures var db' := TxDb(db, now, tx);
      && db'.access == db.access && db'.refresh == db.refresh
      && db'.users.Keys == db.users.Keys + {u} && db'.users[u] == tx.Deactivate?
      && forall v <- db.users :: v != u ==> db'.users[v] == db.users[v]
  {}

  // Workers.

  /** The cache after an event: a token's own event drops its entry, a user's event the
      user's fresh ones. */
  function Evicted(cache: map<Token, Entry>, e: StreamEvent, now: int): map<Token, Entry> {
    map t | t in cache && !(e == TokenRevoked(t) ||
                            (e == UserInvalidated(cache[t].cached.user) && Fresh(cache[t].cached, now)))
      :: cache[t]
  }

  /** As the cache object itself sees it. */
  function Cached(cache: map<Token, Entry>): map<Token, CacheEntry> {
    map t | t in cache :: cache[t].cached
  }

  /** The cluster's eviction is the cache object's. */
  lemma EvictedIsInvalidate(cache: map<Token, Entry>, e: StreamEvent, now: int)
    ensures Cached(Evicted(cache, e, now)) == Invalidate(Cached(cache), e, now)
  {
    var a, b := Cached(Evicted(cache, e, now)), Invalidate(Cached(cache), e, now);
    assert forall t :: t in a <==> t in b;
  }

  predicate CanAct(s: State, w: Worker, a: Action) {
    match a
    case Handle => w.cursor < |s.stream|
    case Skip => w.cursor < |s.stream|
    case FetchRow(id, t, _) => id !in w.fills && t in s.db.access
    case CheckRow(id) =>
      id in w.fills && !w.fills[id].checked && !w.fills[id].row.revoked && s.now < w.fills[id].row.expiresAt
    case FetchUser(id) =>
      id in w.fills && w.fills[id].checked && w.fills[id].deactivated.None? && w.fills[id].row.user in s.db.users
    case Store(id) =>
      id in w.fills && w.fills[id].deactivated.Some? && (w.fills[id].deactivated.value ==> w.fills[id].allow)
    case Abandon(id) => id in w.fills
    case Hit(t, allow) =>
      t in w.cache && Fresh(w.cache[t].cached, s.now) && (w.cache[t].cached.deactivated ==> allow)
    case Drop(t) => true
  }

  function EntryOf(s: State, w: Worker, f: Fill): Entry
    requires f.deactivated.Some?
  {
    Entry(CacheEntry(f.row.user, f.deactivated.value, s.now + TTL), f, s.clock, w.cursor, f.token in s.revoked)
  }

  /** Storing may drop other entries: that is a Drop step of its own. Skip is an event
      the listener never sees: appended between two reads of a new listener, or trimmed. */
  function Act(s: State, w: Worker, a: Action): Worker
    requires CanAct(s, w, a)
  {
    match a
    case Handle => w.(cache := Evicted(w.cache, s.stream[w.cursor], s.now), cursor := w.cursor + 1)
    case Skip => w.(cursor := w.cursor + 1, skipped := w.skipped + {w.cursor})
    case FetchRow(id, t, allow) =>
      w.(fills := w.fills[id := Fill(t, allow, s.db.access[t], false, None, s.clock, w.cursor, 0)])
    case CheckRow(id) => w.(fills := w.fills[id := w.fills[id].(checked := true)])
    case FetchUser(id) =>
      w.(fills := w.fills[id := w.fills[id].(deactivated := Some(s.db.users[w.fills[id].row.user]), userStep := s.clock)])
    case Store(id) => w.(cache := w.cache[w.fills[id].token := EntryOf(s, w, w.fills[id])], fills := w.fills - {id})
    case Abandon(id) => w.(fills := w.fills - {id})
    case Hit(_, _) => w
    case Drop(t) => w.(cache := w.cache - {t})
  }

  // Runs.

  predicate Enabled(s: State, step: Step) {
    match step
    case Tick(_) => true
    case Transact(tx) => CanTransact(s, tx)
    case Publish(e) => e in s.outbox
    case StartWorker(_, cursor) => cursor <= |s.stream|
    case AtWorker(w, a) => w in s.workers && CanAct(s, s.workers[w], a)
  }

  function Apply(s: State, step: Step): State
    requires Enabled(s, step)
  {
    match step
    case Tick(d) => s.(now := s.now + d, clock := s.clock + 1)
    case Transact(tx) => ApplyTransact(s, tx)
    case Publish(e) => s.(outbox := s.outbox - multiset{e}, stream := s.stream + [e], clock := s.clock + 1)
    case StartWorker(w, cursor) => s.(workers := s.workers[w := Worker(map[], cursor, {}, map[])], clock := s.clock + 1)
    case AtWorker(w, a) => s.(workers := s.workers[w := Act(s, s.workers[w], a)], clock := s.clock + 1)
  }

  predicate CanRun(steps: seq<Step>)
    decreases |steps|, 0
  {
    steps == [] || (CanRun(steps[..|steps| - 1]) && Enabled(Run(steps[..|steps| - 1]), steps[|steps| - 1]))
  }

  function Run(steps: seq<Step>): (s: State)
    requires CanRun(steps)
    ensures s.clock == |steps|
    decreases |steps|, 1
  {
    if steps == [] then INIT else Apply(Run(steps[..|steps| - 1]), steps[|steps| - 1])
  }

  lemma {:induction false} PrefixRuns(steps: seq<Step>, i: nat)
    requires CanRun(steps) && i <= |steps|
    ensures CanRun(steps[..i])
    decreases |steps|
  {
    if i == |steps| {
      assert steps[..i] == steps;
    } else {
      var before := steps[..|steps| - 1];
      assert before[..i] == steps[..i];
      PrefixRuns(before, i);
    }
  }

  /** The state before step n. */
  function StateAt(steps: seq<Step>, n: nat): State
    requires CanRun(steps) && n <= |steps|
  {
    PrefixRuns(steps, n);
    Run(steps[..n])
  }

  lemma NextState(steps: seq<Step>, n: nat)
    requires CanRun(steps) && n < |steps|
    ensures Enabled(StateAt(steps, n), steps[n])
    ensures StateAt(steps, n + 1) == Apply(StateAt(steps, n), steps[n])
  {
    PrefixRuns(steps, n + 1);
    assert steps[..n + 1][..n] == steps[..n];
  }
}
