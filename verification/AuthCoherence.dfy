/** Cached tokens against the database, and the events on the stream against the
    tokens they name, over all runs. */
module AuthCoherence {
  import opened Ids
  import opened Tokens
  import opened TokenCaches
  import opened AuthCluster

  // The tables.

  predicate TokenOk(s: State, t: Token) {
    && (t in s.db.access ==>
          t in s.owner && s.owner[t] == s.db.access[t].user && t !in s.db.refresh &&
          (s.db.access[t].revoked <==> t in s.revoked))
    && (t in s.db.refresh ==> t in s.owner && s.owner[t] == s.db.refresh[t].user)
    && (t in s.revoked ==> t in s.owner)
  }

  ghost predicate TokensOk(s: State) { forall t {:trigger TokenOk(s, t)} :: TokenOk(s, t) }

  /** Every row has its token's own expiry from the pair the token was issued in. */
  predicate ExpiryOk(s: State, t: Token) {
    && (t in s.db.access ==>
          t in s.pairs && s.pairs[t].access == t && s.db.access[t].expiresAt == s.pairs[t].accessExpiry)
    && (t in s.db.refresh ==>
          t in s.pairs && s.pairs[t].refresh == t && s.db.refresh[t].expiresAt == s.pairs[t].refreshExpiry)
  }

  ghost predicate ExpiriesOk(s: State) { forall t {:trigger ExpiryOk(s, t)} :: ExpiryOk(s, t) }

  /** Where a row comes from: it was there with the same expiry, or the transaction issued
      it. */
  predicate AccessFrom(db: AuthDb, db': AuthDb, issued: Option<Pair>, t: Token) {
    t in db'.access ==>
      || (t in db.access && db'.access[t].expiresAt == db.access[t].expiresAt)
      || (issued.Some? && t == issued.value.access && db'.access[t].expiresAt == issued.value.accessExpiry)
  }

  predicate RefreshFrom(db: AuthDb, db': AuthDb, issued: Option<Pair>, t: Token) {
    t in db'.refresh ==>
      || (t in db.refresh && db'.refresh[t].expiresAt == db.refresh[t].expiresAt)
      || (issued.Some? && t == issued.value.refresh && db'.refresh[t].expiresAt == issued.value.refreshExpiry)
  }

  lemma RowsFrom(s: State, tx: Transaction, t: Token)
    requires CanTransact(s, tx)
    ensures AccessFrom(s.db, TxDb(s.db, s.now, tx), NewTokens(s, tx), t)
    ensures RefreshFrom(s.db, TxDb(s.db, s.now, tx), NewTokens(s, tx), t)
  {}

  lemma NewTokensAreNew(s: State, tx: Transaction)
    requires CanTransact(s, tx)
    ensures NewTokens(s, tx).Some? ==> NewPair(s.owner, NewTokens(s, tx).value)
  {}

  lemma TxKeepsExpiry(s: State, tx: Transaction, t: Token)
    requires CanTransact(s, tx) && TokensOk(s) && ExpiriesOk(s)
    ensures ExpiryOk(ApplyTransact(s, tx), t)
  {
    assert TokenOk(s, t) && ExpiryOk(s, t);
    RowsFrom(s, tx, t);
    NewTokensAreNew(s, tx);
    ExpiryFollows(s, ApplyTransact(s, tx), NewTokens(s, tx), t);
  }

  lemma ExpiryFollows(s: State, s': State, issued: Option<Pair>, t: Token)
    requires TokenOk(s, t) && ExpiryOk(s, t)
    requires issued.Some? ==> NewPair(s.owner, issued.value)
    requires AccessFrom(s.db, s'.db, issued, t) && RefreshFrom(s.db, s'.db, issued, t)
    requires s'.pairs == if issued.None? then s.pairs
                         else s.pairs[issued.value.access := issued.value][issued.value.refresh := issued.value]
    ensures ExpiryOk(s', t)
  {}

  /** What a transaction may do to a token that was issued before. */
  predicate Worsens(rows: map<Token, Row>, rows': map<Token, Row>, t: Token) {
    t in rows' ==> t in rows && rows'[t].user == rows[t].user && (rows[t].revoked ==> rows'[t].revoked)
  }

  lemma TxWorsens(s: State, tx: Transaction, t: Token)
    requires CanTransact(s, tx) && t in s.owner && TokensOk(s)
    ensures Worsens(s.db.access, TxDb(s.db, s.now, tx).access, t)
    ensures Worsens(s.db.refresh, TxDb(s.db, s.now, tx).refresh, t)
    ensures t in TxOwner(s, tx) && TxOwner(s, tx)[t] == s.owner[t]
  {}

  lemma TxKeepsToken(s: State, tx: Transaction, t: Token)
    requires CanTransact(s, tx) && TokensOk(s)
    ensures TokenOk(ApplyTransact(s, tx), t)
  {
    assert TokenOk(s, t);
    if t in s.owner { TxWorsens(s, tx, t); }
    if tx.Refresh? && tx.token in s.db.refresh { assert TokenOk(s, tx.token); }
  }

  lemma LogoutAnnounces(db: AuthDb, refresh: Token, access: Option<Token>, t: Token)
    requires t in db.access && !db.access[t].revoked
    requires var db' := LogoutTx(db, refresh, access); t in db'.access && db'.access[t].revoked
    ensures LogoutCommits(db, refresh, access) && TokenRevoked(t) in multiset(LogoutEvents(refresh, access))
  {
    assert access == Some(t);
    assert LogoutEvents(refresh, access)[1] == TokenRevoked(t);
  }

  lemma RefreshAnnounces(db: AuthDb, token: Token, pair: Pair, now: int, t: Token)
    requires t in db.access && !db.access[t].revoked && t != pair.access
    requires var db' := RefreshTx(db, token, pair, now); t in db'.access && db'.access[t].revoked
    ensures RefreshDecision(db, token, now) == Reused(db.access[t].user)
  {}

  /** Only logout and refresh revoke anything. */
  lemma OthersRevokeNothing(s: State, tx: Transaction, t: Token)
    requires CanTransact(s, tx) && !tx.Logout? && !tx.Refresh?
    requires var db' := TxDb(s.db, s.now, tx); t in db'.access && db'.access[t].revoked
    ensures t in s.db.access && s.db.access[t].revoked
  {}

  /** A token revoked by a transaction was a valid access token before. */
  lemma NewlyRevoked(s: State, tx: Transaction, t: Token)
    requires CanTransact(s, tx) && TokensOk(s) && t !in s.revoked && t in ApplyTransact(s, tx).revoked
    ensures t in s.owner && t in s.db.access && !s.db.access[t].revoked && s.owner[t] == s.db.access[t].user
    ensures var db' := TxDb(s.db, s.now, tx); t in db'.access && db'.access[t].revoked
  {
    assert TokenOk(s, t);
  }

  /** Whatever access token a transaction revokes, it owes an event that evicts it. */
  lemma TxAnnounces(s: State, tx: Transaction, t: Token)
    requires CanTransact(s, tx) && TokensOk(s) && t !in s.revoked && t in ApplyTransact(s, tx).revoked
    ensures t in s.owner
    ensures TokenRevoked(t) in TxEvents(s.db, s.now, tx) || UserInvalidated(s.owner[t]) in TxEvents(s.db, s.now, tx)
  {
    NewlyRevoked(s, tx, t);
    match tx
    case Logout(refresh, access) => LogoutAnnounces(s.db, refresh, access, t);
    case Refresh(token, pair) => RefreshAnnounces(s.db, token, pair, s.now, t);
    case _ => OthersRevokeNothing(s, tx, t);
  }

  /** A revocation event names a token dead once the transaction has committed. */
  lemma TxNamesTheDead(s: State, tx: Transaction, t: Token)
    requires CanTransact(s, tx) && TokensOk(s) && TokenRevoked(t) in TxEvents(s.db, s.now, tx)
    ensures t in s.owner && Dead(TxDb(s.db, s.now, tx), t)
  {
    assert TokenOk(s, t);
  }

  // Events.

  predicate Dying(s: State, e: StreamEvent) {
    e.TokenRevoked? ==> e.token in s.owner && Dead(s.db, e.token)
  }

  ghost predicate EventsOk(s: State) {
    && (forall e {:trigger Dying(s, e)} :: e in s.outbox ==> Dying(s, e))
    && (forall i: nat {:trigger s.stream[i]} :: i < |s.stream| ==> Dying(s, s.stream[i]))
  }

  lemma TxKeepsDying(s: State, tx: Transaction, e: StreamEvent)
    requires CanTransact(s, tx) && TokensOk(s)
    requires Dying(s, e) || e in TxEvents(s.db, s.now, tx)
    ensures Dying(ApplyTransact(s, tx), e)
  {
    if e.TokenRevoked? {
      if e in TxEvents(s.db, s.now, tx) { TxNamesTheDead(s, tx, e.token); }
      TxWorsens(s, tx, e.token);
    }
  }

  // Announcements.

  /** An event that evicts u's token t is still to be published, or is on the stream at
      position from or later. */
  ghost predicate Announced(s: State, t: Token, u: UserId, from: nat) {
    || (exists e :: e in s.outbox && Matches(e, t, u))
    || (exists i: nat :: from <= i < |s.stream| && Matches(s.stream[i], t, u))
  }

  lemma PublishedStaysAnnounced(s: State, s': State, e: StreamEvent, t: Token, u: UserId, from: nat)
    requires e in s.outbox && s'.outbox == s.outbox - multiset{e} && s'.stream == s.stream + [e]
    requires from <= |s.stream| && Announced(s, t, u, from)
    ensures Announced(s', t, u, from)
  {
    if x :| x in s.outbox && Matches(x, t, u) {
      if x == e { assert s'.stream[|s.stream|] == e; } else { assert x in s'.outbox; }
    } else {
      var i: nat :| from <= i < |s.stream| && Matches(s.stream[i], t, u);
      assert s'.stream[i] == s.stream[i];
    }
  }

  lemma CommitStaysAnnounced(s: State, s': State, t: Token, u: UserId, from: nat)
    requires s.outbox <= s'.outbox && s'.stream == s.stream && Announced(s, t, u, from)
    ensures Announced(s', t, u, from)
  {
    if x :| x in s.outbox && Matches(x, t, u) {
      assert x in s'.outbox;
    } else {
      var i: nat :| from <= i < |s.stream| && Matches(s.stream[i], t, u);
      assert s'.stream[i] == s.stream[i];
    }
  }

  // Workers.

  /** u's token t, unless revoked before, has an event announced from position from on
      if it is revoked now. */
  ghost predicate AnnouncedSince(s: State, t: Token, u: UserId, before: bool, from: nat) {
    && from <= |s.stream| && t in s.owner && s.owner[t] == u
    && (!before && t in s.revoked ==> Announced(s, t, u, from))
  }

  ghost predicate RowOk(s: State, f: Fill) {
    AnnouncedSince(s, f.token, f.row.user, f.row.revoked, f.readPos)
  }

  ghost predicate EntryOk(s: State, t: Token, e: Entry) {
    && RowOk(s, e.from) && AnnouncedSince(s, t, e.cached.user, e.tooLate, e.setPos)
    && (e.tooLate ==> t in s.revoked)
  }

  predicate FillShape(f: Fill, cursor: nat) {
    f.readPos <= cursor && (f.checked ==> !f.row.revoked) && (f.deactivated.Some? ==> f.checked)
  }

  /** No event handled since position from evicts u's token t. */
  predicate NoneSince(s: State, t: Token, u: UserId, from: nat, w: Worker) {
    forall i: nat {:trigger s.stream[i]} ::
      from <= i < w.cursor && i < |s.stream| && i !in w.skipped ==> !Matches(s.stream[i], t, u)
  }

  predicate EntryShape(t: Token, e: Entry, cursor: nat) {
    e.from.token == t && e.cached.user == e.from.row.user && FillShape(e.from, e.setPos)
    && e.from.checked && e.setPos <= cursor
  }

  ghost predicate WorkerOk(s: State, w: Worker) {
    && w.cursor <= |s.stream|
    && (forall id <- w.fills :: FillShape(w.fills[id], w.cursor) && RowOk(s, w.fills[id]))
    && (forall t <- w.cache :: EntryShape(t, w.cache[t], w.cursor) && EntryOk(s, t, w.cache[t]))
    && (forall t <- w.cache :: Fresh(w.cache[t].cached, s.now) ==>
          NoneSince(s, t, w.cache[t].cached.user, w.cache[t].setPos, w))
  }

  ghost predicate Inv(s: State) {
    && TokensOk(s) && ExpiriesOk(s) && EventsOk(s)
    && forall w <- s.workers :: WorkerOk(s, s.workers[w])
  }

  // Every step keeps them.

  lemma CommitKeepsSince(s: State, tx: Transaction, t: Token, u: UserId, before: bool, from: nat)
    requires CanTransact(s, tx) && TokensOk(s) && AnnouncedSince(s, t, u, before, from)
    ensures AnnouncedSince(ApplyTransact(s, tx), t, u, before, from)
  {
    var s' := ApplyTransact(s, tx);
    TxWorsens(s, tx, t);
    if !before && t in s'.revoked {
      if t in s.revoked {
        CommitStaysAnnounced(s, s', t, u, from);
      } else {
        TxAnnounces(s, tx, t);
        assert forall e :: e in TxEvents(s.db, s.now, tx) ==> e in s'.outbox;
      }
    }
  }

  lemma CommitKeepsRow(s: State, tx: Transaction, f: Fill)
    requires CanTransact(s, tx) && TokensOk(s) && RowOk(s, f)
    ensures RowOk(ApplyTransact(s, tx), f)
  {
    CommitKeepsSince(s, tx, f.token, f.row.user, f.row.revoked, f.readPos);
  }

  lemma CommitKeepsEntry(s: State, tx: Transaction, t: Token, e: Entry)
    requires CanTransact(s, tx) && TokensOk(s) && EntryOk(s, t, e)
    ensures EntryOk(ApplyTransact(s, tx), t, e)
  {
    CommitKeepsRow(s, tx, e.from);
    CommitKeepsSince(s, tx, t, e.cached.user, e.tooLate, e.setPos);
  }

  lemma CommitKeepsWorker(s: State, tx: Transaction, w: Worker)
    requires CanTransact(s, tx) && TokensOk(s) && WorkerOk(s, w)
    ensures WorkerOk(ApplyTransact(s, tx), w)
  {
    var s' := ApplyTransact(s, tx);
    forall id <- w.fills { CommitKeepsRow(s, tx, w.fills[id]); }
    forall t <- w.cache { CommitKeepsEntry(s, tx, t, w.cache[t]); }
    assert s'.stream == s.stream && s'.now == s.now;
  }

  lemma CommitKeepsInv(s: State, tx: Transaction)
    requires CanTransact(s, tx) && Inv(s)
    ensures Inv(ApplyTransact(s, tx))
  {
    var s' := ApplyTransact(s, tx);
    forall t { TxKeepsToken(s, tx, t); }
    forall t { TxKeepsExpiry(s, tx, t); }
    forall e | e in s'.outbox ensures Dying(s', e) { TxKeepsDying(s, tx, e); }
    forall i: nat | i < |s'.stream| ensures Dying(s', s'.stream[i]) { TxKeepsDying(s, tx, s.stream[i]); }
    forall w <- s'.workers ensures WorkerOk(s', s'.workers[w]) { CommitKeepsWorker(s, tx, s.workers[w]); }
  }

  lemma PublishKeepsSince(s: State, s': State, e: StreamEvent, t: Token, u: UserId, before: bool, from: nat)
    requires e in s.outbox && s' == s.(outbox := s.outbox - multiset{e}, stream := s.stream + [e], clock := s.clock + 1)
    requires AnnouncedSince(s, t, u, before, from)
    ensures AnnouncedSince(s', t, u, before, from)
  {
    if !before && t in s.revoked {
      PublishedStaysAnnounced(s, s', e, t, u, from);
    }
  }

  lemma PublishKeepsRow(s: State, s': State, e: StreamEvent, f: Fill)
    requires e in s.outbox && s' == s.(outbox := s.outbox - multiset{e}, stream := s.stream + [e], clock := s.clock + 1)
    requires RowOk(s, f)
    ensures RowOk(s', f)
  {
    PublishKeepsSince(s, s', e, f.token, f.row.user, f.row.revoked, f.readPos);
  }

  lemma PublishKeepsEntry(s: State, s': State, e: StreamEvent, t: Token, entry: Entry)
    requires e in s.outbox && s' == s.(outbox := s.outbox - multiset{e}, stream := s.stream + [e], clock := s.clock + 1)
    requires EntryOk(s, t, entry)
    ensures EntryOk(s', t, entry)
  {
    PublishKeepsRow(s, s', e, entry.from);
    PublishKeepsSince(s, s', e, t, entry.cached.user, entry.tooLate, entry.setPos);
  }

  lemma PublishKeepsWorker(s: State, s': State, e: StreamEvent, w: Worker)
    requires e in s.outbox && s' == s.(outbox := s.outbox - multiset{e}, stream := s.stream + [e], clock := s.clock + 1)
    requires WorkerOk(s, w)
    ensures WorkerOk(s', w)
  {
    forall id <- w.fills { PublishKeepsRow(s, s', e, w.fills[id]); }
    forall t <- w.cache { PublishKeepsEntry(s, s', e, t, w.cache[t]); }
    forall t <- w.cache | Fresh(w.cache[t].cached, s.now)
      ensures NoneSince(s', t, w.cache[t].cached.user, w.cache[t].setPos, w)
    {
      assert forall i: nat :: i < |s.stream| ==> s'.stream[i] == s.stream[i];
    }
  }

  lemma PublishKeepsInv(s: State, s': State, e: StreamEvent)
    requires e in s.outbox && s' == s.(outbox := s.outbox - multiset{e}, stream := s.stream + [e], clock := s.clock + 1)
    requires Inv(s)
    ensures Inv(s')
  {
    forall t ensures TokenOk(s', t) { assert TokenOk(s, t); }
    forall t ensures ExpiryOk(s', t) { assert ExpiryOk(s, t); }
    forall x | x in s'.outbox ensures Dying(s', x) { assert Dying(s, x); }
    forall i: nat | i < |s'.stream| ensures Dying(s', s'.stream[i]) {
      if i < |s.stream| { assert Dying(s, s.stream[i]); } else { assert Dying(s, e); }
    }
    forall w <- s'.workers ensures WorkerOk(s', s'.workers[w]) { PublishKeepsWorker(s, s', e, s.workers[w]); }
  }

  /** Steps that touch neither the tables, nor the events, nor a worker's cache. */
  lemma FrameKeepsWorker(s: State, s': State, w: Worker)
    requires s'.stream == s.stream && s'.outbox == s.outbox && s'.owner == s.owner && s'.revoked == s.revoked
    requires s.now <= s'.now && WorkerOk(s, w)
    ensures WorkerOk(s', w)
  {
    forall t, u, before, from | AnnouncedSince(s, t, u, before, from) ensures AnnouncedSince(s', t, u, before, from) {
      if !before && t in s.revoked { CommitStaysAnnounced(s, s', t, u, from); }
    }
  }

  lemma HandleKeepsWorker(s: State, w: Worker)
    requires WorkerOk(s, w) && w.cursor < |s.stream|
    ensures WorkerOk(s, Act(s, w, Handle))
  {
    var w' := Act(s, w, Handle);
    forall t <- w'.cache | Fresh(w'.cache[t].cached, s.now)
      ensures NoneSince(s, t, w'.cache[t].cached.user, w'.cache[t].setPos, w')
    {
      assert NoneSince(s, t, w.cache[t].cached.user, w.cache[t].setPos, w);
    }
  }

  lemma ActKeepsWorker(s: State, w: Worker, a: Action)
    requires TokensOk(s) && WorkerOk(s, w) && CanAct(s, w, a)
    ensures WorkerOk(s, Act(s, w, a))
  {
    match a
    case Handle => HandleKeepsWorker(s, w);
    case Skip =>
    case FetchRow(_, t, _) => assert TokenOk(s, t);
    case CheckRow(_) =>
    case FetchUser(_) =>
    case Store(_) =>
    case Abandon(_) =>
    case Hit(_, _) =>
    case Drop(_) =>
  }

  lemma FrameKeepsInv(s: State, s': State, w: WorkerId)
    requires Inv(s)
    requires s'.db == s.db && s'.stream == s.stream && s'.outbox == s.outbox
    requires s'.owner == s.owner && s'.pairs == s.pairs && s'.revoked == s.revoked
    requires s.now <= s'.now
    requires forall v <- s'.workers :: v == w || (v in s.workers && s'.workers[v] == s.workers[v])
    requires w in s'.workers ==> WorkerOk(s, s'.workers[w])
    ensures Inv(s')
  {
    forall t ensures TokenOk(s', t) { assert TokenOk(s, t); }
    forall t ensures ExpiryOk(s', t) { assert ExpiryOk(s, t); }
    forall e | e in s'.outbox ensures Dying(s', e) { assert Dying(s, e); }
    forall i: nat | i < |s'.stream| ensures Dying(s', s'.stream[i]) { assert Dying(s, s.stream[i]); }
    forall v <- s'.workers ensures WorkerOk(s', s'.workers[v]) { FrameKeepsWorker(s, s', s'.workers[v]); }
  }

  lemma StepKeepsInv(s: State, step: Step)
    requires Inv(s) && Enabled(s, step)
    ensures Inv(Apply(s, step))
  {
    match step
    case Tick(d) => FrameKeepsInv(s, Apply(s, step), 0);
    case Transact(tx) => CommitKeepsInv(s, tx);
    case Publish(e) => PublishKeepsInv(s, Apply(s, step), e);
    case StartWorker(w, cursor) =>
      assert WorkerOk(s, Worker(map[], cursor, {}, map[]));
      FrameKeepsInv(s, Apply(s, step), w);
    case AtWorker(w, a) =>
      ActKeepsWorker(s, s.workers[w], a);
      FrameKeepsInv(s, Apply(s, step), w);
  }

  lemma {:induction false} RunKeepsInv(steps: seq<Step>)
    requires CanRun(steps)
    ensures Inv(Run(steps))
    decreases |steps|
  {
    if steps == [] {
      forall t ensures TokenOk(INIT, t) && ExpiryOk(INIT, t) {}
    } else {
      RunKeepsInv(steps[..|steps| - 1]);
      StepKeepsInv(Run(steps[..|steps| - 1]), steps[|steps| - 1]);
    }
  }

  // Main results.

  /** Why worker w can still have an entry of u's token t, revoked since its row was
      read at stream position readPos: an evicting event is still to be published, or
      still to be handled, or was handled while the authentication that stored the entry
      was under way, or was never seen by w's listener. */
  ghost predicate Excused(s: State, w: Worker, t: Token, u: UserId, readPos: nat, setPos: nat) {
    || (exists e :: e in s.outbox && Matches(e, t, u))
    || (exists i: nat :: i < |s.stream| && Matches(s.stream[i], t, u) &&
          (w.cursor <= i || readPos <= i < setPos || (i in w.skipped && setPos <= i < w.cursor)))
  }

  /** A worker answers from its cache for a revoked access token only with one of those
      excuses. */
  lemma RevokedTokensAreAnnounced(steps: seq<Step>, w: WorkerId, t: Token)
    requires CanRun(steps)
    requires var s := Run(steps);
      w in s.workers && t in s.revoked && t in s.workers[w].cache && Fresh(s.workers[w].cache[t].cached, s.now)
    ensures var s := Run(steps);
      var e := s.workers[w].cache[t];
      Excused(s, s.workers[w], t, e.cached.user, e.from.readPos, e.setPos)
  {
    RunKeepsInv(steps);
    var s := Run(steps);
    var e := s.workers[w].cache[t];
    assert WorkerOk(s, s.workers[w]) && EntryShape(t, e, s.workers[w].cursor) && EntryOk(s, t, e);
    AnnouncedIsExcused(s, s.workers[w], t, e);
  }

  lemma AnnouncedIsExcused(s: State, w: Worker, t: Token, e: Entry)
    requires NoneSince(s, t, e.cached.user, e.setPos, w)
    requires Announced(s, t, e.cached.user, e.from.readPos)
    ensures Excused(s, w, t, e.cached.user, e.from.readPos, e.setPos)
  {
    if i: nat :| e.from.readPos <= i < |s.stream| && Matches(s.stream[i], t, e.cached.user) {
      assert i < |s.stream| && Matches(s.stream[i], t, e.cached.user);
    }
  }

  /** Once the token of a fresh entry is revoked after the entry was stored, an event that
      evicts it is to come, or was skipped by the listener. */
  lemma RevokedSinceStore(s: State, w: WorkerId, t: Token)
    requires Inv(s) && w in s.workers && t in s.revoked
    requires var w := s.workers[w]; t in w.cache && Fresh(w.cache[t].cached, s.now) && !w.cache[t].tooLate
    ensures var (w, e) := (s.workers[w], s.workers[w].cache[t]);
      || (exists x :: x in s.outbox && Matches(x, t, e.cached.user))
      || (exists i: nat :: i < |s.stream| && Matches(s.stream[i], t, e.cached.user)
            && (w.cursor <= i || (i in w.skipped && e.setPos <= i)))
  {
    var k := s.workers[w];
    var (u, setPos) := (k.cache[t].cached.user, k.cache[t].setPos);
    assert WorkerOk(s, k) && EntryOk(s, t, k.cache[t]);
    assert NoneSince(s, t, u, setPos, k);
    if i: nat :| setPos <= i < |s.stream| && Matches(s.stream[i], t, u) {
      assert i < |s.stream| && Matches(s.stream[i], t, u);
    }
  }

  /** Every revocation event on the stream names a token that is revoked or gone. */
  lemma NoPhantomRevocations(steps: seq<Step>, i: nat)
    requires CanRun(steps) && i < |Run(steps).stream| && Run(steps).stream[i].TokenRevoked?
    ensures Run(steps).stream[i].token in Run(steps).owner && Dead(Run(steps).db, Run(steps).stream[i].token)
  {
    RunKeepsInv(steps);
    assert Dying(Run(steps), Run(steps).stream[i]);
  }
}
