/** Refresh rotation down to the row locks of concurrent transactions, under read
    committed isolation: a waiter that gets the lock reads the committed row. */
module Rotation {
  import opened Ids
  import opened Tokens

  type TxId = nat

  /** Where a refresh transaction stands. Rotating: the row's update and the new pair's
      rows are written but not committed. Detected: the row was found revoked. The two
      updates that follow each take their own snapshot of the user's rows when they
      start: RevokingAccess is past the first, Revoking past both. */
  datatype Tx =
    | Waiting(token: Token)
    | Holding(token: Token, row: Row)
    | Rotating(token: Token, user: UserId, pair: Pair)
    | Detected(token: Token, user: UserId)
    | RevokingAccess(token: Token, user: UserId, accessRows: set<Token>)
    | Revoking(token: Token, user: UserId, accessRows: set<Token>, refreshRows: set<Token>)
    | Finished(redeemed: bool)

  /** forUpdate says whether the read locks its row, as the service asks; locks are those
      on refresh rows. issued and redeemed are history: tokens ever drawn for a row, and
      rotations committed per refresh token. */
  datatype State = State(
    forUpdate: bool,
    access: map<Token, Row>,
    refresh: map<Token, Row>,
    locks: map<Token, TxId>,
    txs: map<TxId, Tx>,
    issued: set<Token>,
    redeemed: map<Token, int>)

  datatype Step =
    | Begin(tx: TxId, token: Token)
    | Read(tx: TxId)
    | Decide(tx: TxId, now: int, pair: Pair)
    | RevokeAccess(tx: TxId)
    | RevokeRefresh(tx: TxId)
    | Commit(tx: TxId)
    | Abort(tx: TxId)
    | NewSession(user: UserId, pair: Pair)
    | RevokeElsewhere(access: set<Token>, refresh: set<Token>)
    | DeleteElsewhere(access: set<Token>, refresh: set<Token>)

  predicate Init(s: State) {
    && s.locks == map[] && s.txs == map[] && s.redeemed == map[]
    && s.access.Keys <= s.issued && s.refresh.Keys <= s.issued
  }

  /** Nobody else holds the row's lock. */
  predicate Free(s: State, t: Token, x: TxId) {
    t in s.locks ==> s.locks[t] == x
  }

  predicate NewPair(s: State, pair: Pair) {
    pair.access !in s.issued && pair.refresh !in s.issued && pair.access != pair.refresh
  }

  predicate CanCommit(s: State, x: TxId) {
    x in s.txs && (s.txs[x].Rotating? || (s.txs[x].Revoking? && forall t <- s.txs[x].refreshRows :: Free(s, t, x)))
  }

  predicate Enabled(s: State, step: Step) {
    match step
    case Begin(x, _) => x !in s.txs
    case Read(x) => x in s.txs && s.txs[x].Waiting? && (s.forUpdate ==> Free(s, s.txs[x].token, x))
    case Decide(x, _, pair) =>
      x in s.txs && s.txs[x].Holding? && NewPair(s, pair) && Free(s, s.txs[x].token, x)
    case RevokeAccess(x) => x in s.txs && s.txs[x].Detected?
    case RevokeRefresh(x) => x in s.txs && s.txs[x].RevokingAccess?
    case Commit(x) => CanCommit(s, x)
    case Abort(x) => x in s.txs && !s.txs[x].Finished?
    case NewSession(_, pair) => NewPair(s, pair)
    case RevokeElsewhere(_, ts) => ts !! s.locks.Keys
    case DeleteElsewhere(_, ts) => ts !! s.locks.Keys
  }

  function Release(locks: map<Token, TxId>, x: TxId): map<Token, TxId> {
    map t | t in locks && locks[t] != x :: locks[t]
  }

  function End(s: State, x: TxId, redeemed: bool): State {
    s.(txs := s.txs[x := Finished(redeemed)], locks := Release(s.locks, x))
  }

  function RevokeRows(rows: map<Token, Row>, ts: set<Token>): map<Token, Row> {
    map t | t in rows :: if t in ts then rows[t].(revoked := true) else rows[t]
  }

  function RowsOf(rows: map<Token, Row>, u: UserId): set<Token> {
    set t | t in rows && rows[t].user == u
  }

  function Drawn(s: State, pair: Pair): set<Token> {
    s.issued + {pair.access, pair.refresh}
  }

  function InsertPair(s: State, u: UserId, pair: Pair): State {
    s.(access := s.access[pair.access := Row(u, pair.accessExpiry, false)],
       refresh := s.refresh[pair.refresh := Row(u, pair.refreshExpiry, false)])
  }

  function ApplyCommit(s: State, x: TxId): State
    requires CanCommit(s, x)
  {
    match s.txs[x]
    case Rotating(t, u, pair) =>
      InsertPair(End(s, x, true).(refresh := RevokeRows(s.refresh, {t}),
                                  redeemed := s.redeemed[t := Count(s.redeemed, t) + 1]), u, pair)
    case Revoking(_, _, accessRows, refreshRows) =>
      End(s, x, false).(access := RevokeRows(s.access, accessRows), refresh := RevokeRows(s.refresh, refreshRows))
  }

  function ApplyDecide(s: State, x: TxId, now: int, pair: Pair): State
    requires x in s.txs && s.txs[x].Holding?
  {
    var Holding(t, row) := s.txs[x];
    if row.revoked then s.(txs := s.txs[x := Detected(t, row.user)])
    else if now >= row.expiresAt then End(s, x, false)
    else s.(txs := s.txs[x := Rotating(t, row.user, pair)], locks := s.locks[t := x], issued := Drawn(s, pair))
  }

  function Apply(s: State, step: Step): State
    requires Enabled(s, step)
  {
    match step
    case Begin(x, t) => s.(txs := s.txs[x := Waiting(t)])
    case Read(x) =>
      var t := s.txs[x].token;
      if t !in s.refresh then End(s, x, false)
      else s.(txs := s.txs[x := Holding(t, s.refresh[t])], locks := if s.forUpdate then s.locks[t := x] else s.locks)
    case Decide(x, now, pair) => ApplyDecide(s, x, now, pair)
    case RevokeAccess(x) =>
      s.(txs := s.txs[x := RevokingAccess(s.txs[x].token, s.txs[x].user, RowsOf(s.access, s.txs[x].user))])
    case RevokeRefresh(x) =>
      s.(txs := s.txs[x := Revoking(s.txs[x].token, s.txs[x].user, s.txs[x].accessRows, RowsOf(s.refresh, s.txs[x].user))])
    case Commit(x) => ApplyCommit(s, x)
    case Abort(x) => End(s, x, false)
    case NewSession(u, pair) => InsertPair(s, u, pair).(issued := Drawn(s, pair))
    case RevokeElsewhere(as_, rs) => s.(access := RevokeRows(s.access, as_), refresh := RevokeRows(s.refresh, rs))
    case DeleteElsewhere(as_, rs) => s.(access := s.access - as_, refresh := s.refresh - rs)
  }

  predicate CanRun(s: State, steps: seq<Step>)
    decreases |steps|, 0
  {
    steps == [] || (CanRun(s, steps[..|steps| - 1]) && Enabled(Run(s, steps[..|steps| - 1]), steps[|steps| - 1]))
  }

  function Run(s: State, steps: seq<Step>): State
    requires CanRun(s, steps)
    decreases |steps|, 1
  {
    if steps == [] then s else Apply(Run(s, steps[..|steps| - 1]), steps[|steps| - 1])
  }

  lemma {:induction false} PrefixRuns(s0: State, steps: seq<Step>, n: nat)
    requires CanRun(s0, steps) && n <= |steps|
    ensures CanRun(s0, steps[..n])
    decreases |steps|
  {
    if n == |steps| {
      assert steps[..n] == steps;
    } else {
      assert steps[..|steps| - 1][..n] == steps[..n];
      PrefixRuns(s0, steps[..|steps| - 1], n);
    }
  }

  /** The state before step n of a run. */
  function StateAt(s0: State, steps: seq<Step>, n: nat): State
    requires CanRun(s0, steps) && n <= |steps|
  {
    PrefixRuns(s0, steps, n);
    Run(s0, steps[..n])
  }

  lemma NextState(s0: State, steps: seq<Step>, n: nat)
    requires CanRun(s0, steps) && n < |steps|
    ensures Enabled(StateAt(s0, steps, n), steps[n])
    ensures StateAt(s0, steps, n + 1) == Apply(StateAt(s0, steps, n), steps[n])
  {
    PrefixRuns(s0, steps, n + 1);
    assert steps[..n + 1][..n] == steps[..n];
  }

  /** A transaction that saw its token valid still holds the row, and it still is. */
  predicate SeenIsCurrent(s: State, x: TxId) {
    x in s.txs ==>
      match s.txs[x]
      case Holding(t, row) => t in s.locks && s.locks[t] == x && t in s.refresh && s.refresh[t] == row
      case Rotating(t, _, _) => t in s.locks && s.locks[t] == x && t in s.refresh && !s.refresh[t].revoked
      case _ => true
  }

  predicate RedeemedIsDead(s: State, t: Token) {
    && 0 <= Count(s.redeemed, t) <= 1
    && (Count(s.redeemed, t) > 0 ==> t in s.issued && (t in s.refresh ==> s.refresh[t].revoked))
  }

  /** The tokens a rotation is about to insert are reserved for it. */
  predicate NextIsNew(s: State, x: TxId) {
    x in s.txs && s.txs[x].Rotating? ==>
      var pair := s.txs[x].pair;
      && pair.access in s.issued && pair.refresh in s.issued
      && pair.access !in s.access && pair.refresh !in s.refresh && Count(s.redeemed, pair.refresh) == 0
  }

  predicate NextIsOwn(s: State, x: TxId, y: TxId) {
    x in s.txs && y in s.txs && s.txs[x].Rotating? && s.txs[y].Rotating? && x != y ==>
      s.txs[x].pair.access != s.txs[y].pair.access && s.txs[x].pair.refresh != s.txs[y].pair.refresh
  }

  ghost predicate Inv(s: State) {
    && s.forUpdate && s.access.Keys <= s.issued && s.refresh.Keys <= s.issued
    && (forall x :: SeenIsCurrent(s, x))
    && (forall x :: NextIsNew(s, x))
    && (forall x, y :: NextIsOwn(s, x, y))
    && (forall t :: RedeemedIsDead(s, t))
  }

  lemma CommitKeepsSeen(s: State, y: TxId, x: TxId)
    requires Inv(s) && CanCommit(s, y)
    ensures SeenIsCurrent(ApplyCommit(s, y), x)
  {
    assert SeenIsCurrent(s, x) && SeenIsCurrent(s, y) && NextIsNew(s, y);
  }

  lemma SeenStays(s: State, step: Step, x: TxId)
    requires Inv(s) && Enabled(s, step)
    ensures SeenIsCurrent(Apply(s, step), x)
  {
    assert SeenIsCurrent(s, x);
    if step.Commit? { CommitKeepsSeen(s, step.tx, x); }
  }

  lemma NextStaysNew(s: State, step: Step, x: TxId)
    requires Inv(s) && Enabled(s, step)
    ensures NextIsNew(Apply(s, step), x)
  {
    assert NextIsNew(s, x) && SeenIsCurrent(s, x);
    if step.Commit? { assert SeenIsCurrent(s, step.tx) && NextIsNew(s, step.tx) && NextIsOwn(s, step.tx, x); }
    if step.Decide? { assert RedeemedIsDead(s, step.pair.refresh); }
  }

  lemma DecideKeepsOwn(s: State, z: TxId, now: int, pair: Pair, x: TxId, y: TxId)
    requires Inv(s) && Enabled(s, Decide(z, now, pair))
    ensures NextIsOwn(ApplyDecide(s, z, now, pair), x, y)
  {
    assert NextIsNew(s, x) && NextIsNew(s, y) && NextIsOwn(s, x, y);
  }

  lemma NextStaysOwn(s: State, step: Step, x: TxId, y: TxId)
    requires Inv(s) && Enabled(s, step)
    ensures NextIsOwn(Apply(s, step), x, y)
  {
    assert NextIsOwn(s, x, y);
    if step.Decide? { DecideKeepsOwn(s, step.tx, step.now, step.pair, x, y); }
  }

  lemma RedeemedStays(s: State, step: Step, t: Token)
    requires Inv(s) && Enabled(s, step)
    ensures RedeemedIsDead(Apply(s, step), t)
  {
    assert RedeemedIsDead(s, t);
    if step.Commit? { assert SeenIsCurrent(s, step.tx) && NextIsNew(s, step.tx); }
  }

  lemma StepKeepsInv(s: State, step: Step)
    requires Inv(s) && Enabled(s, step)
    ensures Inv(Apply(s, step))
  {
    forall x { SeenStays(s, step, x); }
    forall x { NextStaysNew(s, step, x); }
    forall x, y { NextStaysOwn(s, step, x, y); }
    forall t { RedeemedStays(s, step, t); }
    RowsAreIssued(s, step);
  }

  lemma RowsAreIssued(s: State, step: Step)
    requires Inv(s) && Enabled(s, step)
    ensures var s' := Apply(s, step);
      s'.forUpdate && s'.access.Keys <= s'.issued && s'.refresh.Keys <= s'.issued
  {
    if step.Commit? { assert NextIsNew(s, step.tx); }
  }

  /** With the row locked by its read, a refresh token is redeemed at most once,
      whatever transactions run at the same time. */
  lemma {:induction false} RedeemedAtMostOnce(s: State, steps: seq<Step>, t: Token)
    requires Init(s) && s.forUpdate && CanRun(s, steps)
    ensures Count(Run(s, steps).redeemed, t) <= 1
    ensures Inv(Run(s, steps))
    decreases |steps|
  {
    if steps != [] {
      RedeemedAtMostOnce(s, steps[..|steps| - 1], t);
      StepKeepsInv(Run(s, steps[..|steps| - 1]), steps[|steps| - 1]);
    }
    assert RedeemedIsDead(Run(s, steps), t);
  }

  // What a refresh does, on the rows.

  /** The row read decides, and the decision writes no row that others see. */
  lemma DecideOutcome(s: State, x: TxId, now: int, pair: Pair)
    requires Enabled(s, Decide(x, now, pair))
    ensures var (s', row) := (Apply(s, Decide(x, now, pair)), s.txs[x].row);
      && s'.access == s.access && s'.refresh == s.refresh && x in s'.txs
      && (s'.txs[x].Detected? <==> row.revoked)
      && (s'.txs[x].Rotating? <==> !row.revoked && now < row.expiresAt)
      && (s'.txs[x] == Finished(false) <==> !row.revoked && row.expiresAt <= now)
      && (s'.txs[x].Rotating? ==> s'.txs[x] == Rotating(s.txs[x].token, row.user, pair))
  {}

  /** A rotation's commit revokes its token and inserts each token of the pair, for the
      same user, with its own expiry. */
  lemma CommitOutcome(s: State, x: TxId)
    requires Inv(s) && CanCommit(s, x) && s.txs[x].Rotating?
    ensures var (s', t, u, pair) := (ApplyCommit(s, x), s.txs[x].token, s.txs[x].user, s.txs[x].pair);
      && t in s.refresh && s'.txs[x] == Finished(true)
      && s'.refresh == s.refresh[t := Row(s.refresh[t].user, s.refresh[t].expiresAt, true)]
                                [pair.refresh := Row(u, pair.refreshExpiry, false)]
      && s'.access == s.access[pair.access := Row(u, pair.accessExpiry, false)]
  {
    assert SeenIsCurrent(s, x);
  }

  lemma RotatingFrom(s: State, step: Step, x: TxId)
    requires Enabled(s, step) && x in Apply(s, step).txs && Apply(s, step).txs[x].Rotating?
    ensures (x in s.txs && s.txs[x] == Apply(s, step).txs[x]) || (step.Decide? && step.tx == x)
  {}

  /** A rotation under way was decided on its token's current row, unrevoked, before the
      row's expiry. */
  lemma {:induction false} RotationWasDecided(s0: State, steps: seq<Step>, n: nat, x: TxId) returns (k: nat)
    requires Init(s0) && s0.forUpdate && CanRun(s0, steps) && n <= |steps|
    requires x in StateAt(s0, steps, n).txs && StateAt(s0, steps, n).txs[x].Rotating?
    ensures k < n && steps[k].Decide? && steps[k].tx == x
    ensures var (s, tx) := (StateAt(s0, steps, k), StateAt(s0, steps, n).txs[x]);
      && tx.pair == steps[k].pair && tx.token in s.refresh && tx.user == s.refresh[tx.token].user
      && !s.refresh[tx.token].revoked && steps[k].now < s.refresh[tx.token].expiresAt
    decreases n
  {
    var m := n - 1;
    NextState(s0, steps, m);
    RotatingFrom(StateAt(s0, steps, m), steps[m], x);
    if steps[m].Decide? && steps[m].tx == x {
      k := m;
      PrefixRuns(s0, steps, m);
      RedeemedAtMostOnce(s0, steps[..m], 0);
      assert SeenIsCurrent(StateAt(s0, steps, m), x);
      DecideOutcome(StateAt(s0, steps, m), x, steps[m].now, steps[m].pair);
    } else {
      k := RotationWasDecided(s0, steps, m, x);
    }
  }
}
