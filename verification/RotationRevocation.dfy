/** What a revocation of all of a user's tokens reaches: two updates, each with a
    snapshot of its own, and a commit. */
module RotationRevocation {
  import opened Ids
  import opened Tokens
  import opened Rotation

  datatype Table = AccessTokens | RefreshTokens

  function Rows(s: State, tb: Table): map<Token, Row> {
    if tb.AccessTokens? then s.access else s.refresh
  }

  /** The step that starts the update of one table. */
  function UpdateOf(tb: Table, x: TxId): Step {
    if tb.AccessTokens? then RevokeAccess(x) else RevokeRefresh(x)
  }

  function NewToken(pair: Pair, tb: Table): Token {
    if tb.AccessTokens? then pair.access else pair.refresh
  }

  predicate ValidRow(s: State, tb: Table, r: Token, u: UserId) {
    r in Rows(s, tb) && Rows(s, tb)[r].user == u && !Rows(s, tb)[r].revoked
  }

  /** The step is a commit that inserts row r: a rotation's, or a new session's. */
  predicate Inserts(s: State, step: Step, tb: Table, r: Token) {
    || (step.NewSession? && NewToken(step.pair, tb) == r)
    || (step.Commit? && step.tx in s.txs && s.txs[step.tx].Rotating? && NewToken(s.txs[step.tx].pair, tb) == r)
  }

  ghost predicate InsertedBetween(s0: State, steps: seq<Step>, tb: Table, i: nat, j: nat, r: Token)
    requires CanRun(s0, steps) && j <= |steps|
  {
    exists k :: i < k < j && Inserts(StateAt(s0, steps, k), steps[k], tb, r)
  }

  lemma OneMoreInsert(s0: State, steps: seq<Step>, tb: Table, i: nat, n: nat, r: Token)
    requires CanRun(s0, steps) && i < n < |steps|
    ensures InsertedBetween(s0, steps, tb, i, n + 1, r) <==>
            InsertedBetween(s0, steps, tb, i, n, r) || Inserts(StateAt(s0, steps, n), steps[n], tb, r)
  {}

  // Rows of the past.

  /** A row of the past keeps its user, and its token is no rotation's next one. */
  predicate Past(s: State, tb: Table, rows: map<Token, Row>, r: Token) {
    r in rows ==>
      && r in s.issued
      && (r in Rows(s, tb) ==> Rows(s, tb)[r].user == rows[r].user)
      && forall y <- s.txs :: s.txs[y].Rotating? ==> NewToken(s.txs[y].pair, tb) != r
  }

  lemma PastStaysAtCommit(s: State, x: TxId, tb: Table, rows: map<Token, Row>, r: Token)
    requires CanCommit(s, x) && Past(s, tb, rows, r)
    ensures Past(ApplyCommit(s, x), tb, rows, r)
  {}

  lemma PastStaysAtDecide(s: State, x: TxId, now: int, pair: Pair, tb: Table, rows: map<Token, Row>, r: Token)
    requires Enabled(s, Decide(x, now, pair)) && Past(s, tb, rows, r)
    ensures Past(ApplyDecide(s, x, now, pair), tb, rows, r)
  {}

  lemma PastStays(s: State, step: Step, tb: Table, rows: map<Token, Row>, r: Token)
    requires Enabled(s, step) && Past(s, tb, rows, r)
    ensures Past(Apply(s, step), tb, rows, r)
    ensures r in rows ==> !Inserts(s, step, tb, r)
  {
    match step
    case Commit(x) => PastStaysAtCommit(s, x, tb, rows, r);
    case Decide(x, now, pair) => PastStaysAtDecide(s, x, now, pair, tb, rows, r);
    case _ =>
  }

  lemma PastStarts(s: State, tb: Table, r: Token)
    requires Inv(s)
    ensures Past(s, tb, Rows(s, tb), r)
  {
    forall y <- s.txs | s.txs[y].Rotating? ensures NewToken(s.txs[y].pair, tb) !in Rows(s, tb) { assert NextIsNew(s, y); }
  }

  lemma RowsComeFromInserts(s: State, step: Step, tb: Table, r: Token)
    requires Enabled(s, step) && r !in Rows(s, tb)
    ensures r in Rows(Apply(s, step), tb) ==> Inserts(s, step, tb, r)
  {}

  // The snapshot.

  /** tx has started its update of the table, with this snapshot of u's rows. */
  predicate Holds(tx: Tx, tb: Table, u: UserId, rows: set<Token>) {
    match tx
    case RevokingAccess(_, v, accessRows) => v == u && tb.AccessTokens? && accessRows == rows
    case Revoking(_, v, accessRows, refreshRows) =>
      v == u && rows == if tb.AccessTokens? then accessRows else refreshRows
    case _ => false
  }

  predicate HoldsOrDone(s: State, x: TxId, tb: Table, u: UserId, rows: set<Token>) {
    x in s.txs && (s.txs[x].Finished? || Holds(s.txs[x], tb, u, rows))
  }

  lemma SnapshotStays(s: State, step: Step, x: TxId, tb: Table, u: UserId, rows: set<Token>)
    requires Enabled(s, step) && HoldsOrDone(s, x, tb, u, rows)
    ensures HoldsOrDone(Apply(s, step), x, tb, u, rows)
  {}

  /** Whose rows x revokes. */
  function UserOf(s: State, x: TxId): UserId
    requires x in s.txs && (s.txs[x].Detected? || s.txs[x].RevokingAccess?)
  {
    s.txs[x].user
  }

  lemma SnapshotTaken(s: State, tb: Table, x: TxId)
    requires Enabled(s, UpdateOf(tb, x))
    ensures var s' := Apply(s, UpdateOf(tb, x));
      && s'.access == s.access && s'.refresh == s.refresh
      && HoldsOrDone(s', x, tb, UserOf(s, x), RowsOf(Rows(s, tb), UserOf(s, x)))
  {}

  /** From step i, at which x started its update of the table, on. */
  ghost predicate SinceUpdate(s0: State, steps: seq<Step>, tb: Table, i: nat, n: nat, x: TxId, u: UserId, r: Token)
    requires CanRun(s0, steps) && i < n <= |steps|
  {
    var (then_, now) := (StateAt(s0, steps, i), StateAt(s0, steps, n));
    && Past(now, tb, Rows(then_, tb), r)
    && HoldsOrDone(now, x, tb, u, RowsOf(Rows(then_, tb), u))
    && (r in Rows(now, tb) ==> r in Rows(then_, tb) || InsertedBetween(s0, steps, tb, i, n, r))
    && (r in Rows(then_, tb) ==> !InsertedBetween(s0, steps, tb, i, n, r))
  }

  lemma InvAt(s0: State, steps: seq<Step>, n: nat)
    requires Init(s0) && s0.forUpdate && CanRun(s0, steps) && n <= |steps|
    ensures Inv(StateAt(s0, steps, n))
  {
    PrefixRuns(s0, steps, n);
    RedeemedAtMostOnce(s0, steps[..n], 0);
  }

  /** Step i is x starting its update of the table, for its user u. */
  predicate Updates(s0: State, steps: seq<Step>, tb: Table, i: nat, x: TxId, u: UserId)
    requires CanRun(s0, steps)
  {
    && i < |steps| && steps[i] == UpdateOf(tb, x)
    && x in StateAt(s0, steps, i).txs
    && (StateAt(s0, steps, i).txs[x].Detected? || StateAt(s0, steps, i).txs[x].RevokingAccess?)
    && UserOf(StateAt(s0, steps, i), x) == u
  }

  lemma UpdateBegins(s0: State, steps: seq<Step>, tb: Table, i: nat, x: TxId, u: UserId, r: Token)
    requires Init(s0) && s0.forUpdate && CanRun(s0, steps) && Updates(s0, steps, tb, i, x, u)
    ensures SinceUpdate(s0, steps, tb, i, i + 1, x, u, r)
  {
    var s := StateAt(s0, steps, i);
    NextState(s0, steps, i);
    InvAt(s0, steps, i);
    PastStarts(s, tb, r);
    PastStays(s, steps[i], tb, Rows(s, tb), r);
    SnapshotTaken(s, tb, x);
  }

  lemma UpdateStep(s0: State, steps: seq<Step>, tb: Table, i: nat, m: nat, x: TxId, u: UserId, r: Token)
    requires CanRun(s0, steps) && i < m < |steps| && SinceUpdate(s0, steps, tb, i, m, x, u, r)
    ensures SinceUpdate(s0, steps, tb, i, m + 1, x, u, r)
  {
    var (then_, s, step) := (StateAt(s0, steps, i), StateAt(s0, steps, m), steps[m]);
    NextState(s0, steps, m);
    OneMoreInsert(s0, steps, tb, i, m, r);
    PastStays(s, step, tb, Rows(then_, tb), r);
    SnapshotStays(s, step, x, tb, u, RowsOf(Rows(then_, tb), u));
    if r !in Rows(s, tb) { RowsComeFromInserts(s, step, tb, r); }
  }

  lemma {:induction false} UpdateCarries(s0: State, steps: seq<Step>, tb: Table, i: nat, n: nat,
                                         x: TxId, u: UserId, r: Token)
    requires Init(s0) && s0.forUpdate && CanRun(s0, steps) && i < n <= |steps| && Updates(s0, steps, tb, i, x, u)
    ensures SinceUpdate(s0, steps, tb, i, n, x, u, r)
    decreases n
  {
    if n == i + 1 {
      UpdateBegins(s0, steps, tb, i, x, u, r);
    } else {
      var m := n - 1;
      UpdateCarries(s0, steps, tb, i, m, x, u, r);
      UpdateStep(s0, steps, tb, i, m, x, u, r);
    }
  }

  // Main results.

  lemma CommitRevokes(s: State, tb: Table, x: TxId, r: Token, u: UserId, rows: set<Token>)
    requires CanCommit(s, x) && HoldsOrDone(s, x, tb, u, rows)
    ensures ValidRow(ApplyCommit(s, x), tb, r, u) <==> ValidRow(s, tb, r, u) && r !in rows
  {}

  /** Step i is transaction x starting its update of one table, for its user u, and step j
      its commit. A row of u in that table is valid after the commit exactly when it was
      just before and had not been there at step i: when a rotation's or a new session's
      commit after the update's own start inserted it. */
  lemma RevokesWhatWasThere(s0: State, steps: seq<Step>, tb: Table, i: nat, j: nat, x: TxId, u: UserId, r: Token)
    requires Init(s0) && s0.forUpdate && CanRun(s0, steps) && i < j < |steps|
    requires Updates(s0, steps, tb, i, x, u) && steps[j] == Commit(x)
    ensures var (s, s') := (StateAt(s0, steps, j), StateAt(s0, steps, j + 1));
      && (ValidRow(s', tb, r, u) <==> ValidRow(s, tb, r, u) && r !in Rows(StateAt(s0, steps, i), tb))
      && (ValidRow(s', tb, r, u) <==> ValidRow(s, tb, r, u) && InsertedBetween(s0, steps, tb, i, j, r))
  {
    UpdateCarries(s0, steps, tb, i, j, x, u, r);
    NextState(s0, steps, j);
    CommitRevokes(StateAt(s0, steps, j), tb, x, r, u, RowsOf(Rows(StateAt(s0, steps, i), tb), u));
  }

  ghost predicate NoneValid(s: State, tb: Table, u: UserId) {
    forall r <- Rows(s, tb) :: !ValidRow(s, tb, r, u)
  }

  /** Every row of u that was inserted into the table while it was being revoked is
      invalid again at step j. */
  ghost predicate NoneSlippedIn(s0: State, steps: seq<Step>, tb: Table, i: nat, j: nat, u: UserId)
    requires CanRun(s0, steps) && j <= |steps|
  {
    forall r <- Rows(StateAt(s0, steps, j), tb) ::
      InsertedBetween(s0, steps, tb, i, j, r) ==> !ValidRow(StateAt(s0, steps, j), tb, r, u)
  }

  lemma TableClearedIff(s0: State, steps: seq<Step>, tb: Table, i: nat, j: nat, x: TxId, u: UserId)
    requires Init(s0) && s0.forUpdate && CanRun(s0, steps) && i < j < |steps|
    requires Updates(s0, steps, tb, i, x, u) && steps[j] == Commit(x)
    ensures NoneValid(StateAt(s0, steps, j + 1), tb, u) <==> NoneSlippedIn(s0, steps, tb, i, j, u)
  {
    var (s, s') := (StateAt(s0, steps, j), StateAt(s0, steps, j + 1));
    forall r ensures ValidRow(s', tb, r, u) <==> ValidRow(s, tb, r, u) && InsertedBetween(s0, steps, tb, i, j, r) {
      RevokesWhatWasThere(s0, steps, tb, i, j, x, u, r);
    }
    if r :| r in Rows(s', tb) && ValidRow(s', tb, r, u) {
      assert r in Rows(s, tb) && ValidRow(s, tb, r, u);
    }
  }

  /** So the revocation leaves u without any valid token exactly when nothing valid
      slipped into the access tokens between their update's start, at step a, and the
      commit, nor into the refresh tokens between theirs, at step b, and the commit. */
  lemma RevocationCompleteIff(s0: State, steps: seq<Step>, a: nat, b: nat, j: nat, x: TxId, u: UserId)
    requires Init(s0) && s0.forUpdate && CanRun(s0, steps) && a < j < |steps| && b < j && steps[j] == Commit(x)
    requires Updates(s0, steps, AccessTokens, a, x, u) && Updates(s0, steps, RefreshTokens, b, x, u)
    ensures var s' := StateAt(s0, steps, j + 1);
            NoneValid(s', AccessTokens, u) && NoneValid(s', RefreshTokens, u) <==>
            NoneSlippedIn(s0, steps, AccessTokens, a, j, u) && NoneSlippedIn(s0, steps, RefreshTokens, b, j, u)
  {
    TableClearedIff(s0, steps, AccessTokens, a, j, x, u);
    TableClearedIff(s0, steps, RefreshTokens, b, j, x, u);
  }
}
