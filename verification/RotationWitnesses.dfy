/** Runs of concurrent refreshes that redeem a token twice, without the row lock, and
    that leave a token of a revoked family valid, with it. */
module RotationWitnesses {
  import opened Ids
  import opened Tokens
  import opened Rotation
  import opened RotationRevocation

  ghost predicate Reached(s0: State, steps: seq<Step>, s: State) {
    CanRun(s0, steps) && s == Run(s0, steps)
  }

  lemma Extend(s0: State, steps: seq<Step>, s: State, step: Step) returns (steps': seq<Step>, s': State)
    requires Reached(s0, steps, s) && Enabled(s, step)
    ensures steps' == steps + [step] && Reached(s0, steps', s') && s' == Apply(s, step)
  {
    steps', s' := steps + [step], Apply(s, step);
    assert steps'[..|steps|] == steps;
  }

  const VALID := Row(5, 100, false)
  const REVOKED := Row(5, 100, true)

  /** A token pair with the expiry of the rows above. */
  function PairOf(access: Token, refresh: Token): Pair {
    Pair(access, refresh, 100, 100)
  }

  /** Transactions 10 and 11 begin and read their rows. */
  lemma BothRead(s0: State, t1: Token, t2: Token) returns (steps: seq<Step>, s: State)
    requires Init(s0) && t1 in s0.refresh && t2 in s0.refresh && (s0.forUpdate ==> t1 != t2)
    ensures Reached(s0, steps, s)
    ensures s == s0.(txs := map[10 := Holding(t1, s0.refresh[t1]), 11 := Holding(t2, s0.refresh[t2])],
                     locks := if s0.forUpdate then map[t1 := 10, t2 := 11] else map[])
  {
    var s1, s2, s3;
    steps, s1 := Extend(s0, [], s0, Begin(10, t1));
    steps, s2 := Extend(s0, steps, s1, Begin(11, t2));
    steps, s3 := Extend(s0, steps, s2, Step.Read(10));
    steps, s := Extend(s0, steps, s3, Step.Read(11));
  }

  // Without FOR UPDATE.

  /** Two transactions that read without the lock both redeem token 1. */
  lemma RedeemedTwiceWithoutLock(s0: State) returns (steps: seq<Step>, s: State)
    requires Init(s0) && !s0.forUpdate && s0.refresh == map[1 := VALID] && s0.access == map[] && s0.issued == {1}
    ensures Reached(s0, steps, s) && Count(s.redeemed, 1) == 2
  {
    var s1, s2, s3;
    steps, s1 := BothRead(s0, 1, 1);
    steps, s2 := Extend(s0, steps, s1, Decide(10, 0, PairOf(4, 2)));
    steps, s3 := Extend(s0, steps, s2, Commit(10));
    assert s3.redeemed == map[1 := 1] && s3.locks == map[] && s3.issued == {1, 2, 4};
    steps, s := SecondRotation(s0, steps, s3);
  }

  lemma SecondRotation(s0: State, before: seq<Step>, s1: State) returns (steps: seq<Step>, s: State)
    requires Reached(s0, before, s1) && s1.redeemed == map[1 := 1] && s1.locks == map[] && s1.issued == {1, 2, 4}
    requires 11 in s1.txs && s1.txs[11] == Holding(1, VALID)
    ensures Reached(s0, steps, s) && Count(s.redeemed, 1) == 2
  {
    var s2;
    steps, s2 := Extend(s0, before, s1, Decide(11, 0, PairOf(5, 3)));
    steps, s := Extend(s0, steps, s2, Commit(11));
  }

  // With it: user 5 has reused refresh token 1 and is about to rotate refresh token 2,
  // whose access token is 6.

  predicate Family(s0: State) {
    && Init(s0) && s0.forUpdate && s0.issued == {1, 2, 6}
    && s0.refresh == map[1 := REVOKED, 2 := VALID] && s0.access == map[6 := VALID]
  }

  /** What the two transactions leave each other, whatever they have done. */
  predicate Between(s: State) {
    10 in s.txs && 11 in s.txs && s.issued == {1, 2, 6} && s.locks == map[1 := 10, 2 := 11]
    && s.refresh == map[1 := REVOKED, 2 := VALID] && s.access == map[6 := VALID]
    && s.txs[11] == Holding(2, VALID)
  }

  /** Transaction 10 has detected the reuse and started the update of the access rows. */
  lemma AccessUpdating(s0: State) returns (steps: seq<Step>, s: State)
    requires Family(s0)
    ensures Reached(s0, steps, s) && Between(s) && s.txs[10] == RevokingAccess(1, 5, {6})
  {
    var s1, s2;
    steps, s1 := BothRead(s0, 1, 2);
    steps, s2 := Extend(s0, steps, s1, Decide(10, 0, PairOf(7, 8)));
    assert s2.txs[10] == Detected(1, 5);
    assert RowsOf(s2.access, 5) == {6};
    steps, s := Extend(s0, steps, s2, RevokeAccess(10));
  }

  /** Transaction 11 rotates token 2 into access token 4 and refresh token 3. */
  lemma Rotated(s0: State, before: seq<Step>, s1: State) returns (steps: seq<Step>, s: State)
    requires Reached(s0, before, s1) && Between(s1)
    ensures Reached(s0, steps, s) && 10 in s.txs && s.txs[10] == s1.txs[10] && s.locks.Keys == {1} && s.locks[1] == 10
    ensures s.refresh == map[1 := REVOKED, 2 := REVOKED, 3 := VALID] && s.access == map[6 := VALID, 4 := VALID]
  {
    var s2;
    steps, s2 := Extend(s0, before, s1, Decide(11, 0, PairOf(4, 3)));
    assert s2.txs[11] == Rotating(2, 5, PairOf(4, 3)) && s2.txs[10] == s1.txs[10];
    assert s2.refresh == s1.refresh && s2.access == s1.access && s2.locks == map[1 := 10, 2 := 11];
    steps, s := RotationCommits(s0, steps, s2);
  }

  lemma RotationCommits(s0: State, before: seq<Step>, s1: State) returns (steps: seq<Step>, s: State)
    requires Reached(s0, before, s1) && s1.locks == map[1 := 10, 2 := 11] && 10 in s1.txs && 11 in s1.txs
    requires s1.refresh == map[1 := REVOKED, 2 := VALID] && s1.access == map[6 := VALID]
    requires s1.txs[11] == Rotating(2, 5, PairOf(4, 3))
    ensures Reached(s0, steps, s) && 10 in s.txs && s.txs[10] == s1.txs[10] && s.locks.Keys == {1} && s.locks[1] == 10
    ensures s.refresh == map[1 := REVOKED, 2 := REVOKED, 3 := VALID] && s.access == map[6 := VALID, 4 := VALID]
  {
    steps, s := Extend(s0, before, s1, Commit(11));
    assert s == ApplyCommit(s1, 11);
    assert s.refresh == map[1 := REVOKED, 2 := REVOKED, 3 := VALID];
  }

  /** The rotation commits while the revocation's second update waits for its row: both
      of its tokens, which descend from the family being revoked, are valid when the
      revocation has committed. */
  lemma RotationEscapesRevocation(s0: State) returns (steps: seq<Step>, s: State)
    requires Family(s0)
    ensures Reached(s0, steps + [Commit(10)], s)
    ensures ValidRow(s, RefreshTokens, 3, 5) && ValidRow(s, AccessTokens, 4, 5)
    ensures 2 in s.refresh && s.refresh[2].revoked && 6 in s.access && s.access[6].revoked
  {
    var s1, s2, s3;
    steps, s1 := AccessUpdating(s0);
    assert RowsOf(s1.refresh, 5) == {1, 2};
    steps, s2 := Extend(s0, steps, s1, RevokeRefresh(10));
    assert s2.txs[10] == Revoking(1, 5, {6}, {1, 2});
    steps, s3 := Rotated(s0, steps, s2);
    s := RevocationCommits(s0, steps, s3, {1, 2});
  }

  /** The rotation commits between the two updates: its refresh token is revoked with the
      others, and its access token, which the first update did not see, stays valid. */
  lemma AccessTokenEscapesRevocation(s0: State) returns (steps: seq<Step>, s: State)
    requires Family(s0)
    ensures Reached(s0, steps + [Commit(10)], s)
    ensures NoneValid(s, RefreshTokens, 5) && ValidRow(s, AccessTokens, 4, 5)
  {
    var s1, s2, s3;
    steps, s1 := AccessUpdating(s0);
    steps, s2 := Rotated(s0, steps, s1);
    assert RowsOf(s2.refresh, 5) == {1, 2, 3};
    steps, s3 := Extend(s0, steps, s2, RevokeRefresh(10));
    assert s3.txs[10] == Revoking(1, 5, {6}, {1, 2, 3});
    s := RevocationCommits(s0, steps, s3, {1, 2, 3});
  }

  lemma RevocationCommits(s0: State, before: seq<Step>, s1: State, rows: set<Token>) returns (s: State)
    requires Reached(s0, before, s1) && 10 in s1.txs && s1.txs[10] == Revoking(1, 5, {6}, rows)
    requires s1.locks.Keys == {1} && s1.locks[1] == 10
    ensures Reached(s0, before + [Commit(10)], s)
    ensures s.access == RevokeRows(s1.access, {6}) && s.refresh == RevokeRows(s1.refresh, rows)
  {
    var all;
    all, s := Extend(s0, before, s1, Commit(10));
    assert s == ApplyCommit(s1, 10);
  }
}
