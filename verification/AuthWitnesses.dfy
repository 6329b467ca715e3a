/** The gap that bounded staleness leaves: a revoked token answered from the cache when
    nothing is left to evict it. */
module AuthWitnesses {
  import opened Ids
  import opened Tokens
  import opened TokenCaches
  import opened AuthCluster

  ghost predicate Reached(steps: seq<Step>, s: State) {
    CanRun(steps) && s == Run(steps)
  }

  lemma Extend(steps: seq<Step>, s: State, step: Step) returns (steps': seq<Step>, s': State)
    requires Reached(steps, s) && Enabled(s, step)
    ensures steps' == steps + [step] && Reached(steps', s') && s' == Apply(s, step)
  {
    steps', s' := steps + [step], Apply(s, step);
    assert steps'[..|steps|] == steps;
  }

  const ROW := Row(1, 900, false)

  /** User 1 has tokens 10 (access) and 11 (refresh); worker 0 is up. */
  lemma Registered() returns (steps: seq<Step>, s: State)
    ensures Reached(steps, s) && s.now == 0 && s.outbox == multiset{} && s.stream == []
    ensures s.db == AuthDb(map[1 := false], map[10 := ROW], map[11 := ROW])
    ensures s.workers.Keys == {0} && s.workers[0] == Worker(map[], 0, {}, map[])
  {
    var s1;
    steps, s1 := Started();
    steps, s := Extend(steps, s1, Transact(Register(1, Pair(10, 11, 900, 900))));
  }

  lemma Started() returns (steps: seq<Step>, s: State)
    ensures Reached(steps, s) && s.now == 0 && s.outbox == multiset{} && s.stream == []
    ensures s.db == INIT.db && s.owner == map[] && s.workers.Keys == {0} && s.workers[0] == Worker(map[], 0, {}, map[])
  {
    steps, s := [], INIT;
    steps, s := Extend(steps, s, StartWorker(0, 0));
  }

  /** An authentication with token 10 has made its two reads. */
  lemma ReadsDone() returns (steps: seq<Step>, s: State, f: Fill)
    ensures Reached(steps, s) && s.now == 0 && s.outbox == multiset{} && s.stream == []
    ensures s.db == AuthDb(map[1 := false], map[10 := ROW], map[11 := ROW])
    ensures s.workers.Keys == {0} && s.workers[0] == Worker(map[], 0, {}, map[7 := f])
    ensures f.token == 10 && f.deactivated == Some(false) && f.row == ROW
  {
    var s1, s2, s3;
    steps, s1 := Registered();
    steps, s2 := Extend(steps, s1, AtWorker(0, FetchRow(7, 10, false)));
    steps, s3 := Extend(steps, s2, AtWorker(0, CheckRow(7)));
    steps, s := Extend(steps, s3, AtWorker(0, FetchUser(7)));
    f := s.workers[0].fills[7];
  }

  /** A logout has revoked both tokens and owes their events. */
  lemma LoggedOut() returns (steps: seq<Step>, s: State, f: Fill)
    ensures Reached(steps, s) && s.outbox == multiset{TokenRevoked(11), TokenRevoked(10)} && s.stream == []
    ensures 10 in s.revoked && s.workers.Keys == {0} && s.workers[0] == Worker(map[], 0, {}, map[7 := f])
    ensures f.token == 10 && f.deactivated == Some(false)
  {
    var s1;
    steps, s1, f := ReadsDone();
    steps, s := Extend(steps, s1, Transact(Logout(11, Some(10))));
    assert 10 in RevokedIn(s.db);
  }

  /** An event is published and worker 0, with nothing cached, handles it. */
  lemma Delivered(before: seq<Step>, s0: State, e: StreamEvent, f: Fill) returns (steps: seq<Step>, s: State)
    requires Reached(before, s0) && e in s0.outbox
    requires s0.workers.Keys == {0} && s0.workers[0] == Worker(map[], |s0.stream|, {}, map[7 := f])
    ensures Reached(steps, s) && s.outbox == s0.outbox - multiset{e} && s.revoked == s0.revoked
    ensures s.workers.Keys == {0} && s.workers[0] == Worker(map[], |s.stream|, {}, map[7 := f])
  {
    var s1;
    steps, s1 := Extend(before, s0, Publish(e));
    steps, s := Extend(steps, s1, AtWorker(0, Handle));
  }

  /** A reachable state: token 10 is revoked, every event has been handled, and worker 0
      answers for token 10 from its cache. Its entry was stored after the event that
      would have evicted it. */
  lemma StaleEntryNothingEvicts() returns (steps: seq<Step>, s: State)
    ensures Reached(steps, s) && s.outbox == multiset{} && 10 in s.revoked
    ensures 0 in s.workers && s.workers[0].cursor == |s.stream| && s.workers[0].skipped == {}
    ensures Enabled(s, AtWorker(0, Hit(10, false)))
  {
    var s1, s2, s3, f;
    steps, s1, f := LoggedOut();
    steps, s2 := Delivered(steps, s1, TokenRevoked(11), f);
    steps, s3 := Delivered(steps, s2, TokenRevoked(10), f);
    assert s3.outbox == multiset{};
    steps, s := Extend(steps, s3, AtWorker(0, Store(7)));
  }

  /** The authentication with token 10 is done, and its entry is in worker 0's cache. */
  lemma Authenticated() returns (steps: seq<Step>, s: State)
    ensures Reached(steps, s) && s.now == 0 && s.outbox == multiset{} && s.stream == []
    ensures s.db == AuthDb(map[1 := false], map[10 := ROW], map[11 := ROW])
    ensures s.workers.Keys == {0} && 10 in s.workers[0].cache && s.workers[0].cursor == 0
    ensures s.workers[0].cache[10].cached == CacheEntry(1, false, 300)
  {
    var s1, f;
    steps, s1, f := ReadsDone();
    steps, s := Extend(steps, s1, AtWorker(0, Store(7)));
  }

  /** A reachable state: the account has been deleted for 299 seconds, its token's row is
      gone, no event is to come, and worker 0 answers for the token. */
  lemma DeletedAccountAnswered() returns (steps: seq<Step>, s: State)
    ensures Reached(steps + [Transact(DeleteAccount(1)), Tick(299)], s)
    ensures 1 !in s.db.users && 10 !in s.db.access && s.outbox == multiset{} && s.stream == []
    ensures 0 in s.workers && Enabled(s, AtWorker(0, Hit(10, false)))
  {
    var s1;
    steps, s1 := Authenticated();
    var gone, s2 := Extend(steps, s1, Transact(DeleteAccount(1)));
    var later, s3 := Extend(gone, s2, Tick(299));
    assert later == steps + [Transact(DeleteAccount(1)), Tick(299)];
    s := s3;
  }

  /** The same with a deactivated account, for a request that does not allow one. */
  lemma DeactivatedAccountAnswered() returns (steps: seq<Step>, s: State)
    ensures Reached(steps + [Transact(Deactivate(1)), Tick(299)], s)
    ensures 1 in s.db.users && s.db.users[1] && s.outbox == multiset{} && s.stream == []
    ensures 0 in s.workers && Enabled(s, AtWorker(0, Hit(10, false)))
  {
    var s1;
    steps, s1 := Authenticated();
    var gone, s2 := Extend(steps, s1, Transact(Deactivate(1)));
    var later, s3 := Extend(gone, s2, Tick(299));
    assert later == steps + [Transact(Deactivate(1)), Tick(299)];
    s := s3;
  }
}
