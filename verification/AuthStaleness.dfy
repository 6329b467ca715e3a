/** How old the database reads behind a successful authentication can be. */
module AuthStaleness {
  import opened Ids
  import opened Tokens
  import opened TokenCaches
  import opened AuthCluster
  import opened AuthCoherence

  /** Step i read t's row. */
  predicate ReadsRow(steps: seq<Step>, i: nat, t: Token, row: Row)
    requires CanRun(steps)
  {
    && i < |steps| && steps[i].AtWorker? && steps[i].action.FetchRow? && steps[i].action.token == t
    && t in StateAt(steps, i).db.access && StateAt(steps, i).db.access[t] == row
  }

  /** Step i read u's deactivated flag. */
  predicate ReadsUser(steps: seq<Step>, i: nat, u: UserId, deactivated: bool)
    requires CanRun(steps)
  {
    && i < |steps| && steps[i].AtWorker? && steps[i].action.FetchUser?
    && u in StateAt(steps, i).db.users && StateAt(steps, i).db.users[u] == deactivated
  }

  predicate FillTrue(steps: seq<Step>, f: Fill)
    requires CanRun(steps)
  {
    && ReadsRow(steps, f.readStep, f.token, f.row)
    && (f.checked ==> !f.row.revoked && StateAt(steps, f.readStep).now < f.row.expiresAt)
    && (f.deactivated.Some? ==>
          f.checked && f.readStep < f.userStep && ReadsUser(steps, f.userStep, f.row.user, f.deactivated.value))
  }

  predicate EntryTrue(steps: seq<Step>, t: Token, e: Entry)
    requires CanRun(steps)
  {
    && FillTrue(steps, e.from) && e.from.token == t
    && e.cached.user == e.from.row.user && e.from.deactivated == Some(e.cached.deactivated)
    && e.from.deactivated.Some? && e.from.userStep < e.setStep < |steps|
    && e.tooLate == (t in StateAt(steps, e.setStep).revoked)
    && e.cached.expiresAt == StateAt(steps, e.setStep).now + TTL
  }

  predicate WorkerTrue(steps: seq<Step>, w: Worker)
    requires CanRun(steps)
  {
    && (forall id <- w.fills :: FillTrue(steps, w.fills[id]))
    && (forall t <- w.cache :: EntryTrue(steps, t, w.cache[t]))
  }

  lemma StateAtPrefix(steps: seq<Step>, i: nat)
    requires CanRun(steps) && i < |steps|
    ensures StateAt(steps, i) == StateAt(steps[..|steps| - 1], i)
  {
    assert steps[..|steps| - 1][..i] == steps[..i];
  }

  lemma FillStaysTrue(steps: seq<Step>, f: Fill)
    requires CanRun(steps) && steps != [] && FillTrue(steps[..|steps| - 1], f)
    ensures FillTrue(steps, f)
  {
    StateAtPrefix(steps, f.readStep);
    if f.deactivated.Some? { StateAtPrefix(steps, f.userStep); }
  }

  lemma WorkerStaysTrue(steps: seq<Step>, w: Worker)
    requires CanRun(steps) && steps != [] && WorkerTrue(steps[..|steps| - 1], w)
    ensures WorkerTrue(steps, w)
  {
    forall id <- w.fills { FillStaysTrue(steps, w.fills[id]); }
    forall t <- w.cache ensures EntryTrue(steps, t, w.cache[t]) {
      FillStaysTrue(steps, w.cache[t].from);
      StateAtPrefix(steps, w.cache[t].setStep);
    }
  }

  lemma StepTakesTime(s: State, step: Step)
    requires Enabled(s, step)
    ensures s.now <= Apply(s, step).now
  {}

  lemma {:induction false} TimeGrows(steps: seq<Step>, i: nat, j: nat)
    requires CanRun(steps) && i <= j <= |steps|
    ensures StateAt(steps, i).now <= StateAt(steps, j).now
    decreases j
  {
    if i < j {
      TimeGrows(steps, i, j - 1);
      NextState(steps, j - 1);
      StepTakesTime(StateAt(steps, j - 1), steps[j - 1]);
    }
  }

  /** A row read valid by its token's own step, and checked later, was valid when read. */
  lemma CheckedIsTrue(steps: seq<Step>, f: Fill, n: nat)
    requires CanRun(steps) && n <= |steps| && FillTrue(steps, f) && f.readStep <= n
    requires !f.row.revoked && StateAt(steps, n).now < f.row.expiresAt
    ensures FillTrue(steps, f.(checked := true))
  {
    TimeGrows(steps, f.readStep, n);
  }

  /** The action is the last step of the run, and s the state it acts in. */
  predicate ActsLast(steps: seq<Step>, s: State, w: Worker, a: Action) {
    && CanRun(steps) && steps != [] && steps[|steps| - 1].AtWorker? && steps[|steps| - 1].action == a
    && s == StateAt(steps, |steps| - 1) && s.clock == |steps| - 1 && CanAct(s, w, a)
    && WorkerTrue(steps, w)
    && (forall id <- w.fills :: w.fills[id].readStep < |steps| - 1)
    && (forall id <- w.fills :: w.fills[id].deactivated.Some? ==> w.fills[id].userStep < |steps| - 1)
  }

  lemma FillKeepsTrue(steps: seq<Step>, s: State, w: Worker, a: Action)
    requires ActsLast(steps, s, w, a) && (a.FetchRow? || a.CheckRow? || a.FetchUser?)
    ensures FillTrue(steps, Act(s, w, a).fills[a.task])
  {
    if a.CheckRow? { CheckedIsTrue(steps, w.fills[a.task], s.clock); }
  }

  lemma StoreKeepsTrue(steps: seq<Step>, s: State, w: Worker, id: TaskId)
    requires ActsLast(steps, s, w, Store(id))
    ensures EntryTrue(steps, w.fills[id].token, EntryOf(s, w, w.fills[id]))
  {
    assert FillTrue(steps, w.fills[id]);
  }

  lemma FillActKeepsTrue(steps: seq<Step>, s: State, w: Worker, a: Action)
    requires ActsLast(steps, s, w, a) && (a.FetchRow? || a.CheckRow? || a.FetchUser?)
    ensures WorkerTrue(steps, Act(s, w, a))
  {
    FillKeepsTrue(steps, s, w, a);
  }

  lemma ActKeepsTrue(steps: seq<Step>, s: State, w: Worker, a: Action)
    requires ActsLast(steps, s, w, a)
    ensures WorkerTrue(steps, Act(s, w, a))
  {
    if a.FetchRow? || a.CheckRow? || a.FetchUser? {
      FillActKeepsTrue(steps, s, w, a);
    } else if a.Store? {
      StoreKeepsTrue(steps, s, w, a.task);
    }
  }

  lemma {:induction false} WorkersAreTrue(steps: seq<Step>, w: WorkerId)
    requires CanRun(steps) && w in Run(steps).workers
    ensures WorkerTrue(steps, Run(steps).workers[w])
    decreases |steps|
  {
    var before := steps[..|steps| - 1];
    var s := Run(before);
    var step := steps[|steps| - 1];
    if step.StartWorker? && step.worker == w {
    } else {
      WorkersAreTrue(before, w);
      WorkerStaysTrue(steps, s.workers[w]);
      if step.AtWorker? && step.worker == w {
        assert WorkerTrue(before, s.workers[w]);
        ActKeepsTrue(steps, s, s.workers[w], step.action);
      }
    }
  }

  /** Step j answers a request carrying token t: from the cache, or after a fill. */
  predicate Answers(steps: seq<Step>, j: nat, t: Token, allow: bool)
    requires CanRun(steps) && j < |steps|
  {
    NextState(steps, j);
    steps[j].AtWorker? &&
      var w := StateAt(steps, j).workers[steps[j].worker];
      match steps[j].action
      case Hit(x, a) => x == t && a == allow
      case Store(id) => w.fills[id].token == t && w.fills[id].allow == allow
      case _ => false
  }

  lemma {:induction false} PairWasIssued(steps: seq<Step>, n: nat, t: Token) returns (i: nat)
    requires CanRun(steps) && n <= |steps| && t in StateAt(steps, n).pairs
    ensures i < n && steps[i].Transact?
    ensures NewTokens(StateAt(steps, i), steps[i].tx) == Some(StateAt(steps, n).pairs[t])
    decreases n
  {
    var m := n - 1;
    NextState(steps, m);
    if steps[m].Transact? && NewTokens(StateAt(steps, m), steps[m].tx) == Some(StateAt(steps, n).pairs[t]) {
      i := m;
    } else {
      PairsStay(StateAt(steps, m), steps[m], t);
      i := PairWasIssued(steps, m, t);
    }
  }

  lemma PairsStay(s: State, step: Step, t: Token)
    requires Enabled(s, step) && t in Apply(s, step).pairs
    requires step.Transact? ==> NewTokens(s, step.tx) != Some(Apply(s, step).pairs[t])
    ensures t in s.pairs && s.pairs[t] == Apply(s, step).pairs[t]
  {}

  /** The transaction that issued t with the row's expiry. */
  lemma RowWasIssued(steps: seq<Step>, read: nat, t: Token, row: Row) returns (issue: nat, pair: Pair)
    requires CanRun(steps) && ReadsRow(steps, read, t, row)
    ensures issue < read && steps[issue].Transact? && NewTokens(StateAt(steps, issue), steps[issue].tx) == Some(pair)
    ensures pair.access == t && pair.accessExpiry == row.expiresAt
  {
    PrefixRuns(steps, read);
    RunKeepsInv(steps[..read]);
    assert ExpiryOk(StateAt(steps, read), t);
    issue := PairWasIssued(steps, read, t);
    pair := StateAt(steps, read).pairs[t];
  }

  /** Whatever step answers a request for token t does so on steps of this very run: a
      transaction that issued t as the access token of a pair; a read of t's row,
      unrevoked and before the access expiry of that pair; then a read that found the
      row's user active, unless the request allows deactivated users; then a store of the
      two less than 300 seconds ago. */
  lemma BoundedStaleness(steps: seq<Step>, j: nat, t: Token, allow: bool)
    returns (issue: nat, pair: Pair, read: nat, userRead: nat, stored: nat, row: Row, deactivated: bool)
    requires CanRun(steps) && j < |steps|
    requires Answers(steps, j, t, allow)
    ensures issue < read < userRead < stored <= j
    ensures steps[issue].Transact? && NewTokens(StateAt(steps, issue), steps[issue].tx) == Some(pair) && pair.access == t
    ensures ReadsRow(steps, read, t, row) && !row.revoked && StateAt(steps, read).now < row.expiresAt == pair.accessExpiry
    ensures ReadsUser(steps, userRead, row.user, deactivated) && (deactivated ==> allow)
    ensures StateAt(steps, stored).now <= StateAt(steps, j).now < StateAt(steps, stored).now + TTL
  {
    var f;
    f, stored := AnsweredFrom(steps, j, t, allow);
    read, userRead, row, deactivated := f.readStep, f.userStep, f.row, f.deactivated.value;
    SameStates(steps, j, read);
    SameStates(steps, j, userRead);
    TimeGrows(steps, stored, j);
    issue, pair := RowWasIssued(steps, read, t, row);
  }

  lemma AnsweredFrom(steps: seq<Step>, j: nat, t: Token, allow: bool) returns (f: Fill, stored: nat)
    requires CanRun(steps) && j < |steps| && Answers(steps, j, t, allow)
    ensures CanRun(steps[..j]) && FillTrue(steps[..j], f)
    ensures f.token == t && f.deactivated.Some? && (f.deactivated.value ==> allow) && f.userStep < stored <= j
    ensures StateAt(steps, j).now < StateAt(steps, stored).now + TTL
  {
    PrefixRuns(steps, j);
    NextState(steps, j);
    var w := StateAt(steps, j).workers[steps[j].worker];
    WorkersAreTrue(steps[..j], steps[j].worker);
    if steps[j].action.Hit? {
      assert EntryTrue(steps[..j], t, w.cache[t]);
      f, stored := w.cache[t].from, w.cache[t].setStep;
      SameStates(steps, j, stored);
    } else {
      f, stored := w.fills[steps[j].action.task], j;
      assert FillTrue(steps[..j], f);
    }
  }

  lemma SameStates(steps: seq<Step>, j: nat, i: nat)
    requires CanRun(steps) && i <= j <= |steps|
    ensures CanRun(steps[..j]) && StateAt(steps[..j], i) == StateAt(steps, i)
  {
    PrefixRuns(steps, j);
    assert steps[..j][..i] == steps[..i];
  }

  /** An issued access token that is revoked, or whose row is gone. */
  predicate Unusable(s: State, t: Token) {
    t in s.owner && (t in s.db.access ==> s.db.access[t].revoked)
  }

  lemma StepKeepsUnusable(s: State, step: Step, t: Token)
    requires TokensOk(s) && Enabled(s, step) && Unusable(s, t)
    ensures Unusable(Apply(s, step), t)
  {
    if step.Transact? { TxWorsens(s, step.tx, t); }
  }

  lemma TokensOkAt(steps: seq<Step>, j: nat)
    requires CanRun(steps) && j <= |steps|
    ensures TokensOk(StateAt(steps, j))
  {
    PrefixRuns(steps, j);
    RunKeepsInv(steps[..j]);
  }

  lemma NextUnusable(steps: seq<Step>, j: nat, t: Token)
    requires CanRun(steps) && j < |steps| && Unusable(StateAt(steps, j), t)
    ensures Unusable(StateAt(steps, j + 1), t)
  {
    TokensOkAt(steps, j);
    NextState(steps, j);
    var s := StateAt(steps, j);
    StepKeepsUnusable(s, steps[j], t);
  }

  lemma {:induction false} UnusableForGood(steps: seq<Step>, i: nat, j: nat, t: Token)
    requires CanRun(steps) && i <= j <= |steps| && Unusable(StateAt(steps, i), t)
    ensures Unusable(StateAt(steps, j), t)
    decreases j
  {
    if i < j {
      var before := j - 1;
      UnusableForGood(steps, i, before, t);
      NextUnusable(steps, before, t);
    }
  }

  /** Once a token is revoked or deleted, by whatever operation and whether or not an
      event tells, no request succeeds with it 300 seconds later or more, beyond the time
      a single authentication takes from its first read to its store. */
  lemma RevokedTokensExpire(steps: seq<Step>, i: nat, j: nat, t: Token, allow: bool)
    returns (read: nat, stored: nat, row: Row)
    requires CanRun(steps) && i <= j < |steps|
    requires Unusable(StateAt(steps, i), t) && Answers(steps, j, t, allow)
    ensures read < i && read < stored <= j && ReadsRow(steps, read, t, row)
    ensures StateAt(steps, j).now < StateAt(steps, i).now + TTL + (StateAt(steps, stored).now - StateAt(steps, read).now)
  {
    var issue, pair, userRead, deactivated;
    issue, pair, read, userRead, stored, row, deactivated := BoundedStaleness(steps, j, t, allow);
    if i <= read { UnusableForGood(steps, i, read, t); }
    TimeGrows(steps, read, i);
  }

  /** Every event has been published, and worker w has got to the end of the stream. */
  predicate AtRest(s: State, w: WorkerId) {
    w in s.workers && s.outbox == multiset{} && s.workers[w].cursor == |s.stream|
  }

  /** The entry's token was not revoked when its row was read. */
  lemma ReadUnrevoked(steps: seq<Step>, t: Token, e: Entry)
    requires CanRun(steps) && EntryTrue(steps, t, e) && e.from.checked
    ensures t !in StateAt(steps, e.from.readStep).revoked
  {
    TokensOkAt(steps, e.from.readStep);
    assert TokenOk(StateAt(steps, e.from.readStep), t);
  }

  /** At rest, and if the listener has skipped nothing since, an entry a worker answers
      from is of a revoked token exactly when the token had been revoked when the entry
      was stored; as it had not been when its row was read, the revocation committed in
      between. */
  lemma StaleAtRestIff(steps: seq<Step>, w: WorkerId, t: Token)
    requires CanRun(steps) && AtRest(Run(steps), w)
    requires var s := Run(steps);
      && t in s.workers[w].cache && Fresh(s.workers[w].cache[t].cached, s.now)
      && forall i <- s.workers[w].skipped :: i < s.workers[w].cache[t].setPos
    ensures var e := Run(steps).workers[w].cache[t];
      && e.from.readStep < e.setStep < |steps|
      && t !in StateAt(steps, e.from.readStep).revoked
      && (t in Run(steps).revoked <==> t in StateAt(steps, e.setStep).revoked)
  {
    var s := Run(steps);
    var e := s.workers[w].cache[t];
    RunKeepsInv(steps);
    WorkersAreTrue(steps, w);
    assert WorkerOk(s, s.workers[w]) && EntryTrue(steps, t, e) && EntryOk(s, t, e);
    ReadUnrevoked(steps, t, e);
    if t in s.revoked && !e.tooLate { RevokedSinceStore(s, w, t); }
  }
}
