/** Token families over runs of whole transactions: what is still valid after a
    detected reuse. */
module Sessions {
  import opened Ids
  import opened Tokens

  /** How a token came to be: by the register or login that was transaction number
      `at`, or by a successful refresh with `parent`. */
  datatype Origin = FromSession(at: nat) | FromRotation(parent: Token)

  /** clock counts the transactions so far; the rest beside db is history. */
  datatype State = State(db: AuthDb, clock: nat, origin: map<Token, Origin>, reuseAt: map<UserId, nat>)

  datatype Step =
    | Start(user: UserId, pair: Pair)
    | Refresh(token: Token, pair: Pair, now: int)
    | Logout(refresh: Token, access: Option<Token>)
    | DeleteAccount(user: UserId)

  const INIT := State(AuthDb(map[], map[], map[]), 0, map[], map[])

  predicate NewPair(s: State, pair: Pair) {
    pair.access !in s.origin && pair.refresh !in s.origin && pair.access != pair.refresh
  }

  predicate Enabled(s: State, step: Step) {
    match step
    case Start(_, pair) => NewPair(s, pair)
    case Refresh(_, pair, _) => NewPair(s, pair)
    case Logout(_, _) => true
    case DeleteAccount(_) => true
  }

  function Born(origin: map<Token, Origin>, pair: Pair, from: Origin): map<Token, Origin> {
    origin[pair.access := from][pair.refresh := from]
  }

  function Apply(s: State, step: Step): State {
    var next := match step
      case Start(u, pair) =>
        s.(db := StartTx(s.db, u, pair), origin := Born(s.origin, pair, FromSession(s.clock)))
      case Refresh(t, pair, now) =>
        var s' := s.(db := RefreshTx(s.db, t, pair, now));
        (match RefreshDecision(s.db, t, now)
         case Rotated => s'.(origin := Born(s.origin, pair, FromRotation(t)))
         case Reused(u) => s'.(reuseAt := s.reuseAt[u := s.clock])
         case Unknown => s'
         case Expired => s')
      case Logout(refresh, access) => s.(db := LogoutTx(s.db, refresh, access))
      case DeleteAccount(u) => s.(db := DeleteUser(s.db, u));
    next.(clock := s.clock + 1)
  }

  predicate CanRun(steps: seq<Step>)
  {
    steps == [] || (CanRun(steps[..|steps| - 1]) && Enabled(Run(steps[..|steps| - 1]), steps[|steps| - 1]))
  }

  function Run(steps: seq<Step>): (s: State)
    ensures s.clock == |steps|
  {
    if steps == [] then INIT else Apply(Run(steps[..|steps| - 1]), steps[|steps| - 1])
  }

  /** chain leads by refreshes from a session begun after transaction k. */
  ghost predicate Chain(origin: map<Token, Origin>, chain: seq<Token>, k: nat) {
    && chain != []
    && (forall i | 0 <= i < |chain| :: chain[i] in origin)
    && origin[chain[0]].FromSession? && origin[chain[0]].at > k
    && forall i | 0 < i < |chain| :: origin[chain[i]] == FromRotation(chain[i - 1])
  }

  ghost predicate DescendsFromSessionAfter(origin: map<Token, Origin>, x: Token, k: nat) {
    exists chain :: Chain(origin, chain, k) && chain[|chain| - 1] == x
  }

  predicate ValidIn(rows: map<Token, Row>, x: Token, u: UserId) {
    x in rows && !rows[x].revoked && rows[x].user == u
  }

  predicate ValidFor(db: AuthDb, x: Token, u: UserId) {
    ValidIn(db.access, x, u) || ValidIn(db.refresh, x, u)
  }

  ghost predicate Inv(s: State) {
    && s.db.access.Keys + s.db.refresh.Keys <= s.origin.Keys
    && (forall u <- s.reuseAt :: s.reuseAt[u] < s.clock)
    && (forall u, x :: u in s.reuseAt && ValidFor(s.db, x, u) ==>
          DescendsFromSessionAfter(s.origin, x, s.reuseAt[u]))
  }

  lemma OldChainsStay(origin: map<Token, Origin>, pair: Pair, from: Origin, x: Token, k: nat)
    requires pair.access !in origin && pair.refresh !in origin && DescendsFromSessionAfter(origin, x, k)
    ensures DescendsFromSessionAfter(Born(origin, pair, from), x, k)
  {
    var chain :| Chain(origin, chain, k) && chain[|chain| - 1] == x;
    assert Chain(Born(origin, pair, from), chain, k);
  }

  lemma ChainGrows(origin: map<Token, Origin>, pair: Pair, t: Token, x: Token, k: nat)
    requires pair.access !in origin && pair.refresh !in origin && x in {pair.access, pair.refresh}
    requires DescendsFromSessionAfter(origin, t, k)
    ensures DescendsFromSessionAfter(Born(origin, pair, FromRotation(t)), x, k)
  {
    var chain :| Chain(origin, chain, k) && chain[|chain| - 1] == t;
    assert Chain(Born(origin, pair, FromRotation(t)), chain + [x], k);
  }

  lemma ChainStarts(origin: map<Token, Origin>, pair: Pair, at: nat, x: Token, k: nat)
    requires x in {pair.access, pair.refresh} && at > k
    ensures DescendsFromSessionAfter(Born(origin, pair, FromSession(at)), x, k)
  {
    assert Chain(Born(origin, pair, FromSession(at)), [x], k);
  }

  lemma StartKeepsInv(s: State, u: UserId, pair: Pair)
    requires Inv(s) && NewPair(s, pair)
    ensures Inv(Apply(s, Start(u, pair)))
  {
    var s' := Apply(s, Start(u, pair));
    forall v, x | v in s'.reuseAt && ValidFor(s'.db, x, v)
      ensures DescendsFromSessionAfter(s'.origin, x, s'.reuseAt[v])
    {
      if x in {pair.access, pair.refresh} {
        ChainStarts(s.origin, pair, s.clock, x, s.reuseAt[v]);
      } else {
        OldChainsStay(s.origin, pair, FromSession(s.clock), x, s.reuseAt[v]);
      }
    }
  }

  lemma RotationKeepsInv(s: State, t: Token, pair: Pair, now: int)
    requires Inv(s) && NewPair(s, pair) && RefreshDecision(s.db, t, now).Rotated?
    ensures Inv(Apply(s, Refresh(t, pair, now)))
  {
    var s' := Apply(s, Refresh(t, pair, now));
    forall v, x | v in s'.reuseAt && ValidFor(s'.db, x, v)
      ensures DescendsFromSessionAfter(s'.origin, x, s'.reuseAt[v])
    {
      if x in {pair.access, pair.refresh} {
        assert ValidIn(s.db.refresh, t, v);
        ChainGrows(s.origin, pair, t, x, s.reuseAt[v]);
      } else {
        assert ValidFor(s.db, x, v);
        OldChainsStay(s.origin, pair, FromRotation(t), x, s.reuseAt[v]);
      }
    }
  }

  lemma StepKeepsInv(s: State, step: Step)
    requires Inv(s) && Enabled(s, step)
    ensures Inv(Apply(s, step))
  {
    match step
    case Start(u, pair) => StartKeepsInv(s, u, pair);
    case Refresh(t, pair, now) =>
      if RefreshDecision(s.db, t, now).Rotated? {
        RotationKeepsInv(s, t, pair, now);
      } else {
        var s' := Apply(s, step);
        forall v, x | v in s'.reuseAt && ValidFor(s'.db, x, v) ensures v in s.reuseAt && ValidFor(s.db, x, v) {}
      }
    case Logout(refresh, access) =>
      var s' := Apply(s, step);
      forall v, x | v in s'.reuseAt && ValidFor(s'.db, x, v) ensures ValidFor(s.db, x, v) {}
    case DeleteAccount(u) =>
      var s' := Apply(s, step);
      forall v, x | v in s'.reuseAt && ValidFor(s'.db, x, v) ensures ValidFor(s.db, x, v) {}
  }

  lemma {:induction false} RunKeepsInv(steps: seq<Step>)
    requires CanRun(steps)
    ensures Inv(Run(steps))
  {
    if steps != [] {
      RunKeepsInv(steps[..|steps| - 1]);
      StepKeepsInv(Run(steps[..|steps| - 1]), steps[|steps| - 1]);
    }
  }

  lemma {:induction false} ReuseIsRemembered(steps: seq<Step>, i: nat, u: UserId)
    requires CanRun(steps) && i < |steps| && steps[i].Refresh?
    requires RefreshDecision(Run(steps[..i]).db, steps[i].token, steps[i].now) == Reused(u)
    ensures u in Run(steps).reuseAt && Run(steps).reuseAt[u] >= i
    decreases |steps|
  {
    var before := steps[..|steps| - 1];
    if i == |steps| - 1 {
      assert steps[..i] == before;
    } else {
      assert before[..i] == steps[..i];
      ReuseIsRemembered(before, i, u);
      RunKeepsInv(before);
    }
  }

  lemma LaterIsAfterEarlier(origin: map<Token, Origin>, x: Token, k: nat, i: nat)
    requires DescendsFromSessionAfter(origin, x, k) && i <= k
    ensures DescendsFromSessionAfter(origin, x, i)
  {
    var chain :| Chain(origin, chain, k) && chain[|chain| - 1] == x;
    assert Chain(origin, chain, i);
  }

  /** If transaction i was a refresh that found a revoked token of user u, then whatever
      token of u is valid later goes back, refresh by refresh, to a register or login
      that committed after transaction i. */
  lemma OnlyNewSessionsSurviveReuse(steps: seq<Step>, i: nat, u: UserId, x: Token)
    requires CanRun(steps) && i < |steps| && steps[i].Refresh?
    requires RefreshDecision(Run(steps[..i]).db, steps[i].token, steps[i].now) == Reused(u)
    requires ValidFor(Run(steps).db, x, u)
    ensures DescendsFromSessionAfter(Run(steps).origin, x, i)
  {
    RunKeepsInv(steps);
    ReuseIsRemembered(steps, i, u);
    LaterIsAfterEarlier(Run(steps).origin, x, Run(steps).reuseAt[u], i);
  }

  // When a rotation may happen.

  /** The pair a step issues, if it does. */
  function Issues(s: State, step: Step): Option<Pair> {
    match step
    case Start(_, pair) => Some(pair)
    case Refresh(t, pair, now) => if RefreshDecision(s.db, t, now).Rotated? then Some(pair) else None
    case _ => None
  }

  lemma RefreshRowFrom(s: State, step: Step, t: Token)
    requires Enabled(s, step) && t in Apply(s, step).db.refresh
    ensures || (Issues(s, step).Some? && Issues(s, step).value.refresh == t
                && Apply(s, step).db.refresh[t].expiresAt == Issues(s, step).value.refreshExpiry)
            || (t in s.db.refresh && s.db.refresh[t].expiresAt == Apply(s, step).db.refresh[t].expiresAt)
  {}

  /** Every refresh row has the refresh expiry of a pair the token was issued in. */
  lemma {:induction false} RefreshRowIssued(steps: seq<Step>, t: Token) returns (k: nat, pair: Pair)
    requires CanRun(steps) && t in Run(steps).db.refresh
    ensures k < |steps| && CanRun(steps[..k]) && Issues(Run(steps[..k]), steps[k]) == Some(pair)
    ensures pair.refresh == t && pair.refreshExpiry == Run(steps).db.refresh[t].expiresAt
    decreases |steps|
  {
    var before := steps[..|steps| - 1];
    var (s, step) := (Run(before), steps[|steps| - 1]);
    RefreshRowFrom(s, step, t);
    if Issues(s, step).Some? && Issues(s, step).value.refresh == t
       && Issues(s, step).value.refreshExpiry == Run(steps).db.refresh[t].expiresAt {
      k, pair := |before|, Issues(s, step).value;
    } else {
      k, pair := RefreshRowIssued(before, t);
      assert before[..k] == steps[..k];
    }
  }

  lemma RotationFrom(s: State, step: Step, x: Token, parent: Token)
    requires Enabled(s, step) && x in Apply(s, step).origin && Apply(s, step).origin[x] == FromRotation(parent)
    ensures || (x in s.origin && s.origin[x] == FromRotation(parent))
            || (step.Refresh? && step.token == parent && x in {step.pair.access, step.pair.refresh}
                && parent in s.db.refresh && !s.db.refresh[parent].revoked && step.now < s.db.refresh[parent].expiresAt)
  {}

  /** Every token that a refresh has issued was issued for a refresh token unrevoked at
      that step, before the expiry with which that one had been issued itself. */
  lemma {:induction false} RotatedBeforeExpiry(steps: seq<Step>, x: Token, parent: Token)
    returns (i: nat, k: nat, pair: Pair)
    requires CanRun(steps) && x in Run(steps).origin && Run(steps).origin[x] == FromRotation(parent)
    ensures k < i < |steps| && CanRun(steps[..i]) && CanRun(steps[..k])
    ensures steps[i].Refresh? && steps[i].token == parent && x in {steps[i].pair.access, steps[i].pair.refresh}
    ensures parent in Run(steps[..i]).db.refresh && !Run(steps[..i]).db.refresh[parent].revoked
    ensures Issues(Run(steps[..k]), steps[k]) == Some(pair) && pair.refresh == parent
    ensures steps[i].now < pair.refreshExpiry
    decreases |steps|
  {
    var before := steps[..|steps| - 1];
    RotationFrom(Run(before), steps[|steps| - 1], x, parent);
    if x in Run(before).origin && Run(before).origin[x] == FromRotation(parent) {
      i, k, pair := RotatedBeforeExpiry(before, x, parent);
      assert before[..i] == steps[..i] && before[..k] == steps[..k];
    } else {
      i := |before|;
      k, pair := RefreshRowIssued(before, parent);
      assert before[..k] == steps[..k];
    }
  }
}
