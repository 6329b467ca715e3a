/** The system event stream, and what its listener's cursor makes of it. */
module EventStream {
  import opened Ids
  import opened Tokens

  const MAX_STREAM_LENGTH := 10000

  /** An entry whose payload is missing or does not parse never reaches the handler. */
  datatype Message = Readable(event: StreamEvent) | Unreadable

  /** log is everything ever appended, an entry's id its position; Redis has trimmed the
      entries below floor. cursor is the listener's last id, None for "$". seen lists
      the entries it has moved past, in the order it did. */
  datatype State = State(log: seq<Message>, floor: nat, cursor: Option<nat>, seen: seq<nat>)

  /** One turn of the listener's loop. gap is appended before the read reaches Redis,
      during while it blocks there; floor is where trimming stands when it ends. */
  datatype Round =
    | Failed(gap: seq<Message>, floor: nat)
    | Poll(gap: seq<Message>, during: seq<Message>, floor: nat)

  /** Trimming leaves the last MAX_STREAM_LENGTH entries, and may leave more. */
  predicate Trims(length: nat, floor: nat, floor': nat) {
    floor <= floor' <= length && (floor' > floor ==> length - floor' >= MAX_STREAM_LENGTH)
  }

  function Appended(r: Round): seq<Message> {
    match r
    case Failed(gap, _) => gap
    case Poll(gap, during, _) => gap + during
  }

  predicate CanTurn(s: State, r: Round) {
    Trims(|s.log + Appended(r)|, s.floor, r.floor)
  }

  function Positions(from: nat, to: nat): (r: seq<nat>)
    requires from <= to
    ensures |r| == to - from
  {
    seq(to - from, i requires 0 <= i < to - from => from + i)
  }

  /** The first entry the read of a round may return. */
  function ReadsFrom(s: State, r: Round): nat
    requires r.Poll?
  {
    var start := if s.cursor.Some? then s.cursor.value + 1 else |s.log + r.gap|;
    if start < r.floor then r.floor else start
  }

  function Turn(s: State, r: Round): State {
    var s' := s.(log := s.log + Appended(r), floor := r.floor);
    if r.Failed? || |s'.log| <= ReadsFrom(s, r) then s'
    else s'.(cursor := Some(|s'.log| - 1), seen := s.seen + Positions(ReadsFrom(s, r), |s'.log|))
  }

  predicate CanRun(s: State, rounds: seq<Round>)
    decreases |rounds|
  {
    rounds == [] || (CanTurn(s, rounds[0]) && CanRun(Turn(s, rounds[0]), rounds[1..]))
  }

  function Run(s: State, rounds: seq<Round>): State
    decreases |rounds|
  {
    if rounds == [] then s else Run(Turn(s, rounds[0]), rounds[1..])
  }

  predicate Sound(s: State) {
    && s.floor <= |s.log| && (s.floor > 0 ==> |s.log| - s.floor >= MAX_STREAM_LENGTH)
    && (s.cursor.Some? ==> s.cursor.value < |s.log| && s.seen != [] && s.seen[|s.seen| - 1] == s.cursor.value)
    && (s.cursor.None? ==> s.seen == [])
  }

  predicate Increasing(seen: seq<nat>) {
    forall i, j :: 0 <= i < j < |seen| ==> seen[i] < seen[j]
  }

  lemma TurnKeepsSound(s: State, r: Round)
    requires Sound(s) && CanTurn(s, r)
    ensures Sound(Turn(s, r))
    ensures Increasing(s.seen) ==> Increasing(Turn(s, r).seen)
  {
    var s' := Turn(s, r);
    if Increasing(s.seen) {
      forall i, j | 0 <= i < j < |s'.seen| ensures s'.seen[i] < s'.seen[j] {
        if i < |s.seen| <= j && i < |s.seen| - 1 { assert s.seen[i] < s.seen[|s.seen| - 1]; }
      }
    }
  }

  /** Whatever reads fail and however much is trimmed, entries are taken in the order
      they were appended, and none twice. */
  lemma {:induction false} TakenInOrder(s: State, rounds: seq<Round>)
    requires Sound(s) && Increasing(s.seen) && CanRun(s, rounds)
    ensures Sound(Run(s, rounds)) && Increasing(Run(s, rounds).seen)
    decreases |rounds|
  {
    if rounds != [] {
      TurnKeepsSound(s, rounds[0]);
      TakenInOrder(Turn(s, rounds[0]), rounds[1..]);
    }
  }

  // Gaps.

  /** The listener has moved past every entry from k on up to its cursor. */
  predicate Contiguous(s: State, k: nat) {
    s.cursor.Some? && k <= s.cursor.value && s.seen == Positions(k, s.cursor.value + 1)
  }

  /** No read finds the entry after the cursor trimmed. */
  predicate InTime(s: State, rounds: seq<Round>)
    decreases |rounds|
  {
    rounds != [] ==>
      && (rounds[0].Poll? && s.cursor.Some? ==> rounds[0].floor <= s.cursor.value + 1)
      && InTime(Turn(s, rounds[0]), rounds[1..])
  }

  lemma TurnInTime(s: State, r: Round, k: nat)
    requires Sound(s) && CanTurn(s, r) && Contiguous(s, k)
    ensures Contiguous(Turn(s, r), k) <==> (r.Poll? ==> r.floor <= s.cursor.value + 1)
  {
    var s' := Turn(s, r);
    if r.Poll? {
      if r.floor <= s.cursor.value + 1 {
        if s' != s && |s'.log| > s.cursor.value + 1 {
          assert s'.seen == Positions(k, |s'.log|);
        }
      } else {
        assert s'.seen[|s.seen|] == r.floor;
      }
    }
  }

  /** The entries from k on that the cursor has passed and the listener never took: where
      a worker of the cluster takes a Skip. */
  function Skipped(s: State, k: nat): set<nat> {
    set p: nat | s.cursor.Some? && k <= p <= s.cursor.value && p !in s.seen
  }

  lemma SkippedStays(s: State, r: Round, k: nat)
    requires Sound(s) && CanTurn(s, r)
    ensures Skipped(s, k) <= Skipped(Turn(s, r), k)
  {}

  lemma {:induction false} SkippedForGood(s: State, rounds: seq<Round>, k: nat)
    requires Sound(s) && CanRun(s, rounds)
    ensures Skipped(s, k) <= Skipped(Run(s, rounds), k)
    decreases |rounds|
  {
    if rounds != [] {
      TurnKeepsSound(s, rounds[0]);
      SkippedStays(s, rounds[0], k);
      SkippedForGood(Turn(s, rounds[0]), rounds[1..], k);
    }
  }

  lemma LateTurnSkips(s: State, r: Round, k: nat)
    requires Sound(s) && CanTurn(s, r) && Contiguous(s, k) && r.Poll? && r.floor > s.cursor.value + 1
    ensures s.cursor.value + 1 in Skipped(Turn(s, r), k)
  {}

  lemma ContiguousSkipsNothing(s: State, k: nat)
    requires Contiguous(s, k)
    ensures Skipped(s, k) == {}
  {
    forall p: nat | k <= p <= s.cursor.value ensures p in s.seen {
      assert s.seen[p - k] == p;
    }
  }

  /** Once the cursor is an id, the entries taken stay one contiguous, duplicate-free
      segment of the log, and none is skipped, exactly when every read comes before the
      entry after the cursor is trimmed. */
  lemma {:induction false} ContiguousIffInTime(s: State, rounds: seq<Round>, k: nat)
    requires Sound(s) && CanRun(s, rounds) && Contiguous(s, k)
    ensures Contiguous(Run(s, rounds), k) <==> InTime(s, rounds)
    ensures Skipped(Run(s, rounds), k) == {} <==> InTime(s, rounds)
    decreases |rounds|
  {
    if rounds == [] {
      ContiguousSkipsNothing(s, k);
    } else {
      var (r, rest) := (rounds[0], rounds[1..]);
      var s' := Turn(s, r);
      TurnKeepsSound(s, r);
      TurnInTime(s, r, k);
      if Contiguous(s', k) {
        ContiguousIffInTime(s', rest, k);
      } else {
        LateTurnSkips(s, r, k);
        SkippedForGood(s', rest, k);
        if Contiguous(Run(s', rest), k) { ContiguousSkipsNothing(Run(s', rest), k); }
      }
    }
  }

  /** At most MAX_STREAM_LENGTH entries are appended between one successful read and the
      next; pending counts those since the last. */
  predicate Keeping(pending: nat, rounds: seq<Round>)
    decreases |rounds|
  {
    rounds != [] ==>
      var n := pending + |Appended(rounds[0])|;
      if rounds[0].Failed? then Keeping(n, rounds[1..])
      else n <= MAX_STREAM_LENGTH && Keeping(0, rounds[1..])
  }

  lemma {:induction false} KeepingIsInTime(s: State, rounds: seq<Round>, pending: nat)
    requires Sound(s) && CanRun(s, rounds) && Keeping(pending, rounds)
    requires s.cursor.Some? && |s.log| <= s.cursor.value + 1 + pending
    ensures InTime(s, rounds)
    decreases |rounds|
  {
    if rounds != [] {
      TurnKeepsSound(s, rounds[0]);
      KeepingIsInTime(Turn(s, rounds[0]), rounds[1..], if rounds[0].Failed? then pending + |Appended(rounds[0])| else 0);
    }
  }

  /** The design's promise, with its condition: a listener with an id for a cursor loses
      and repeats nothing, across failing reads, if never more than MAX_STREAM_LENGTH
      entries are appended between two successful reads. */
  lemma NothingLostBetweenReads(s: State, rounds: seq<Round>, k: nat)
    requires Sound(s) && CanRun(s, rounds) && Contiguous(s, k) && s.cursor.value + 1 == |s.log|
    requires Keeping(0, rounds)
    ensures Contiguous(Run(s, rounds), k)
  {
    KeepingIsInTime(s, rounds, 0);
    ContiguousIffInTime(s, rounds, k);
  }

  // The first id.

  /** No read has returned anything yet. */
  predicate StillWaiting(rounds: seq<Round>) {
    rounds != [] ==> (rounds[0].Poll? ==> rounds[0].during == []) && StillWaiting(rounds[1..])
  }

  function CountAppended(rounds: seq<Round>): nat {
    if rounds == [] then 0 else |Appended(rounds[0])| + CountAppended(rounds[1..])
  }

  lemma WaitingTurn(s: State, r: Round)
    requires Sound(s) && s.cursor.None? && CanTurn(s, r) && (r.Poll? ==> r.during == [])
    ensures var s' := Turn(s, r);
      Sound(s') && s'.cursor.None? && |s'.log| == |s.log| + |Appended(r)|
  {
    TurnKeepsSound(s, r);
  }

  lemma {:induction false} WaitingSeesNothing(s: State, rounds: seq<Round>)
    requires Sound(s) && s.cursor.None? && CanRun(s, rounds) && StillWaiting(rounds)
    ensures var s' := Run(s, rounds);
      Sound(s') && s'.cursor.None? && |s'.log| == |s.log| + CountAppended(rounds)
    decreases |rounds|
  {
    if rounds != [] {
      WaitingTurn(s, rounds[0]);
      WaitingSeesNothing(Turn(s, rounds[0]), rounds[1..]);
    }
  }

  /** A listener that starts at "$" takes its first entries from the first read during
      which something arrives. What was appended from its start until that read reached
      Redis it never sees, so it sees everything since its start exactly when that is
      nothing, and nothing of what came after is trimmed before the read is served. */
  lemma FirstReadDecides(s: State, waiting: seq<Round>, first: Round, s1: State, s2: State)
    requires Sound(s) && s.cursor.None? && CanRun(s, waiting) && StillWaiting(waiting) && s1 == Run(s, waiting)
    requires CanTurn(s1, first) && first.Poll? && first.during != [] && s2 == Turn(s1, first)
    ensures var missed := CountAppended(waiting) + |first.gap|;
      var start := |s.log| + missed;
      && Contiguous(s2, if start < first.floor then first.floor else start)
      && (Contiguous(s2, |s.log|) <==> missed == 0 && first.floor <= |s.log|)
    ensures s2.cursor == Some(|s2.log| - 1) && Sound(s2)
  {
    WaitingSeesNothing(s, waiting);
    TurnKeepsSound(s1, first);
    FirstEntries(s1, first, s2, |s.log|, |s.log| + (CountAppended(waiting) + |first.gap|));
  }

  lemma FirstEntries(s: State, first: Round, s': State, base: nat, start: nat)
    requires Sound(s) && s.cursor.None? && CanTurn(s, first) && first.Poll? && first.during != []
    requires s' == Turn(s, first) && start == |s.log| + |first.gap| && base <= |s.log|
    ensures Contiguous(s', if start < first.floor then first.floor else start)
    ensures Contiguous(s', base) <==> base == start && first.floor <= base
    ensures s'.cursor == Some(|s'.log| - 1)
  {
    assert s'.seen[0] == ReadsFrom(s, first);
  }

  // The handler.

  /** What the handler is given for one entry. */
  function EventOf(m: Message): seq<StreamEvent> {
    if m.Readable? then [m.event] else []
  }

  /** The readable entries of a stretch of the log, in order. */
  function ReadableOf(entries: seq<Message>): seq<StreamEvent> {
    if entries == [] then [] else EventOf(entries[0]) + ReadableOf(entries[1..])
  }

  /** events are those of the readable entries, all of them and in order: idx says where. */
  predicate Picks(entries: seq<Message>, idx: seq<nat>, events: seq<StreamEvent>) {
    && |idx| == |events| && Increasing(idx)
    && (forall j | 0 <= j < |idx| :: idx[j] < |entries| && entries[idx[j]] == Readable(events[j]))
    && forall p | 0 <= p < |entries| && entries[p].Readable? :: p in idx
  }

  ghost predicate AreReadable(entries: seq<Message>, events: seq<StreamEvent>) {
    exists idx :: Picks(entries, idx, events)
  }

  function Shifted(idx: seq<nat>): (r: seq<nat>)
    ensures |r| == |idx|
  {
    seq(|idx|, i requires 0 <= i < |idx| => idx[i] + 1)
  }

  lemma PicksOneMore(m: Message, entries: seq<Message>, idx: seq<nat>, events: seq<StreamEvent>)
    requires Picks(entries, idx, events)
    ensures AreReadable([m] + entries, (if m.Readable? then [m.event] else []) + events)
  {
    var idx' := (if m.Readable? then [0] else []) + Shifted(idx);
    var all := [m] + entries;
    forall p | 0 <= p < |all| && all[p].Readable? ensures p in idx' {
      if p > 0 {
        var before := p - 1;
        assert entries[before] == all[p];
        var j :| 0 <= j < |idx| && idx[j] == before;
        assert Shifted(idx)[j] == p;
      } else {
        assert idx'[0] == 0;
      }
    }
    assert Picks(all, idx', (if m.Readable? then [m.event] else []) + events);
  }

  lemma OneMoreReadable(m: Message, entries: seq<Message>, events: seq<StreamEvent>)
    requires AreReadable(entries, events)
    ensures AreReadable([m] + entries, (if m.Readable? then [m.event] else []) + events)
  {
    var idx :| Picks(entries, idx, events);
    PicksOneMore(m, entries, idx, events);
  }

  /** The readable entries of a stretch of the log are found where they are. */
  lemma {:induction false} ReadableOfPicks(entries: seq<Message>)
    ensures AreReadable(entries, ReadableOf(entries))
  {
    if entries == [] {
      assert Picks(entries, [], []);
    } else {
      ReadableOfPicks(entries[1..]);
      OneMoreReadable(entries[0], entries[1..], ReadableOf(entries[1..]));
      assert [entries[0]] + entries[1..] == entries;
    }
  }

  /** Every readable entry's event is among them. */
  lemma ReadableIsThere(entries: seq<Message>, events: seq<StreamEvent>, p: nat)
    requires AreReadable(entries, events) && p < |entries| && entries[p].Readable?
    ensures entries[p].event in events
  {
    var idx :| Picks(entries, idx, events);
    var j :| 0 <= j < |idx| && idx[j] == p;
    assert events[j] == entries[p].event;
  }

  /** The entries at these positions. */
  function EntriesAt(log: seq<Message>, seen: seq<nat>): (r: seq<Message>)
    requires Within(seen, |log|)
    ensures |r| == |seen|
  {
    seq(|seen|, i requires 0 <= i < |seen| => log[seen[i]])
  }

  /** The events taken so far are those of the readable entries among the ones taken. */
  lemma EventsAtPicks(log: seq<Message>, seen: seq<nat>)
    requires Within(seen, |log|)
    ensures AreReadable(EntriesAt(log, seen), EventsAt(log, seen))
  {
    EventsAtReadable(log, seen);
    ReadableOfPicks(EntriesAt(log, seen));
  }

  lemma {:induction false} EventsAtReadable(log: seq<Message>, seen: seq<nat>)
    requires Within(seen, |log|)
    ensures EventsAt(log, seen) == ReadableOf(EntriesAt(log, seen))
  {
    if seen != [] {
      EventsAtReadable(log, seen[1..]);
      assert EntriesAt(log, seen)[1..] == EntriesAt(log, seen[1..]);
    }
  }

  /** What a turn of the loop gives the handler. */
  function Handed(s: State, r: Round): seq<StreamEvent> {
    var log := s.log + Appended(r);
    if r.Failed? || |log| <= ReadsFrom(s, r) then [] else ReadableOf(log[ReadsFrom(s, r)..])
  }

  predicate Within(seen: seq<nat>, length: nat) {
    forall i | 0 <= i < |seen| :: seen[i] < length
  }

  /** The events of the entries the listener has moved past. */
  function EventsAt(log: seq<Message>, seen: seq<nat>): seq<StreamEvent>
    requires Within(seen, |log|)
  {
    if seen == [] then [] else EventOf(log[seen[0]]) + EventsAt(log, seen[1..])
  }

  /** Appending changes nothing about the events already taken. */
  lemma {:induction false} EventsStay(log: seq<Message>, more: seq<Message>, seen: seq<nat>)
    requires Within(seen, |log|)
    ensures EventsAt(log + more, seen) == EventsAt(log, seen)
  {
    if seen != [] { EventsStay(log, more, seen[1..]); }
  }

  lemma {:induction false} EventsConcat(log: seq<Message>, a: seq<nat>, b: seq<nat>)
    requires Within(a, |log|) && Within(b, |log|) && Within(a + b, |log|)
    ensures EventsAt(log, a + b) == EventsAt(log, a) + EventsAt(log, b)
  {
    if a == [] {
      assert a + b == b;
    } else {
      assert (a + b)[1..] == a[1..] + b;
      EventsConcat(log, a[1..], b);
    }
  }

  /** The events of a segment without holes are the readable ones of that segment. */
  lemma {:induction false} SegmentEvents(log: seq<Message>, k: nat, end: nat)
    requires k <= end <= |log|
    ensures Within(Positions(k, end), |log|) && EventsAt(log, Positions(k, end)) == ReadableOf(log[k..end])
    decreases end - k
  {
    if k < end {
      SegmentEvents(log, k + 1, end);
      assert Positions(k, end)[1..] == Positions(k + 1, end);
      assert log[k..end][1..] == log[k + 1..end];
    }
  }

  /** Each turn hands over the events of just the entries it moves past. */
  lemma TurnHandsOver(s: State, r: Round)
    requires Sound(s) && CanTurn(s, r) && Within(s.seen, |s.log|)
    ensures var s' := Turn(s, r);
      && Within(s'.seen, |s'.log|) && EventsAt(s'.log, s'.seen) == EventsAt(s.log, s.seen) + Handed(s, r)
      && (if s'.seen == s.seen then Handed(s, r) == [] else AreReadable(s'.log[ReadsFrom(s, r)..], Handed(s, r)))
  {
    var s' := Turn(s, r);
    ReadableOfPicks(s'.log[if s'.seen == s.seen then 0 else ReadsFrom(s, r)..]);
    EventsStay(s.log, Appended(r), s.seen);
    if s'.seen != s.seen {
      TailEvents(s'.log, s.seen, ReadsFrom(s, r));
    }
  }

  lemma TailEvents(log: seq<Message>, seen: seq<nat>, from: nat)
    requires Within(seen, |log|) && from <= |log|
    ensures Within(seen + Positions(from, |log|), |log|)
    ensures EventsAt(log, seen + Positions(from, |log|)) == EventsAt(log, seen) + ReadableOf(log[from..])
  {
    SegmentEvents(log, from, |log|);
    assert log[from..|log|] == log[from..];
    EventsConcat(log, seen, Positions(from, |log|));
  }

  /** What the listener has handed over is the readable part of one segment of the log,
      up to its cursor, as long as its reads are in time. */
  lemma HandledIsSegment(s: State, rounds: seq<Round>, k: nat, s': State)
    requires Sound(s) && CanRun(s, rounds) && Contiguous(s, k) && InTime(s, rounds) && s' == Run(s, rounds)
    ensures s'.cursor.Some? && k <= s'.cursor.value < |s'.log| && Within(s'.seen, |s'.log|)
    ensures EventsAt(s'.log, s'.seen) == ReadableOf(s'.log[k..s'.cursor.value + 1])
    ensures AreReadable(s'.log[k..s'.cursor.value + 1], EventsAt(s'.log, s'.seen))
  {
    assert Sound(s') && Contiguous(s', k) by {
      RunIsSound(s, rounds);
      ContiguousIffInTime(s, rounds, k);
    }
    ContiguousIsHandled(s', k);
    ReadableOfPicks(s'.log[k..s'.cursor.value + 1]);
  }

  /** From whichever entry k the listener had started without a hole, it has handed over
      all readable entries up to its cursor, if its reads were in time. */
  ghost predicate HandsOverSegment(s: State, rounds: seq<Round>, s': State, handled: seq<StreamEvent>) {
    forall k: nat {:trigger Contiguous(s, k)} :: Contiguous(s, k) && InTime(s, rounds) ==>
      s'.cursor.Some? && k <= s'.cursor.value < |s'.log| && AreReadable(s'.log[k..s'.cursor.value + 1], handled)
  }

  /** So the handler has got every event published from k on and passed by the cursor. */
  lemma TimelyListenerMissesNothing(s: State, rounds: seq<Round>, s': State, handled: seq<StreamEvent>,
                                    k: nat, p: nat, e: StreamEvent)
    requires HandsOverSegment(s, rounds, s', handled) && Contiguous(s, k) && InTime(s, rounds)
    requires s'.cursor.Some? && k <= p <= s'.cursor.value && p < |s'.log| && s'.log[p] == Readable(e)
    ensures e in handled
  {
    var segment := s'.log[k..s'.cursor.value + 1];
    assert segment[p - k] == s'.log[p];
    ReadableIsThere(segment, handled, p - k);
  }

  lemma RunHandsOverSegment(s: State, rounds: seq<Round>, s': State)
    requires Sound(s) && CanRun(s, rounds) && s' == Run(s, rounds) && Within(s'.seen, |s'.log|)
    ensures HandsOverSegment(s, rounds, s', EventsAt(s'.log, s'.seen))
  {
    forall k: nat | Contiguous(s, k) && InTime(s, rounds)
      ensures s'.cursor.Some? && k <= s'.cursor.value < |s'.log|
      ensures AreReadable(s'.log[k..s'.cursor.value + 1], EventsAt(s'.log, s'.seen))
    {
      HandledIsSegment(s, rounds, k, s');
    }
  }

  lemma ContiguousIsHandled(s: State, k: nat)
    requires Sound(s) && Contiguous(s, k)
    ensures Within(s.seen, |s.log|) && EventsAt(s.log, s.seen) == ReadableOf(s.log[k..s.cursor.value + 1])
  {
    SegmentEvents(s.log, k, s.cursor.value + 1);
  }

  lemma {:induction false} RunIsSound(s: State, rounds: seq<Round>)
    requires Sound(s) && CanRun(s, rounds)
    ensures Sound(Run(s, rounds))
    decreases |rounds|
  {
    if rounds != [] {
      TurnKeepsSound(s, rounds[0]);
      RunIsSound(Turn(s, rounds[0]), rounds[1..]);
    }
  }
}
