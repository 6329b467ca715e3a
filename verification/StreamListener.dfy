/** The publisher and the listener's loop over the stream. */
module StreamListeners {
  import opened Ids
  import opened Tokens
  import opened EventStream

  class StreamListener {
    // In Redis.
    var log: seq<Message>
    var floor: nat
    // In the listener; seen and handled are what it has moved past and what it has
    // handed to the message handler.
    var lastId: Option<nat>
    var seen: seq<nat>
    var handled: seq<StreamEvent>

    constructor ()
      ensures Now() == State([], 0, None, []) && handled == [] && Valid()
    {
      log, floor, lastId, seen, handled := [], 0, None, [], [];
    }

    ghost function Now(): EventStream.State
      reads this
    {
      State(log, floor, lastId, seen)
    }

    ghost predicate Valid()
      reads this
    {
      && Sound(Now())
      && Within(seen, |log|)
      && handled == EventsAt(log, seen)
    }

    /** Appends the event; Redis then trims, to somewhere of its choosing. */
    method PublishStreamEvent(event: StreamEvent, trimTo: nat)
      requires Valid() && Trims(|log| + 1, floor, trimTo)
      modifies this`log, this`floor
      ensures Valid() && log == old(log) + [Readable(event)] && floor == trimTo
      ensures |log| - floor >= (if |log| < MAX_STREAM_LENGTH then |log| else MAX_STREAM_LENGTH)
    {
      EventsStay(log, [Readable(event)], seen);
      log := log + [Readable(event)];
      floor := trimTo;
    }

    /** listen_to_stream, for as many turns as rounds has. An exception from a payload or
        from the handler is caught inside the inner loop, and the cursor moves on. */
    method ListenToStream(rounds: seq<Round>)
      requires Valid() && CanRun(Now(), rounds)
      modifies this
      ensures Valid() && Now() == Run(old(Now()), rounds)
      ensures AreReadable(EntriesAt(log, seen), handled)
      ensures HandsOverSegment(old(Now()), rounds, Now(), handled)
    {
      ghost var start := Now();
      var i := 0;
      while i < |rounds|
        invariant 0 <= i <= |rounds| && Valid()
        invariant CanRun(Now(), rounds[i..]) && Run(Now(), rounds[i..]) == Run(old(Now()), rounds)
      {
        assert rounds[i..][0] == rounds[i] && rounds[i..][1..] == rounds[i + 1..];
        TurnKeepsSound(Now(), rounds[i]);
        TurnHandsOver(Now(), rounds[i]);
        OneTurn(rounds[i]);
        i := i + 1;
      }
      RunHandsOverSegment(start, rounds, Now());
      EventsAtPicks(log, seen);
    }

    method OneTurn(r: Round)
      requires CanTurn(Now(), r)
      modifies this
      ensures Now() == Turn(old(Now()), r) && handled == old(handled) + Handed(old(Now()), r)
    {
      ghost var s := Now();
      var end := |log|;
      log := log + Appended(r);
      floor := r.floor;
      if r.Poll? {
        var start := if lastId.Some? then lastId.value + 1 else end + |r.gap|;
        var first := if start < floor then floor else start;
        assert first == ReadsFrom(s, r);
        if first < |log| {
          HandleMessages(first);
        }
      }
    }

    /** The entries a read returned. */
    method HandleMessages(first: nat)
      requires first < |log|
      modifies `lastId, `seen, `handled
      ensures lastId == Some(|log| - 1) && seen == old(seen) + Positions(first, |log|)
      ensures handled == old(handled) + ReadableOf(log[first..])
    {
      var messageId := first;
      while messageId < |log|
        invariant first <= messageId <= |log|
        invariant seen == old(seen) + Positions(first, messageId)
        invariant messageId > first ==> lastId == Some(messageId - 1)
        invariant handled + ReadableOf(log[messageId..]) == old(handled) + ReadableOf(log[first..])
      {
        NextReadable(handled, log, messageId);
        if log[messageId].Readable? {
          handled := handled + [log[messageId].event];
        }
        OneMorePosition(old(seen), first, messageId);
        seen := seen + [messageId];
        lastId := Some(messageId);
        messageId := messageId + 1;
      }
    }
  }

  lemma NextReadable(before: seq<StreamEvent>, log: seq<Message>, id: nat)
    requires id < |log|
    ensures before + ReadableOf(log[id..]) ==
            before + (if log[id].Readable? then [log[id].event] else []) + ReadableOf(log[id + 1..])
  {
    assert log[id..][1..] == log[id + 1..];
  }

  lemma OneMorePosition(before: seq<nat>, from: nat, id: nat)
    requires from <= id
    ensures before + Positions(from, id) + [id] == before + Positions(from, id + 1)
  {}
}
