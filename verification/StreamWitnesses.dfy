/** Runs of a listener that lose an entry. */
module StreamWitnesses {
  import opened Ids
  import opened EventStream

  const NEW := State([], 0, None, [])

  /** a arrives between two reads of a new listener, b during the second: the listener
      goes on from b and never takes a. */
  lemma LostBeforeFirstId(a: Message, b: Message)
    ensures var rounds := [Poll([a], [], 0), Poll([], [b], 0)];
      && CanRun(NEW, rounds)
      && Run(NEW, rounds) == State([a, b], 0, Some(1), [1])
  {
    var (first, second) := (Poll([a], [], 0), Poll([], [b], 0));
    var s1 := Turn(NEW, first);
    assert s1 == State([a], 0, None, []);
    var s2 := Turn(s1, second);
    assert s2.log == [a, b] && s2.seen == [1];
    TwoRounds(NEW, first, second);
  }

  lemma TwoRounds(s: State, first: Round, second: Round)
    requires CanTurn(s, first) && CanTurn(Turn(s, first), second)
    ensures CanRun(s, [first, second]) && Run(s, [first, second]) == Turn(Turn(s, first), second)
  {
    assert [first, second][1..] == [second];
    assert [second][1..] == [];
    assert CanRun(Turn(s, first), [second]) && Run(Turn(s, first), [second]) == Turn(Turn(s, first), second);
  }

  /** After its first entry the listener does not read again until 10001 more have been
      appended and all but the last 10000 trimmed: entry 1 is gone when it does. */
  lemma LostByTrimming(a: Message, burst: seq<Message>)
    requires |burst| == MAX_STREAM_LENGTH + 1
    ensures var rounds := [Poll([], [a], 0), Poll(burst, [], 2)];
      && CanRun(NEW, rounds) && Run(NEW, rounds).log == [a] + burst
      && Run(NEW, rounds).cursor == Some(MAX_STREAM_LENGTH + 1) && 1 in Skipped(Run(NEW, rounds), 0)
  {
    var (first, second) := (Poll([], [a], 0), Poll(burst, [], 2));
    var s1 := Turn(NEW, first);
    assert s1 == State([a], 0, Some(0), [0]);
    TwoRounds(NEW, first, second);
    LateTurnSkips(s1, second, 0);
  }
}
