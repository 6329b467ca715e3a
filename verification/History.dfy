/** Message history: ORDER BY created_at DESC LIMIT k as a relation (ties may come in
    any order), the direct-message query that pushes the limit into its two halves,
    and paging by the last row's timestamp. */
module History {
  import opened Ids

  datatype Message =
    | Direct(id: MessageId, sender: UserId, recipient: UserId, createdAt: int)
    | ToGroup(id: MessageId, group: GroupId, sender: UserId, createdAt: int)

  /** WHERE, over a table in storage order. */
  function Where(rows: seq<Message>, p: Message -> bool): seq<Message> {
    if rows == [] then []
    else (if p(rows[0]) then [rows[0]] else []) + Where(rows[1..], p)
  }

  lemma {:induction false} WhereCount(rows: seq<Message>, p: Message -> bool, m: Message)
    ensures multiset(Where(rows, p))[m] == if p(m) then multiset(rows)[m] else 0
  {
    if rows != [] {
      assert rows == [rows[0]] + rows[1..];
      WhereCount(rows[1..], p, m);
    }
  }

  predicate Descending(page: seq<Message>) {
    forall i, j | 0 <= i < j < |page| :: page[j].createdAt <= page[i].createdAt
  }

  function Min(a: nat, b: nat): nat { if a <= b then a else b }

  predicate NotLaterThanAny(r: Message, page: seq<Message>) {
    forall i | 0 <= i < |page| :: r.createdAt <= page[i].createdAt
  }

  /** page is a possible answer to SELECT ... ORDER BY created_at DESC LIMIT k. */
  ghost predicate IsLatest(rows: multiset<Message>, k: nat, page: seq<Message>) {
    && multiset(page) <= rows
    && |page| == Min(k, |rows|)
    && Descending(page)
    && forall r | r in rows - multiset(page) :: NotLaterThanAny(r, page)
  }

  // The answer exists, and its timestamps are determined.

  lemma SubsetSize(a: multiset<Message>, b: multiset<Message>)
    requires a <= b
    ensures |a| <= |b| && (|a| == |b| ==> a == b)
  {
    assert b == a + (b - a);
  }

  lemma InPage(page: seq<Message>, m: Message)
    ensures m in page <==> m in multiset(page)
  {}

  lemma SplitCount(s: seq<Message>, i: nat, m: Message)
    requires i <= |s|
    ensures multiset(s)[m] == multiset(s[..i])[m] + multiset(s[i..])[m]
  {
    assert s == s[..i] + s[i..];
  }

  /** A row later than the i-th of an answer is in the answer before it, every time. */
  lemma LaterRowsComeBefore(rows: multiset<Message>, k: nat, q: seq<Message>, i: nat, m: Message)
    requires IsLatest(rows, k, q) && i < |q| && m.createdAt > q[i].createdAt
    ensures rows[m] <= multiset(q[..i])[m]
  {
    SplitCount(q, i, m);
    assert m !in q[i..];
    assert multiset(q[i..])[m] == 0;
    assert q[i] in q;
    assert m !in rows - multiset(q);
  }

  /** Were p's first i + 1 rows all later than q's row i, q would have them before it. */
  lemma FrontFits(rows: multiset<Message>, k: nat, p: seq<Message>, q: seq<Message>, i: nat, m: Message)
    requires multiset(p) <= rows && Descending(p) && IsLatest(rows, k, q) && i < |p| == |q|
    requires p[i].createdAt > q[i].createdAt
    ensures multiset(p[..i + 1])[m] <= multiset(q[..i])[m]
  {
    var front := i + 1;
    if m in p[..front] {
      FrontIsLater(p, i, m);
      SplitCount(p, front, m);
      LaterRowsComeBefore(rows, k, q, i, m);
      assert multiset(p)[m] <= rows[m];
    }
  }

  lemma FrontIsLater(p: seq<Message>, i: nat, m: Message)
    requires Descending(p) && i < |p| && m in p[..i + 1]
    ensures m.createdAt >= p[i].createdAt
  {
    var j :| 0 <= j < i + 1 && p[j] == m;
  }

  lemma NotLater(rows: multiset<Message>, k: nat, p: seq<Message>, q: seq<Message>, i: nat)
    requires IsLatest(rows, k, p) && IsLatest(rows, k, q) && i < |p|
    ensures |q| == |p| && p[i].createdAt <= q[i].createdAt
  {
    if p[i].createdAt > q[i].createdAt {
      forall m ensures multiset(p[..i + 1])[m] <= multiset(q[..i])[m] { FrontFits(rows, k, p, q, i, m); }
      SubsetSize(multiset(p[..i + 1]), multiset(q[..i]));
      assert false;
    }
  }

  /** Two answers to one query list the same timestamps. */
  lemma LatestTimestamps(rows: multiset<Message>, k: nat, p: seq<Message>, q: seq<Message>)
    requires IsLatest(rows, k, p) && IsLatest(rows, k, q)
    ensures |p| == |q| && forall i | 0 <= i < |p| :: p[i].createdAt == q[i].createdAt
  {
    forall i | 0 <= i < |p| ensures p[i].createdAt == q[i].createdAt {
      NotLater(rows, k, p, q, i);
      NotLater(rows, k, q, p, i);
    }
  }

  /** With distinct timestamps there is only one answer. */
  lemma LatestUnique(rows: multiset<Message>, k: nat, p: seq<Message>, q: seq<Message>)
    requires IsLatest(rows, k, p) && IsLatest(rows, k, q)
    requires forall a, b | a in rows && b in rows && a.createdAt == b.createdAt :: a == b
    ensures p == q
  {
    LatestTimestamps(rows, k, p, q);
    forall i | 0 <= i < |p| ensures p[i] == q[i] {
      assert p[i] in multiset(p) && q[i] in multiset(q);
    }
  }

  function Insert(m: Message, sorted: seq<Message>): seq<Message> {
    if sorted == [] || sorted[0].createdAt <= m.createdAt then [m] + sorted
    else [sorted[0]] + Insert(m, sorted[1..])
  }

  function OrderBy(rows: seq<Message>): seq<Message> {
    if rows == [] then [] else Insert(rows[0], OrderBy(rows[1..]))
  }

  /** One way to compute an answer. */
  function Latest(rows: seq<Message>, k: nat): seq<Message> {
    var sorted := OrderBy(rows);
    if k <= |sorted| then sorted[..k] else sorted
  }

  lemma {:induction false} InsertPermutes(m: Message, sorted: seq<Message>)
    ensures multiset(Insert(m, sorted)) == multiset{m} + multiset(sorted)
  {
    if sorted != [] && sorted[0].createdAt > m.createdAt {
      InsertPermutes(m, sorted[1..]);
      assert sorted == [sorted[0]] + sorted[1..];
    }
  }

  lemma {:induction false} InsertKeepsBound(m: Message, sorted: seq<Message>, t: int)
    requires m.createdAt <= t && forall j | 0 <= j < |sorted| :: sorted[j].createdAt <= t
    ensures forall j | 0 <= j < |Insert(m, sorted)| :: Insert(m, sorted)[j].createdAt <= t
  {
    if sorted != [] && sorted[0].createdAt > m.createdAt {
      InsertKeepsBound(m, sorted[1..], t);
    }
  }

  lemma {:induction false} InsertKeepsOrder(m: Message, sorted: seq<Message>)
    requires Descending(sorted)
    ensures Descending(Insert(m, sorted))
  {
    if sorted != [] && sorted[0].createdAt > m.createdAt {
      InsertKeepsOrder(m, sorted[1..]);
      InsertKeepsBound(m, sorted[1..], sorted[0].createdAt);
    }
  }

  lemma {:induction false} OrderByIsSorted(rows: seq<Message>)
    ensures Descending(OrderBy(rows)) && multiset(OrderBy(rows)) == multiset(rows)
  {
    if rows != [] {
      OrderByIsSorted(rows[1..]);
      InsertKeepsOrder(rows[0], OrderBy(rows[1..]));
      InsertPermutes(rows[0], OrderBy(rows[1..]));
      assert rows == [rows[0]] + rows[1..];
    }
  }

  lemma TailNotLater(page: seq<Message>, tail: seq<Message>, r: Message, m: Message)
    requires Descending(page + tail) && r in tail && m in page
    ensures r.createdAt <= m.createdAt
  {
    var i :| 0 <= i < |tail| && tail[i] == r;
    var j :| 0 <= j < |page| && page[j] == m;
    assert (page + tail)[|page| + i] == r && (page + tail)[j] == m;
  }

  lemma FrontDescends(page: seq<Message>, tail: seq<Message>)
    requires Descending(page + tail)
    ensures Descending(page)
  {
    forall i, j | 0 <= i < j < |page| ensures page[j].createdAt <= page[i].createdAt {
      assert (page + tail)[i] == page[i] && (page + tail)[j] == page[j];
    }
  }

  lemma FrontIsLatest(page: seq<Message>, tail: seq<Message>, k: nat)
    requires Descending(page + tail) && |page| == Min(k, |page| + |tail|)
    ensures IsLatest(multiset(page) + multiset(tail), k, page)
  {
    FrontDescends(page, tail);
    var rows := multiset(page) + multiset(tail);
    assert rows - multiset(page) == multiset(tail);
    forall r, m | r in rows - multiset(page) && m in page ensures r.createdAt <= m.createdAt {
      TailNotLater(page, tail, r, m);
    }
  }

  /** Sorting the rows and keeping the first k is an answer. */
  lemma LatestIsLatest(rows: seq<Message>, k: nat)
    ensures IsLatest(multiset(rows), k, Latest(rows, k))
  {
    OrderByIsSorted(rows);
    var sorted := OrderBy(rows);
    var page, tail := Latest(rows, k), sorted[Min(k, |sorted|)..];
    assert sorted == page + tail;
    FrontIsLatest(page, tail, k);
    assert multiset(rows) == multiset(page) + multiset(tail);
  }

  // The direct-message query.

  /** Rows a filter selects, below a cutoff. */
  function Older(table: seq<Message>, p: Message -> bool, cutoff: int): seq<Message> {
    Where(table, m => p(m) && m.createdAt < cutoff)
  }

  lemma OlderCount(table: seq<Message>, p: Message -> bool, cutoff: int, m: Message)
    ensures multiset(Older(table, p, cutoff))[m] == if p(m) && m.createdAt < cutoff then multiset(table)[m] else 0
  {
    WhereCount(table, m => p(m) && m.createdAt < cutoff, m);
  }

  predicate Sent(m: Message, a: UserId, b: UserId) {
    m.Direct? && m.sender == a && m.recipient == b
  }

  /** Rows from a to b, and rows between them in either direction. */
  function OneWay(table: seq<Message>, a: UserId, b: UserId, before: int): seq<Message> {
    Older(table, m => Sent(m, a, b), before)
  }

  function BothWays(table: seq<Message>, a: UserId, b: UserId, before: int): seq<Message> {
    Older(table, Conversation(a, b), before)
  }

  /** The filters a client pages through. */
  function Conversation(a: UserId, b: UserId): Message -> bool {
    m => Sent(m, a, b) || Sent(m, b, a)
  }

  function Timeline(g: GroupId): Message -> bool {
    (m: Message) => m.ToGroup? && m.group == g
  }

  // What the filters select, on the columns.

  lemma OneWayCount(table: seq<Message>, a: UserId, b: UserId, before: int, m: Message)
    ensures multiset(OneWay(table, a, b, before))[m] ==
      if m.Direct? && m.sender == a && m.recipient == b && m.createdAt < before then multiset(table)[m] else 0
  {
    OlderCount(table, m => Sent(m, a, b), before, m);
  }

  /** Exactly the direct messages between these two users, below the cutoff. */
  lemma BothWaysCount(table: seq<Message>, a: UserId, b: UserId, before: int, m: Message)
    ensures multiset(BothWays(table, a, b, before))[m] ==
      if m.Direct? && m.createdAt < before
         && ((m.sender == a && m.recipient == b) || (m.sender == b && m.recipient == a))
      then multiset(table)[m] else 0
  {
    OlderCount(table, Conversation(a, b), before, m);
  }

  /** Exactly the messages of the group, below the cutoff. */
  lemma TimelineCount(table: seq<Message>, g: GroupId, before: int, m: Message)
    ensures multiset(Older(table, Timeline(g), before))[m] ==
      if m.ToGroup? && m.group == g && m.createdAt < before then multiset(table)[m] else 0
  {
    OlderCount(table, Timeline(g), before, m);
  }

  /** A row of the bag that an answer leaves out is no later than any in it, and there is
      none unless the answer is full. */
  lemma LeftOutIsOlder(rows: multiset<Message>, k: nat, page: seq<Message>, m: Message)
    requires IsLatest(rows, k, page) && rows[m] > multiset(page)[m]
    ensures |page| == k && forall i | 0 <= i < |page| :: m.createdAt <= page[i].createdAt
  {
    assert m in rows - multiset(page);
    assert NotLaterThanAny(m, page);
    SubsetSize(multiset(page) + multiset{m}, rows);
  }

  /** The query as written: each direction sorted and cut to k on its own, then the
      union of the two sorted and cut again. */
  ghost predicate ConversationQuery(table: seq<Message>, a: UserId, b: UserId, before: int, k: nat, page: seq<Message>) {
    exists there, back ::
      && IsLatest(multiset(OneWay(table, a, b, before)), k, there)
      && IsLatest(multiset(OneWay(table, b, a, before)), k, back)
      && IsLatest(multiset(there) + multiset(back), k, page)
  }

  lemma BothWaysIsUnion(table: seq<Message>, a: UserId, b: UserId, before: int)
    requires a != b
    ensures multiset(BothWays(table, a, b, before))
         == multiset(OneWay(table, a, b, before)) + multiset(OneWay(table, b, a, before))
  {
    forall m ensures multiset(BothWays(table, a, b, before))[m]
        == multiset(OneWay(table, a, b, before))[m] + multiset(OneWay(table, b, a, before))[m]
    {
      OlderCount(table, Conversation(a, b), before, m);
      OlderCount(table, m => Sent(m, a, b), before, m);
      OlderCount(table, m => Sent(m, b, a), before, m);
    }
  }

  /** A row cut from one half is not later than anything in the final page. */
  lemma CutRowsAreEarlier(half: multiset<Message>, kept: seq<Message>, others: multiset<Message>, k: nat,
                          page: seq<Message>, r: Message, m: Message)
    requires IsLatest(half, k, kept) && IsLatest(multiset(kept) + others, k, page)
    requires r in half - multiset(kept) && m in page
    ensures r.createdAt <= m.createdAt
  {
    if m.createdAt < r.createdAt {
      assert |kept| == k by { SubsetSize(multiset(kept), half); }
      assert m !in kept;
      // Every kept row is later than m, so all of them are in the page, and m besides.
      forall x ensures (multiset(kept) + multiset{m})[x] <= multiset(page)[x] {
        if x in kept {
          assert x.createdAt > m.createdAt;
          assert x !in multiset(kept) + others - multiset(page);
        }
        InPage(page, m);
      }
      SubsetSize(multiset(kept) + multiset{m}, multiset(page));
      assert false;
    }
  }

  lemma PushDown(b1: multiset<Message>, b2: multiset<Message>, k: nat,
                 p1: seq<Message>, p2: seq<Message>, page: seq<Message>)
    requires IsLatest(b1, k, p1) && IsLatest(b2, k, p2) && IsLatest(multiset(p1) + multiset(p2), k, page)
    ensures IsLatest(b1 + b2, k, page)
  {
    forall r, m | r in b1 + b2 - multiset(page) && m in page ensures r.createdAt <= m.createdAt {
      if r in b1 - multiset(p1) {
        CutRowsAreEarlier(b1, p1, multiset(p2), k, page, r, m);
      } else if r in b2 - multiset(p2) {
        assert multiset(p2) + multiset(p1) == multiset(p1) + multiset(p2);
        CutRowsAreEarlier(b2, p2, multiset(p1), k, page, r, m);
      } else {
        assert r in multiset(p1) + multiset(p2) - multiset(page);
      }
    }
  }

  /** Pushing the limit down changes nothing: between two different users, the query's
      page is the latest k of all their messages before the cutoff. */
  lemma ConversationIsLatest(table: seq<Message>, a: UserId, b: UserId, before: int, k: nat, page: seq<Message>)
    requires a != b && ConversationQuery(table, a, b, before, k, page)
    ensures IsLatest(multiset(BothWays(table, a, b, before)), k, page)
  {
    var there, back :|
      && IsLatest(multiset(OneWay(table, a, b, before)), k, there)
      && IsLatest(multiset(OneWay(table, b, a, before)), k, back)
      && IsLatest(multiset(there) + multiset(back), k, page);
    PushDown(multiset(OneWay(table, a, b, before)), multiset(OneWay(table, b, a, before)), k, there, back, page);
    BothWaysIsUnion(table, a, b, before);
  }

  lemma OlderOne(m: Message, p: Message -> bool, cutoff: int)
    requires p(m) && m.createdAt < cutoff
    ensures Older([m], p, cutoff) == [m]
  {
    var q := m => p(m) && m.createdAt < cutoff;
    assert [m][1..] == [] && Where([m][1..], q) == [];
  }

  /** For a user talking to themselves the union would list rows twice. */
  lemma SelfConversationRepeats(m: Message, before: int)
    requires m.Direct? && m.sender == m.recipient && m.createdAt < before
    ensures ConversationQuery([m], m.sender, m.sender, before, 2, [m, m])
    ensures !IsLatest(multiset(BothWays([m], m.sender, m.sender, before)), 2, [m, m])
  {
    OlderOne(m, x => Sent(x, m.sender, m.sender), before);
    OlderOne(m, Conversation(m.sender, m.sender), before);
    assert IsLatest(multiset([m]), 2, [m]);
    assert multiset([m, m]) == multiset([m]) + multiset([m]);
    assert IsLatest(multiset([m]) + multiset([m]), 2, [m, m]);
    assert multiset([m, m])[m] == 2 && multiset([m])[m] == 1;
  }
}
