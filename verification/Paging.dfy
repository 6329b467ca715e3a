/** Following `before` = the last row's timestamp from page to page. */
module Paging {
  import opened History

  type Page = page: seq<Message> | page != [] witness [Direct(0, 0, 0, 0)]

  function Last(page: Page): Message { page[|page| - 1] }

  /** The cutoff page number i was asked for with: the last timestamp before it. */
  function CutoffAt(cutoff: int, pages: seq<Page>, i: nat): int
    requires i <= |pages|
  {
    if i == 0 then cutoff else Last(pages[i - 1]).createdAt
  }

  ghost predicate Answer(table: seq<Message>, p: Message -> bool, k: nat, cutoff: int, page: seq<Message>) {
    IsLatest(multiset(Older(table, p, cutoff)), k, page)
  }

  /** pages are the answers a client gets from `cutoff` on, up to the first empty one,
      each but the first asked for with the last timestamp of the one before. Each answer
      may break ties its own way. */
  ghost predicate Walk(table: seq<Message>, p: Message -> bool, k: nat, cutoff: int, pages: seq<Page>)
    decreases |pages|
  {
    if pages == [] then Answer(table, p, k, cutoff, [])
    else Answer(table, p, k, cutoff, pages[0]) && Walk(table, p, k, Last(pages[0]).createdAt, pages[1..])
  }

  lemma WalkCons(table: seq<Message>, p: Message -> bool, k: nat, cutoff: int, page: Page, rest: seq<Page>)
    requires Answer(table, p, k, cutoff, page) && Walk(table, p, k, Last(page).createdAt, rest)
    ensures Walk(table, p, k, cutoff, [page] + rest)
  {
    assert ([page] + rest)[1..] == rest;
  }

  function Flatten(pages: seq<Page>): seq<Message> {
    if pages == [] then [] else pages[0] + Flatten(pages[1..])
  }

  /** What a page's query found but did not return. */
  function LeftBehind(table: seq<Message>, p: Message -> bool, cutoff: int, page: Page): multiset<Message> {
    multiset(Older(table, p, cutoff)) - multiset(page)
  }

  ghost predicate EndsCleanly(rest: multiset<Message>, page: Page) {
    forall r | r in rest :: r.createdAt != Last(page).createdAt
  }

  /** No page ends inside a group of rows with equal timestamps. */
  ghost predicate TiesStayTogether(table: seq<Message>, p: Message -> bool, cutoff: int, pages: seq<Page>)
    decreases |pages|
  {
    pages == [] ||
    (EndsCleanly(LeftBehind(table, p, cutoff, pages[0]), pages[0])
     && TiesStayTogether(table, p, Last(pages[0]).createdAt, pages[1..]))
  }

  lemma PageRange(table: seq<Message>, p: Message -> bool, k: nat, cutoff: int, page: Page)
    requires Answer(table, p, k, cutoff, page)
    ensures Last(page).createdAt < cutoff && forall m <- page :: Last(page).createdAt <= m.createdAt < cutoff
  {
    forall m <- page ensures m.createdAt < cutoff { InPageIsOlder(table, p, k, cutoff, page, m); }
    LastIsLeast(page);
  }

  lemma InPageIsOlder(table: seq<Message>, p: Message -> bool, k: nat, cutoff: int, page: Page, m: Message)
    requires Answer(table, p, k, cutoff, page) && m in page
    ensures m.createdAt < cutoff
  {
    assert m in multiset(page);
    OlderCount(table, p, cutoff, m);
  }

  lemma LastIsLeast(page: Page)
    requires Descending(page)
    ensures Last(page) in page && forall m <- page :: Last(page).createdAt <= m.createdAt
  {}

  lemma NextCount(table: seq<Message>, p: Message -> bool, k: nat, cutoff: int, page: Page, r: Message)
    requires Answer(table, p, k, cutoff, page)
    ensures var t := Last(page).createdAt;
      multiset(Older(table, p, t))[r] == if r.createdAt < t then LeftBehind(table, p, cutoff, page)[r] else 0
  {
    PageRange(table, p, k, cutoff, page);
    OlderCount(table, p, cutoff, r);
    OlderCount(table, p, Last(page).createdAt, r);
    if r.createdAt < Last(page).createdAt { assert r !in page; }
  }

  /** What is below the page's last timestamp was below the cutoff and is not in the
      page; what the page left behind besides is tied with its last row. */
  lemma NextCutoff(table: seq<Message>, p: Message -> bool, k: nat, cutoff: int, page: Page)
    requires Answer(table, p, k, cutoff, page)
    ensures var (rest, next) := (LeftBehind(table, p, cutoff, page), multiset(Older(table, p, Last(page).createdAt)));
      next <= rest && (next == rest <==> EndsCleanly(rest, page))
  {
    var t := Last(page).createdAt;
    var (rest, next) := (LeftBehind(table, p, cutoff, page), multiset(Older(table, p, t)));
    forall r ensures next[r] == if r.createdAt < t then rest[r] else 0 { NextCount(table, p, k, cutoff, page, r); }
    forall r | r in rest ensures r.createdAt <= t { LeftIsOlder(table, p, k, cutoff, page, r); }
  }

  lemma LeftIsOlder(table: seq<Message>, p: Message -> bool, k: nat, cutoff: int, page: Page, r: Message)
    requires Answer(table, p, k, cutoff, page) && r in LeftBehind(table, p, cutoff, page)
    ensures r.createdAt <= Last(page).createdAt
  {
    assert Last(page) in page;
  }

  /** Every page makes progress, so there are no more pages than rows. */
  lemma {:induction false} WalkEnds(table: seq<Message>, p: Message -> bool, k: nat, cutoff: int, pages: seq<Page>)
    requires Walk(table, p, k, cutoff, pages)
    ensures |pages| <= |Older(table, p, cutoff)|
    decreases |pages|
  {
    if pages != [] {
      WalkEnds(table, p, k, Last(pages[0]).createdAt, pages[1..]);
      FewerLeft(table, p, k, cutoff, pages[0]);
    }
  }

  lemma FirstPage(rows: seq<Message>, k: nat)
    requires k >= 1 && rows != []
    ensures Latest(rows, k) != [] && IsLatest(multiset(rows), k, Latest(rows, k))
  {
    LatestIsLatest(rows, k);
  }

  lemma FewerLeft(table: seq<Message>, p: Message -> bool, k: nat, cutoff: int, page: Page)
    requires Answer(table, p, k, cutoff, page)
    ensures |Older(table, p, Last(page).createdAt)| + |page| <= |Older(table, p, cutoff)|
  {
    NextCutoff(table, p, k, cutoff, page);
    SubsetSize(multiset(Older(table, p, Last(page).createdAt)), LeftBehind(table, p, cutoff, page));
    assert |LeftBehind(table, p, cutoff, page)| == |Older(table, p, cutoff)| - |page|;
  }

  /** With a limit of at least one a client can always go on to the end. */
  lemma {:induction false} WalkExists(table: seq<Message>, p: Message -> bool, k: nat, cutoff: int)
    returns (pages: seq<Page>)
    requires k >= 1
    ensures Walk(table, p, k, cutoff, pages)
    decreases |Older(table, p, cutoff)|
  {
    var rows := Older(table, p, cutoff);
    if rows == [] {
      pages := [];
    } else {
      FirstPage(rows, k);
      var page: Page := Latest(rows, k);
      FewerLeft(table, p, k, cutoff, page);
      var rest := WalkExists(table, p, k, Last(page).createdAt);
      WalkCons(table, p, k, cutoff, page, rest);
      pages := [page] + rest;
    }
  }

  /** The pages are below the cutoff, and what they return in all is in order. */
  lemma {:induction false} PagesDescend(table: seq<Message>, p: Message -> bool, k: nat, cutoff: int, pages: seq<Page>)
    requires Walk(table, p, k, cutoff, pages)
    ensures Descending(Flatten(pages)) && forall m <- Flatten(pages) :: m.createdAt < cutoff
    decreases |pages|
  {
    if pages != [] {
      PageRange(table, p, k, cutoff, pages[0]);
      PagesDescend(table, p, k, Last(pages[0]).createdAt, pages[1..]);
      var (page, rest, all) := (pages[0], Flatten(pages[1..]), Flatten(pages));
      forall i, j | 0 <= i < j < |all| ensures all[j].createdAt <= all[i].createdAt {
        assert i < |page| ==> all[i] in page;
        assert j >= |page| ==> all[j] in rest;
      }
    }
  }

  lemma {:induction false} AnswerRange(table: seq<Message>, p: Message -> bool, k: nat, cutoff: int,
                                       pages: seq<Page>, i: nat)
    requires Walk(table, p, k, cutoff, pages) && i < |pages|
    ensures CutoffAt(cutoff, pages, i + 1) < CutoffAt(cutoff, pages, i)
    ensures forall m <- pages[i] :: CutoffAt(cutoff, pages, i + 1) <= m.createdAt < CutoffAt(cutoff, pages, i)
    decreases i
  {
    if i == 0 {
      PageRange(table, p, k, cutoff, pages[0]);
    } else {
      var before := i - 1;
      AnswerRange(table, p, k, Last(pages[0]).createdAt, pages[1..], before);
    }
  }

  lemma {:induction false} CutoffsDescend(table: seq<Message>, p: Message -> bool, k: nat, cutoff: int,
                                          pages: seq<Page>, i: nat, j: nat)
    requires Walk(table, p, k, cutoff, pages) && i <= j <= |pages|
    ensures CutoffAt(cutoff, pages, j) <= CutoffAt(cutoff, pages, i)
    decreases j
  {
    if i < j {
      AnswerRange(table, p, k, cutoff, pages, j - 1);
      CutoffsDescend(table, p, k, cutoff, pages, i, j - 1);
    }
  }

  /** A later page holds only rows strictly older than all of an earlier one, so no two
      pages share a row. */
  lemma PagesDisjoint(table: seq<Message>, p: Message -> bool, k: nat, cutoff: int, pages: seq<Page>,
                      i: nat, j: nat, a: Message, b: Message)
    requires Walk(table, p, k, cutoff, pages) && i < j < |pages| && a in pages[i] && b in pages[j]
    ensures b.createdAt < a.createdAt
  {
    AnswerRange(table, p, k, cutoff, pages, i);
    CutoffsDescend(table, p, k, cutoff, pages, i + 1, j);
    AnswerRange(table, p, k, cutoff, pages, j);
  }

  lemma PageAndRest(rows: multiset<Message>, page: multiset<Message>, left: multiset<Message>,
                    older: multiset<Message>, rest: multiset<Message>)
    requires rows == page + left && older <= left && rest <= older
    ensures page + rest <= rows && (page + rest == rows <==> rest == older && older == left)
  {
    if page + rest == rows {
      assert rest == rows - page && left == rows - page;
    }
  }

  /** A page followed by some of the rows below its last one. */
  lemma PageThenRest(table: seq<Message>, p: Message -> bool, k: nat, cutoff: int, page: Page, rest: multiset<Message>)
    requires Answer(table, p, k, cutoff, page) && rest <= multiset(Older(table, p, Last(page).createdAt))
    ensures var (rows, next) := (multiset(Older(table, p, cutoff)), multiset(Older(table, p, Last(page).createdAt)));
      && multiset(page) + rest <= rows
      && (multiset(page) + rest == rows <==> rest == next && EndsCleanly(LeftBehind(table, p, cutoff, page), page))
  {
    NextCutoff(table, p, k, cutoff, page);
    var rows := multiset(Older(table, p, cutoff));
    assert multiset(page) <= rows;
    PageAndRest(rows, multiset(page), LeftBehind(table, p, cutoff, page),
                multiset(Older(table, p, Last(page).createdAt)), rest);
  }

  /** The pages together hold rows of the history, each at most as often as it is
      there, and they are the whole history exactly when no page boundary separates
      rows with equal timestamps. */
  lemma {:induction false} PagesAreHistory(table: seq<Message>, p: Message -> bool, k: nat, cutoff: int, pages: seq<Page>)
    requires k >= 1 && Walk(table, p, k, cutoff, pages)
    ensures multiset(Flatten(pages)) <= multiset(Older(table, p, cutoff))
    ensures multiset(Flatten(pages)) == multiset(Older(table, p, cutoff)) <==> TiesStayTogether(table, p, cutoff, pages)
    decreases |pages|
  {
    if pages == [] {
      NothingLeft(table, p, k, cutoff);
    } else {
      var (page, rest) := (pages[0], pages[1..]);
      PagesAreHistory(table, p, k, Last(page).createdAt, rest);
      PageThenRest(table, p, k, cutoff, page, multiset(Flatten(rest)));
      assert multiset(Flatten(pages)) == multiset(page) + multiset(Flatten(rest));
    }
  }

  lemma NothingLeft(table: seq<Message>, p: Message -> bool, k: nat, cutoff: int)
    requires k >= 1 && Answer(table, p, k, cutoff, [])
    ensures multiset(Older(table, p, cutoff)) == multiset{}
  {
    assert |multiset(Older(table, p, cutoff))| == 0;
  }

  // The same condition on the stored timestamps and the limit.

  /** The timestamps of the rows, newest first. */
  function Times(rows: seq<Message>): (times: seq<int>)
    ensures |times| == |rows|
  {
    SortedSize(rows);
    seq(|rows|, i requires 0 <= i < |rows| => OrderBy(rows)[i].createdAt)
  }

  lemma SortedSize(rows: seq<Message>)
    ensures |OrderBy(rows)| == |rows|
  {
    OrderByIsSorted(rows);
    assert |multiset(OrderBy(rows))| == |multiset(rows)|;
  }

  /** No multiple of k separates two equal timestamps. */
  predicate CutsClean(times: seq<int>, k: nat)
    requires k >= 1
    decreases |times|
  {
    |times| <= k || (times[k - 1] != times[k] && CutsClean(times[k..], k))
  }

  /** Whatever the answer, its timestamps are the first of them. */
  lemma AnswerTimes(rows: seq<Message>, k: nat, page: seq<Message>)
    requires IsLatest(multiset(rows), k, page)
    ensures |page| == Min(k, |rows|) && forall i | 0 <= i < |page| :: page[i].createdAt == Times(rows)[i]
  {
    LatestIsLatest(rows, k);
    SortedSize(rows);
    LatestTimestamps(multiset(rows), k, page, Latest(rows, k));
    assert |multiset(rows)| == |rows|;
  }

  /** A page, and after it a row it leaves out that ties with its last, are an answer for
      a limit larger by one. */
  lemma TieIsNext(rows: multiset<Message>, k: nat, page: Page, r: Message)
    requires IsLatest(rows, k, page) && r in rows - multiset(page) && r.createdAt == Last(page).createdAt
    ensures IsLatest(rows, |page| + 1, page + [r])
  {
    var longer := page + [r];
    assert multiset(longer) == multiset(page) + multiset{r};
    SubsetSize(multiset(longer), rows);
    forall x | x in rows - multiset(longer) ensures NotLaterThanAny(x, longer) {
      assert x in rows - multiset(page);
      TieIsNotEarlier(page, r, x);
    }
  }

  lemma TieIsNotEarlier(page: Page, r: Message, x: Message)
    requires NotLaterThanAny(x, page) && r.createdAt == Last(page).createdAt
    ensures NotLaterThanAny(x, page + [r])
  {}

  lemma TieInTimes(rows: seq<Message>, k: nat, page: Page, r: Message)
    requires IsLatest(multiset(rows), k, page)
    requires r in multiset(rows) - multiset(page) && r.createdAt == Last(page).createdAt
    ensures |page| == k < |rows| && Times(rows)[k - 1] == Times(rows)[k]
  {
    TieIsNext(multiset(rows), k, page, r);
    AnswerTimes(rows, |page| + 1, page + [r]);
    AnswerTimes(rows, k, page);
    TieAtEnd(Times(rows), page, r);
  }

  lemma TieAtEnd(times: seq<int>, page: Page, r: Message)
    requires |page| < |times| && forall i | 0 <= i <= |page| :: (page + [r])[i].createdAt == times[i]
    ensures times[|page| - 1] == Last(page).createdAt && times[|page|] == r.createdAt
  {
    var last := |page| - 1;
    assert (page + [r])[last] == page[last];
    assert (page + [r])[|page|] == r;
  }

  lemma OlderAfter(page: Page, older: seq<Message>)
    requires Descending(page) && Descending(older)
    requires forall i | 0 <= i < |older| :: older[i].createdAt < Last(page).createdAt
    ensures Descending(page + older)
  {
    var all := page + older;
    forall i, j | 0 <= i < j < |all| ensures all[j].createdAt <= all[i].createdAt {
      if i < |page| <= j { assert all[j] == older[j - |page|]; }
    }
  }

  /** The page and the sorted rest are all rows, sorted. */
  lemma PageThenSorted(rows: seq<Message>, k: nat, page: Page, older: seq<Message>)
    requires IsLatest(multiset(rows), k, page) && multiset(page) + multiset(older) == multiset(rows)
    requires Descending(older) && forall i | 0 <= i < |older| :: older[i].createdAt < Last(page).createdAt
    ensures IsLatest(multiset(rows), |rows|, page + older)
  {
    OlderAfter(page, older);
    assert multiset(page + older) == multiset(rows);
    assert |multiset(page + older)| == |page + older| && |multiset(rows)| == |rows|;
  }

  lemma SortedBelow(rows: seq<Message>, bound: int)
    requires forall m: Message | m in multiset(rows) :: m.createdAt < bound
    ensures var sorted := OrderBy(rows);
      && Descending(sorted) && multiset(sorted) == multiset(rows) && |sorted| == |rows|
      && forall i | 0 <= i < |sorted| :: sorted[i].createdAt < bound
  {
    OrderByIsSorted(rows);
    SortedSize(rows);
    var sorted := OrderBy(rows);
    forall i | 0 <= i < |sorted| ensures sorted[i].createdAt < bound {
      assert sorted[i] in multiset(sorted);
    }
  }

  lemma WholeTimes(rows: seq<Message>, k: nat, page: Page, next: seq<Message>)
    requires IsLatest(multiset(rows), k, page) && multiset(page) + multiset(next) == multiset(rows)
    requires forall m: Message | m in multiset(next) :: m.createdAt < Last(page).createdAt
    ensures var all := page + OrderBy(next);
      |all| == |rows| && forall i | 0 <= i < |all| :: all[i].createdAt == Times(rows)[i]
  {
    SortedBelow(next, Last(page).createdAt);
    PageThenSorted(rows, k, page, OrderBy(next));
    AnswerTimes(rows, |rows|, page + OrderBy(next));
  }

  lemma CleanInTimes(rows: seq<Message>, k: nat, page: Page, next: seq<Message>)
    requires IsLatest(multiset(rows), k, page) && multiset(page) + multiset(next) == multiset(rows)
    requires forall m: Message | m in multiset(next) :: m.createdAt < Last(page).createdAt
    ensures |page| + |next| == |rows| && Times(rows)[|page|..] == Times(next)
    ensures next != [] ==> |page| == k && Times(rows)[k - 1] != Times(rows)[k]
  {
    WholeTimes(rows, k, page, next);
    SortedBelow(next, Last(page).createdAt);
    assert |page| == Min(k, |multiset(rows)|) && |multiset(rows)| == |rows|;
    TimesTail(Times(rows), page, next);
  }

  lemma TimesTail(times: seq<int>, page: Page, next: seq<Message>)
    requires |OrderBy(next)| == |next| && |page| + |next| == |times|
    requires forall i | 0 <= i < |times| :: (page + OrderBy(next))[i].createdAt == times[i]
    ensures times[|page|..] == Times(next) && times[|page| - 1] == Last(page).createdAt
    ensures next != [] ==> times[|page|] == OrderBy(next)[0].createdAt
  {
    TimesSplit(times, page, OrderBy(next));
  }

  lemma TimesSplit(times: seq<int>, page: Page, older: seq<Message>)
    requires |page| + |older| == |times| && forall i | 0 <= i < |times| :: (page + older)[i].createdAt == times[i]
    ensures forall i | 0 <= i < |older| :: times[|page|..][i] == older[i].createdAt
    ensures times[|page| - 1] == Last(page).createdAt
    ensures older != [] ==> times[|page|] == older[0].createdAt
  {
    forall i | 0 <= i < |older| ensures times[|page|..][i] == older[i].createdAt {
      assert (page + older)[|page| + i] == older[i];
    }
    var last := |page| - 1;
    assert (page + older)[last] == page[last];
    if older != [] { assert (page + older)[|page|] == older[0]; }
  }

  lemma OlderThanLast(table: seq<Message>, p: Message -> bool, page: Page, m: Message)
    requires m in multiset(Older(table, p, Last(page).createdAt))
    ensures m.createdAt < Last(page).createdAt
  {
    OlderCount(table, p, Last(page).createdAt, m);
  }

  /** One page's part of the condition. */
  lemma PageCutsClean(table: seq<Message>, p: Message -> bool, k: nat, cutoff: int, page: Page)
    requires k >= 1 && Answer(table, p, k, cutoff, page)
    ensures CutsClean(Times(Older(table, p, cutoff)), k) <==>
            && EndsCleanly(LeftBehind(table, p, cutoff, page), page)
            && CutsClean(Times(Older(table, p, Last(page).createdAt)), k)
  {
    var (rows, next) := (Older(table, p, cutoff), Older(table, p, Last(page).createdAt));
    NextCutoff(table, p, k, cutoff, page);
    if EndsCleanly(LeftBehind(table, p, cutoff, page), page) {
      forall m: Message | m in multiset(next) ensures m.createdAt < Last(page).createdAt {
        OlderThanLast(table, p, page, m);
      }
      assert multiset(page) + multiset(next) == multiset(rows);
      CleanInTimes(rows, k, page, next);
    } else {
      var r :| r in LeftBehind(table, p, cutoff, page) && r.createdAt == Last(page).createdAt;
      TieInTimes(rows, k, page, r);
    }
  }

  lemma {:induction false} CleanIffCutsClean(table: seq<Message>, p: Message -> bool, k: nat, cutoff: int, pages: seq<Page>)
    requires k >= 1 && Walk(table, p, k, cutoff, pages)
    ensures TiesStayTogether(table, p, cutoff, pages) <==> CutsClean(Times(Older(table, p, cutoff)), k)
    decreases |pages|
  {
    if pages == [] {
      NothingLeft(table, p, k, cutoff);
      assert |multiset(Older(table, p, cutoff))| == 0;
    } else {
      var (page, rest) := (pages[0], pages[1..]);
      PageCutsClean(table, p, k, cutoff, page);
      CleanIffCutsClean(table, p, k, Last(page).createdAt, rest);
    }
  }

  /** Whether pages of k enumerate a history can be told from its timestamps: every walk
      returns all of it exactly when, newest first, no multiple of k separates two equal
      ones. */
  lemma CompleteIffCutsClean(table: seq<Message>, p: Message -> bool, k: nat, cutoff: int, pages: seq<Page>)
    requires k >= 1 && Walk(table, p, k, cutoff, pages)
    ensures multiset(Flatten(pages)) == multiset(Older(table, p, cutoff)) <==>
            CutsClean(Times(Older(table, p, cutoff)), k)
  {
    PagesAreHistory(table, p, k, cutoff, pages);
    CleanIffCutsClean(table, p, k, cutoff, pages);
  }

  predicate DistinctTimes(rows: seq<Message>) {
    forall i, j | 0 <= i < j < |rows| :: rows[i].createdAt != rows[j].createdAt
  }

  lemma SortedIsUnique(rows: seq<Message>, all: seq<Message>)
    requires Descending(all) && multiset(all) == multiset(rows)
    requires forall a: Message, b: Message |
               a in multiset(rows) && b in multiset(rows) && a.createdAt == b.createdAt :: a == b
    ensures all == Latest(rows, |rows|)
  {
    assert |multiset(all)| == |all| && |multiset(rows)| == |rows|;
    assert IsLatest(multiset(rows), |rows|, all);
    LatestIsLatest(rows, |rows|);
    LatestUnique(multiset(rows), |rows|, all, Latest(rows, |rows|));
  }

  lemma DistinctTimesDecide(table: seq<Message>, p: Message -> bool, cutoff: int, a: Message, b: Message)
    requires DistinctTimes(table) && a.createdAt == b.createdAt
    requires a in multiset(Older(table, p, cutoff)) && b in multiset(Older(table, p, cutoff))
    ensures a == b
  {
    OlderCount(table, p, cutoff, a);
    OlderCount(table, p, cutoff, b);
    assert a in table && b in table;
  }

  /** With distinct timestamps the pages one after the other are the history, newest
      first, whatever the page size. */
  lemma DistinctTimesLoseNothing(table: seq<Message>, p: Message -> bool, k: nat, cutoff: int, pages: seq<Page>)
    requires k >= 1 && Walk(table, p, k, cutoff, pages) && DistinctTimes(table)
    ensures Flatten(pages) == Latest(Older(table, p, cutoff), |Older(table, p, cutoff)|)
  {
    DistinctTiesTogether(table, p, k, cutoff, pages);
    PagesAreHistory(table, p, k, cutoff, pages);
    PagesDescend(table, p, k, cutoff, pages);
    var rows := Older(table, p, cutoff);
    forall a: Message, b: Message | a in multiset(rows) && b in multiset(rows) && a.createdAt == b.createdAt ensures a == b {
      DistinctTimesDecide(table, p, cutoff, a, b);
    }
    SortedIsUnique(rows, Flatten(pages));
  }

  lemma DistinctOnce(table: seq<Message>, m: Message)
    requires DistinctTimes(table)
    ensures multiset(table)[m] <= 1
  {
    if m in table {
      var i :| 0 <= i < |table| && table[i] == m;
      assert table == table[..i] + [m] + table[i + 1..];
      assert m !in table[..i] && m !in table[i + 1..];
      assert multiset(table) == multiset(table[..i]) + multiset{m} + multiset(table[i + 1..]);
    }
  }

  lemma DistinctEndsCleanly(table: seq<Message>, p: Message -> bool, k: nat, cutoff: int, page: Page)
    requires Answer(table, p, k, cutoff, page)
    requires DistinctTimes(table)
    ensures EndsCleanly(LeftBehind(table, p, cutoff, page), page)
  {
    var last := Last(page);
    forall r | r in LeftBehind(table, p, cutoff, page) ensures r.createdAt != last.createdAt {
      OlderCount(table, p, cutoff, r);
      OlderCount(table, p, cutoff, last);
      assert last in multiset(page);
      DistinctOnce(table, last);
      assert r != last;
      assert r in table && last in table;
    }
  }

  lemma {:induction false} DistinctTiesTogether(table: seq<Message>, p: Message -> bool, k: nat, cutoff: int,
                                                pages: seq<Page>)
    requires Walk(table, p, k, cutoff, pages)
    requires DistinctTimes(table)
    ensures TiesStayTogether(table, p, cutoff, pages)
    decreases |pages|
  {
    if pages != [] {
      DistinctEndsCleanly(table, p, k, cutoff, pages[0]);
      DistinctTiesTogether(table, p, k, Last(pages[0]).createdAt, pages[1..]);
    }
  }

  lemma TiedRows(table: seq<Message>, p: Message -> bool, t: int)
    requires |table| == 2 && table[0].createdAt == table[1].createdAt == t && p(table[0]) && p(table[1])
    ensures multiset(Older(table, p, t + 1)) == multiset(table)
    ensures multiset(Older(table, p, t)) == multiset{}
  {
    forall m ensures multiset(Older(table, p, t + 1))[m] == multiset(table)[m] {
      OlderCount(table, p, t + 1, m);
      assert m in table ==> m == table[0] || m == table[1];
    }
    forall m ensures multiset(Older(table, p, t))[m] == 0 {
      OlderCount(table, p, t, m);
      assert m in table ==> m == table[0] || m == table[1];
    }
  }

  lemma OneOfTwo(table: seq<Message>, page: seq<Message>)
    requires |table| == 2 && table[0].createdAt == table[1].createdAt && page == [table[0]]
    ensures IsLatest(multiset(table), 1, page)
  {
    assert table == [table[0]] + [table[1]];
    assert multiset(table) - multiset(page) == multiset{table[1]};
    assert |multiset(table)| == 2;
  }

  lemma EndOfWalk(table: seq<Message>, p: Message -> bool, k: nat, cutoff: int)
    requires multiset(Older(table, p, cutoff)) == multiset{}
    ensures Walk(table, p, k, cutoff, [])
  {
    assert Answer(table, p, k, cutoff, []);
  }

  lemma FirstAnswer(table: seq<Message>, p: Message -> bool, cutoff: int, page: Page)
    requires |table| == 2 && table[0].createdAt == table[1].createdAt && page == [table[0]]
    requires multiset(Older(table, p, cutoff)) == multiset(table)
    ensures Answer(table, p, 1, cutoff, page)
  {
    OneOfTwo(table, page);
  }

  /** Two messages with one timestamp and pages of one: the second is never returned. */
  lemma TiedRowIsSkipped(table: seq<Message>, p: Message -> bool, t: int, page: Page) returns (pages: seq<Page>)
    requires |table| == 2 && table[0] != table[1] && table[0].createdAt == table[1].createdAt == t
    requires p(table[0]) && p(table[1]) && page == [table[0]]
    ensures Walk(table, p, 1, t + 1, pages) && !TiesStayTogether(table, p, t + 1, pages)
    ensures table[1] !in Flatten(pages)
  {
    TiedRows(table, p, t);
    pages := SplitWalk(table, p, t, page);
  }

  lemma SplitWalk(table: seq<Message>, p: Message -> bool, t: int, page: Page) returns (pages: seq<Page>)
    requires |table| == 2 && table[0] != table[1] && table[0].createdAt == table[1].createdAt == t && page == [table[0]]
    requires multiset(Older(table, p, t + 1)) == multiset(table) && multiset(Older(table, p, t)) == multiset{}
    ensures Walk(table, p, 1, t + 1, pages) && !TiesStayTogether(table, p, t + 1, pages)
    ensures table[1] !in Flatten(pages)
  {
    TieIsSplit(table, p, t + 1, page);
    pages := OnePageWalk(table, p, t, page);
    OnePage(page);
  }

  lemma OnePage(page: Page)
    ensures Flatten([page] + []) == page
  {
    assert ([page] + [])[1..] == [];
    assert page + [] == page;
  }

  lemma OnePageWalk(table: seq<Message>, p: Message -> bool, t: int, page: Page) returns (pages: seq<Page>)
    requires |table| == 2 && table[0].createdAt == table[1].createdAt == t && page == [table[0]]
    requires multiset(Older(table, p, t + 1)) == multiset(table) && multiset(Older(table, p, t)) == multiset{}
    ensures Walk(table, p, 1, t + 1, pages) && pages == [page] + []
  {
    FirstAnswer(table, p, t + 1, page);
    EndOfWalk(table, p, 1, t);
    pages := [page] + [];
    WalkCons(table, p, 1, t + 1, page, []);
  }

  lemma TieIsSplit(table: seq<Message>, p: Message -> bool, cutoff: int, page: Page)
    requires |table| == 2 && table[0] != table[1] && table[0].createdAt == table[1].createdAt
    requires multiset(Older(table, p, cutoff)) == multiset(table) && page == [table[0]]
    ensures !TiesStayTogether(table, p, cutoff, [page] + [])
  {
    assert table[1] in LeftBehind(table, p, cutoff, page) by {
      assert table[1] in multiset(table) && table[1] !in page;
    }
  }
}
