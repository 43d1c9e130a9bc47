/** The markets page (`src/app/markets/page.tsx`): the page-number strip of its pager, the
    column sort, the displayed rank, and which `/api/tokens` request the page state asks for. */
module MarketsPage {

  import opened Common
  import opened Lists
  import Upstream
  import TokensRoute
  import Paging

  const MaxPages := 50

  // ---------------------------------------------------------------- the page-number strip

  /** One entry of the strip: a page button, or an ellipsis. */
  datatype PageItem = Num(n: int) | Dots

  /** The buttons `lo`, `lo + 1`, …, `hi` (none when `lo > hi`). */
  function Span(lo: int, hi: int): (r: seq<PageItem>)
    ensures |r| == if lo <= hi then hi - lo + 1 else 0
    ensures forall k :: 0 <= k < |r| ==> r[k] == Num(lo + k)
  {
    seq(if lo <= hi then hi - lo + 1 else 0, k => Num(lo + k))
  }

  /** The strip for `page`: the first page, an ellipsis when page 2 is out of view, the pages
      around the current one, an ellipsis when page 49 is out of view, and the last page unless
      it is already there. */
  function PageNumbers(page: int): seq<PageItem>
  {
    var body := StripBody(page);
    if Num(MaxPages) in body then body else body + [Num(MaxPages)]
  }

  /** The strip before the last page is added. */
  function StripBody(page: int): seq<PageItem>
  {
    var lead := [Num(1)] + (if page > 3 then [Dots] else []);
    lead + Span(Max(2, page - 1), Min(MaxPages, page + 1)) + (if page < MaxPages - 2 then [Dots] else [])
  }

  /** `getPageNumbers`: pushes onto a list, with a loop over the pages around the current one. */
  method GetPageNumbers(page: int) returns (pages: seq<PageItem>)
    ensures pages == PageNumbers(page)
  {
    pages := [];
    pages := pages + [Num(1)];
    if page > 3 {
      pages := pages + [Dots];
    }
    ghost var lead := pages;
    var lo, hi := Max(2, page - 1), Min(MaxPages, page + 1);
    var i := lo;
    while i <= hi
      invariant lo <= i <= Max(lo, hi + 1)
      invariant pages == lead + Span(lo, i - 1)
    {
      pages := pages + [Num(i)];
      i := i + 1;
    }
    assert pages == lead + Span(lo, hi);
    if page < MaxPages - 2 {
      pages := pages + [Dots];
    }
    assert pages == StripBody(page);
    if MaxPages > 1 && Num(MaxPages) !in pages {
      pages := pages + [Num(MaxPages)];
    }
  }

  /** The strip spelled out for each range of pages. */
  lemma PageNumbersCases(page: int)
    ensures page <= 0 || page >= 52 ==> PageNumbers(page) == [Num(1), Dots, Num(MaxPages)]
    ensures 1 <= page <= 3 ==> PageNumbers(page) == [Num(1)] + Span(2, page + 1) + [Dots, Num(MaxPages)]
    ensures 4 <= page <= 47 ==> PageNumbers(page) == [Num(1), Dots] + Span(page - 1, page + 1) + [Dots, Num(MaxPages)]
    ensures page == 48 ==> PageNumbers(page) == [Num(1), Dots] + Span(47, 49) + [Num(MaxPages)]
    ensures 49 <= page <= 51 ==> PageNumbers(page) == [Num(1), Dots] + Span(page - 1, MaxPages)
  {
    if page <= 0 || page >= 52 {
      StripOutside(page);
    } else if page <= 3 {
      StripLow(page);
    } else if page <= 47 {
      StripMiddle(page);
      assert Span(page - 1, page + 1) == [Num(page - 1), Num(page), Num(page + 1)];
    } else if page == 48 {
      StripNearEnd();
      assert Span(47, 49) == [Num(47), Num(48), Num(49)];
    } else {
      StripEnd(page);
    }
  }

  lemma StripOutside(page: int)
    requires page <= 0 || page >= 52
    ensures PageNumbers(page) == [Num(1), Dots, Num(MaxPages)]
  {
    var body := StripBody(page);
    assert Span(Max(2, page - 1), Min(MaxPages, page + 1)) == [];
    assert body == [Num(1), Dots];
  }

  lemma StripLow(page: int)
    requires 1 <= page <= 3
    ensures PageNumbers(page) == [Num(1)] + Span(2, page + 1) + [Dots, Num(MaxPages)]
  {
    var body := StripBody(page);
    assert body == [Num(1)] + Span(2, page + 1) + [Dots];
    assert Num(MaxPages) !in body by {
      assert forall k :: 0 <= k < |body| ==> body[k] != Num(MaxPages);
    }
  }

  lemma StripMiddle(page: int)
    requires 4 <= page <= 47
    ensures PageNumbers(page) == [Num(1), Dots, Num(page - 1), Num(page), Num(page + 1), Dots, Num(MaxPages)]
  {
    var body := StripBody(page);
    assert Span(page - 1, page + 1) == [Num(page - 1), Num(page), Num(page + 1)];
    assert body == [Num(1), Dots, Num(page - 1), Num(page), Num(page + 1), Dots];
  }

  lemma StripNearEnd()
    ensures PageNumbers(48) == [Num(1), Dots, Num(47), Num(48), Num(49), Num(MaxPages)]
  {
    assert Span(47, 49) == [Num(47), Num(48), Num(49)];
    assert StripBody(48) == [Num(1), Dots, Num(47), Num(48), Num(49)];
  }

  lemma StripEnd(page: int)
    requires 49 <= page <= 51
    ensures PageNumbers(page) == [Num(1), Dots] + Span(page - 1, MaxPages)
  {
    var body := StripBody(page);
    assert body == [Num(1), Dots] + Span(page - 1, MaxPages);
    assert body[|body| - 1] == Num(MaxPages);
  }

  /** The strip always runs from page 1 to page 50, and shows exactly the first page, the last
      page and the pages next to the current one; the current page itself whenever it exists. */
  lemma PageNumbersMembers(page: int)
    ensures var r := PageNumbers(page);
      && |r| >= 3 && r[0] == Num(1) && r[|r| - 1] == Num(MaxPages)
      && (forall n :: Num(n) in r <==> n == 1 || n == MaxPages || Max(2, page - 1) <= n <= Min(MaxPages, page + 1))
      && (1 <= page <= MaxPages ==> Num(page) in r)
  {
    PageNumbersCases(page);
    var r := PageNumbers(page);
    forall n
      ensures Num(n) in r <==> n == 1 || n == MaxPages || Max(2, page - 1) <= n <= Min(MaxPages, page + 1)
    {
      if Max(2, page - 1) <= n <= Min(MaxPages, page + 1) {
        var s := Span(Max(2, page - 1), Min(MaxPages, page + 1));
        assert s[n - Max(2, page - 1)] == Num(n);
      }
    }
  }

  /** An ellipsis leads exactly when the current page is past 3 and trails exactly when it is
      before 48. */
  lemma PageNumbersDots(page: int)
    requires 1 <= page <= MaxPages
    ensures var r := PageNumbers(page);
      && (r[1] == Dots <==> page > 3)
      && (r[|r| - 2] == Dots <==> page < MaxPages - 2)
  {
    PageNumbersCases(page);
  }

  /** Neighbouring buttons are consecutive pages, and an ellipsis always stands between two
      buttons, for at least one skipped page: the strip leaves no page out silently and never
      shows two ellipses in a row. */
  predicate WellSpaced(r: seq<PageItem>)
  {
    && (forall i :: 0 <= i < |r| - 1 && r[i].Num? && r[i + 1].Num? ==> r[i + 1].n == r[i].n + 1)
    && (forall i :: 0 <= i < |r| && r[i].Dots? ==>
          0 < i < |r| - 1 && r[i - 1].Num? && r[i + 1].Num? && r[i + 1].n >= r[i - 1].n + 2)
  }

  lemma PageNumbersWellSpaced(page: int)
    ensures WellSpaced(PageNumbers(page))
  {
    if page <= 0 || page >= 52 {
      OutsideStripWellSpaced(page);
    } else if page <= 3 {
      LowStripWellSpaced(page);
    } else if page <= 47 {
      MiddleStripWellSpaced(page);
    } else {
      EndStripWellSpaced(page);
    }
  }

  lemma OutsideStripWellSpaced(page: int)
    requires page <= 0 || page >= 52
    ensures WellSpaced(PageNumbers(page))
  {
    StripOutside(page);
    assert PageNumbers(page) == Span(1, 1) + [Dots] + Span(MaxPages, MaxPages);
    JoinDots(Span(1, 1), Span(MaxPages, MaxPages));
  }

  lemma MiddleStripWellSpaced(page: int)
    requires 4 <= page <= 47
    ensures WellSpaced(PageNumbers(page))
  {
    StripMiddle(page);
  }

  lemma EndStripWellSpaced(page: int)
    requires 48 <= page <= 51
    ensures WellSpaced(PageNumbers(page))
  {
    var lo := page - 1;
    if page == 48 {
      StripNearEnd();
      assert PageNumbers(page) == Span(1, 1) + [Dots] + Span(lo, MaxPages);
    } else {
      StripEnd(page);
      assert PageNumbers(page) == Span(1, 1) + [Dots] + Span(lo, MaxPages);
    }
    JoinDots(Span(1, 1), Span(lo, MaxPages));
  }

  lemma LowStripWellSpaced(page: int)
    requires 1 <= page <= 3
    ensures WellSpaced(PageNumbers(page))
  {
    StripLow(page);
    var run := Span(1, page + 1);
    assert [Num(1)] + Span(2, page + 1) == run;
    assert PageNumbers(page) == run + [Dots] + Span(MaxPages, MaxPages);
    JoinDots(run, Span(MaxPages, MaxPages));
  }

  /** Two well-spaced runs of buttons joined by an ellipsis stay well spaced when the ellipsis
      hides at least one page. */
  lemma JoinDots(a: seq<PageItem>, b: seq<PageItem>)
    requires WellSpaced(a) && WellSpaced(b) && a != [] && b != []
    requires a[|a| - 1].Num? && b[0].Num? && b[0].n >= a[|a| - 1].n + 2
    ensures WellSpaced(a + [Dots] + b)
  {
    var r := a + [Dots] + b;
    forall i | 0 <= i < |r| - 1 && r[i].Num? && r[i + 1].Num?
      ensures r[i + 1].n == r[i].n + 1
    {
      if i < |a| - 1 {
        assert r[i] == a[i] && r[i + 1] == a[i + 1];
      } else {
        assert i > |a| && r[i] == b[i - |a| - 1] && r[i + 1] == b[i - |a|];
      }
    }
    forall i | 0 <= i < |r| && r[i].Dots?
      ensures 0 < i < |r| - 1 && r[i - 1].Num? && r[i + 1].Num? && r[i + 1].n >= r[i - 1].n + 2
    {
      if i < |a| {
        assert r[i] == a[i] && r[i - 1] == a[i - 1] && r[i + 1] == a[i + 1];
      } else if i > |a| {
        var j := i - |a| - 1;
        assert r[i] == b[j] && r[i - 1] == b[j - 1] && r[i + 1] == b[j + 1];
      } else {
        assert r[i - 1] == a[|a| - 1] && r[i + 1] == b[0];
      }
    }
  }

  /** The strip's buttons strictly increase from left to right. */
  lemma PageNumbersIncreasing(page: int)
    ensures var r := PageNumbers(page);
      forall i, j :: 0 <= i < j < |r| && r[i].Num? && r[j].Num? ==> r[i].n < r[j].n
  {
    PageNumbersWellSpaced(page);
    WellSpacedIncreasing(PageNumbers(page));
  }

  /** In a well-spaced strip the buttons strictly increase. */
  lemma {:induction false} WellSpacedIncreasing(r: seq<PageItem>)
    requires WellSpaced(r)
    ensures forall i, j :: 0 <= i < j < |r| && r[i].Num? && r[j].Num? ==> r[i].n < r[j].n
  {
    forall i, j | 0 <= i < j < |r| && r[i].Num? && r[j].Num?
      ensures r[i].n < r[j].n
    {
      Increasing(r, i, j);
    }
  }

  lemma {:induction false} Increasing(r: seq<PageItem>, i: int, j: int)
    requires WellSpaced(r) && 0 <= i < j < |r| && r[i].Num? && r[j].Num?
    ensures r[i].n < r[j].n
    decreases j - i
  {
    if r[j - 1].Num? {
      if j - 1 > i {
        Increasing(r, i, j - 1);
      }
    } else {
      if j - 2 > i {
        Increasing(r, i, j - 2);
      }
    }
  }

  // ---------------------------------------------------------------- the column sort

  datatype SortKey = Rank | Price | Change1h | Change24h | Change7d | Volume | MarketCap
  datatype SortDir = Asc | Desc

  datatype SortState = SortState(key: SortKey, dir: SortDir)

  const InitialSort := SortState(Rank, Asc)

  function Flip(d: SortDir): SortDir
  {
    if d == Asc then Desc else Asc
  }

  /** `handleSort`: clicking the active column flips the direction; clicking another column
      makes it active, ascending for the rank and descending for the rest. */
  function HandleSort(s: SortState, key: SortKey): (t: SortState)
    ensures t.key == key
  {
    if s.key == key then s.(dir := Flip(s.dir))
    else SortState(key, if key == Rank then Asc else Desc)
  }

  /** Clicking the active column flips the direction and a second click restores it; a new column
      starts ascending for the rank and descending otherwise. */
  lemma HandleSortRules(s: SortState, key: SortKey)
    ensures s.key == key ==> HandleSort(s, key).dir != s.dir && HandleSort(HandleSort(s, key), key) == s
    ensures s.key != key ==> HandleSort(s, key).dir == (if key == Rank then Asc else Desc)
  {
  }

  /** `a[sortKey] ?? 0`: the column's value, 0 when the row has none. */
  function SortValue(c: Upstream.Coin, key: SortKey): real
  {
    match key
    case Rank => if c.marketCapRank.Some? then c.marketCapRank.value as real else 0.0
    case Price => OrZero(c.currentPrice)
    case Change1h => OrZero(c.change1h)
    case Change24h => OrZero(c.change24h)
    case Change7d => OrZero(c.change7d)
    case Volume => OrZero(c.totalVolume)
    case MarketCap => OrZero(c.marketCap)
  }

  function KeyOf(key: SortKey): Upstream.Coin -> real
  {
    c => SortValue(c, key)
  }

  /** `sorted`: a sorted copy of the fetched rows. */
  function Sorted(coins: seq<Upstream.Coin>, s: SortState): seq<Upstream.Coin>
  {
    SortByKey(coins, KeyOf(s.key), s.dir == Asc)
  }

  /** The table shows the fetched rows, each once, in the order of the active column and direction,
      a missing value counting as 0. */
  lemma SortedSpec(coins: seq<Upstream.Coin>, s: SortState)
    ensures multiset(Sorted(coins, s)) == multiset(coins)
    ensures |Sorted(coins, s)| == |coins|
    ensures forall i, j :: 0 <= i < j < |coins| ==>
      var r := Sorted(coins, s);
      if s.dir == Asc then SortValue(r[i], s.key) <= SortValue(r[j], s.key)
      else SortValue(r[j], s.key) <= SortValue(r[i], s.key)
  {
    SortByKeySpec(coins, KeyOf(s.key), s.dir == Asc);
  }

  // ---------------------------------------------------------------- the rank column

  /** `market_cap_rank || (page - 1) * 100 + i + 1`. */
  function DisplayRank(c: Upstream.Coin, page: int, i: int): int
  {
    if c.marketCapRank.Some? && c.marketCapRank.value != 0 then c.marketCapRank.value
    else (page - 1) * Paging.PerPage + i + 1
  }

  /** A row without a rank is numbered by its position across pages: on page `page` the positions
      run from `(page - 1) * 100 + 1` to `page * 100`, so two rows of different pages or positions
      never get the same fallback number. */
  lemma DisplayRankFallback(c: Upstream.Coin, d: Upstream.Coin, page: int, i: int, page': int, j: int)
    requires c.marketCapRank.None? || c.marketCapRank.value == 0
    requires d.marketCapRank.None? || d.marketCapRank.value == 0
    requires 0 <= i < Paging.PerPage && 0 <= j < Paging.PerPage
    ensures (page - 1) * Paging.PerPage < DisplayRank(c, page, i) <= page * Paging.PerPage
    ensures DisplayRank(c, page, i) == DisplayRank(d, page', j) ==> page == page' && i == j
  {
  }

  /** A ranked row always shows its own rank. */
  lemma DisplayRankRanked(c: Upstream.Coin, page: int, i: int)
    requires c.marketCapRank.Some? && c.marketCapRank.value != 0
    ensures DisplayRank(c, page, i) == c.marketCapRank.value
  {
  }

  // ---------------------------------------------------------------- tabs, search and the request

  datatype View = Top | Trending | Gainers | Losers

  function ViewName(v: View): string
  {
    match v
    case Top => "top"
    case Trending => "trending"
    case Gainers => "gainers"
    case Losers => "losers"
  }

  /** The state the request depends on. */
  datatype Controls = Controls(view: View, page: int, search: string)

  const InitialControls := Controls(Top, 1, "")

  /** The `/api/tokens` query of `fetchCoins`: a search when the box holds text, otherwise the
      view's page of 100. */
  function FetchRequest(c: Controls): TokensRoute.Request
  {
    if c.search != "" then TokensRoute.Request(Some("search"), Some(c.search), None, None)
    else TokensRoute.Request(Some(ViewName(c.view)), None, Some(c.page), Some(Paging.PerPage))
  }

  /** The route reads the request as meant: with search text, the search view on that text; without,
      the selected view, the current page and 100 rows a page. */
  lemma FetchRequestReadByRoute(c: Controls)
    ensures c.search != "" ==>
      TokensRoute.ViewOf(FetchRequest(c)) == "search" && TokensRoute.QueryOf(FetchRequest(c)) == c.search
    ensures c.search == "" ==>
      && TokensRoute.ViewOf(FetchRequest(c)) == ViewName(c.view)
      && TokensRoute.PageOf(FetchRequest(c)) == c.page
      && TokensRoute.PerPageOf(FetchRequest(c)) == Paging.PerPage
      && TokensRoute.QueryOf(FetchRequest(c)) == ""
  {
  }

  /** Clicking a tab: that view, back to page 1, search cleared. */
  function SelectTab(c: Controls, tab: View): Controls
  {
    Controls(tab, 1, "")
  }

  /** A tab is highlighted when it is the view and no search is active. */
  predicate TabActive(c: Controls, tab: View)
  {
    c.view == tab && c.search == ""
  }

  /** The pager is shown on the top view only, and not while searching. */
  predicate PagerShown(c: Controls)
  {
    c.view == Top && c.search == ""
  }

  /** After a tab click exactly that tab is highlighted, the pager shows exactly for the top view,
      and the page asks the route for the first page of that view. */
  lemma SelectTabRules(c: Controls, tab: View, other: View)
    ensures TabActive(SelectTab(c, tab), other) <==> other == tab
    ensures PagerShown(SelectTab(c, tab)) <==> tab == Top
    ensures FetchRequest(SelectTab(c, tab)) == TokensRoute.Request(Some(ViewName(tab)), None, Some(1), Some(Paging.PerPage))
  {
  }

  /** Moving to page `p` (a strip button, Previous or Next). */
  function GoTo(c: Controls, p: int): Controls
  {
    c.(page := p)
  }

  /** On the pager's page `c.page`, Previous asks for the page before (page 1 stays put) and Next
      for the page after; when each button is enabled is `Paging.PrevNextRules`. */
  lemma PagerRequests(c: Controls)
    requires PagerShown(c) && c.page >= 1
    ensures TokensRoute.PageOf(FetchRequest(GoTo(c, Paging.PrevPage(c.page)))) == if c.page == 1 then 1 else c.page - 1
    ensures TokensRoute.PageOf(FetchRequest(GoTo(c, c.page + 1))) == c.page + 1
  {
    Paging.PrevNextRules(c.page, 0);
  }
}
