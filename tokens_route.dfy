/** The coin listing endpoint (`GET` in `src/app/api/tokens/route.ts`): one handler serving six
    views (top, gainers and losers from CoinGecko markets, CoinGecko trending, new DexScreener
    pairs, and a mixed CoinGecko + DexScreener search), each reshaped into CoinGecko-style rows. */
module TokensRoute {

  import opened Common
  import opened Lists
  import opened Upstream
  import DexScreener

  /** The query string. `page` and `perPage` are the integers `parseInt` reads, `None` when the
      parameter is absent or empty. */
  datatype Request = Request(view: Option<string>, q: Option<string>, page: Option<int>, perPage: Option<int>)

  /** The JSON body and status; a key the body does not have is `None`. */
  datatype Response = Response(
    status: int, coins: seq<Coin>, source: Option<string>, error: Option<string>,
    page: Option<int>, view: Option<string>)

  const MaxPerPage := 250
  const DefaultPerPage := 100
  const MaxNewCoins := 50
  const MaxSearchIds := 20
  const MaxDexSearchRows := 20

  const RateLimited := Response(429, [], Some("coingecko"), Some("Rate limited, try again in 30s"), None, None)
  const ServerError := Response(500, [], None, Some("Server error"), None, None)

  // ---------------------------------------------------------------- query parameters

  /** `searchParams.get('view') || 'top'`. */
  function ViewOf(req: Request): (v: string)
    ensures Truthy(req.view) ==> v == req.view.value
    ensures !Truthy(req.view) ==> v == "top"
  {
    if Truthy(req.view) then req.view.value else "top"
  }

  /** `searchParams.get('q') || ''`. */
  function QueryOf(req: Request): string
  {
    OrEmpty(req.q)
  }

  /** `parseInt(page || '1')`. */
  function PageOf(req: Request): (p: int)
    ensures req.page.None? ==> p == 1
    ensures req.page.Some? ==> p == req.page.value
  {
    if req.page.Some? then req.page.value else 1
  }

  /** `Math.min(parseInt(per_page || '100'), 250)`: never above 250, 100 when absent, and any
      smaller request honoured as asked (there is no lower bound). */
  function PerPageOf(req: Request): (n: int)
    ensures n <= MaxPerPage
    ensures req.perPage.None? ==> n == DefaultPerPage
    ensures req.perPage.Some? && req.perPage.value <= MaxPerPage ==> n == req.perPage.value
    ensures req.perPage.Some? && req.perPage.value > MaxPerPage ==> n == MaxPerPage
  {
    Min(if req.perPage.Some? then req.perPage.value else DefaultPerPage, MaxPerPage)
  }

  predicate IsMarketView(view: string)
  {
    view == "top" || view == "gainers" || view == "losers"
  }

  // ---------------------------------------------------------------- top, gainers, losers

  /** `price_change_percentage_24h || 0`, the sort key of the gainers and losers views. */
  function Change24h(c: Coin): real
  {
    OrZero(c.change24h)
  }

  // ---------------------------------------------------------------- trending

  /** One trending entry reshaped as a market row: the small image, else the thumbnail; the
      price, caps, volume and 24-hour change read from `data` when it is there. */
  function TrendingRow(it: TrendingItem): Coin
  {
    var d := it.data;
    Coin(
      it.id, it.symbol, it.name,
      if Truthy(it.small) then it.small else it.thumb,
      if d.Some? then d.value.price else None,
      if d.Some? then d.value.marketCap else None,
      if d.Some? then d.value.totalVolume else None,
      None,
      if d.Some? then d.value.change24hUsd else None,
      None,
      it.marketCapRank, it.score,
      None, None, None, None, None, None, None,
      false)
  }

  function TrendingRows(body: TrendingBody): seq<Coin>
  {
    Map(if body.coins.Some? then body.coins.value else [], TrendingRow)
  }

  // ---------------------------------------------------------------- DEX rows

  /** `p.baseToken?.address`: the dedup key of the new view and the id of a DEX row. */
  function BaseAddress(p: DexScreener.Pair): Option<string>
  {
    if p.baseToken.Some? then Some(p.baseToken.value.address) else None
  }

  /** `parseFloat(p.priceUsd || '0')`, where `parseFloat` answers `None` for NaN. */
  function PriceOf(p: DexScreener.Pair, parseFloat: string -> Option<real>): Option<real>
  {
    if Truthy(p.priceUsd) then parseFloat(p.priceUsd.value) else Some(0.0)
  }

  /** A pair of the new view as a market row: defaults of 0 for the numbers, a trade count only
      when the 24-hour counts exist, and the DEX marker set. */
  function NewCoin(p: DexScreener.Pair, parseFloat: string -> Option<real>): Coin
  {
    var t := p.txnsH24;
    Coin(
      BaseAddress(p),
      if p.baseToken.Some? then Some(p.baseToken.value.symbol) else None,
      if p.baseToken.Some? then Some(p.baseToken.value.name) else None,
      None,
      PriceOf(p, parseFloat),
      Some(DexScreener.MarketCapOf(p)),
      Some(OrZero(p.volumeH24)),
      Some(OrZero(p.priceChangeH1)),
      Some(OrZero(p.priceChangeH24)),
      None,
      None, None,
      Some(OrZero(p.liquidityUsd)),
      Some(if t.Some? then t.value.buys + t.value.sells else 0),
      Some(if t.Some? then t.value.buys else 0),
      Some(if t.Some? then t.value.sells else 0),
      p.pairCreatedAt,
      Some(p.chainId),
      Some(p.url),
      true)
  }

  function NewCoinRows(pairs: seq<DexScreener.Pair>, parseFloat: string -> Option<real>): seq<Coin>
  {
    Map(pairs, p => NewCoin(p, parseFloat))
  }

  /** A pair of a DexScreener search as a market row: the same fields as a new-view row except
      the 1-hour change, liquidity, trade counts and creation time, which it leaves out. */
  function DexSearchCoin(p: DexScreener.Pair, parseFloat: string -> Option<real>): Coin
  {
    Coin(
      BaseAddress(p),
      if p.baseToken.Some? then Some(p.baseToken.value.symbol) else None,
      if p.baseToken.Some? then Some(p.baseToken.value.name) else None,
      None,
      PriceOf(p, parseFloat),
      Some(DexScreener.MarketCapOf(p)),
      Some(OrZero(p.volumeH24)),
      None,
      Some(OrZero(p.priceChangeH24)),
      None,
      None, None,
      None, None, None, None, None,
      Some(p.chainId),
      Some(p.url),
      true)
  }

  function DexSearchRows(pairs: seq<DexScreener.Pair>, parseFloat: string -> Option<real>): seq<Coin>
  {
    Map(pairs, p => DexSearchCoin(p, parseFloat))
  }

  /** The two DEX reshapings agree on every field the search one fills in. */
  lemma DexRowsAgree(p: DexScreener.Pair, parseFloat: string -> Option<real>)
    ensures var n, s := NewCoin(p, parseFloat), DexSearchCoin(p, parseFloat);
      && s == n.(change1h := None, liquidity := None, txns24h := None, buys24h := None,
                sells24h := None, pairCreatedAt := None)
      && n.isDex && s.isDex && n.image.None? && s.image.None?
  {
  }

  /** In a new-view row the 24-hour trade count is always the buys plus the sells shown beside it. */
  lemma NewCoinTradeCounts(p: DexScreener.Pair, parseFloat: string -> Option<real>)
    ensures var c := NewCoin(p, parseFloat);
      c.txns24h.Some? && c.buys24h.Some? && c.sells24h.Some? &&
      c.txns24h.value == c.buys24h.value + c.sells24h.value
  {
  }

  // ---------------------------------------------------------------- new pairs

  /** The pairs the new view looks up: the details of the boosted addresses, none when there is
      no address or the lookup is not OK. */
  function NewViewPairs(up: Outcomes): seq<DexScreener.Pair>
  {
    if up.boosts.Ok? && BoostedAddresses(up.boosts.payload) != [] then DexScreener.PairsResult(up.details) else []
  }

  /** The new view's rows: first pair per base address, at most 50, reshaped. */
  function NewCoins(pairs: seq<DexScreener.Pair>, parseFloat: string -> Option<real>): seq<Coin>
  {
    NewCoinRows(Take(DedupBy(pairs, BaseAddress), MaxNewCoins), parseFloat)
  }

  /** The new view lists at most 50 DEX rows, no two with the same id (pairs without a base
      token share the one id `undefined`, so at most one of them is listed). */
  lemma NewCoinsSpec(pairs: seq<DexScreener.Pair>, parseFloat: string -> Option<real>)
    ensures var r := NewCoins(pairs, parseFloat);
      && |r| <= MaxNewCoins
      && (forall i :: 0 <= i < |r| ==> r[i].isDex)
      && (forall i, j :: 0 <= i < j < |r| ==> r[i].id != r[j].id)
  {
    var d := DedupBy(pairs, BaseAddress);
    var t := Take(d, MaxNewCoins);
    var r := NewCoins(pairs, parseFloat);
    DedupFromDistinct(pairs, BaseAddress, {});
    PrefixKeysDistinct(d, BaseAddress, |t|);
    assert forall i :: 0 <= i < |r| ==> r[i].id == BaseAddress(t[i]);
  }

  /** Each row of the new view is made from the first pair of its base token in the lookup. */
  lemma NewCoinsFromFirsts(pairs: seq<DexScreener.Pair>, parseFloat: string -> Option<real>)
    ensures var r := NewCoins(pairs, parseFloat);
      forall i :: 0 <= i < |r| ==>
        exists k :: 0 <= k < |pairs| && r[i] == NewCoin(pairs[k], parseFloat) && FirstOfKey(pairs, BaseAddress, k)
  {
    var d := DedupBy(pairs, BaseAddress);
    var t := Take(d, MaxNewCoins);
    var r := NewCoins(pairs, parseFloat);
    DedupFromKeepsFirsts(pairs, BaseAddress, {});
    forall i | 0 <= i < |r|
      ensures exists k :: 0 <= k < |pairs| && r[i] == NewCoin(pairs[k], parseFloat) && FirstOfKey(pairs, BaseAddress, k)
    {
      assert t[i] == d[i] && d[i] in d;
      var k :| 0 <= k < |pairs| && pairs[k] == d[i] && FirstOfKey(pairs, BaseAddress, k);
      assert r[i] == NewCoin(pairs[k], parseFloat);
    }
  }

  /** Rows `x` and `y` are made from the first pairs of their base tokens, `x`'s pair earlier. */
  ghost predicate EarlierRows(pairs: seq<DexScreener.Pair>, parseFloat: string -> Option<real>, x: Coin, y: Coin)
  {
    exists a, b ::
      && EarlierFirsts(pairs, BaseAddress, a, b)
      && x == NewCoin(a, parseFloat) && y == NewCoin(b, parseFloat)
  }

  /** The new view's rows follow the order of the first pairs of their base tokens, and no base
      token is passed over in favour of one whose first pair comes later. */
  lemma NewCoinsOrder(pairs: seq<DexScreener.Pair>, parseFloat: string -> Option<real>)
    ensures var r := NewCoins(pairs, parseFloat);
      && (forall j1, j2 :: 0 <= j1 < j2 < |r| ==> EarlierRows(pairs, parseFloat, r[j1], r[j2]))
      && (forall k1, k2 ::
            && 0 <= k1 < k2 < |pairs|
            && FirstOfKey(pairs, BaseAddress, k1) && FirstOfKey(pairs, BaseAddress, k2)
            && NewCoin(pairs[k2], parseFloat) in r
            ==> NewCoin(pairs[k1], parseFloat) in r)
  {
    var d := DedupBy(pairs, BaseAddress);
    var t := Take(d, MaxNewCoins);
    var r := NewCoins(pairs, parseFloat);
    TakeFirstsOrder(pairs, BaseAddress, MaxNewCoins);
    forall j1, j2 | 0 <= j1 < j2 < |r|
      ensures EarlierRows(pairs, parseFloat, r[j1], r[j2])
    {
      assert EarlierFirsts(pairs, BaseAddress, t[j1], t[j2]);
      assert r[j1] == NewCoin(t[j1], parseFloat) && r[j2] == NewCoin(t[j2], parseFloat);
    }
    NewCoinsNoSkip(pairs, parseFloat);
  }

  lemma NewCoinsNoSkip(pairs: seq<DexScreener.Pair>, parseFloat: string -> Option<real>)
    ensures var r := NewCoins(pairs, parseFloat);
      forall k1, k2 ::
        && 0 <= k1 < k2 < |pairs|
        && FirstOfKey(pairs, BaseAddress, k1) && FirstOfKey(pairs, BaseAddress, k2)
        && NewCoin(pairs[k2], parseFloat) in r
        ==> NewCoin(pairs[k1], parseFloat) in r
  {
    var d := DedupBy(pairs, BaseAddress);
    var t := Take(d, MaxNewCoins);
    var r := NewCoins(pairs, parseFloat);
    TakeFirstsNoSkip(pairs, BaseAddress, MaxNewCoins);
    DedupFromKeepsFirsts(pairs, BaseAddress, {});
    forall k1, k2 |
      && 0 <= k1 < k2 < |pairs|
      && FirstOfKey(pairs, BaseAddress, k1) && FirstOfKey(pairs, BaseAddress, k2)
      && NewCoin(pairs[k2], parseFloat) in r
      ensures NewCoin(pairs[k1], parseFloat) in r
    {
      var j :| 0 <= j < |r| && r[j] == NewCoin(pairs[k2], parseFloat);
      assert r[j] == NewCoin(t[j], parseFloat);
      assert t[j] == d[j] && d[j] in d;
      var i :| 0 <= i < |pairs| && pairs[i] == d[j] && FirstOfKey(pairs, BaseAddress, i);
      FirstOfKeyUnique(pairs, BaseAddress, k2, i);
      assert pairs[k2] in t;
      var j1 :| 0 <= j1 < |t| && t[j1] == pairs[k1];
      assert r[j1] == NewCoin(pairs[k1], parseFloat);
    }
  }

  /** When fewer than 50 rows are listed, every base token of the lookup has its row. */
  lemma NewCoinsCover(pairs: seq<DexScreener.Pair>, parseFloat: string -> Option<real>)
    ensures var r := NewCoins(pairs, parseFloat);
      |r| < MaxNewCoins ==> forall k :: 0 <= k < |pairs| ==> exists i :: 0 <= i < |r| && r[i].id == BaseAddress(pairs[k])
  {
    var d := DedupBy(pairs, BaseAddress);
    var t := Take(d, MaxNewCoins);
    var r := NewCoins(pairs, parseFloat);
    if |r| < MaxNewCoins {
      assert t == d;
      DedupFromCovers(pairs, BaseAddress, {});
      forall k | 0 <= k < |pairs|
        ensures exists i :: 0 <= i < |r| && r[i].id == BaseAddress(pairs[k])
      {
        var y :| y in d && BaseAddress(y) == BaseAddress(pairs[k]);
        var i :| 0 <= i < |d| && d[i] == y;
        assert r[i].id == BaseAddress(y);
      }
    }
  }

  // ---------------------------------------------------------------- search

  /** `c.id` as `join` writes it: a missing id becomes the empty string. */
  function IdText(id: Option<string>): string
  {
    if id.Some? then id.value else ""
  }

  /** The ids of the first 20 CoinGecko search hits, comma-joined; "" when the search failed. */
  function SearchIds(up: Outcomes): string
  {
    if up.coinSearch.Ok? then
      var hits := if up.coinSearch.payload.coins.Some? then up.coinSearch.payload.coins.value else [];
      JoinComma(Map(Take(hits, MaxSearchIds), IdText))
    else ""
  }

  /** The markets lookup by id is made exactly when the CoinGecko search succeeded and its first
      20 hits are two or more, or a single one with an id. */
  lemma SearchIdsLookup(up: Outcomes)
    ensures SearchIds(up) != "" <==>
      up.coinSearch.Ok? &&
      var hits := if up.coinSearch.payload.coins.Some? then up.coinSearch.payload.coins.value else [];
      (|hits| >= 2 || (|hits| == 1 && IdText(hits[0]) != ""))
  {
    if up.coinSearch.Ok? {
      var hits := if up.coinSearch.payload.coins.Some? then up.coinSearch.payload.coins.value else [];
      var ids := Map(Take(hits, MaxSearchIds), IdText);
      JoinCommaEmpty(ids);
      if |hits| == 1 {
        assert ids == [IdText(hits[0])];
      }
    }
  }

  /** Every upstream call of a search that nothing interrupts, in order. */
  function SearchCalls(q: string, up: Outcomes): seq<Call>
  {
    [CoinSearch(q)] + (if SearchIds(up) != "" then [CoinMarketsByIds(SearchIds(up))] else []) + [PairSearch(q)]
  }

  /** A search call that was made threw. */
  predicate SearchThrew(up: Outcomes)
  {
    up.coinSearch.Threw? || (SearchIds(up) != "" && up.marketsByIds.Threw?) || up.pairSearch.Threw?
  }

  /** The CoinGecko rows of a search: the markets of the hits, when that lookup was made and OK. */
  function SearchMarketRows(up: Outcomes): seq<Coin>
  {
    if SearchIds(up) != "" && up.marketsByIds.Ok? then up.marketsByIds.payload else []
  }

  /** The DexScreener rows of a search: its first 20 pairs, reshaped. */
  function SearchDexRows(up: Outcomes, parseFloat: string -> Option<real>): seq<Coin>
  {
    DexSearchRows(Take(DexScreener.PairsResult(up.pairSearch), MaxDexSearchRows), parseFloat)
  }

  // ---------------------------------------------------------------- the handler

  /** `GET /api/tokens`. */
  method Get(req: Request, up: Outcomes, parseFloat: string -> Option<real>) returns (resp: Response, calls: seq<Call>)
    // top, gainers, losers: one markets page, by market cap, of the clamped size
    ensures IsMarketView(ViewOf(req)) ==>
      && calls == [CoinMarkets("market_cap_desc", PerPageOf(req), PageOf(req))]
      && (up.markets.Threw? ==> resp == ServerError)
      && (up.markets.NotOk? ==> resp == RateLimited)
      && (up.markets.Ok? ==>
            && resp.status == 200 && resp.source == Some("coingecko") && resp.error.None?
            && resp.page == Some(PageOf(req)) && resp.view == Some(ViewOf(req))
            && multiset(resp.coins) == multiset(up.markets.payload)
            && (ViewOf(req) == "top" ==> resp.coins == up.markets.payload)
            && (ViewOf(req) == "gainers" ==>
                  resp.coins == SortByKey(up.markets.payload, Change24h, false) && Ordered(resp.coins, Change24h, false))
            && (ViewOf(req) == "losers" ==>
                  resp.coins == SortByKey(up.markets.payload, Change24h, true) && Ordered(resp.coins, Change24h, true)))
    // trending: a failure is an empty 200
    ensures ViewOf(req) == "trending" ==>
      && calls == [CoinTrending]
      && (up.trending.Threw? ==> resp == ServerError)
      && (up.trending.NotOk? ==> resp == Response(200, [], Some("coingecko"), None, None, None))
      && (up.trending.Ok? ==>
            resp == Response(200, TrendingRows(up.trending.payload), Some("coingecko"), None, None, Some("trending")))
    // new: boosted addresses, their details, one row per base token
    ensures ViewOf(req) == "new" ==>
      && (up.boosts.Ok? && BoostedAddresses(up.boosts.payload) != [] ==>
            calls == [LatestBoosts, PairDetails(BoostedAddresses(up.boosts.payload))])
      && (!(up.boosts.Ok? && BoostedAddresses(up.boosts.payload) != []) ==> calls == [LatestBoosts])
      && (resp == ServerError <==>
            up.boosts.Threw? || (up.boosts.Ok? && BoostedAddresses(up.boosts.payload) != [] && up.details.Threw?))
      && (up.boosts.NotOk? ==> resp == Response(200, [], Some("dexscreener"), None, None, None))
      && (up.boosts.Ok? && resp != ServerError ==>
            resp == Response(200, NewCoins(NewViewPairs(up), parseFloat), Some("dexscreener"), None, None, Some("new")))
    // search with a term: CoinGecko rows first, then up to 20 DexScreener rows
    ensures ViewOf(req) == "search" && QueryOf(req) != "" ==>
      && calls <= SearchCalls(QueryOf(req), up)
      && (SearchThrew(up) <==> resp == ServerError)
      && (!SearchThrew(up) ==>
            && calls == SearchCalls(QueryOf(req), up)
            && resp == Response(200, SearchMarketRows(up) + SearchDexRows(up, parseFloat), Some("mixed"), None, None, Some("search")))
    // anything else
    ensures !IsMarketView(ViewOf(req)) && ViewOf(req) !in {"trending", "new"} && !(ViewOf(req) == "search" && QueryOf(req) != "") ==>
      calls == [] && resp == Response(200, [], Some("none"), None, None, None)
  {
    var view := ViewOf(req);
    var query := QueryOf(req);
    var page := PageOf(req);
    var perPage := PerPageOf(req);

    if view == "top" || view == "gainers" || view == "losers" {
      var order := "market_cap_desc";
      calls := [CoinMarkets(order, perPage, page)];
      if up.markets.Threw? {
        return ServerError, calls;
      }
      if !up.markets.Ok? {
        return RateLimited, calls;
      }
      var coins := up.markets.payload;
      if view == "gainers" {
        SortByKeySpec(coins, Change24h, false);
        coins := SortByKey(coins, Change24h, false);
      }
      if view == "losers" {
        SortByKeySpec(coins, Change24h, true);
        coins := SortByKey(coins, Change24h, true);
      }
      return Response(200, coins, Some("coingecko"), None, Some(page), Some(view)), calls;
    }

    if view == "trending" {
      calls := [CoinTrending];
      if up.trending.Threw? {
        return ServerError, calls;
      }
      if !up.trending.Ok? {
        return Response(200, [], Some("coingecko"), None, None, None), calls;
      }
      return Response(200, TrendingRows(up.trending.payload), Some("coingecko"), None, None, Some(view)), calls;
    }

    if view == "new" {
      calls := [LatestBoosts];
      if up.boosts.Threw? {
        return ServerError, calls;
      }
      if !up.boosts.Ok? {
        return Response(200, [], Some("dexscreener"), None, None, None), calls;
      }
      var addresses := BoostedAddresses(up.boosts.payload);
      var pairs: seq<DexScreener.Pair> := [];
      if |addresses| > 0 {
        calls := calls + [PairDetails(addresses)];
        if up.details.Threw? {
          return ServerError, calls;
        }
        if up.details.Ok? {
          pairs := DexScreener.PairsOf(up.details.payload);
        }
      }
      assert pairs == NewViewPairs(up);
      var kept := DedupFirst(pairs, BaseAddress);
      kept := Take(kept, MaxNewCoins);
      return Response(200, NewCoinRows(kept, parseFloat), Some("dexscreener"), None, None, Some(view)), calls;
    }

    if view == "search" && query != "" {
      calls := [CoinSearch(query)];
      if up.coinSearch.Threw? {
        return ServerError, calls;
      }
      var coins: seq<Coin> := [];
      if up.coinSearch.Ok? {
        var ids := SearchIds(up);
        if ids != "" {
          calls := calls + [CoinMarketsByIds(ids)];
          if up.marketsByIds.Threw? {
            return ServerError, calls;
          }
          if up.marketsByIds.Ok? {
            coins := up.marketsByIds.payload;
          }
        }
      }
      calls := calls + [PairSearch(query)];
      if up.pairSearch.Threw? {
        return ServerError, calls;
      }
      if up.pairSearch.Ok? {
        var dexPairs := DexScreener.PairsOf(up.pairSearch.payload);
        coins := coins + DexSearchRows(Take(dexPairs, MaxDexSearchRows), parseFloat);
      }
      return Response(200, coins, Some("mixed"), None, None, Some(view)), calls;
    }

    calls := [];
    resp := Response(200, [], Some("none"), None, None, None);
  }
}
