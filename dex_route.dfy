/** The DEX screener endpoint (`GET` in `src/app/api/dex/route.ts`): the pairs of a DexScreener
    search, or of the latest boosted tokens, filtered by chain, deduplicated by base token,
    capped at 50, and each graded by the safety score. */
module DexRoute {

  import opened Common
  import opened Lists
  import opened Upstream
  import DexScreener
  import SafetyScore

  /** The query string: `chain` and `q`, each possibly absent. */
  datatype Request = Request(chain: Option<string>, q: Option<string>)

  /** A pair as returned to the client, with its grade attached. */
  datatype ScoredToken = ScoredToken(pair: DexScreener.Pair, safetyScore: SafetyScore.SafetyScore)

  /** The JSON body and status. `source`, `chain` and `error` are `None` when the body has no such key. */
  datatype Response = Response(
    status: int, tokens: seq<ScoredToken>, source: Option<string>, chain: Option<string>, error: Option<string>)

  const MaxPairs := 50

  /** `searchParams.get('chain') || 'all'`. */
  function ChainOf(req: Request): (c: string)
    ensures Truthy(req.chain) ==> c == req.chain.value
    ensures !Truthy(req.chain) ==> c == "all"
    ensures c != ""
  {
    if Truthy(req.chain) then req.chain.value else "all"
  }

  /** `searchParams.get('q') || ''`: the search term, empty meaning "no search". */
  function QueryOf(req: Request): string
  {
    OrEmpty(req.q)
  }

  // ---------------------------------------------------------------- the pair pipeline

  predicate OnChain(chain: string, p: DexScreener.Pair)
  {
    p.chainId == chain
  }

  /** The chain filter: every pair for "all", otherwise those whose `chainId` is `chain`. */
  function ChainFilter(pairs: seq<DexScreener.Pair>, chain: string): (r: seq<DexScreener.Pair>)
    ensures chain == "all" ==> r == pairs
    ensures chain != "all" ==> forall i :: 0 <= i < |r| ==> r[i].chainId == chain
    ensures forall i :: 0 <= i < |pairs| && (chain == "all" || pairs[i].chainId == chain) ==> pairs[i] in r
    ensures IsSubseq(r, pairs)
  {
    if chain == "all" then
      IsSubseqRefl(pairs);
      pairs
    else
      FilterIsSubseq(pairs, p => OnChain(chain, p));
      Filter(pairs, p => OnChain(chain, p))
  }

  /** The text JavaScript makes of `p.baseToken?.address`: the address, or "undefined". */
  function AddressText(p: DexScreener.Pair): string
  {
    if p.baseToken.Some? then p.baseToken.value.address else "undefined"
  }

  /** The deduplication key `${chainId}-${baseToken?.address}`. */
  function PairKey(p: DexScreener.Pair): string
  {
    p.chainId + "-" + AddressText(p)
  }

  /** Two pairs share a key exactly when they are on the same chain and show the same base
      address, as long as chain ids contain no '-' (DexScreener's ids are plain words). */
  lemma {:induction false} PairKeySeparates(p: DexScreener.Pair, q: DexScreener.Pair)
    requires '-' !in p.chainId && '-' !in q.chainId
    ensures PairKey(p) == PairKey(q) <==> p.chainId == q.chainId && AddressText(p) == AddressText(q)
  {
    if PairKey(p) == PairKey(q) {
      var n, m := |p.chainId|, |q.chainId|;
      KeyLayout(p);
      KeyLayout(q);
      if n < m {
        assert false;
      } else if m < n {
        assert false;
      }
      assert p.chainId == PairKey(p)[..n] == PairKey(q)[..n] == q.chainId;
      assert AddressText(p) == PairKey(p)[n + 1..] == PairKey(q)[n + 1..] == AddressText(q);
    }
  }

  /** Where the parts of a key sit: the chain id, then '-' at the chain id's length. */
  lemma KeyLayout(p: DexScreener.Pair)
    ensures |PairKey(p)| > |p.chainId| && PairKey(p)[|p.chainId|] == '-'
    ensures forall j :: 0 <= j < |p.chainId| ==> PairKey(p)[j] == p.chainId[j]
  {
  }

  /** Because the key renders a missing base token as the word "undefined", a pair without a base
      token and a pair on the same chain whose base address is the text "undefined" count as one. */
  lemma MissingBaseTokenSharesKey(p: DexScreener.Pair, q: DexScreener.Pair)
    requires p.baseToken.None? && q.baseToken.Some? && q.baseToken.value.address == "undefined"
    requires p.chainId == q.chainId
    ensures PairKey(p) == PairKey(q)
  {
  }

  /** The pairs the route returns, before scoring: chain-filtered, first pair per key, at most 50. */
  function Pipeline(pairs: seq<DexScreener.Pair>, chain: string): seq<DexScreener.Pair>
  {
    Take(DedupBy(ChainFilter(pairs, chain), PairKey), MaxPairs)
  }

  /** What the pipeline promises: at most 50 pairs, all on the requested chain, in their upstream
      order, no two with the same key, each the first pair of its key on that chain, ordered by
      where those first pairs stand, and no key passed over in favour of a later one. */
  lemma PipelineSpec(pairs: seq<DexScreener.Pair>, chain: string)
    ensures var r := Pipeline(pairs, chain);
      && |r| <= MaxPairs
      && (chain != "all" ==> forall i :: 0 <= i < |r| ==> r[i].chainId == chain)
      && IsSubseq(r, pairs)
      && KeysDistinct(r, PairKey)
      && (forall y :: y in r ==>
            exists i :: 0 <= i < |ChainFilter(pairs, chain)| &&
              ChainFilter(pairs, chain)[i] == y && FirstOfKey(ChainFilter(pairs, chain), PairKey, i))
      && (forall j1, j2 :: 0 <= j1 < j2 < |r| ==> EarlierFirsts(ChainFilter(pairs, chain), PairKey, r[j1], r[j2]))
      && (forall i, k ::
            && 0 <= i < k < |ChainFilter(pairs, chain)|
            && FirstOfKey(ChainFilter(pairs, chain), PairKey, i)
            && FirstOfKey(ChainFilter(pairs, chain), PairKey, k)
            && ChainFilter(pairs, chain)[k] in r
            ==> ChainFilter(pairs, chain)[i] in r)
  {
    PipelineOrder(pairs, chain);
    PipelineFirsts(pairs, chain);
    TakeFirstsOrder(ChainFilter(pairs, chain), PairKey, MaxPairs);
    TakeFirstsNoSkip(ChainFilter(pairs, chain), PairKey, MaxPairs);
  }

  lemma PipelineOrder(pairs: seq<DexScreener.Pair>, chain: string)
    ensures var r := Pipeline(pairs, chain);
      && |r| <= MaxPairs
      && (chain != "all" ==> forall i :: 0 <= i < |r| ==> r[i].chainId == chain)
      && IsSubseq(r, pairs)
      && KeysDistinct(r, PairKey)
  {
    var c := ChainFilter(pairs, chain);
    var d := DedupBy(c, PairKey);
    var r := Take(d, MaxPairs);
    DedupBySpec(c, PairKey);
    PrefixIsSubseq(d, |r|);
    SubseqTrans(r, d, c);
    SubseqTrans(r, c, pairs);
    SubseqMembers(r, c);
    PrefixKeysDistinct(d, PairKey, |r|);
  }

  lemma PipelineFirsts(pairs: seq<DexScreener.Pair>, chain: string)
    ensures var c := ChainFilter(pairs, chain);
      forall y :: y in Pipeline(pairs, chain) ==>
        exists i :: 0 <= i < |c| && c[i] == y && FirstOfKey(c, PairKey, i)
  {
    var c := ChainFilter(pairs, chain);
    var d := DedupBy(c, PairKey);
    var r := Take(d, MaxPairs);
    DedupFromKeepsFirsts(c, PairKey, {});
    forall y | y in r
      ensures y in d
    {
      var j :| 0 <= j < |r| && r[j] == y;
      assert d[j] == y;
    }
  }

  /** When fewer than 50 pairs come out, nothing was cut: every key present on the requested
      chain is represented. */
  lemma PipelineCovers(pairs: seq<DexScreener.Pair>, chain: string)
    ensures var r := Pipeline(pairs, chain);
      |r| < MaxPairs ==> forall i :: 0 <= i < |pairs| && (chain == "all" || pairs[i].chainId == chain) ==>
        (exists y :: y in r && PairKey(y) == PairKey(pairs[i]))
  {
    var c := ChainFilter(pairs, chain);
    var d := DedupBy(c, PairKey);
    var r := Take(d, MaxPairs);
    if |r| < MaxPairs {
      assert r == d;
      DedupFromCovers(c, PairKey, {});
      forall i | 0 <= i < |pairs| && (chain == "all" || pairs[i].chainId == chain)
        ensures exists y :: y in r && PairKey(y) == PairKey(pairs[i])
      {
        var x := pairs[i];
        assert x in c;
        var k :| 0 <= k < |c| && c[k] == x;
        var y :| y in d && PairKey(y) == PairKey(c[k]);
      }
    }
  }

  // ---------------------------------------------------------------- the handler

  /** The grade of one pair at time `now`. */
  function Graded(p: DexScreener.Pair, now: int): ScoredToken
  {
    ScoredToken(p, SafetyScore.Assess(SafetyScore.MetricsOf(p, now)))
  }

  /** The pairs fetched before filtering: the search result for a query, otherwise the details of
      the boosted addresses, or none when there is no address to look up. A failed request
      contributes no pair. */
  function FetchedPairs(q: string, up: Outcomes): seq<DexScreener.Pair>
  {
    if q != "" then DexScreener.PairsResult(up.pairSearch)
    else if up.boosts.Ok? && BoostedAddresses(up.boosts.payload) != [] then DexScreener.PairsResult(up.details)
    else []
  }

  /** A request the handler made threw, which the `catch` turns into a 500. */
  predicate Threw(q: string, up: Outcomes)
  {
    if q != "" then up.pairSearch.Threw?
    else (up.boosts.Threw? || (up.boosts.Ok? && BoostedAddresses(up.boosts.payload) != [] && up.details.Threw?))
  }

  const RateLimited := Response(429, [], Some("dexscreener"), None, Some("Rate limited"))
  const ServerError := Response(500, [], None, None, Some("Server error"))

  /** `GET /api/dex`. With a query, one DexScreener search; without, the boosted-token feed and,
      when it names at least one address, one details lookup for up to ten of them. A non-OK
      feed is a 429, a thrown request a 500; otherwise the 200 body carries the pipeline's pairs,
      each with its grade, and echoes the chain. */
  method Get(req: Request, up: Outcomes, now: int) returns (resp: Response, calls: seq<Call>)
    ensures QueryOf(req) != "" ==> calls == [PairSearch(QueryOf(req))]
    ensures QueryOf(req) == "" && up.boosts.Ok? && BoostedAddresses(up.boosts.payload) != [] ==>
      calls == [LatestBoosts, PairDetails(BoostedAddresses(up.boosts.payload))]
    ensures QueryOf(req) == "" && !(up.boosts.Ok? && BoostedAddresses(up.boosts.payload) != []) ==>
      calls == [LatestBoosts]
    ensures resp.status in {200, 429, 500}
    ensures resp.status == 429 <==> QueryOf(req) == "" && up.boosts.NotOk?
    ensures resp.status == 429 ==> resp == RateLimited
    ensures resp.status == 500 <==> Threw(QueryOf(req), up)
    ensures resp.status == 500 ==> resp == ServerError
    ensures resp.status == 200 ==>
      var kept := Pipeline(FetchedPairs(QueryOf(req), up), ChainOf(req));
      && resp.source == Some("dexscreener") && resp.chain == Some(ChainOf(req)) && resp.error.None?
      && |resp.tokens| == |kept|
      && forall i :: 0 <= i < |kept| ==> resp.tokens[i] == Graded(kept[i], now)
  {
    var chain := ChainOf(req);
    var query := QueryOf(req);
    var failed, pairs;
    failed, pairs, calls := FetchPairs(query, up);
    if failed.Some? {
      return failed.value, calls;
    }
    pairs := ChainFilter(pairs, chain);
    pairs := DedupFirst(pairs, PairKey);
    pairs := Take(pairs, MaxPairs);
    var tokens := ScoreAll(pairs, now);
    resp := Response(200, tokens, Some("dexscreener"), Some(chain), None);
  }

  /** The fetching half of the handler: the requests, and either the response that ends the
      request early or the pairs fetched. */
  method FetchPairs(query: string, up: Outcomes) returns (failed: Option<Response>, pairs: seq<DexScreener.Pair>, calls: seq<Call>)
    ensures query != "" ==> calls == [PairSearch(query)]
    ensures query == "" && up.boosts.Ok? && BoostedAddresses(up.boosts.payload) != [] ==>
      calls == [LatestBoosts, PairDetails(BoostedAddresses(up.boosts.payload))]
    ensures query == "" && !(up.boosts.Ok? && BoostedAddresses(up.boosts.payload) != []) ==> calls == [LatestBoosts]
    ensures Threw(query, up) <==> failed == Some(ServerError)
    ensures query == "" && up.boosts.NotOk? <==> failed == Some(RateLimited)
    ensures failed.None? || failed == Some(ServerError) || failed == Some(RateLimited)
    ensures failed.None? ==> pairs == FetchedPairs(query, up)
  {
    pairs := [];
    failed := None;
    if query != "" {
      calls := [PairSearch(query)];
      if up.pairSearch.Threw? {
        return Some(ServerError), pairs, calls;
      }
      if up.pairSearch.Ok? {
        pairs := DexScreener.PairsOf(up.pairSearch.payload);
      }
    } else {
      calls := [LatestBoosts];
      if up.boosts.Threw? {
        return Some(ServerError), pairs, calls;
      }
      if up.boosts.NotOk? {
        return Some(RateLimited), pairs, calls;
      }
      var addresses := BoostedAddresses(up.boosts.payload);
      if |addresses| > 0 {
        calls := calls + [PairDetails(addresses)];
        if up.details.Threw? {
          return Some(ServerError), pairs, calls;
        }
        if up.details.Ok? {
          pairs := DexScreener.PairsOf(up.details.payload);
        }
      }
    }
  }

  /** `pairs.map(...)`: each pair with its safety score attached. */
  method ScoreAll(pairs: seq<DexScreener.Pair>, now: int) returns (tokens: seq<ScoredToken>)
    ensures |tokens| == |pairs|
    ensures forall i :: 0 <= i < |pairs| ==> tokens[i] == Graded(pairs[i], now)
  {
    tokens := [];
    var i := 0;
    while i < |pairs|
      invariant 0 <= i <= |pairs|
      invariant |tokens| == i
      invariant forall j :: 0 <= j < i ==> tokens[j] == Graded(pairs[j], now)
    {
      var s := SafetyScore.CalculateSafetyScore(pairs[i], now);
      tokens := tokens + [ScoredToken(pairs[i], s)];
      i := i + 1;
    }
  }
}
