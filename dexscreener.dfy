/** The DexScreener client library (`src/lib/dexscreener.ts`): the pair record it returns, the
    "never throw, return []" shaping of its fetch wrappers, and its display helpers. */
module DexScreener {

  import opened Common
  import Text
  import Formatters

  /** `baseToken` / `quoteToken` of a pair. */
  datatype TokenRef = TokenRef(address: string, name: string, symbol: string)

  /** Buy and sell counts of one time window. */
  datatype TxnCounts = TxnCounts(buys: int, sells: int)

  /** A DEX trading pair as the API sends it (`TokenPair`). The nested optional objects the code
      reads through `?.` are flattened to the one field read: `liquidityUsd` is
      `liquidity?.usd`, `volumeH24` is `volume?.h24`, `txnsH24` is `txns?.h24`, and so on.
      `priceUsd` stays the decimal string the API sends. */
  datatype Pair = Pair(
    chainId: string,
    pairAddress: string,
    url: string,
    baseToken: Option<TokenRef>,
    quoteToken: Option<TokenRef>,
    priceUsd: Option<string>,
    txnsH24: Option<TxnCounts>,
    volumeH24: Option<real>,
    priceChangeH1: Option<real>,
    priceChangeH24: Option<real>,
    liquidityUsd: Option<real>,
    fdv: Option<real>,
    marketCap: Option<real>,
    pairCreatedAt: Option<int>)

  /** The body of a pair search or pair lookup: `{ pairs }`, where `pairs` may be missing. */
  datatype PairsBody = PairsBody(pairs: Option<seq<Pair>>)

  /** A JSON body that should be an array but need not be. */
  datatype ArrayBody<T> = NotArray | Items(items: seq<T>)

  /** `pair.marketCap || pair.fdv || 0`, the cap both routes read: a zero market cap falls
      through to the FDV. */
  function MarketCapOf(p: Pair): (m: real)
    ensures p.marketCap.Some? && p.marketCap.value != 0.0 ==> m == p.marketCap.value
    ensures (p.marketCap.None? || p.marketCap.value == 0.0) ==> m == OrZero(p.fdv)
  {
    if p.marketCap.Some? && p.marketCap.value != 0.0 then p.marketCap.value else OrZero(p.fdv)
  }

  /** `data.pairs || []`. */
  function PairsOf(body: PairsBody): (r: seq<Pair>)
    ensures body.pairs.None? ==> r == []
    ensures body.pairs.Some? ==> r == body.pairs.value
  {
    if body.pairs.Some? then body.pairs.value else []
  }

  /** The result shaping of `searchTokens` and `getTokenByAddress`: an exception or a non-OK
      status gives `[]`, otherwise the `pairs` of the body, or `[]` when it has none. */
  function PairsResult(res: Fetch<PairsBody>): (r: seq<Pair>)
    ensures !res.Ok? ==> r == []
    ensures res.Ok? ==> r == PairsOf(res.payload)
    ensures r != [] ==> res.Ok? && res.payload.pairs == Some(r)
  {
    match res
    case Ok(body) => PairsOf(body)
    case _ => []
  }

  /** The result shaping of `getTrendingTokens` and `getLatestTokenProfiles`: `[]` unless the call
      succeeded with an array body, which is then returned whole. */
  function ArrayResult<T>(res: Fetch<ArrayBody<T>>): (r: seq<T>)
    ensures res.Ok? && res.payload.Items? ==> r == res.payload.items
    ensures !(res.Ok? && res.payload.Items?) ==> r == []
  {
    if res.Ok? && res.payload.Items? then res.payload.items else []
  }

  /** `formatUsd`: "$0" when falsy; B, M and K with the largest suffix leaving a mantissa of at
      least 1; below 1000, more decimals the smaller the value so a non-zero digit is shown;
      anything below 0.0001, negatives included, with 8 decimals. */
  function FormatUsd(value: Option<real>): (r: Formatters.Rendering)
    ensures Formatters.Falsy(value) <==> r == Formatters.Literal("$0")
    ensures !Formatters.Falsy(value) ==> r.Fixed? && r.prefix == "$"
    ensures r.Fixed? ==> r.value * Formatters.SuffixScale(r.suffix) == value.value
    ensures r.Fixed? && r.suffix != "" ==> 1.0 <= r.value
    ensures r.Fixed? && r.suffix != "B" ==> r.value < 1000.0
    ensures r.Fixed? && r.suffix == "" && r.decimals < 8 ==> Formatters.Unit(r.decimals) <= r.value
    ensures r.Fixed? ==> r.suffix in {"", "K", "M", "B"}
    ensures r.Fixed? && (r.suffix == "B" || r.suffix == "M") ==> r.decimals == 2
    ensures r.Fixed? && r.suffix == "K" ==> r.decimals == 1
    ensures !Formatters.Falsy(value) && 1.0 <= value.value < 1000.0 ==> r == Formatters.Fixed("$", value.value, 2, "")
    ensures !Formatters.Falsy(value) && 0.0001 <= value.value < 1.0 ==> r == Formatters.Fixed("$", value.value, 4, "")
    ensures !Formatters.Falsy(value) && value.value < 0.0001 ==> r == Formatters.Fixed("$", value.value, 8, "")
  {
    if Formatters.Falsy(value) then Formatters.Literal("$0")
    else
      var v := value.value;
      if v >= 1_000_000_000.0 then Formatters.Fixed("$", v / 1_000_000_000.0, 2, "B")
      else if v >= 1_000_000.0 then Formatters.Fixed("$", v / 1_000_000.0, 2, "M")
      else if v >= 1_000.0 then Formatters.Fixed("$", v / 1_000.0, 1, "K")
      else if v >= 1.0 then Formatters.Fixed("$", v, 2, "")
      else if v >= 0.0001 then Formatters.Fixed("$", v, 4, "")
      else Formatters.Fixed("$", v, 8, "")
  }

  /** A larger positive amount never gets a smaller suffix, and below 1000 a smaller positive
      amount never gets fewer decimals. */
  lemma UsdScaleGrows(a: real, b: real)
    requires 0.0 < a <= b
    ensures Formatters.SuffixScale(FormatUsd(Some(a)).suffix) <= Formatters.SuffixScale(FormatUsd(Some(b)).suffix)
    ensures b < 1000.0 ==> FormatUsd(Some(b)).decimals <= FormatUsd(Some(a)).decimals
  {
  }

  /** This file's own copy of `formatNumber`. */
  function FormatNumber(value: Option<real>): (r: Formatters.Rendering)
    ensures r == Formatters.FormatNumber(value)
  {
    if Formatters.Falsy(value) then Formatters.Literal("0")
    else
      var v := value.value;
      if v >= 1_000_000.0 then Formatters.Fixed("", v / 1_000_000.0, 1, "M")
      else if v >= 1_000.0 then Formatters.Fixed("", v / 1_000.0, 1, "K")
      else Formatters.Fixed("", v, 0, "")
  }

  /** This file's own copy of `formatAge`, with the clock passed in. */
  function FormatAge(createdAt: Option<int>, now: int): (r: Formatters.Age)
    ensures r == Formatters.FormatAge(createdAt, now)
  {
    if createdAt.None? || createdAt.value == 0 then Formatters.Unknown
    else
      var diff := now - createdAt.value;
      var minutes := diff / 60_000;
      if minutes < 60 then Formatters.Ago(minutes, Formatters.Minutes)
      else
        var hours := minutes / 60;
        if hours < 24 then Formatters.Ago(hours, Formatters.Hours)
        else
          var days := hours / 24;
          if days < 30 then Formatters.Ago(days, Formatters.Days)
          else Formatters.Ago(days / 30, Formatters.Months)
  }

  /** The chains with a short code and a colour. */
  const ChainNames: map<string, string> := map[
    "solana" := "SOL", "ethereum" := "ETH", "bsc" := "BSC", "base" := "BASE",
    "arbitrum" := "ARB", "polygon" := "POLY", "avalanche" := "AVAX"]

  const ChainColors: map<string, string> := map[
    "solana" := "#9945FF", "ethereum" := "#627EEA", "bsc" := "#F3BA2F", "base" := "#0052FF",
    "arbitrum" := "#28A0F0", "polygon" := "#8247E5", "avalanche" := "#E84142"]

  const FallbackColor := "#888888"

  /** A colour written `#RRGGBB`. */
  predicate IsHexColor(c: string)
  {
    |c| == 7 && c[0] == '#' &&
    forall i :: 1 <= i < 7 ==> '0' <= c[i] <= '9' || 'A' <= c[i] <= 'F'
  }

  /** `getChainName`: the listed code, otherwise the id upper-cased; never any lower-case letter. */
  function GetChainName(chainId: string): (r: string)
    ensures chainId in ChainNames ==> r == ChainNames[chainId]
    ensures chainId !in ChainNames ==> r == Text.ToUpper(chainId)
    ensures Text.NoLowerCase(r)
  {
    if chainId in ChainNames then ChainNames[chainId] else Text.ToUpper(chainId)
  }

  /** `getChainColor`: the listed colour, otherwise grey; always a `#RRGGBB` colour. */
  function GetChainColor(chainId: string): (r: string)
    ensures chainId in ChainColors ==> r == ChainColors[chainId]
    ensures chainId !in ChainColors ==> r == FallbackColor
    ensures IsHexColor(r)
  {
    if chainId in ChainColors then ChainColors[chainId] else FallbackColor
  }

  /** The two lookup tables list the same chains, and the listed codes tell the chains apart. */
  lemma ChainTablesAgree()
    ensures ChainNames.Keys == ChainColors.Keys
    ensures forall a, b :: a in ChainNames && b in ChainNames && a != b ==> ChainNames[a] != ChainNames[b]
  {
  }
}
