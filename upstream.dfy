/** What the two API routes receive from CoinGecko and DexScreener, the upstream requests they
    make, and the boosted-token address extraction both routes share. */
module Upstream {

  import opened Common
  import opened Lists
  import DexScreener

  /** One entry of the DexScreener boosted-token feed; only `tokenAddress` is read. */
  datatype Boost = Boost(tokenAddress: Option<string>)

  /** A CoinGecko market row (`/coins/markets`), or a row the tokens route builds in the same
      shape. A field the row does not carry is `None`. */
  datatype Coin = Coin(
    id: Option<string>,
    symbol: Option<string>,
    name: Option<string>,
    image: Option<string>,
    currentPrice: Option<real>,
    marketCap: Option<real>,
    totalVolume: Option<real>,
    change1h: Option<real>,
    change24h: Option<real>,
    change7d: Option<real>,
    marketCapRank: Option<int>,
    score: Option<int>,
    liquidity: Option<real>,
    txns24h: Option<int>,
    buys24h: Option<int>,
    sells24h: Option<int>,
    pairCreatedAt: Option<int>,
    chain: Option<string>,
    dexUrl: Option<string>,
    isDex: bool)

  /** `item.data` of a CoinGecko trending entry. */
  datatype TrendingData = TrendingData(
    price: Option<real>, marketCap: Option<real>, totalVolume: Option<real>, change24hUsd: Option<real>)

  /** `item` of a CoinGecko trending entry. */
  datatype TrendingItem = TrendingItem(
    id: Option<string>, symbol: Option<string>, name: Option<string>,
    small: Option<string>, thumb: Option<string>,
    data: Option<TrendingData>, marketCapRank: Option<int>, score: Option<int>)

  /** The trending body `{ coins: [{ item }] }`, where `coins` may be missing. */
  datatype TrendingBody = TrendingBody(coins: Option<seq<TrendingItem>>)

  /** The CoinGecko search body `{ coins: [{ id }] }`, where `coins` may be missing. */
  datatype SearchBody = SearchBody(coins: Option<seq<Option<string>>>)

  /** The upstream requests a route can make, in the order it makes them. */
  datatype Call =
    | CoinMarkets(order: string, perPage: int, page: int)   // CoinGecko /coins/markets, one page
    | CoinTrending                                           // CoinGecko /search/trending
    | CoinSearch(query: string)                              // CoinGecko /search
    | CoinMarketsByIds(ids: string)                          // CoinGecko /coins/markets?ids=
    | LatestBoosts                                           // DexScreener /token-boosts/latest/v1
    | PairDetails(addresses: seq<string>)                    // DexScreener /latest/dex/tokens/a,b,…
    | PairSearch(query: string)                              // DexScreener /latest/dex/search

  /** The outcome each request would have; a route consults only the ones its calls name. */
  datatype Outcomes = Outcomes(
    markets: Fetch<seq<Coin>>,
    trending: Fetch<TrendingBody>,
    coinSearch: Fetch<SearchBody>,
    marketsByIds: Fetch<seq<Coin>>,
    boosts: Fetch<DexScreener.ArrayBody<Boost>>,
    details: Fetch<DexScreener.PairsBody>,
    pairSearch: Fetch<DexScreener.PairsBody>)

  /** `Array.isArray(body) ? body : []`. */
  function ItemsOf<T>(body: DexScreener.ArrayBody<T>): seq<T>
  {
    if body.Items? then body.items else []
  }

  predicate HasAddress(b: Boost)
  {
    Truthy(b.tokenAddress)
  }

  function AddressOf(b: Boost): string
  {
    if b.tokenAddress.Some? then b.tokenAddress.value else ""
  }

  /** The truthy `tokenAddress` values of `boosts`, in feed order, one per boost that has one. */
  function AddressesIn(boosts: seq<Boost>): seq<string>
  {
    if boosts == [] then []
    else (if HasAddress(boosts[0]) then [boosts[0].tokenAddress.value] else []) + AddressesIn(boosts[1..])
  }

  /** Feed order is kept: the addresses of two consecutive stretches of the feed are those of the
      first stretch followed by those of the second. */
  lemma {:induction false} AddressesInAppend(a: seq<Boost>, b: seq<Boost>)
    ensures AddressesIn(a + b) == AddressesIn(a) + AddressesIn(b)
  {
    if a == [] {
      assert a + b == b;
    } else {
      assert (a + b)[1..] == a[1..] + b;
      AddressesInAppend(a[1..], b);
    }
  }

  /** The addresses whose details are requested: of the first 30 boosts, the truthy
      `tokenAddress` values in feed order, at most 10 of them. */
  function BoostedAddresses(body: DexScreener.ArrayBody<Boost>): (r: seq<string>)
    ensures r == Take(AddressesIn(Take(ItemsOf(body), 30)), 10)
    ensures |r| <= 10
    ensures forall a :: a in r ==>
      a != "" && exists i :: 0 <= i < Min(30, |ItemsOf(body)|) && ItemsOf(body)[i].tokenAddress == Some(a)
    ensures |r| < 10 ==> forall i :: 0 <= i < Min(30, |ItemsOf(body)|) && HasAddress(ItemsOf(body)[i]) ==>
      ItemsOf(body)[i].tokenAddress.value in r
  {
    var first := Take(ItemsOf(body), 30);
    AddressesFromBoosts(first, 10);
    AddressesCoverBoosts(first, 10);
    MapFilterIsAddressesIn(first);
    Take(Map(Filter(first, HasAddress), AddressOf), 10)
  }

  /** The map-filter chain of the route computes `AddressesIn`. */
  lemma {:induction false} MapFilterIsAddressesIn(boosts: seq<Boost>)
    ensures Map(Filter(boosts, HasAddress), AddressOf) == AddressesIn(boosts)
  {
    if boosts != [] {
      MapFilterIsAddressesIn(boosts[1..]);
      var rest := Filter(boosts[1..], HasAddress);
      if HasAddress(boosts[0]) {
        assert Map([boosts[0]] + rest, AddressOf) == [AddressOf(boosts[0])] + Map(rest, AddressOf);
      }
    }
  }

  /** Each extracted address is the non-empty `tokenAddress` of one of the boosts. */
  lemma AddressesFromBoosts(first: seq<Boost>, n: nat)
    ensures var r := Take(Map(Filter(first, HasAddress), AddressOf), n);
      forall a :: a in r ==> a != "" && exists i :: 0 <= i < |first| && first[i].tokenAddress == Some(a)
  {
    var withAddress := Filter(first, HasAddress);
    var r := Take(Map(withAddress, AddressOf), n);
    forall a | a in r
      ensures a != "" && exists i :: 0 <= i < |first| && first[i].tokenAddress == Some(a)
    {
      var j :| 0 <= j < |r| && r[j] == a;
      var b := withAddress[j];
      assert b in first;
      var i :| 0 <= i < |first| && first[i] == b;
      assert first[i].tokenAddress == Some(a);
    }
  }

  /** When the cut at `n` removes nothing, every boost with an address contributes it. */
  lemma AddressesCoverBoosts(first: seq<Boost>, n: nat)
    ensures var r := Take(Map(Filter(first, HasAddress), AddressOf), n);
      |r| < n ==> forall i :: 0 <= i < |first| && HasAddress(first[i]) ==> first[i].tokenAddress.value in r
  {
    var withAddress := Filter(first, HasAddress);
    var m := Map(withAddress, AddressOf);
    var r := Take(m, n);
    if |r| < n {
      assert r == m;
      forall i | 0 <= i < |first| && HasAddress(first[i])
        ensures first[i].tokenAddress.value in r
      {
        assert first[i] in withAddress;
        var j :| 0 <= j < |withAddress| && withAddress[j] == first[i];
        assert r[j] == AddressOf(first[i]);
      }
    }
  }

  /** `arr.join(',')`, with a missing element written as nothing. */
  function JoinComma(xs: seq<string>): string
  {
    if xs == [] then "" else if |xs| == 1 then xs[0] else xs[0] + "," + JoinComma(xs[1..])
  }

  /** The joined id list is empty, so the markets lookup is skipped, exactly when there is no id
      or a single empty one; two or more ids always leave at least a comma. */
  lemma {:induction false} JoinCommaEmpty(xs: seq<string>)
    ensures JoinComma(xs) == "" <==> xs == [] || xs == [""]
  {
    if |xs| > 1 {
      assert JoinComma(xs)[|xs[0]|] == ',';
    }
  }
}
