# Degenradar screener core, in Dafny

Degenradar is a Next.js crypto screener. Its server side is two API routes:

- `/api/dex` lists DexScreener trading pairs and grades each with a 0–100 safety score and a set of warning flags;
- `/api/tokens` serves the coin tables: top, gainers and losers from CoinGecko markets, CoinGecko trending, newly boosted DexScreener pairs, and a mixed CoinGecko + DexScreener search.

Its client side formats prices, caps, percentages and ages. It filters and pages the markets, exchanges, news and blog lists.

This project models that core:

- `SafetyScore` and `DexRoute` model the rule engine `calculateSafetyScore` and the `GET` handler of `src/app/api/dex/route.ts`. The handler chooses between search and boosted feed, then filters by chain, deduplicates by chain and base address, caps the list at 50 pairs and scores each one.
- `TokensRoute` models the view dispatch of `src/app/api/tokens/route.ts`: the `per_page` clamp, the 429/500 policy, the gainers/losers re-sort, the new-pair pipeline, and the search merge.
- `Formatters` and `DexScreener` model the two formatting libraries, the chain lookup tables, and the "never throw, answer `[]`" shaping of the DexScreener fetch wrappers.
- `MarketsPage`, `Paging`, `ExchangesPage`, `NewsPage` and `BlogPage` model the page logic. The markets page contributes the page-number strip, `handleSort`, the sorted copy, the rank fallback and the request choice. The other pages contribute the search and category filters, the trust badge, and the featured post.
- `Common`, `Text`, `Lists` and `Upstream` are shared. They hold the optional field and upstream outcome, ASCII case mapping and `includes`, order-preserving filter, first-wins dedup, stable sort, the upstream payloads and the requests a route makes.

Conventions:

- An upstream request is an input `Fetch<T> = Threw | NotOk | Ok(payload)`.
- A route handler is a method. It returns the response and the list of requests it made, in order.
- The clock (`Date.now()`) is a parameter `now`.
- `parseFloat` is a parameter returning `None` for NaN.
- A formatter returns the branch it takes and the number it hands to `toFixed` / `toLocaleString` / `toExponential`, rather than digits.

## Model

| member | source | states |
|---|---|---|
| Common.OrZero | src/app/api/dex/route.ts:10 | `x \|\| 0` on an optional number: the value when present, 0 when absent |
| Common.OrEmpty | src/app/api/dex/route.ts:48 | `q \|\| ''` as both routes read the search term: the text when non-empty, otherwise "" (no search) |
| SafetyScore.MetricsOf | src/app/api/dex/route.ts:10-39 | every missing liquidity, volume, trade count, price change and cap reads as 0; a missing creation time makes the age equal to `now` |
| SafetyScore.Clamp | src/app/api/dex/route.ts:42 | the result lies in [0,100], equals the score inside that range, and is 0 below it and 100 above it |
| SafetyScore.RuleIndex | src/app/api/dex/route.ts:11-40 | each flag belongs to exactly one of the nine rules, in the order the rules run |
| SafetyScore.Assess | src/app/api/dex/route.ts:5-43 | the score lies in [0,100]; each flag appears at most once; a flag is present exactly when its rule's condition holds |
| SafetyScore.FlagsUpToSpec | src/app/api/dex/route.ts:11-40 | the first k rules raise each of their flags at most once, and exactly when its condition holds |
| SafetyScore.RuleIndexOfFlagAt | src/app/api/dex/route.ts:11-40 | the k-th rule's flag maps back to position k |
| SafetyScore.FlagsUpToNext | src/app/api/dex/route.ts:11-40 | running one more rule appends its flag when it fires and nothing otherwise |
| SafetyScore.CalculateSafetyScore | src/app/api/dex/route.ts:5-43 | applying the rules one at a time to a running score and flag list gives `Assess` of the pair's metrics, so the score is in [0,100] |
| SafetyScore.LiquidityRule | src/app/api/dex/route.ts:10-14 | adds the liquidity band's adjustment and appends LOW_LIQUIDITY exactly when liquidity is below 20000 |
| SafetyScore.VolumeRule | src/app/api/dex/route.ts:17-19 | adds the volume adjustment and appends LOW_VOLUME exactly when volume is below 1000 |
| SafetyScore.AgeRule | src/app/api/dex/route.ts:22-25 | adds the age adjustment and appends VERY_NEW or NEW_TOKEN for an age under one hour or one day |
| SafetyScore.TradeRules | src/app/api/dex/route.ts:28-31 | only heavy selling costs points (−15); both trade flags are appended when their conditions hold |
| SafetyScore.PriceRules | src/app/api/dex/route.ts:34-36 | only dumping costs points (−10); both price flags are appended when their conditions hold |
| SafetyScore.MarketCapRule | src/app/api/dex/route.ts:39-40 | −10 and MICRO_CAP exactly when the cap is strictly between 0 and 10000 |
| SafetyScore.LiquidityBands | src/app/api/dex/route.ts:10-14 | exactly one of −25, −10, +5, +15 applies; the adjustment is negative exactly when LOW_LIQUIDITY is raised |
| SafetyScore.FlagsExclusive | src/app/api/dex/route.ts:23-36 | never both VERY_NEW and NEW_TOKEN; never both DUMPING and PUMP_ALERT; with non-negative counts, never both HEAVY_SELLING and SUSPICIOUS_BUY_PATTERN |
| SafetyScore.SuspiciousBuyingIsWarningOnly | src/app/api/dex/route.ts:31 | SUSPICIOUS_BUY_PATTERN leaves the score as it would be without the buying spike |
| SafetyScore.PumpIsWarningOnly | src/app/api/dex/route.ts:36 | PUMP_ALERT leaves the score as it would be with no price change |
| SafetyScore.MicroCapRule | src/app/api/dex/route.ts:39-40 | MICRO_CAP fires exactly for 0 < cap < 10000, where the cap is `marketCap`, or `fdv` when `marketCap` is 0 or absent |
| SafetyScore.MissingCreationTimeScoresAsOld | src/app/api/dex/route.ts:22-25 | a pair without a creation time gets the +10 "older than a week" bonus and no age flag once the clock is past one week |
| SafetyScore.ScoreMonotone | src/app/api/dex/route.ts:10-25 | more liquidity, more volume or an older pair never lowers the score |
| SafetyScore.WorkedExampleRisky | src/app/api/dex/route.ts:6-42 | liquidity 3000, volume 500, 30 minutes old, cap 8000: score 0, flags LOW_LIQUIDITY, LOW_VOLUME, VERY_NEW, MICRO_CAP |
| SafetyScore.WorkedExampleSelloff | src/app/api/dex/route.ts:6-42 | deep liquidity and volume, 10 days old, 300 sells against 40 buys, −60%: score 60, flags HEAVY_SELLING, DUMPING |
| DexRoute.ChainOf | src/app/api/dex/route.ts:47 | the `chain` parameter when non-empty, otherwise "all" |
| DexRoute.ChainFilter | src/app/api/dex/route.ts:86-88 | "all" keeps every pair; any other chain keeps exactly the pairs on that chain, in order |
| DexRoute.PairKeySeparates | src/app/api/dex/route.ts:93 | for chain ids without '-', two pairs share a dedup key exactly when they have the same chain and base address |
| DexRoute.KeyLayout | src/app/api/dex/route.ts:93 | the key starts with the chain id, followed by '-' |
| DexRoute.MissingBaseTokenSharesKey | src/app/api/dex/route.ts:93 | a pair with no base token collides with a pair on the same chain whose base address is the text "undefined" |
| DexRoute.PipelineSpec | src/app/api/dex/route.ts:86-97 | at most 50 pairs, all on the chain, with distinct keys, each the first pair of its key; kept pairs appear in the order of their first occurrence, and no key is passed over for a later one |
| DexRoute.PipelineCovers | src/app/api/dex/route.ts:86-97 | when fewer than 50 come out, every key present on the chain is represented |
| DexRoute.FetchPairs | src/app/api/dex/route.ts:53-82 | a search makes exactly one request; otherwise the boosted feed is fetched, and the details only when it names addresses. A thrown request means a 500 and a non-OK boosted feed a 429, and nothing else fails. Without a failure, the pairs are the ones the fetch returned |
| DexRoute.ScoreAll | src/app/api/dex/route.ts:100-116 | one token per pair, in order, each the pair with `Assess` of its metrics at `now` |
| DexRoute.Get | src/app/api/dex/route.ts:45-123 | gives the requests made. A non-OK boosted feed is a 429 and a thrown request is a 500. Otherwise a 200 whose tokens are the pipeline's pairs, each with `Assess` of its metrics, echoing the chain |
| Upstream.BoostedAddresses | src/app/api/dex/route.ts:72-75 | exactly the first 10 of `AddressesIn` of the first 30 boosts, so non-empty addresses in feed order. Each comes from one of those boosts; fewer than 10 means none was dropped |
| Upstream.AddressesInAppend | src/app/api/dex/route.ts:75 | feed order is kept: the addresses of two stretches of the feed are those of the first stretch followed by those of the second |
| Upstream.MapFilterIsAddressesIn | src/app/api/dex/route.ts:75 | the route's `map(t => t.tokenAddress).filter(Boolean)` computes `AddressesIn` |
| Upstream.JoinCommaEmpty | src/app/api/tokens/route.ts:124-125 | the joined id list is empty exactly for no ids or a single empty id |
| TokensRoute.ViewOf | src/app/api/tokens/route.ts:8 | the `view` parameter when non-empty, otherwise "top" |
| TokensRoute.PageOf | src/app/api/tokens/route.ts:10 | the parsed `page`, 1 when absent |
| TokensRoute.PerPageOf | src/app/api/tokens/route.ts:11 | 100 when absent; never above 250; a smaller request is honoured |
| TokensRoute.DexRowsAgree | src/app/api/tokens/route.ts:92-111 | a search row is the new-view row of the same pair without the 1-hour change, liquidity, trade counts and creation time |
| TokensRoute.NewCoinTradeCounts | src/app/api/tokens/route.ts:104-106 | the 24-hour trade count is always the buys plus the sells shown beside it |
| TokensRoute.NewCoinsSpec | src/app/api/tokens/route.ts:84-111 | at most 50 DEX rows, no two with the same id |
| TokensRoute.NewCoinsFromFirsts | src/app/api/tokens/route.ts:84-111 | each row comes from the first pair of its base token |
| TokensRoute.NewCoinsOrder | src/app/api/tokens/route.ts:84-111 | rows come in the order of their base token's first pair, and no base token is passed over for a later one |
| TokensRoute.NewCoinsNoSkip | src/app/api/tokens/route.ts:84-91 | if the row of a later first pair is listed, the row of every earlier first pair is too |
| TokensRoute.NewCoinsCover | src/app/api/tokens/route.ts:84-111 | when fewer than 50 rows are listed, every base token of the lookup has its row |
| TokensRoute.SearchIdsLookup | src/app/api/tokens/route.ts:122-126 | the markets-by-id lookup is made exactly when the search succeeded with two or more hits, or with one hit that has an id |
| TokensRoute.Get | src/app/api/tokens/route.ts:6-161 | covers every view: the requests made, each view's failure policy (429, empty 200 or 500), and each view's rows. Gainers and losers are a permutation sorted by 24h change. Search gives CoinGecko rows, then up to 20 DEX rows |
| Lists.DedupFirst | src/app/api/tokens/route.ts:84-90 | the seen-set filter keeps exactly the first element of each key, in order |
| Lists.DedupBySpec | src/app/api/dex/route.ts:91-97 | dedup output is an ordered subsequence with distinct keys, made of exactly the first element of every key |
| Lists.FirstIndicesSpec | src/app/api/dex/route.ts:91-96 | the positions that survive the seen-set filter are exactly the first position of each key, in increasing order |
| Lists.DedupByIsFirsts | src/app/api/dex/route.ts:91-96 | the dedup output is `xs` read at exactly those positions |
| Lists.DedupByOrder | src/app/api/dex/route.ts:91-96 | survivors keep the order of their first occurrences (so `[1, 2, 1]` gives `[1, 2]`, never `[2, 1]`) |
| Lists.TakeFirstsOrder | src/app/api/dex/route.ts:91-97 | after `slice(0, n)` the survivors are still first-of-key and in input order |
| Lists.TakeFirstsNoSkip | src/app/api/dex/route.ts:91-97 | after `slice(0, n)` no first-of-key element is dropped while a later one is kept |
| Lists.SortByKeySpec | src/app/api/tokens/route.ts:34-39 | the sort is a permutation and is ordered by the key in the chosen direction |
| Lists.Take | src/app/api/dex/route.ts:97 | `slice(0, n)`: the first min(length, n) elements |
| Lists.Filter | src/app/news/page.tsx:15 | the kept elements are exactly those passing the test |
| Formatters.FormatPrice | src/lib/formatters.ts:3-10 | dash exactly for 0 or missing. Otherwise `$` and the price, by band: grouped from 1000; 2 decimals in [1, 1000), 4 in [0.0001, 1), 8 in [1e-8, 0.0001); exponent notation below 1e-8 (negatives included). The chosen decimals always show a non-zero digit |
| Formatters.PriceDecimalsGrowAsPriceFalls | src/lib/formatters.ts:4-9 | a smaller positive price never gets fewer decimals; exponent notation, once reached, holds below; grouping, once reached, holds above |
| Formatters.FormatPriceStr | src/lib/formatters.ts:12-16 | dash for a missing or empty string, otherwise the parsed price formatted by `formatPrice` |
| Formatters.FormatBigNumber | src/lib/formatters.ts:18-25 | dash exactly for 0 or missing. Otherwise the suffix is one of T, B, M, K or none: the largest leaving a mantissa of at least 1, with mantissa × suffix = value. Decimals: 2 for T and B, 1 for M, 0 for K and none |
| Formatters.BigNumberSuffixGrows | src/lib/formatters.ts:20-24 | a larger positive amount never gets a smaller suffix |
| Formatters.FormatPercent | src/lib/formatters.ts:27-35 | dash and no sign for a missing value. Positive exactly when > 0, negative exactly when < 0, never both. `+` exactly for positive values |
| Formatters.FormatNumber | src/lib/formatters.ts:37-42 | "0" exactly for falsy input. Otherwise the suffix is M, K or none, with mantissa × suffix = value: M or K with one decimal and a mantissa of at least 1, or no suffix, 0 decimals and a value below 1000 |
| Formatters.NumberSuffixGrows | src/lib/formatters.ts:39-41 | a larger positive count never gets a smaller suffix |
| Formatters.FormatAge | src/lib/formatters.ts:44-54 | "?" exactly for a missing or zero time; otherwise whole elapsed units of the largest unit reached (m, h, d, 30-day mo) |
| DexScreener.MarketCapOf | src/app/api/dex/route.ts:39 | the market cap, falling through to the FDV when the cap is 0 or absent |
| DexScreener.PairsOf | src/lib/dexscreener.ts:66 | `data.pairs \|\| []` |
| DexScreener.PairsResult | src/lib/dexscreener.ts:59-70 | a thrown or non-OK request gives `[]`; otherwise the body's pairs or `[]` |
| DexScreener.ArrayResult | src/lib/dexscreener.ts:73-86 | `[]` unless the request succeeded with an array body |
| DexScreener.FormatUsd | src/lib/dexscreener.ts:117-125 | "$0" exactly for falsy input. Otherwise the suffix is B, M, K or none, with mantissa × suffix = value: B and M with 2 decimals, K with 1. Without a suffix: 2 decimals in [1, 1000), 4 in [0.0001, 1), 8 below 0.0001 (negatives included) |
| DexScreener.UsdScaleGrows | src/lib/dexscreener.ts:119-125 | a larger positive amount never gets a smaller suffix; below 1000, a smaller positive amount never gets fewer decimals |
| DexScreener.FormatNumber | src/lib/dexscreener.ts:127-132 | the same result as the app-wide `formatNumber` for every input |
| DexScreener.FormatAge | src/lib/dexscreener.ts:134-144 | the same result as the app-wide `formatAge` for every input and clock |
| DexScreener.GetChainName | src/lib/dexscreener.ts:146-157 | the listed code, otherwise the id upper-cased; never a lower-case letter |
| DexScreener.GetChainColor | src/lib/dexscreener.ts:159-170 | the listed colour, otherwise `#888888`; always a `#RRGGBB` colour |
| DexScreener.ChainTablesAgree | src/lib/dexscreener.ts:147-168 | both tables list the same seven chains, and the codes tell them apart |
| Paging.PrevPage | src/app/markets/page.tsx:71 | one page back, never below 1 |
| Paging.PrevNextRules | src/app/markets/page.tsx:70-102 | Previous is disabled exactly where it would not move; Next is enabled exactly after a full page of 100 |
| MarketsPage.Span | src/app/markets/page.tsx:53-55 | the consecutive page buttons from lo to hi |
| MarketsPage.GetPageNumbers | src/app/markets/page.tsx:46-61 | the push-and-loop construction yields the strip `PageNumbers(page)` |
| MarketsPage.PageNumbersCases | src/app/markets/page.tsx:46-61 | the strip spelled out for each range of the current page |
| MarketsPage.PageNumbersMembers | src/app/markets/page.tsx:49-59 | begins with 1, ends with 50, contains the current page when it is 1..50, every number in [1,50] |
| MarketsPage.PageNumbersDots | src/app/markets/page.tsx:51-57 | a leading ellipsis exactly when page > 3, a trailing one exactly when page < 48 |
| MarketsPage.JoinDots | src/app/markets/page.tsx:50-58 | two well-spaced runs of buttons joined by an ellipsis that hides at least one page form a well-spaced strip |
| MarketsPage.PageNumbersWellSpaced | src/app/markets/page.tsx:46-61 | neighbouring buttons are consecutive pages, and two ellipses are never adjacent |
| MarketsPage.PageNumbersIncreasing | src/app/markets/page.tsx:53-59 | the numbers strictly increase from left to right |
| MarketsPage.HandleSort | src/app/markets/page.tsx:137-144 | the clicked column becomes the sort column |
| MarketsPage.HandleSortRules | src/app/markets/page.tsx:137-144 | re-clicking flips the direction and two clicks restore it; a new column starts ascending for rank, descending otherwise |
| MarketsPage.SortedSpec | src/app/markets/page.tsx:146-150 | the table is a permutation of the fetched rows, ordered by the column (missing as 0) in the direction |
| MarketsPage.DisplayRankFallback | src/app/markets/page.tsx:220 | an unranked row is numbered within its page's range (page−1)·100+1 … page·100, and different positions get different numbers |
| MarketsPage.DisplayRankRanked | src/app/markets/page.tsx:220 | a ranked row shows its own rank |
| MarketsPage.FetchRequestReadByRoute | src/app/markets/page.tsx:119-121 | the route reads search text as the search view on that text. Without search it reads the tab's view, the page and 100 per page |
| MarketsPage.SelectTabRules | src/app/markets/page.tsx:172-173 | after a tab click only that tab is highlighted. The pager shows exactly for Top. The request is page 1 of that view |
| MarketsPage.PagerRequests | src/app/markets/page.tsx:70-102 | Previous requests the page before (page 1 stays); Next the page after; when each is enabled is Paging.PrevNextRules |
| ExchangesPage.FilteredSpec | src/app/exchanges/page.tsx:51-56 | an empty search keeps the page as fetched. Otherwise it keeps exactly the exchanges whose name or non-empty country contains the search, case ignored, in order |
| ExchangesPage.NoCountryMatchesByName | src/app/exchanges/page.tsx:52-55 | without a country only the name decides |
| ExchangesPage.TrustTier | src/app/exchanges/page.tsx:23-27 | green exactly from 8, accent exactly in [5,8), red exactly below 5 |
| ExchangesPage.TrustTierMonotone | src/app/exchanges/page.tsx:23-27 | a higher trust score never earns a worse badge |
| ExchangesPage.LoadedPaging | src/app/exchanges/page.tsx:37-43 | a failed or empty load shows nothing and disables Next; Next is enabled only after 100 exchanges came back |
| ExchangesPage.PagerRules | src/app/exchanges/page.tsx:156-174 | Previous goes to max(1, page−1) and is disabled on page 1; Next goes to page+1; neither changes the search. The pager is hidden while searching |
| NewsPage.FilteredSpec | src/app/news/page.tsx:15-19 | an ordered subsequence keeping exactly the items in the category whose title or excerpt contains the query, case ignored. "All" with no query keeps everything |
| NewsPage.EmptyMessageRule | src/app/news/page.tsx:51-52 | "No news found" shows exactly when no item passes the filter |
| NewsPage.LongerQueryNarrows | src/app/news/page.tsx:17 | typing more never brings an item back |
| BlogPage.FirstFeatured | src/app/blog/page.tsx:14 | the first featured post; none exactly when no post is featured |
| BlogPage.PostsSpec | src/app/blog/page.tsx:15-18 | every post on "All"; otherwise exactly the posts of the category, in order |
| BlogPage.AllTabShowsFeaturedOnce | src/app/blog/page.tsx:41-65 | on "All" the card shows when a post is featured, and the grid holds exactly the unfeatured posts |
| BlogPage.CategoryTabShowsFeaturedTwice | src/app/blog/page.tsx:41-65 | on the featured post's own category the post shows as the card and again in the grid |
| BlogPage.CategoryGridIsPosts | src/app/blog/page.tsx:63-65 | off "All" the grid is the tab's posts unchanged |
| BlogPage.NoArticlesNeverBesideCard | src/app/blog/page.tsx:41-70 | "No articles found" never shows together with the featured card |
| Text.ContainsAt | src/app/news/page.tsx:17 | `includes` holds exactly when the text occurs at some position |
| Text.ContainsPrefix | src/app/news/page.tsx:17 | a string containing t+u contains t |
| Text.ToLowerAppend | src/app/news/page.tsx:17 | lower-casing distributes over concatenation |

## Left out

- HTTP, JSON parsing, `NextResponse`, revalidation caching and `encodeURIComponent` are not modelled. Each upstream request is an input outcome, and a response is a record of status and body fields.
- `Date.now()` is the parameter `now`. The dex route reads the clock afresh for every pair it scores (src/app/api/dex/route.ts:22); the model scores every pair at the one instant `now`, so pairs never straddle a clock tick. `parseFloat` / `parseInt` are parameters or already-parsed inputs. NaN from `parseInt` is not modelled.
- Digit rendering (`toFixed`, `toLocaleString`, `toExponential`) is not modelled; formatters return the branch and the number handed to the renderer.
- TokensRoute.Get: the gainers/losers `coins.sort` is modelled on values by a stable insertion sort, not as an update in place of the parsed array. A comparator returning NaN is not modelled, since the keys are numbers or 0. Stability is not stated as a separate lemma.
- The `sort` query parameter (`sortBy`) is read but never used by the route, so it is not modelled.
- The `sparkline_in_7d` placeholder of trending rows and the `dexId` and `priceNative` fields of a pair are not modelled: no logic reads them. The `info` field, which the dex route copies unchanged into every returned token, is also left out of `Pair`, so the model does not show it being passed through. `quoteToken` is a field of `Pair`, and a returned token carries it unchanged.
- TokensRoute.Get and DexRoute.Get: an exception is modelled only for the requests the handler makes; one from the JSON parsing of an OK body is folded into that request's `Threw`.
- React state and effects are values and transition functions. The 60-second `setInterval` refresh, loading flags and scrolling are not modelled.
- The markets page's `data.coins || []` on load is not modelled separately; its rows are the route's `coins`.
- The exchanges page's BTC-to-USD volume estimate (`btcVol * 97000`) is floating-point display only.
- The blog tab list has no "News" tab, although a post's category may be "News". No post in the data uses it, so this is noted here only.
- DexScreener.GetChainName: a chain id that names a property every JavaScript object inherits (`constructor`, `toString`, `__proto__`, …) is not modelled. For such an id the object lookup returns that inherited value, not the upper-cased id. Real chain ids never take these names.
- DexScreener.GetChainColor: for the same inherited names the lookup returns the inherited value, not `#888888`, so the `#RRGGBB` promise holds only for ids that are not such names.
- JavaScript string comparison and case mapping beyond ASCII (Unicode case folding) are not modelled; `toLowerCase` maps A–Z only.
- The chain ids are assumed free of '-' only in DexRoute.PairKeySeparates, which states what the key separates; the route itself makes no such assumption.
