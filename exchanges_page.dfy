/** The exchanges page (`src/app/exchanges/page.tsx`): the client-side search over the fetched
    page of exchanges, the trust-score badge, and the pager. */
module ExchangesPage {

  import opened Common
  import opened Lists
  import Text
  import Paging

  /** The fields of an exchange the page's logic reads. */
  datatype Exchange = Exchange(id: string, name: string, country: Option<string>, trustScore: real, trustScoreRank: int)

  /** An exchange matches a search when its name, or its country when it has one, contains the
      search text, letter case ignored. */
  predicate Matches(e: Exchange, search: string)
  {
    Text.Contains(Text.ToLower(e.name), Text.ToLower(search)) ||
    (Truthy(e.country) && Text.Contains(Text.ToLower(e.country.value), Text.ToLower(search)))
  }

  /** `filtered`: every exchange when the search box is empty, otherwise the matching ones. */
  function Filtered(exchanges: seq<Exchange>, search: string): seq<Exchange>
  {
    if search != "" then Filter(exchanges, e => Matches(e, search)) else exchanges
  }

  /** An empty search shows the page as fetched; otherwise the list keeps exactly the matching
      exchanges, in their fetched order. */
  lemma FilteredSpec(exchanges: seq<Exchange>, search: string)
    ensures search == "" ==> Filtered(exchanges, search) == exchanges
    ensures IsSubseq(Filtered(exchanges, search), exchanges)
    ensures forall e :: e in Filtered(exchanges, search) <==> e in exchanges && (search == "" || Matches(e, search))
  {
    if search == "" {
      IsSubseqRefl(exchanges);
    } else {
      FilterIsSubseq(exchanges, e => Matches(e, search));
      forall e | e in exchanges && Matches(e, search)
        ensures e in Filtered(exchanges, search)
      {
        var i :| 0 <= i < |exchanges| && exchanges[i] == e;
      }
    }
  }

  /** The name alone decides for an exchange without a country. */
  lemma NoCountryMatchesByName(e: Exchange, search: string)
    requires !Truthy(e.country)
    ensures Matches(e, search) <==> Text.Contains(Text.ToLower(e.name), Text.ToLower(search))
  {
  }

  /** The colour of the trust-score badge. */
  datatype Tier = Red | Accent | Green

  /** `TrustBadge`: green from 8, accent from 5, red below. */
  function TrustTier(score: real): (t: Tier)
    ensures t == Green <==> score >= 8.0
    ensures t == Accent <==> 5.0 <= score < 8.0
    ensures t == Red <==> score < 5.0
  {
    if score >= 8.0 then Green else if score >= 5.0 then Accent else Red
  }

  function TierLevel(t: Tier): int
  {
    match t
    case Red => 0
    case Accent => 1
    case Green => 2
  }

  /** A higher trust score never earns a worse badge. */
  lemma TrustTierMonotone(a: real, b: real)
    requires a <= b
    ensures TierLevel(TrustTier(a)) <= TierLevel(TrustTier(b))
  {
  }

  /** The body of `/api/exchanges?page=…&per_page=100`, whose `exchanges` may be missing. */
  datatype ExchangesBody = ExchangesBody(exchanges: Option<seq<Exchange>>)

  /** The list the page holds after a load: `data.exchanges || []`, or `[]` when the request or
      its JSON parsing threw (`None`). The response status is not consulted. */
  function Loaded(res: Option<ExchangesBody>): seq<Exchange>
  {
    if res.Some? && res.value.exchanges.Some? then res.value.exchanges.value else []
  }

  /** A failed or empty load shows an empty list and leaves Next disabled, so the user cannot page
      past it; only a full page of 100 enables Next. */
  lemma LoadedPaging(res: Option<ExchangesBody>)
    ensures (res.None? || res.value.exchanges.None?) ==> Loaded(res) == [] && Paging.NextDisabled(|Loaded(res)|)
    ensures !Paging.NextDisabled(|Loaded(res)|) ==>
      res.Some? && res.value.exchanges.Some? && |res.value.exchanges.value| >= Paging.PerPage
  {
  }

  /** The page's state: the fetched page number and the search text. */
  datatype Controls = Controls(page: int, search: string)

  /** `setPage(p => Math.max(1, p - 1))`. */
  function Previous(c: Controls): Controls
  {
    c.(page := Paging.PrevPage(c.page))
  }

  /** `setPage(p => p + 1)`. */
  function Next(c: Controls): Controls
  {
    c.(page := c.page + 1)
  }

  /** The pager is hidden while a search is active. */
  predicate PagerShown(c: Controls)
  {
    c.search == ""
  }

  /** Previous never leaves page 1 and is disabled there; neither button is shown during a search;
      neither touches the search text. When Next is offered is `Paging.PrevNextRules`. */
  lemma PagerRules(c: Controls)
    requires c.page >= 1
    ensures Previous(c).page >= 1
    ensures Paging.PrevDisabled(c.page) <==> Previous(c) == c
    ensures !Paging.PrevDisabled(c.page) ==> Previous(c).page == c.page - 1
    ensures Next(c).page == c.page + 1
    ensures Previous(c).search == c.search && Next(c).search == c.search
    ensures PagerShown(c) <==> c.search == ""
  {
    Paging.PrevNextRules(c.page, 0);
  }
}
