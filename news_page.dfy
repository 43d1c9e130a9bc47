/** The news page (`src/app/news/page.tsx`): the category tabs and the text search over the news
    list. */
module NewsPage {

  import opened Lists
  import Text

  /** The fields of a news item the filter reads. */
  datatype NewsItem = NewsItem(id: int, title: string, category: string, excerpt: string)

  const AllCategories := "All"

  /** An item is kept when it is in the chosen category (any, for "All") and the query is empty or
      occurs in its title or excerpt, letter case ignored. */
  predicate Keep(item: NewsItem, category: string, query: string)
  {
    && (category == AllCategories || item.category == category)
    && (query == "" ||
        Text.Contains(Text.ToLower(item.title), Text.ToLower(query)) ||
        Text.Contains(Text.ToLower(item.excerpt), Text.ToLower(query)))
  }

  /** `filtered`. */
  function Filtered(items: seq<NewsItem>, category: string, query: string): seq<NewsItem>
  {
    Filter(items, item => Keep(item, category, query))
  }

  /** The list keeps exactly the items passing both tests, in their original order; "All" with no
      query shows every item. */
  lemma FilteredSpec(items: seq<NewsItem>, category: string, query: string)
    ensures IsSubseq(Filtered(items, category, query), items)
    ensures forall x :: x in Filtered(items, category, query) <==> x in items && Keep(x, category, query)
    ensures category == AllCategories && query == "" ==> Filtered(items, category, query) == items
  {
    FilterIsSubseq(items, item => Keep(item, category, query));
    forall x | x in items && Keep(x, category, query)
      ensures x in Filtered(items, category, query)
    {
      var i :| 0 <= i < |items| && items[i] == x;
    }
    if category == AllCategories && query == "" {
      FilterKeepsAll(items, item => Keep(item, category, query));
    }
  }

  /** "No news found" is shown when the filtered list is empty. */
  predicate ShowsEmptyMessage(items: seq<NewsItem>, category: string, query: string)
  {
    |Filtered(items, category, query)| == 0
  }

  /** The empty-state message appears exactly when no item passes the filter. */
  lemma EmptyMessageRule(items: seq<NewsItem>, category: string, query: string)
    ensures ShowsEmptyMessage(items, category, query) <==> forall x :: x in items ==> !Keep(x, category, query)
  {
    FilteredSpec(items, category, query);
    var r := Filtered(items, category, query);
    if |r| > 0 {
      assert r[0] in r;
    }
  }

  /** Narrowing the search to a longer query never brings an item back: whatever matches
      `query + more` in the same category also matches `query`. */
  lemma LongerQueryNarrows(items: seq<NewsItem>, category: string, query: string, more: string)
    ensures forall x :: x in Filtered(items, category, query + more) ==> x in Filtered(items, category, query)
  {
    FilteredSpec(items, category, query);
    FilteredSpec(items, category, query + more);
    forall x | x in Filtered(items, category, query + more)
      ensures Keep(x, category, query)
    {
      if query != "" {
        Text.ToLowerAppend(query, more);
        if Text.Contains(Text.ToLower(x.title), Text.ToLower(query + more)) {
          Text.ContainsPrefix(Text.ToLower(x.title), Text.ToLower(query), Text.ToLower(more));
        } else {
          Text.ContainsPrefix(Text.ToLower(x.excerpt), Text.ToLower(query), Text.ToLower(more));
        }
      }
    }
  }
}
