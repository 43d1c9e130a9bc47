/** The blog page (`src/app/blog/page.tsx`): the featured post, the category tabs, and the grid
    under the featured card. */
module BlogPage {

  import opened Common
  import opened Lists

  /** The fields of a post the page's logic reads. */
  datatype BlogPost = BlogPost(id: int, title: string, category: string, featured: bool)

  const AllCategories := "All"

  /** `find(p => p.featured)`: the first featured post, if any. */
  function FirstFeatured(posts: seq<BlogPost>): (r: Option<BlogPost>)
    ensures r.None? <==> forall i :: 0 <= i < |posts| ==> !posts[i].featured
    ensures r.Some? ==>
      exists i ::
        0 <= i < |posts| && posts[i] == r.value && r.value.featured && forall k :: 0 <= k < i ==> !posts[k].featured
  {
    if posts == [] then None
    else if posts[0].featured then Some(posts[0])
    else
      var r := FirstFeatured(posts[1..]);
      assert r.Some? ==> exists i :: 1 <= i < |posts| && posts[i] == r.value && forall k :: 0 <= k < i ==> !posts[k].featured;
      r
  }

  predicate InCategory(p: BlogPost, category: string)
  {
    category == AllCategories || p.category == category
  }

  /** `posts`: every post on "All", otherwise the posts of the chosen category, in order. */
  function Posts(all: seq<BlogPost>, category: string): seq<BlogPost>
  {
    Filter(all, p => InCategory(p, category))
  }

  /** The featured card shows the first featured post on "All" and on that post's own category. */
  predicate FeaturedCardShown(all: seq<BlogPost>, category: string)
  {
    var f := FirstFeatured(all);
    f.Some? && (category == AllCategories || f.value.category == category)
  }

  /** The grid: the tab's posts, without the featured ones on "All". */
  function Grid(all: seq<BlogPost>, category: string): seq<BlogPost>
  {
    Filter(Posts(all, category), (p: BlogPost) => !p.featured || category != AllCategories)
  }

  /** "No articles found" depends on the tab's posts, before the featured ones are dropped. */
  predicate NoArticlesShown(all: seq<BlogPost>, category: string)
  {
    |Posts(all, category)| == 0
  }

  /** The tab's posts are exactly the posts of the category, in order; every post on "All". */
  lemma PostsSpec(all: seq<BlogPost>, category: string)
    ensures IsSubseq(Posts(all, category), all)
    ensures forall p :: p in Posts(all, category) <==> p in all && InCategory(p, category)
    ensures category == AllCategories ==> Posts(all, category) == all
  {
    FilterIsSubseq(all, p => InCategory(p, category));
    forall p | p in all && InCategory(p, category)
      ensures p in Posts(all, category)
    {
      var i :| 0 <= i < |all| && all[i] == p;
    }
    if category == AllCategories {
      FilterKeepsAll(all, p => InCategory(p, category));
    }
  }

  /** On "All" the featured card shows whenever some post is featured and the grid holds every
      unfeatured post and no featured one: the first featured post appears once, as the card,
      and any further featured post does not appear at all. */
  lemma AllTabShowsFeaturedOnce(all: seq<BlogPost>)
    ensures FeaturedCardShown(all, AllCategories) <==> exists i :: 0 <= i < |all| && all[i].featured
    ensures forall p :: p in Grid(all, AllCategories) <==> p in all && !p.featured
  {
    PostsSpec(all, AllCategories);
    var g := Grid(all, AllCategories);
    forall p | p in all && !p.featured
      ensures p in g
    {
      var i :| 0 <= i < |all| && all[i] == p;
    }
  }

  /** On the featured post's own category tab the grid keeps featured posts, so the featured post
      appears twice: as the card and in the grid. */
  lemma CategoryTabShowsFeaturedTwice(all: seq<BlogPost>, category: string)
    requires category != AllCategories
    requires FirstFeatured(all).Some? && FirstFeatured(all).value.category == category
    ensures FeaturedCardShown(all, category)
    ensures FirstFeatured(all).value in Grid(all, category)
  {
    var f := FirstFeatured(all).value;
    PostsSpec(all, category);
    var i :| 0 <= i < |all| && all[i] == f;
    assert f in Posts(all, category);
    var ps := Posts(all, category);
    var j :| 0 <= j < |ps| && ps[j] == f;
  }

  /** Off "All" the grid is the tab's posts unchanged. */
  lemma CategoryGridIsPosts(all: seq<BlogPost>, category: string)
    requires category != AllCategories
    ensures Grid(all, category) == Posts(all, category)
  {
    FilterKeepsAll(Posts(all, category), (p: BlogPost) => !p.featured || category != AllCategories);
  }

  /** The empty-state message never shows beside the featured card. */
  lemma NoArticlesNeverBesideCard(all: seq<BlogPost>, category: string)
    ensures FeaturedCardShown(all, category) ==> !NoArticlesShown(all, category)
  {
    if FeaturedCardShown(all, category) {
      var f := FirstFeatured(all).value;
      PostsSpec(all, category);
      var i :| 0 <= i < |all| && all[i] == f;
      assert f in Posts(all, category);
    }
  }
}
