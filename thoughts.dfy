/**
 * The public blog list (src/app/pages/ThoughtsPage.tsx): only published posts are kept,
 * then filtered by category and by a case-insensitive search, sorted newest first, and
 * split into featured and regular posts.
 */
module Thoughts {
  import opened Wrappers
  import opened Text
  import opened Lists
  import opened BlogData

  predicate IsPublished(p: BlogPost) { p.status == "published" }

  /** The fetch keeps only the published posts. */
  function PublishedOnly(posts: seq<BlogPost>): (r: seq<BlogPost>)
    ensures forall p :: p in r <==> p in posts && p.status == "published"
    ensures |r| <= |posts|
  {
    Filter(posts, IsPublished)
  }

  /** Keeping the published posts distributes over `+`, so their order and repeats are kept. */
  lemma PublishedOnlyConcat(a: seq<BlogPost>, b: seq<BlogPost>)
    ensures PublishedOnly(a + b) == PublishedOnly(a) + PublishedOnly(b)
  {
    FilterAppend(a, b, IsPublished);
  }

  /** The category filter: `"All"` lets every post through. */
  predicate InCategory(p: BlogPost, category: string)
  {
    category == "All" || p.category == category
  }

  /** `tags.some(tag => tag.toLowerCase().includes(q))`. */
  function SomeTagIncludes(tags: seq<string>, q: string): (r: bool)
    ensures r <==> exists i :: 0 <= i < |tags| && Includes(Lower(tags[i]), q)
  {
    if |tags| == 0 then false
    else Includes(Lower(tags[0]), q) || (assert forall i :: 0 < i < |tags| ==> tags[i] == tags[1..][i - 1];
                                          SomeTagIncludes(tags[1..], q))
  }

  /**
   * The search filter: an empty query lets every post through; otherwise the lower-cased
   * query must occur in the lower-cased title, description or one of the tags.
   */
  predicate MatchesQuery(p: BlogPost, query: string)
  {
    query == "" ||
    var q := Lower(query);
    Includes(Lower(p.title), q) || Includes(Lower(p.description), q) || SomeTagIncludes(p.tags, q)
  }

  /** The two filters of `filterPosts`, category first, in the list's order. */
  function Matching(posts: seq<BlogPost>, category: string, query: string): (r: seq<BlogPost>)
    ensures forall p :: p in r <==> p in posts && InCategory(p, category) && MatchesQuery(p, query)
    ensures category != "All" ==> forall p :: p in r ==> p.category == category
    ensures |r| <= |posts|
  {
    var byCategory := if category == "All" then posts else Filter(posts, (p: BlogPost) => p.category == category);
    if query == "" then byCategory else Filter(byCategory, (p: BlogPost) => MatchesQuery(p, query))
  }

  /** Both filters distribute over `+`: the matching posts keep the list's order and repeats. */
  lemma MatchingConcat(a: seq<BlogPost>, b: seq<BlogPost>, category: string, query: string)
    ensures Matching(a + b, category, query) == Matching(a, category, query) + Matching(b, category, query)
  {
    var inCategory := (p: BlogPost) => p.category == category;
    var byA := if category == "All" then a else Filter(a, inCategory);
    var byB := if category == "All" then b else Filter(b, inCategory);
    if category != "All" {
      FilterAppend(a, b, inCategory);
    }
    if query != "" {
      FilterAppend(byA, byB, (p: BlogPost) => MatchesQuery(p, query));
    }
  }

  /** With no category chosen and no query, nothing is filtered out. */
  lemma MatchingEverything(posts: seq<BlogPost>)
    ensures Matching(posts, "All", "") == posts
  {
  }

  function PublishedAt(p: BlogPost): int { p.publishedAt }

  /**
   * `filterPosts`: exactly the matching posts (as a multiset: every one of them, each as
   * often as in the list), newest first.
   */
  method FilterPosts(posts: seq<BlogPost>, category: string, query: string) returns (r: seq<BlogPost>)
    ensures multiset(r) == multiset(Matching(posts, category, query))
    ensures SortedDesc(r, PublishedAt)
  {
    var filtered := posts;
    if category != "All" {
      filtered := Filter(filtered, (p: BlogPost) => p.category == category);
    }
    if query != "" {
      filtered := Filter(filtered, (p: BlogPost) => MatchesQuery(p, query));
    }
    r := SortByKeyDesc(filtered, PublishedAt);
  }

  /** The results of `filterPosts` are the matching posts and nothing else. */
  lemma FilterPostsMembers(posts: seq<BlogPost>, category: string, query: string, r: seq<BlogPost>)
    requires multiset(r) == multiset(Matching(posts, category, query))
    ensures forall p :: p in r <==> p in posts && InCategory(p, category) && MatchesQuery(p, query)
  {
    forall p ensures p in r <==> p in Matching(posts, category, query) {
      assert p in r <==> p in multiset(r);
      assert p in Matching(posts, category, query) <==> p in multiset(Matching(posts, category, query));
    }
  }

  predicate IsFeatured(p: BlogPost) { p.featured }

  predicate IsRegular(p: BlogPost) { !p.featured }

  function FeaturedPosts(posts: seq<BlogPost>): (r: seq<BlogPost>)
    ensures forall p :: p in r <==> p in posts && p.featured
  {
    Filter(posts, IsFeatured)
  }

  function RegularPosts(posts: seq<BlogPost>): (r: seq<BlogPost>)
    ensures forall p :: p in r <==> p in posts && !p.featured
  {
    Filter(posts, IsRegular)
  }

  /**
   * The featured and regular lists split the filtered list: no post is in both, together
   * they hold every post as often as the list does, and both stay newest first.
   */
  lemma FeaturedRegularSplit(posts: seq<BlogPost>)
    requires SortedDesc(posts, PublishedAt)
    ensures forall p :: !(p in FeaturedPosts(posts) && p in RegularPosts(posts))
    ensures multiset(FeaturedPosts(posts)) + multiset(RegularPosts(posts)) == multiset(posts)
    ensures |FeaturedPosts(posts)| + |RegularPosts(posts)| == |posts|
    ensures SortedDesc(FeaturedPosts(posts), PublishedAt) && SortedDesc(RegularPosts(posts), PublishedAt)
  {
    FilterPartition(posts, IsFeatured, IsRegular);
    FilterKeepsSortedDesc(posts, IsFeatured, PublishedAt);
    FilterKeepsSortedDesc(posts, IsRegular, PublishedAt);
  }

  /** The page's state: the published posts, the filter inputs and the shown list. */
  class ThoughtsPage {
    var posts: seq<BlogPost>
    var filteredPosts: seq<BlogPost>
    var loading: bool
    var searchQuery: string
    var selectedCategory: string

    /** The shown list is always `filterPosts` of the current posts and inputs. */
    predicate Valid()
      reads this
    {
      multiset(filteredPosts) == multiset(Matching(posts, selectedCategory, searchQuery)) &&
      SortedDesc(filteredPosts, PublishedAt)
    }

    constructor()
      ensures Valid()
      ensures posts == [] && filteredPosts == [] && loading
      ensures searchQuery == "" && selectedCategory == "All"
    {
      posts := [];
      filteredPosts := [];
      loading := true;
      searchQuery := "";
      selectedCategory := "All";
    }

    /** The effect that re-runs `filterPosts` whenever the posts or an input change. */
    method Refilter()
      modifies this
      ensures Valid()
      ensures posts == old(posts) && loading == old(loading)
      ensures searchQuery == old(searchQuery) && selectedCategory == old(selectedCategory)
    {
      filteredPosts := FilterPosts(posts, selectedCategory, searchQuery);
    }

    /** `fetchPosts` finishing: a successful response's published posts replace the list. */
    method FetchPosts(fetched: Option<seq<BlogPost>>)
      modifies this
      ensures Valid()
      ensures posts == (if fetched.Some? then PublishedOnly(fetched.value) else old(posts))
      ensures !loading
      ensures searchQuery == old(searchQuery) && selectedCategory == old(selectedCategory)
    {
      if fetched.Some? {
        posts := PublishedOnly(fetched.value);
      }
      loading := false;
      Refilter();
    }

    method SetSearchQuery(query: string)
      modifies this
      ensures Valid()
      ensures searchQuery == query
      ensures posts == old(posts) && loading == old(loading) && selectedCategory == old(selectedCategory)
    {
      searchQuery := query;
      Refilter();
    }

    method SetCategory(category: string)
      modifies this
      ensures Valid()
      ensures selectedCategory == category
      ensures posts == old(posts) && loading == old(loading) && searchQuery == old(searchQuery)
    {
      selectedCategory := category;
      Refilter();
    }
  }
}
