/**
 * The admin blog list (src/app/pages/AdminBlogPage.tsx): the status filter, the three
 * counts, the local list updates after a delete or a status toggle, and the loop that
 * posts the sample posts one by one.
 */
module AdminBlog {
  import opened Wrappers
  import opened Lists
  import opened BlogData

  // ---------------------------------------------------------------------------------
  // filteredPosts and stats
  // ---------------------------------------------------------------------------------

  /** `filteredPosts`: `"all"` keeps every post, any other filter exactly the posts with that status. */
  function FilteredPosts(posts: seq<BlogPost>, filter: string): (r: seq<BlogPost>)
    ensures filter == "all" ==> r == posts
    ensures filter != "all" ==> forall p :: p in r <==> p in posts && p.status == filter
    ensures |r| <= |posts|
  {
    if filter == "all" then posts else Filter(posts, (p: BlogPost) => p.status == filter)
  }

  /** The filter keeps the list's order: filtering two lists one after the other is filtering their concatenation. */
  lemma FilteredPostsConcat(a: seq<BlogPost>, b: seq<BlogPost>, filter: string)
    ensures FilteredPosts(a + b, filter) == FilteredPosts(a, filter) + FilteredPosts(b, filter)
  {
    if filter != "all" {
      FilterAppend(a, b, (p: BlogPost) => p.status == filter);
    }
  }

  predicate IsPublishedPost(p: BlogPost) { p.status == "published" }

  predicate IsDraftPost(p: BlogPost) { p.status == "draft" }

  /** `stats`: the number of posts, of published posts and of drafts. */
  datatype Stats = Stats(total: nat, published: nat, drafts: nat)

  function PostStats(posts: seq<BlogPost>): (r: Stats)
    ensures r.total == |posts|
    ensures r.published + r.drafts <= r.total
    ensures (forall i :: 0 <= i < |posts| ==> IsPublishedPost(posts[i]) || IsDraftPost(posts[i])) ==>
              r.published + r.drafts == r.total
  {
    StatusCounts(posts);
    Stats(|posts|, |Filter(posts, IsPublishedPost)|, |Filter(posts, IsDraftPost)|)
  }

  /** The counts add up over a concatenation, so each one is a count of posts. */
  lemma PostStatsConcat(a: seq<BlogPost>, b: seq<BlogPost>)
    ensures PostStats(a + b).total == PostStats(a).total + PostStats(b).total
    ensures PostStats(a + b).published == PostStats(a).published + PostStats(b).published
    ensures PostStats(a + b).drafts == PostStats(a).drafts + PostStats(b).drafts
  {
    FilterAppend(a, b, IsPublishedPost);
    FilterAppend(a, b, IsDraftPost);
  }

  /** A single post counts as published exactly when its status is "published", and as a draft exactly when it is "draft". */
  lemma PostStatsOne(p: BlogPost)
    ensures PostStats([p]).published == if p.status == "published" then 1 else 0
    ensures PostStats([p]).drafts == if p.status == "draft" then 1 else 0
  {
    var pub, dr := Filter([p], IsPublishedPost), Filter([p], IsDraftPost);
    if p.status == "published" {
      assert p in pub;
    }
    if p.status == "draft" {
      assert p in dr;
    }
  }

  /** A post is never both published and a draft, so the two counts never exceed the total. */
  lemma {:induction false} StatusCounts(posts: seq<BlogPost>)
    ensures |Filter(posts, IsPublishedPost)| + |Filter(posts, IsDraftPost)| <= |posts|
    ensures (forall i :: 0 <= i < |posts| ==> IsPublishedPost(posts[i]) || IsDraftPost(posts[i])) ==>
              |Filter(posts, IsPublishedPost)| + |Filter(posts, IsDraftPost)| == |posts|
    decreases |posts|
  {
    if |posts| > 0 {
      StatusCounts(posts[1..]);
      assert !(IsPublishedPost(posts[0]) && IsDraftPost(posts[0]));
    }
  }

  // ---------------------------------------------------------------------------------
  // Local list updates
  // ---------------------------------------------------------------------------------

  /** `posts.filter(post => post.id !== id)`. */
  function RemovePost(posts: seq<BlogPost>, id: string): (r: seq<BlogPost>)
    ensures forall p :: p in r <==> p in posts && p.id != id
    ensures |r| <= |posts|
  {
    Filter(posts, (p: BlogPost) => p.id != id)
  }

  /** The removal distributes over `+`, so the remaining posts keep their order and their repeats. */
  lemma RemovePostConcat(a: seq<BlogPost>, b: seq<BlogPost>, id: string)
    ensures RemovePost(a + b, id) == RemovePost(a, id) + RemovePost(b, id)
  {
    FilterAppend(a, b, (p: BlogPost) => p.id != id);
  }

  /** The status a toggle sends: a published post becomes a draft, any other post is published. */
  function NewStatus(status: string): (r: string)
    ensures r == "draft" <==> status == "published"
    ensures r == "published" <==> status != "published"
  {
    if status == "published" then "draft" else "published"
  }

  /** Toggling twice gives back a draft or a published status. */
  lemma NewStatusInvolution(status: string)
    requires status == "draft" || status == "published"
    ensures NewStatus(NewStatus(status)) == status
  {
  }

  /** `posts.map(p => p.id === id ? { ...p, status } : p)`. */
  function SetStatus(posts: seq<BlogPost>, id: string, status: string): (r: seq<BlogPost>)
    ensures |r| == |posts|
    ensures forall i :: 0 <= i < |r| && posts[i].id != id ==> r[i] == posts[i]
    ensures forall i :: 0 <= i < |r| && posts[i].id == id ==> r[i] == posts[i].(status := status)
  {
    if |posts| == 0 then []
    else [if posts[0].id == id then posts[0].(status := status) else posts[0]] + SetStatus(posts[1..], id, status)
  }

  /** Setting a status where no post has the id changes nothing. */
  lemma SetStatusAbsent(posts: seq<BlogPost>, id: string, status: string)
    requires forall i :: 0 <= i < |posts| ==> posts[i].id != id
    ensures SetStatus(posts, id, status) == posts
  {
  }

  // ---------------------------------------------------------------------------------
  // The page's state
  // ---------------------------------------------------------------------------------

  /** What a fetch came to: a response with its `ok` flag, or an exception. */
  datatype FetchResult = Response(ok: bool) | Threw

  /** What one POST of the initialization loop came to: an ok response, a refusal, or a thrown `fetch` with its message. */
  datatype PostOutcome = Accepted | Rejected | Failed(message: string)

  predicate NotAccepted(o: PostOutcome) { !o.Accepted? }

  /** The banner the loop's `catch` shows for the post whose save stopped it. */
  function StopMessage(o: PostOutcome, title: string): (r: string)
    ensures o.Failed? ==> r == "Error: " + o.message
    ensures !o.Failed? ==> r == "Error: Failed to save post: " + title
  {
    if o.Failed? then "Error: " + o.message else "Error: Failed to save post: " + title
  }

  /** The ids of the first `n` sample posts, in order. */
  function SampleIds(n: nat): (r: seq<string>)
    requires n <= |SamplePosts|
    ensures |r| == n && forall i :: 0 <= i < n ==> r[i] == SamplePosts[i].id
  {
    if n == 0 then [] else SampleIds(n - 1) + [SamplePosts[n - 1].id]
  }

  const InitSuccess := "✓ Successfully initialized 4 blog posts! Reloading..."

  /** `AdminBlogPage`'s list, filter, alert and initialization banner. */
  class AdminBlogPage {
    var posts: seq<BlogPost>
    var loading: bool
    var filter: string
    var alert: Option<string>
    var initializing: bool
    var initMessage: string

    constructor()
      ensures posts == [] && loading && filter == "all" && alert.None?
      ensures !initializing && initMessage == ""
    {
      posts := [];
      loading := true;
      filter := "all";
      alert := None;
      initializing := false;
      initMessage := "";
    }

    /** `fetchPosts` finishing: a successful fetch replaces the list; loading ends either way. */
    method FetchPosts(fetched: Option<seq<BlogPost>>)
      modifies this
      ensures posts == (if fetched.Some? then fetched.value else old(posts))
      ensures !loading
      ensures filter == old(filter) && alert == old(alert)
      ensures initializing == old(initializing) && initMessage == old(initMessage)
    {
      if fetched.Some? {
        posts := fetched.value;
      }
      loading := false;
    }

    /**
     * `handleDelete(id)`: nothing happens unless the admin confirms; a successful DELETE
     * drops every post with that id from the list, keeping the rest.
     */
    method HandleDelete(id: string, confirmed: bool, result: FetchResult)
      modifies this
      ensures confirmed && result == Response(true) ==>
                posts == RemovePost(old(posts), id) && alert == Some("Blog post deleted successfully!")
      ensures confirmed && result == Response(false) ==>
                posts == old(posts) && alert == Some("Failed to delete blog post")
      ensures confirmed && result.Threw? ==> posts == old(posts) && alert == Some("Error deleting blog post")
      ensures !confirmed ==> posts == old(posts) && alert == old(alert)
      ensures loading == old(loading) && filter == old(filter)
      ensures initializing == old(initializing) && initMessage == old(initMessage)
    {
      if !confirmed {
        return;
      }
      match result
      case Threw =>
        alert := Some("Error deleting blog post");
      case Response(ok) =>
        if ok {
          posts := RemovePost(posts, id);
          alert := Some("Blog post deleted successfully!");
        } else {
          alert := Some("Failed to delete blog post");
        }
    }

    /**
     * `handleToggleStatus(post)`: sends the post with its status toggled (the returned
     * body) and, on an ok response, gives every listed post with that id the new status.
     */
    method HandleToggleStatus(post: BlogPost, result: FetchResult) returns (body: BlogPost)
      modifies this
      ensures body == post.(status := NewStatus(post.status))
      ensures posts == (if result == Response(true) then SetStatus(old(posts), post.id, NewStatus(post.status))
                        else old(posts))
      ensures loading == old(loading) && filter == old(filter) && alert == old(alert)
      ensures initializing == old(initializing) && initMessage == old(initMessage)
    {
      var status := NewStatus(post.status);
      body := post.(status := status);
      if result == Response(true) {
        posts := SetStatus(posts, post.id, status);
      }
    }

    /**
     * `handleInitializePosts`: posts the samples in order (the returned ids are the posts
     * whose `fetch` was started), where `responses[i]` is what the i-th POST came to. The
     * loop stops at the first refusal or exception; earlier posts stay sent.
     */
    method HandleInitializePosts(responses: seq<PostOutcome>) returns (sent: seq<string>)
      requires |responses| == |SamplePosts|
      modifies this
      ensures var k := FindIndex(responses, NotAccepted);
              if k == -1 then
                sent == SampleIds(|SamplePosts|) && initializing && initMessage == InitSuccess
              else
                sent == SampleIds(k + 1) && !initializing &&
                initMessage == StopMessage(responses[k], SamplePosts[k].title)
      ensures posts == old(posts) && loading == old(loading) && filter == old(filter) && alert == old(alert)
    {
      initializing := true;
      initMessage := "Initializing blog posts...";
      sent := [];
      var i := 0;
      while i < |SamplePosts|
        invariant 0 <= i <= |SamplePosts|
        invariant sent == SampleIds(i)
        invariant forall j :: 0 <= j < i ==> responses[j].Accepted?
        invariant initializing
        invariant posts == old(posts) && loading == old(loading) && filter == old(filter) && alert == old(alert)
      {
        sent := sent + [SamplePosts[i].id];
        if !responses[i].Accepted? {
          initMessage := StopMessage(responses[i], SamplePosts[i].title);
          initializing := false;
          return;
        }
        i := i + 1;
      }
      initMessage := InitSuccess;
    }

    /** The reload the success banner schedules: the list is fetched again and the banner goes. */
    method FinishInitialization(fetched: Option<seq<BlogPost>>)
      modifies this
      ensures posts == (if fetched.Some? then fetched.value else old(posts))
      ensures !loading && !initializing && initMessage == ""
      ensures filter == old(filter) && alert == old(alert)
    {
      FetchPosts(fetched);
      initializing := false;
      initMessage := "";
    }
  }
}
