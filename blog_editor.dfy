/**
 * The blog post editor (src/app/pages/AdminBlogEditorPage.tsx): slug generation, the
 * title, tag and save handlers over the editor's state, and the save request.
 */
module BlogEditor {
  import opened Wrappers
  import opened Text
  import opened Lists
  import opened BlogData

  // ---------------------------------------------------------------------------------
  // generateSlug
  // ---------------------------------------------------------------------------------

  /** A character the slug keeps: `[a-z0-9]`. */
  predicate IsSlugChar(c: char)
  {
    ('a' <= c <= 'z') || ('0' <= c <= '9')
  }

  /** Drops the characters at the front of `s` that the slug does not keep. */
  function SkipNonSlug(s: string): (r: string)
    ensures |r| <= |s|
    ensures r == [] || IsSlugChar(r[0])
  {
    if |s| > 0 && !IsSlugChar(s[0]) then SkipNonSlug(s[1..]) else s
  }

  /** What `SkipNonSlug` drops is a prefix of characters the slug does not keep. */
  lemma {:induction false} SkipNonSlugDrops(s: string)
    ensures SkipNonSlug(s) == s[|s| - |SkipNonSlug(s)|..]
    ensures forall i :: 0 <= i < |s| - |SkipNonSlug(s)| ==> !IsSlugChar(s[i])
    decreases |s|
  {
    if |s| > 0 && !IsSlugChar(s[0]) {
      SkipNonSlugDrops(s[1..]);
      assert s[1..][|s| - 1 - |SkipNonSlug(s)|..] == s[|s| - |SkipNonSlug(s)|..];
    }
  }

  /** `.replace(/[^a-z0-9]+/g, "-")`: every maximal run of other characters becomes one `-`. */
  function Collapse(s: string): (r: string)
    ensures |r| <= |s|
    decreases |s|
  {
    if |s| == 0 then []
    else if IsSlugChar(s[0]) then [s[0]] + Collapse(s[1..])
    else "-" + Collapse(SkipNonSlug(s[1..]))
  }

  /** `.replace(/(^-|-$)/g, "")`: one leading and one trailing `-` go. */
  function StripDashes(s: string): (r: string)
    ensures |s| - 2 <= |r| <= |s|
    ensures (s == [] || (s[0] != '-' && s[|s| - 1] != '-')) ==> r == s
    ensures |s| >= 2 && s[0] == '-' && s[|s| - 1] == '-' ==> r == s[1..|s| - 1]
  {
    var t := if |s| > 0 && s[0] == '-' then s[1..] else s;
    if |t| > 0 && t[|t| - 1] == '-' then t[..|t| - 1] else t
  }

  /** `generateSlug(title)`. */
  function GenerateSlug(title: string): (r: string)
    ensures IsSlug(r)
    ensures Filter(r, IsSlugChar) == Filter(Lower(title), IsSlugChar)
  {
    var c := Collapse(Lower(title));
    CollapseShape(Lower(title));
    CollapseKeepsSlugChars(Lower(title));
    StripDashesKeepsSlugChars(c);
    StripDashes(c)
  }

  /** Only `[a-z0-9-]`, no `--`. */
  predicate DashSeparated(s: string)
  {
    (forall i :: 0 <= i < |s| ==> IsSlugChar(s[i]) || s[i] == '-') &&
    (forall i :: 0 <= i < |s| - 1 ==> s[i] == '-' ==> s[i + 1] != '-')
  }

  /** What a slug looks like: `[a-z0-9]` runs joined by single dashes, no dash at either end. */
  predicate IsSlug(s: string)
  {
    DashSeparated(s) && (s == [] || (s[0] != '-' && s[|s| - 1] != '-'))
  }

  /** The collapsed text is dash-separated and starts with a dash exactly when the input starts with a dropped character. */
  lemma {:induction false} CollapseShape(s: string)
    ensures DashSeparated(Collapse(s))
    ensures Collapse(s) != [] <==> s != []
    ensures Collapse(s) != [] ==> (Collapse(s)[0] == '-' <==> !IsSlugChar(s[0]))
    decreases |s|
  {
    if |s| > 0 {
      if IsSlugChar(s[0]) {
        CollapseShape(s[1..]);
      } else {
        var t := SkipNonSlug(s[1..]);
        CollapseShape(t);
        var r := Collapse(s);
        assert r == "-" + Collapse(t);
        forall i | 0 <= i < |r| - 1 && r[i] == '-' ensures r[i + 1] != '-' {
          if i == 0 {
            assert r[1] == Collapse(t)[0];
          } else {
            assert r[i] == Collapse(t)[i - 1];
          }
        }
      }
    }
  }

  /** Collapsing keeps every `[a-z0-9]` character, in order. */
  lemma {:induction false} CollapseKeepsSlugChars(s: string)
    ensures Filter(Collapse(s), IsSlugChar) == Filter(s, IsSlugChar)
    decreases |s|
  {
    if |s| > 0 {
      assert s == [s[0]] + s[1..];
      FilterAppend([s[0]], s[1..], IsSlugChar);
      if IsSlugChar(s[0]) {
        CollapseKeepsSlugChars(s[1..]);
        FilterAppend([s[0]], Collapse(s[1..]), IsSlugChar);
      } else {
        var t := SkipNonSlug(s[1..]);
        SkipNonSlugKeepsSlugChars(s[1..]);
        CollapseKeepsSlugChars(t);
        FilterAppend("-", Collapse(t), IsSlugChar);
      }
    }
  }

  /** Skipping characters the slug does not keep keeps every character it does. */
  lemma {:induction false} SkipNonSlugKeepsSlugChars(u: string)
    ensures Filter(SkipNonSlug(u), IsSlugChar) == Filter(u, IsSlugChar)
    decreases |u|
  {
    if |u| > 0 && !IsSlugChar(u[0]) {
      SkipNonSlugKeepsSlugChars(u[1..]);
    }
  }

  /** Stripping the end dashes of dash-separated text leaves a slug with the same kept characters. */
  lemma StripDashesKeepsSlugChars(s: string)
    requires DashSeparated(s)
    ensures IsSlug(StripDashes(s))
    ensures Filter(StripDashes(s), IsSlugChar) == Filter(s, IsSlugChar)
  {
    StripDashesIsSlug(s);
    StripDashesFilter(s);
  }

  lemma StripDashesIsSlug(s: string)
    requires DashSeparated(s)
    ensures IsSlug(StripDashes(s))
  {
    var t := if |s| > 0 && s[0] == '-' then s[1..] else s;
    assert DashSeparated(t) && (t == [] || t[0] != '-');
    if |t| > 0 && t[|t| - 1] == '-' {
      var r := t[..|t| - 1];
      assert forall i :: 0 <= i < |r| ==> r[i] == t[i];
    }
  }

  lemma StripDashesFilter(s: string)
    ensures Filter(StripDashes(s), IsSlugChar) == Filter(s, IsSlugChar)
  {
    var t := if |s| > 0 && s[0] == '-' then s[1..] else s;
    if |s| > 0 && s[0] == '-' {
      DropLeadingDash(s);
    }
    if |t| > 0 && t[|t| - 1] == '-' {
      DropTrailingDash(t);
    }
  }

  /** A leading `-` contributes nothing to the kept characters. */
  lemma DropLeadingDash(s: string)
    requires |s| > 0 && s[0] == '-'
    ensures Filter(s[1..], IsSlugChar) == Filter(s, IsSlugChar)
  {
  }

  /** Nor does a trailing one. */
  lemma DropTrailingDash(s: string)
    requires |s| > 0 && s[|s| - 1] == '-'
    ensures Filter(s[..|s| - 1], IsSlugChar) == Filter(s, IsSlugChar)
  {
    var n := |s| - 1;
    assert s == s[..n] + [s[n]];
    FilterAppend(s[..n], [s[n]], IsSlugChar);
  }

  /** A title with no letter or digit gives the empty slug. */
  lemma NoSlugCharsGiveEmptySlug(title: string)
    requires forall i :: 0 <= i < |title| ==> !IsSlugChar(LowerChar(title[i]))
    ensures GenerateSlug(title) == ""
  {
    var l := Lower(title);
    if |l| > 0 {
      SkipNonSlugDrops(l[1..]);
      assert SkipNonSlug(l[1..]) == [];
      assert Collapse(l) == "-";
    }
  }

  /** A slug is its own slug. */
  lemma {:induction false} SlugIsFixedPoint(s: string)
    requires IsSlug(s)
    ensures GenerateSlug(s) == s
  {
    assert Lower(s) == s;
    CollapseFixesDashSeparated(s);
    assert StripDashes(s) == s;
  }

  lemma {:induction false} CollapseFixesDashSeparated(s: string)
    requires DashSeparated(s) && (s == [] || IsSlugChar(s[0]) || |s| == 1 || IsSlugChar(s[1]))
    ensures Collapse(s) == s
    decreases |s|
  {
    if |s| > 0 {
      var t := s[1..];
      if IsSlugChar(s[0]) {
        CollapseFixesDashSeparated(t);
      } else {
        assert SkipNonSlug(t) == t;
        CollapseFixesDashSeparated(t);
      }
    }
  }

  /** Skipping past a run of dropped characters skips past everything after it that is dropped too. */
  lemma {:induction false} SkipNonSlugPrefix(p: string, rest: string)
    requires forall i :: 0 <= i < |p| ==> !IsSlugChar(p[i])
    ensures SkipNonSlug(p + rest) == SkipNonSlug(rest)
    decreases |p|
  {
    if |p| > 0 {
      assert (p + rest)[1..] == p[1..] + rest;
      SkipNonSlugPrefix(p[1..], rest);
    } else {
      assert p + rest == rest;
    }
  }

  /**
   * Where the dashes go: a run of letters and digits is kept as it is, and the run of
   * other characters after it becomes exactly one `-`, whatever its length.
   */
  lemma {:induction false} CollapseWordThenSeparator(w: string, sep: string, rest: string)
    requires forall i :: 0 <= i < |w| ==> IsSlugChar(w[i])
    requires |sep| > 0 && forall i :: 0 <= i < |sep| ==> !IsSlugChar(sep[i])
    ensures Collapse(w + sep + rest) == w + "-" + Collapse(SkipNonSlug(rest))
    decreases |w|
  {
    if |w| == 0 {
      assert w + sep + rest == sep + rest;
      assert (sep + rest)[1..] == sep[1..] + rest;
      SkipNonSlugPrefix(sep[1..], rest);
    } else {
      assert (w + sep + rest)[1..] == w[1..] + sep + rest;
      CollapseWordThenSeparator(w[1..], sep, rest);
      assert w == [w[0]] + w[1..];
    }
  }

  /**
   * Two words with any run of other characters between them give the two words, lower-cased,
   * joined by one `-`: "Hello,  World" becomes "hello-world".
   */
  lemma TwoWordSlug(w1: string, sep: string, w2: string)
    requires |w1| > 0 && forall i :: 0 <= i < |w1| ==> IsSlugChar(LowerChar(w1[i]))
    requires |sep| > 0 && forall i :: 0 <= i < |sep| ==> !IsSlugChar(LowerChar(sep[i]))
    requires |w2| > 0 && forall i :: 0 <= i < |w2| ==> IsSlugChar(LowerChar(w2[i]))
    ensures GenerateSlug(w1 + sep + w2) == Lower(w1) + "-" + Lower(w2)
  {
    LoweredTwoWords(w1, sep, w2);
    SlugOfCollapsed(w1 + sep + w2, Lower(w1) + "-" + Lower(w2));
  }

  lemma LoweredTwoWords(w1: string, sep: string, w2: string)
    requires |w1| > 0 && forall i :: 0 <= i < |w1| ==> IsSlugChar(LowerChar(w1[i]))
    requires |sep| > 0 && forall i :: 0 <= i < |sep| ==> !IsSlugChar(LowerChar(sep[i]))
    requires |w2| > 0 && forall i :: 0 <= i < |w2| ==> IsSlugChar(LowerChar(w2[i]))
    ensures var c := Lower(w1) + "-" + Lower(w2);
            Collapse(Lower(w1 + sep + w2)) == c && c != [] && c[0] != '-' && c[|c| - 1] != '-'
  {
    var l1, ls, l2 := Lower(w1), Lower(sep), Lower(w2);
    LowerConcat(w1, sep, w2);
    CollapseTwoWords(l1, ls, l2);
    var c := l1 + "-" + l2;
    assert c[0] == l1[0] && c[|c| - 1] == l2[|l2| - 1];
  }

  /** A collapse with no dash at either end is the slug itself. */
  lemma SlugOfCollapsed(t: string, c: string)
    requires Collapse(Lower(t)) == c && c != [] && c[0] != '-' && c[|c| - 1] != '-'
    ensures GenerateSlug(t) == c
  {
  }

  lemma LowerConcat(a: string, b: string, c: string)
    ensures Lower(a + b + c) == Lower(a) + Lower(b) + Lower(c)
  {
  }

  lemma CollapseTwoWords(l1: string, ls: string, l2: string)
    requires |l1| > 0 && forall i :: 0 <= i < |l1| ==> IsSlugChar(l1[i])
    requires |ls| > 0 && forall i :: 0 <= i < |ls| ==> !IsSlugChar(ls[i])
    requires |l2| > 0 && forall i :: 0 <= i < |l2| ==> IsSlugChar(l2[i])
    ensures Collapse(l1 + ls + l2) == l1 + "-" + l2
  {
    CollapseWordThenSeparator(l1, ls, l2);
    assert SkipNonSlug(l2) == l2;
    CollapseFixesDashSeparated(l2);
  }

  /** `generateSlug` is idempotent. */
  lemma GenerateSlugIdempotent(title: string)
    ensures GenerateSlug(GenerateSlug(title)) == GenerateSlug(title)
  {
    SlugIsFixedPoint(GenerateSlug(title));
  }

  // ---------------------------------------------------------------------------------
  // Tags
  // ---------------------------------------------------------------------------------

  /** `tags.filter(tag => tag !== t)`: every occurrence of `t` goes, the rest keep their order. */
  function RemoveTag(tags: seq<string>, t: string): (r: seq<string>)
    ensures t !in r
    ensures forall x :: x != t ==> (x in r <==> x in tags)
    ensures NoDup(tags) ==> NoDup(r)
  {
    var r := Filter(tags, x => x != t);
    if NoDup(tags) then FilterKeepsNoDup(tags, x => x != t); r else r
  }

  /** Removing a tag just added to a list that did not hold it gives the list back. */
  lemma RemoveAddedTag(tags: seq<string>, t: string)
    requires t !in tags
    ensures RemoveTag(tags + [t], t) == tags
  {
    FilterAppend(tags, [t], x => x != t);
    FilterAll(tags, x => x != t);
  }

  // ---------------------------------------------------------------------------------
  // handleSave: the payload and where it goes
  // ---------------------------------------------------------------------------------

  /** `status || post.status`: the requested status when one is given. */
  function SavedStatus(current: string, requested: Option<string>): (r: string)
    ensures requested.Some? && requested.value != "" ==> r == requested.value
    ensures requested.None? || requested.value == "" ==> r == current
  {
    if requested.Some? && requested.value != "" then requested.value else current
  }

  /**
   * `postData`: the post as saved at time `now`, with its reading time recomputed, the
   * requested status applied, and the publication time reset only when a draft is published.
   */
  function SavePayload(post: BlogPost, requested: Option<string>, now: int): (r: BlogPost)
    ensures r.readingTime == Some(ReadingTime(post.content))
    ensures r.updatedAt == now
    ensures requested.Some? && requested.value != "" ==> r.status == requested.value
    ensures requested.None? ==> r.status == post.status
    ensures r.publishedAt != post.publishedAt ==>
              r.publishedAt == now && requested == Some("published") && post.status == "draft"
    ensures requested == Some("published") && post.status == "draft" ==> r.publishedAt == now
    ensures r.(status := post.status, readingTime := post.readingTime,
               updatedAt := post.updatedAt, publishedAt := post.publishedAt) == post
  {
    post.(status := SavedStatus(post.status, requested),
          readingTime := Some(ReadingTime(post.content)),
          updatedAt := now,
          publishedAt := if requested == Some("published") && post.status == "draft" then now
                         else post.publishedAt)
  }

  /** Saving a post that is already published, or saving as a draft, keeps its publication time. */
  lemma SaveKeepsPublicationTime(post: BlogPost, requested: Option<string>, now: int)
    requires post.status != "draft" || requested != Some("published")
    ensures SavePayload(post, requested, now).publishedAt == post.publishedAt
  {
  }

  /** The admin collection the editor posts to. */
  const PostsPath := "/admin/blog-posts"

  /** The HTTP methods the editor uses. */
  datatype Verb = Post | Put

  /** An HTTP request: its method, the path below the function's base URL, and the JSON body. */
  datatype Request = Request(verb: Verb, path: string, body: BlogPost)

  /**
   * The request a save sends: a new post is POSTed to the collection, an existing one is
   * PUT to the collection path followed by `/` and the route id.
   */
  function SaveRequest(isNew: bool, routeId: string, payload: BlogPost): (r: Request)
    ensures r.body == payload
    ensures r.verb == Post <==> isNew
    ensures isNew ==> r.path == PostsPath
    ensures !isNew ==> PostsPath + "/" <= r.path && r.path[|PostsPath| + 1..] == routeId
  {
    if isNew then Request(Post, PostsPath, payload)
    else Request(Put, PostsPath + "/" + routeId, payload)
  }

  /**
   * What the save's fetch came to: a response (its `ok` flag and the id it returned, if any),
   * an ok response whose body `response.json()` cannot parse, or an exception from `fetch`.
   */
  datatype SaveResult = Responded(ok: bool, returnedId: Option<string>) | Unparsable | Threw

  /** The alerts a save can end with. */
  datatype Alert = Created | Updated | SaveFailed | SaveError

  /** The text each alert shows. */
  function AlertText(a: Alert): string
  {
    match a
    case Created => "Blog post created successfully!"
    case Updated => "Blog post updated successfully!"
    case SaveFailed => "Failed to save blog post"
    case SaveError => "Error saving blog post"
  }

  /** The alert a save ends with: a success names what happened, a refusal and an exception differ. */
  function SaveAlert(isNew: bool, result: SaveResult): (r: Alert)
    ensures r == Created <==> result.Responded? && result.ok && isNew
    ensures r == Updated <==> result.Responded? && result.ok && !isNew
    ensures r == SaveFailed <==> result.Responded? && !result.ok
    ensures r == SaveError <==> result.Threw? || result.Unparsable?
  {
    match result
    case Threw => SaveError
    case Unparsable => SaveError
    case Responded(ok, _) => if !ok then SaveFailed else if isNew then Created else Updated
  }

  // ---------------------------------------------------------------------------------
  // The editor's state
  // ---------------------------------------------------------------------------------

  /** The post being edited, the tag input box, and the saving flag of `AdminBlogEditorPage`. */
  class Editor {
    var post: BlogPost
    var tagInput: string
    var saving: bool
    var loading: bool
    /** The last `alert` shown, and the route the page navigated to, if any. */
    var alert: Option<Alert>
    var navigatedTo: Option<string>
    /** The `:id` route parameter; `"new"` opens an empty post. */
    const routeId: string
    const isNew: bool

    /** The editor on route `routeId`, opened at time `now` with the empty draft. */
    constructor(routeId: string, now: int)
      ensures this.routeId == routeId && isNew == (routeId == "new")
      ensures post == BlogPost("", "", "", "", "", "", "Design & UX", [], "draft", false, false,
                               Some(""), now, now, None, Some("Enrico"))
      ensures tagInput == "" && !saving && loading == !isNew
      ensures alert.None? && navigatedTo.None?
    {
      this.routeId := routeId;
      isNew := routeId == "new";
      post := BlogPost("", "", "", "", "", "", "Design & UX", [], "draft", false, false,
                       Some(""), now, now, None, Some("Enrico"));
      tagInput := "";
      saving := false;
      loading := routeId != "new";
      alert := None;
      navigatedTo := None;
    }

    /** `fetchPost` finishing: a successful fetch replaces the post; loading ends either way. */
    method FetchPost(fetched: Option<BlogPost>)
      modifies this
      ensures post == (if fetched.Some? then fetched.value else old(post))
      ensures !loading
      ensures tagInput == old(tagInput) && saving == old(saving)
      ensures alert == old(alert) && navigatedTo == old(navigatedTo)
    {
      if fetched.Some? {
        post := fetched.value;
      }
      loading := false;
    }

    /** `handleTitleChange`: the title changes; a new post's slug follows it, an existing post keeps its slug. */
    method HandleTitleChange(title: string)
      modifies this
      ensures post.title == title
      ensures isNew ==> post.slug == GenerateSlug(title) && IsSlug(post.slug)
      ensures !isNew ==> post.slug == old(post.slug)
      ensures post.(title := old(post.title), slug := old(post.slug)) == old(post)
      ensures tagInput == old(tagInput) && saving == old(saving) && loading == old(loading)
      ensures alert == old(alert) && navigatedTo == old(navigatedTo)
    {
      post := post.(title := title, slug := if isNew then GenerateSlug(title) else post.slug);
    }

    /**
     * `handleAddTag`: the trimmed input is appended and the box cleared when it is non-empty
     * and not yet a tag; otherwise nothing changes. A duplicate-free list stays so.
     */
    method HandleAddTag()
      modifies this
      ensures var t := Trim(old(tagInput));
              if t != "" && t !in old(post.tags)
              then post == old(post).(tags := old(post.tags) + [t]) && tagInput == ""
              else post == old(post) && tagInput == old(tagInput)
      ensures NoDup(old(post.tags)) ==> NoDup(post.tags)
      ensures saving == old(saving) && loading == old(loading)
      ensures alert == old(alert) && navigatedTo == old(navigatedTo)
    {
      var t := Trim(tagInput);
      if t != "" && t !in post.tags {
        post := post.(tags := post.tags + [t]);
        tagInput := "";
      }
    }

    /** `handleRemoveTag`. */
    method HandleRemoveTag(t: string)
      modifies this
      ensures post == old(post).(tags := RemoveTag(old(post.tags), t))
      ensures tagInput == old(tagInput) && saving == old(saving) && loading == old(loading)
      ensures alert == old(alert) && navigatedTo == old(navigatedTo)
    {
      post := post.(tags := RemoveTag(post.tags, t));
    }

    /**
     * `handleSave(requested)` at time `now`: builds the payload, sends it (the returned
     * request), and maps the fetch's `result` to an alert; a created post with an id opens
     * its own editor route. `saving` is false again at the end on every path.
     */
    method HandleSave(requested: Option<string>, now: int, result: SaveResult) returns (sent: Request)
      modifies this
      ensures sent == SaveRequest(isNew, routeId, SavePayload(old(post), requested, now))
      ensures alert == Some(SaveAlert(isNew, result))
      ensures navigatedTo == (if isNew && result.Responded? && result.ok &&
                                 result.returnedId.Some? && result.returnedId.value != ""
                              then Some("/admin/blog/" + result.returnedId.value)
                              else old(navigatedTo))
      ensures !saving
      ensures post == old(post) && tagInput == old(tagInput) && loading == old(loading)
    {
      sent := SaveRequest(isNew, routeId, SavePayload(post, requested, now));
      saving := true;
      alert := Some(SaveAlert(isNew, result));
      if isNew && result.Responded? && result.ok &&
         result.returnedId.Some? && result.returnedId.value != "" {
        navigatedTo := Some("/admin/blog/" + result.returnedId.value);
      }
      saving := false;
    }
  }
}
