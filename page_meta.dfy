/**
 * The page-meta effect (src/app/hooks/usePageMeta.ts): the document title built from
 * the page title and the site settings, and the favicon links replaced when the
 * settings name a favicon.
 */
module PageMeta {
  import opened Wrappers
  import opened Text
  import opened Lists
  import opened AdminSettings

  /** The settings carry a non-empty (truthy) site title. */
  predicate HasSiteTitle(settings: Option<SiteSettings>)
  {
    settings.Some? && settings.value.siteTitle.Some? && settings.value.siteTitle.value != ""
  }

  /** `settings?.siteTitle || (settings?.siteName || "Portfolio")`: never empty. */
  function SiteTitle(settings: Option<SiteSettings>): (r: string)
    ensures r != ""
    ensures HasSiteTitle(settings) ==> r == settings.value.siteTitle.value
    ensures !HasSiteTitle(settings) && settings.Some? && settings.value.siteName != "" ==>
              r == settings.value.siteName
    ensures !HasSiteTitle(settings) && !(settings.Some? && settings.value.siteName != "") ==>
              r == "Portfolio"
  {
    var siteName := if settings.Some? && settings.value.siteName != "" then settings.value.siteName else "Portfolio";
    if HasSiteTitle(settings) then settings.value.siteTitle.value
    else siteName
  }

  /** The document title: `"<page> | <site>"` for a page with a title, the site title alone otherwise. */
  function DocumentTitle(pageTitle: string, siteTitle: string): (r: string)
    ensures |r| >= |siteTitle| && r[|r| - |siteTitle|..] == siteTitle
    ensures pageTitle == "" ==> r == siteTitle
    ensures pageTitle != "" ==> |r| == |pageTitle| + 3 + |siteTitle| && r[..|pageTitle|] == pageTitle &&
                                r[|pageTitle|..|pageTitle| + 3] == " | "
  {
    if pageTitle != "" then pageTitle + " | " + siteTitle else siteTitle
  }

  /** A `<link>` in the document head. */
  datatype Link = Link(rel: string, linkType: Option<string>, href: string)

  /** Matched by `link[rel*='icon']`: the rel contains "icon" anywhere. */
  predicate IsIconLink(l: Link) { Includes(l.rel, "icon") }

  predicate NotIconLink(l: Link) { !IsIconLink(l) }

  function FaviconLinks(url: string): seq<Link>
  {
    [Link("icon", Some("image/x-icon"), url), Link("apple-touch-icon", None, url)]
  }

  /** Both new links are icon links, so a later run removes them again. */
  lemma FaviconLinksAreIconLinks(url: string)
    ensures forall l :: l in FaviconLinks(url) ==> IsIconLink(l)
  {
    assert OccursAt("icon", "icon", 0);
    assert OccursAt("apple-touch-icon", "icon", 12);
  }

  /** The document: its title and the links in its head. */
  class Document {
    var title: string
    var links: seq<Link>

    constructor(title: string, links: seq<Link>)
      ensures this.title == title && this.links == links
    {
      this.title := title;
      this.links := links;
    }

    /** Removes every icon link, one at a time, keeping the others in order. */
    method RemoveIconLinks()
      modifies this
      ensures links == Filter(old(links), NotIconLink)
      ensures title == old(title)
    {
      var all := links;
      assert all == old(links);
      var kept: seq<Link> := [];
      var i := 0;
      while i < |all|
        invariant 0 <= i <= |all|
        invariant kept == Filter(all[..i], NotIconLink)
        invariant title == old(title)
      {
        FilterAppend(all[..i], [all[i]], NotIconLink);
        assert all[..i + 1] == all[..i] + [all[i]];
        if NotIconLink(all[i]) {
          kept := kept + [all[i]];
        }
        i := i + 1;
      }
      assert all[..i] == all;
      links := kept;
    }

    /**
     * The effect: the title, then, when the settings name a favicon, the icon links
     * replaced by one `icon` and one `apple-touch-icon` link to it.
     */
    method Apply(pageTitle: string, settings: Option<SiteSettings>)
      modifies this
      ensures title == DocumentTitle(pageTitle, SiteTitle(settings))
      ensures settings.Some? && settings.value.faviconUrl.Some? && settings.value.faviconUrl.value != "" ==>
                links == Filter(old(links), NotIconLink) + FaviconLinks(settings.value.faviconUrl.value)
      ensures !(settings.Some? && settings.value.faviconUrl.Some? && settings.value.faviconUrl.value != "") ==>
                links == old(links)
    {
      title := DocumentTitle(pageTitle, SiteTitle(settings));
      if settings.Some? && settings.value.faviconUrl.Some? && settings.value.faviconUrl.value != "" {
        RemoveIconLinks();
        links := links + FaviconLinks(settings.value.faviconUrl.value);
      }
    }
  }

  /**
   * After a replacement the icon links are exactly the two new ones, and every other
   * link is still there, in order.
   */
  lemma ReplacedIconLinks(oldLinks: seq<Link>, url: string)
    ensures var after := Filter(oldLinks, NotIconLink) + FaviconLinks(url);
            Filter(after, IsIconLink) == FaviconLinks(url) &&
            Filter(after, NotIconLink) == Filter(oldLinks, NotIconLink)
  {
    var kept := Filter(oldLinks, NotIconLink);
    var added := FaviconLinks(url);
    FaviconLinksAreIconLinks(url);
    assert forall i :: 0 <= i < |kept| ==> NotIconLink(kept[i]) by {
      forall i | 0 <= i < |kept| ensures NotIconLink(kept[i]) {
        assert kept[i] in kept;
      }
    }
    assert forall i :: 0 <= i < |added| ==> IsIconLink(added[i]) by {
      forall i | 0 <= i < |added| ensures IsIconLink(added[i]) {
        assert added[i] in added;
      }
    }
    FilterAppend(kept, added, IsIconLink);
    FilterNone(kept, IsIconLink);
    FilterAll(added, IsIconLink);
    FilterAppend(kept, added, NotIconLink);
    FilterAll(kept, NotIconLink);
    FilterNone(added, NotIconLink);
  }

  /** Running the replacement twice gives the same links as running it once. */
  lemma ReplaceIdempotent(oldLinks: seq<Link>, url: string)
    ensures var once := Filter(oldLinks, NotIconLink) + FaviconLinks(url);
            Filter(once, NotIconLink) + FaviconLinks(url) == once
  {
    ReplacedIconLinks(oldLinks, url);
  }
}
