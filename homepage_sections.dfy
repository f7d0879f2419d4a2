/**
 * The homepage section configuration (src/app/hooks/useHomepageSections.ts): the
 * default sections, loading from and saving to the browser's local storage, and the
 * per-section lookup and visibility the homepage asks for.
 */
module HomepageSections {
  import opened Wrappers
  import opened Lists
  import opened Json
  import KvServer

  /** One figure in the stats section (`caption` is the source's `label`, a Dafny keyword). */
  datatype StatItem = StatItem(icon: string, value: string, caption: string)

  /** A section's `data`: its optional stats list and whatever other properties it holds. */
  datatype SectionData = SectionData(stats: Option<seq<StatItem>>, rest: map<string, Value>)

  datatype Section = Section(id: string, name: string, isVisible: bool, order: int, data: Option<SectionData>)

  function Plain(id: string, name: string, order: int): Section
  {
    Section(id, name, true, order, None)
  }

  const DefaultStats: seq<StatItem> := [
    StatItem("Users", "50+", "Happy Clients"),
    StatItem("Zap", "100+", "Projects Completed"),
    StatItem("Sparkles", "5+", "Years Experience")
  ]

  const DefaultSections: seq<Section> := [
    Plain("hero", "Hero Section", 1),
    Section("stats", "Stats Section", true, 2, Some(SectionData(Some(DefaultStats), map[]))),
    Plain("values", "About Me / Values", 3),
    Plain("philosophy", "Philosophy Section", 4),
    Plain("experience", "Experience Timeline", 5),
    Plain("skills", "Skills & Expertise", 6),
    Plain("projects", "Featured Projects", 7),
    Plain("cta", "CTA Section", 8)
  ]

  /**
   * The defaults: eight visible sections with distinct ids (the same ids, in the same
   * order, as the server's defaults), numbered 1 to 8 in list order; only the stats
   * section has data, three stats.
   */
  lemma DefaultSectionsShape()
    ensures |DefaultSections| == 8
    ensures forall i :: 0 <= i < 8 ==> DefaultSections[i].id == KvServer.DefaultSectionIds[i]
    ensures forall i :: 0 <= i < 8 ==> DefaultSections[i].order == i + 1 && DefaultSections[i].isVisible
    ensures forall i, j :: 0 <= i < j < 8 ==> DefaultSections[i].id != DefaultSections[j].id
    ensures forall i :: 0 <= i < 8 ==> (DefaultSections[i].data.Some? <==> i == 1)
    ensures DefaultSections[1].data == Some(SectionData(Some(DefaultStats), map[])) && |DefaultStats| == 3
  {
    KvServer.DefaultSectionIdsDistinct();
  }

  /** What local storage holds under `homepage_sections`: what a save wrote, or text that does not parse. */
  datatype Stored = Written(sections: seq<Section>) | Unparseable

  /** `loadSections`: the stored list when there is one, the defaults otherwise. */
  function Loaded(stored: Option<Stored>): (r: seq<Section>)
    ensures stored.Some? && stored.value.Written? ==> r == stored.value.sections
    ensures stored.None? || stored.value.Unparseable? ==> r == DefaultSections
  {
    match stored
    case Some(Written(s)) => s
    case _ => DefaultSections
  }

  /** The test `s => s.id === id`. */
  function HasId(id: string): (p: Section -> bool)
    ensures forall s :: p(s) <==> s.id == id
  {
    (s: Section) => s.id == id
  }

  /** `getSectionConfig(id)`: the first section with that id. */
  function SectionConfig(sections: seq<Section>, id: string): (r: Option<Section>)
    ensures r.None? <==> forall i :: 0 <= i < |sections| ==> sections[i].id != id
    ensures r.Some? ==> r.value in sections && r.value.id == id
    ensures r.Some? ==> exists k :: 0 <= k < |sections| && sections[k] == r.value &&
                                    forall j :: 0 <= j < k ==> sections[j].id != id
  {
    Find(sections, HasId(id))
  }

  /** `isSectionVisible(id)`: an unknown section is shown; a known one as its first entry says. */
  function SectionVisible(sections: seq<Section>, id: string): (r: bool)
    ensures (forall i :: 0 <= i < |sections| ==> sections[i].id != id) ==> r
    ensures SectionConfig(sections, id).Some? ==> r == SectionConfig(sections, id).value.isVisible
  {
    match SectionConfig(sections, id)
    case None => true
    case Some(s) => s.isVisible
  }

  /** Every default section is visible, so is every section the defaults do not know. */
  lemma DefaultsAllVisible(id: string)
    ensures SectionVisible(DefaultSections, id)
  {
    var c := SectionConfig(DefaultSections, id);
    if c.Some? {
      var k :| 0 <= k < |DefaultSections| && DefaultSections[k] == c.value;
      assert DefaultSections[k].isVisible;
    }
  }

  /** The hook's state; `stored` is the browser's local storage entry. */
  class SectionStore {
    var sections: seq<Section>
    var loading: bool
    var stored: Option<Stored>

    constructor(stored: Option<Stored>)
      ensures sections == [] && loading && this.stored == stored
    {
      sections := [];
      loading := true;
      this.stored := stored;
    }

    /** `loadSections` (also `refetch`). */
    method LoadSections()
      modifies this
      ensures sections == Loaded(stored) && !loading && stored == old(stored)
    {
      match stored {
        case Some(Written(s)) =>
          sections := s;
        case Some(Unparseable) =>
          sections := DefaultSections;
        case None =>
          sections := DefaultSections;
      }
      loading := false;
    }

    /**
     * `saveSections(s)`: when the storage accepts the write the list is stored and
     * shown and the result is true; when the write throws nothing changes and it is false.
     */
    method SaveSections(newSections: seq<Section>, writable: bool) returns (ok: bool)
      modifies this
      ensures ok == writable
      ensures ok ==> stored == Some(Written(newSections)) && sections == newSections
      ensures !ok ==> stored == old(stored) && sections == old(sections)
      ensures loading == old(loading)
    {
      if !writable {
        return false;
      }
      stored := Some(Written(newSections));
      sections := newSections;
      return true;
    }
  }

  /** A successful save followed by a load gives back the saved list, whatever was stored before. */
  method SaveThenLoad(before: Option<Stored>, s: seq<Section>) returns (ok: bool, loaded: seq<Section>)
    ensures ok && loaded == s
  {
    var store := new SectionStore(before);
    ok := store.SaveSections(s, true);
    store.LoadSections();
    loaded := store.sections;
  }
}
