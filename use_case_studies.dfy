/**
 * The case-study hooks (src/app/hooks/useCaseStudies.ts): `useCaseStudies`, which loads
 * the whole list and falls back to the bundled studies whenever the database answer is
 * unusable, and `useCaseStudy(id)`, which picks one study by id from the database list,
 * then from the bundled studies.
 */
module CaseStudyHooks {
  import opened Wrappers
  import opened Lists
  import opened CaseStudies

  /** A bundled study: its id, titles, category and year (src/app/data/caseStudies.ts). */
  function Bundled(id: string, title: string, subtitle: string, category: string, year: string): (r: CaseStudy)
    ensures r.id == id && r.title == title && r.category == category && r.year == year
    ensures r.isPasswordProtected.None?
  {
    BlankStudy(id, year).(title := title, subtitle := subtitle, category := category)
  }

  /** The four bundled studies the hooks fall back to. */
  const DefaultCaseStudies: seq<CaseStudy> := [
    Bundled("fintech-dashboard", "FinTech Analytics Dashboard",
            "Reimagining financial data visualization for modern investors", "Product Design", "2025"),
    Bundled("health-mobile-app", "MindfulHealth Mobile App",
            "A holistic approach to mental wellness tracking", "Mobile App Design", "2024"),
    Bundled("ecommerce-redesign", "Artisan Marketplace Redesign",
            "Connecting independent creators with conscious consumers", "E-commerce", "2024"),
    Bundled("brand-identity", "Sustainable Fashion Brand Identity",
            "Creating a visual identity that reflects eco-conscious values", "Branding", "2025")
  ]

  /** No two studies share an id. */
  predicate DistinctIds(list: seq<CaseStudy>)
  {
    forall a, b :: 0 <= a < b < |list| ==> list[a].id != list[b].id
  }

  /** The bundled studies: four of them, distinct ids, none behind a password. */
  lemma DefaultCaseStudiesShape()
    ensures |DefaultCaseStudies| == 4 && DistinctIds(DefaultCaseStudies)
    ensures forall i :: 0 <= i < |DefaultCaseStudies| ==> DefaultCaseStudies[i].isPasswordProtected.None?
  {
    var d := DefaultCaseStudies;
    assert d[0].id[0] == 'f' && d[1].id[0] == 'h' && d[2].id[0] == 'e' && d[3].id[0] == 'b';
  }

  /** The test `cs => cs.id === id`. */
  function StudyHasId(id: string): (p: CaseStudy -> bool)
    ensures forall s :: p(s) <==> s.id == id
  {
    (s: CaseStudy) => s.id == id
  }

  /** `list.find(cs => cs.id === id)`: the first study with that id. */
  function Lookup(list: seq<CaseStudy>, id: string): (r: Option<CaseStudy>)
    ensures r.None? <==> forall i :: 0 <= i < |list| ==> list[i].id != id
    ensures r.Some? ==> r.value.id == id && r.value in list
  {
    Find(list, StudyHasId(id))
  }

  /** In a list with distinct ids, looking up an entry's id finds that entry. */
  lemma LookupDistinct(list: seq<CaseStudy>, i: int)
    requires DistinctIds(list) && 0 <= i < |list|
    ensures Lookup(list, list[i].id) == Some(list[i])
  {
    var k := FindIndex(list, StudyHasId(list[i].id));
    assert k != -1 by {
      assert StudyHasId(list[i].id)(list[i]);
    }
    assert !(k < i) && !(i < k);
  }

  /** Every bundled study can be looked up by its id. */
  lemma LookupBundled(i: int)
    requires 0 <= i < |DefaultCaseStudies|
    ensures Lookup(DefaultCaseStudies, DefaultCaseStudies[i].id) == Some(DefaultCaseStudies[i])
  {
    DefaultCaseStudiesShape();
    LookupDistinct(DefaultCaseStudies, i);
  }

  // ---------------------------------------------------------------------------------
  // useCaseStudies
  // ---------------------------------------------------------------------------------

  /**
   * What the list request came to: an exception (network or unparseable body), a
   * response whose content type is not JSON, or a JSON body with its fields.
   */
  datatype ListResponse = Threw | NotJson | Body(success: bool, data: seq<CaseStudy>, error: Option<string>)

  /** The response is a successful body, whose list is used as is. */
  predicate Succeeded(response: ListResponse)
  {
    response.Body? && response.success
  }

  /** The error text a failed load records: the body's own error when it has one. */
  function ListError(response: ListResponse): (r: string)
    ensures r != ""
    ensures response.Body? && response.error.Some? && response.error.value != "" ==> r == response.error.value
    ensures !(response.Body? && response.error.Some? && response.error.value != "") ==>
              r == "Failed to load case studies"
  {
    if response.Body? && response.error.Some? && response.error.value != "" then response.error.value
    else "Failed to load case studies"
  }

  class CaseStudiesHook {
    var caseStudies: seq<CaseStudy>
    var loading: bool
    var error: Option<string>

    constructor()
      ensures caseStudies == [] && loading && error.None?
    {
      caseStudies := [];
      loading := true;
      error := None;
    }

    /**
     * `fetchCaseStudies`: a successful body sets the list, even an empty one, and leaves
     * the error as it was; anything else records an error and shows the bundled studies,
     * so the list is never empty after a failure. Loading ends on every path.
     */
    method FetchCaseStudies(response: ListResponse)
      modifies this
      ensures Succeeded(response) ==> caseStudies == response.data && error == old(error)
      ensures !Succeeded(response) ==>
                caseStudies == DefaultCaseStudies && |caseStudies| == 4 && error == Some(ListError(response))
      ensures !loading
    {
      match response {
        case Threw =>
          error := Some("Failed to load case studies");
          caseStudies := DefaultCaseStudies;
        case NotJson =>
          error := Some("Failed to load case studies");
          caseStudies := DefaultCaseStudies;
        case Body(success, data, e) =>
          if success {
            caseStudies := data;
          } else {
            error := Some(if e.Some? && e.value != "" then e.value else "Failed to load case studies");
            caseStudies := DefaultCaseStudies;
          }
      }
      loading := false;
    }
  }

  // ---------------------------------------------------------------------------------
  // useCaseStudy(id)
  // ---------------------------------------------------------------------------------

  /** What the single-study request came to: an exception (network or unparseable body), or a JSON body. */
  datatype StudyResponse = Failed | Answer(success: bool, data: seq<CaseStudy>)

  /** The study a successful answer resolves to: the database's, else the bundled one, else none. */
  function Resolve(data: seq<CaseStudy>, id: string): (r: Option<CaseStudy>)
    ensures r.Some? ==> r.value.id == id
    ensures r.None? <==> (forall i :: 0 <= i < |data| ==> data[i].id != id) &&
                         (forall i :: 0 <= i < |DefaultCaseStudies| ==> DefaultCaseStudies[i].id != id)
    ensures (exists i :: 0 <= i < |data| && data[i].id == id) ==> r == Lookup(data, id) && r.value in data
  {
    var found := Lookup(data, id);
    if found.Some? then found else Lookup(DefaultCaseStudies, id)
  }

  /** A database without the id still shows a bundled study with it. */
  lemma ResolveFallsBack(data: seq<CaseStudy>, i: int)
    requires 0 <= i < |DefaultCaseStudies|
    requires forall k :: 0 <= k < |data| ==> data[k].id != DefaultCaseStudies[i].id
    ensures Resolve(data, DefaultCaseStudies[i].id) == Some(DefaultCaseStudies[i])
  {
    LookupBundled(i);
  }

  class CaseStudyHook {
    const id: string
    var caseStudy: Option<CaseStudy>
    var loading: bool
    var error: Option<string>

    constructor(id: string)
      ensures this.id == id && caseStudy.None? && loading && error.None?
    {
      this.id := id;
      caseStudy := None;
      loading := true;
      error := None;
    }

    /**
     * `fetchCaseStudy`: a successful answer resolves the id against the database list and
     * then the bundled studies; a `success: false` answer records an error and keeps the
     * study as it was (no fallback); an exception records an error and looks the id up
     * among the bundled studies only. Loading ends on every path.
     */
    method FetchCaseStudy(response: StudyResponse)
      modifies this
      ensures response.Answer? && response.success ==>
                caseStudy == Resolve(response.data, id) && error == old(error)
      ensures response.Answer? && !response.success ==>
                caseStudy == old(caseStudy) && error == Some("Failed to load case study")
      ensures response.Failed? ==>
                caseStudy == Lookup(DefaultCaseStudies, id) && error == Some("Failed to load case study")
      ensures caseStudy != old(caseStudy) ==> caseStudy.None? || caseStudy.value.id == id
      ensures !loading
    {
      match response {
        case Answer(success, data) =>
          if success {
            var found := Lookup(data, id);
            if found.Some? {
              caseStudy := found;
            } else {
              caseStudy := Lookup(DefaultCaseStudies, id);
            }
          } else {
            error := Some("Failed to load case study");
          }
        case Failed =>
          error := Some("Failed to load case study");
          caseStudy := Lookup(DefaultCaseStudies, id);
      }
      loading := false;
    }
  }
}
