/**
 * The standalone case-study editor (src/app/pages/AdminCaseStudyEditorPage.tsx): the
 * form state, its edits, and the submit, which always POSTs the whole form to the
 * upserting create route, for a new study as for an existing one.
 */
module CaseStudyEditor {
  import opened Wrappers
  import opened Text
  import opened CaseStudies

  const CaseStudiesPath := "/admin/case-studies"

  /** What the POST came to: `ok`, a refusal with the body's `error` text if any, or an exception. */
  datatype SaveResult = Ok | Refused(error: Option<string>) | Threw

  /** The alert the submit shows. */
  function SaveAlert(result: SaveResult): (r: string)
    ensures result == Ok ==> r == "Case study saved successfully! Changes will appear on the home page."
    ensures result.Refused? && result.error.Some? && result.error.value != "" ==>
              r == "Failed to save case study: " + result.error.value
    ensures result.Refused? && (result.error.None? || result.error.value == "") ==>
              r == "Failed to save case study: Unknown error"
    ensures result == Threw ==> r == "Failed to save case study"
  {
    match result
    case Ok => "Case study saved successfully! Changes will appear on the home page."
    case Refused(e) => "Failed to save case study: " + (if e.Some? && e.value != "" then e.value else "Unknown error")
    case Threw => "Failed to save case study"
  }

  class EditorPage {
    const routeId: string
    var formData: CaseStudy
    var loading: bool
    var saving: bool
    var alert: Option<string>
    var navigatedTo: Option<string>

    /** The page opens on a blank study dated `year`; it loads only when editing an existing one. */
    constructor(routeId: string, year: nat)
      ensures this.routeId == routeId && formData == BlankStudy("", NatToDecimal(year))
      ensures loading == (routeId != "new") && !saving && alert.None? && navigatedTo.None?
    {
      this.routeId := routeId;
      formData := BlankStudy("", NatToDecimal(year));
      loading := routeId != "new";
      saving := false;
      alert := None;
      navigatedTo := None;
    }

    /** `fetchCaseStudy`: a successful response replaces the form; loading ends either way. */
    method FetchCaseStudy(fetched: Option<CaseStudy>)
      modifies this
      ensures formData == (if fetched.Some? then fetched.value else old(formData))
      ensures !loading && saving == old(saving) && alert == old(alert) && navigatedTo == old(navigatedTo)
    {
      if fetched.Some? {
        formData := fetched.value;
      }
      loading := false;
    }

    /** The id input: editable for a new study only. */
    method SetId(id: string)
      modifies this
      ensures routeId == "new" ==> formData == old(formData).(id := id)
      ensures routeId != "new" ==> formData == old(formData)
      ensures loading == old(loading) && saving == old(saving) && alert == old(alert) && navigatedTo == old(navigatedTo)
    {
      if routeId == "new" {
        formData := formData.(id := id);
      }
    }

    /** The tools input: the trimmed non-empty pieces between the commas. */
    method SetTools(text: string)
      modifies this
      ensures formData == old(formData).(overview := old(formData).overview.(tools := ParseListDropEmpty(text)))
      ensures "" !in formData.overview.tools
      ensures loading == old(loading) && saving == old(saving) && alert == old(alert) && navigatedTo == old(navigatedTo)
    {
      formData := formData.(overview := formData.overview.(tools := ParseListDropEmpty(text)));
    }

    /** The images input: the trimmed non-empty pieces between the commas. */
    method SetImages(text: string)
      modifies this
      ensures formData == old(formData).(images := ParseListDropEmpty(text))
      ensures "" !in formData.images
      ensures loading == old(loading) && saving == old(saving) && alert == old(alert) && navigatedTo == old(navigatedTo)
    {
      formData := formData.(images := ParseListDropEmpty(text));
    }

    method HandleAddProcessStep()
      modifies this
      ensures formData == AddProcessStep(old(formData))
      ensures loading == old(loading) && saving == old(saving) && alert == old(alert) && navigatedTo == old(navigatedTo)
    {
      formData := AddProcessStep(formData);
    }

    method HandleRemoveProcessStep(index: int)
      modifies this
      ensures formData == RemoveProcessStep(old(formData), index)
      ensures loading == old(loading) && saving == old(saving) && alert == old(alert) && navigatedTo == old(navigatedTo)
    {
      formData := RemoveProcessStep(formData, index);
    }

    method HandleAddResult()
      modifies this
      ensures formData == AddResult(old(formData))
      ensures loading == old(loading) && saving == old(saving) && alert == old(alert) && navigatedTo == old(navigatedTo)
    {
      formData := AddResult(formData);
    }

    method HandleRemoveResult(index: int)
      modifies this
      ensures formData == RemoveResult(old(formData), index)
      ensures loading == old(loading) && saving == old(saving) && alert == old(alert) && navigatedTo == old(navigatedTo)
    {
      formData := RemoveResult(formData, index);
    }

    method HandleProcessStepChange(index: int, field: StepField, value: string)
      modifies this
      ensures formData == EditProcessStep(old(formData), index, field, value)
      ensures loading == old(loading) && saving == old(saving) && alert == old(alert) && navigatedTo == old(navigatedTo)
    {
      formData := EditProcessStep(formData, index, field, value);
    }

    method HandleResultChange(index: int, field: ResultField, value: string)
      modifies this
      ensures formData == EditResult(old(formData), index, field, value)
      ensures loading == old(loading) && saving == old(saving) && alert == old(alert) && navigatedTo == old(navigatedTo)
    {
      formData := EditResult(formData, index, field, value);
    }

    /** The password checkbox. */
    method HandlePasswordToggle(checked: bool)
      modifies this
      ensures formData == SetPasswordProtection(old(formData), checked)
      ensures loading == old(loading) && saving == old(saving) && alert == old(alert) && navigatedTo == old(navigatedTo)
    {
      formData := SetPasswordProtection(formData, checked);
    }

    /**
     * `handleSubmit`: POSTs the form to the create route whatever the page's route id (the
     * returned path and body); a saved study goes back to the list.
     */
    method HandleSubmit(result: SaveResult) returns (path: string, body: CaseStudy)
      modifies this
      ensures path == CaseStudiesPath && body == old(formData)
      ensures alert == Some(SaveAlert(result))
      ensures navigatedTo == (if result == Ok then Some(CaseStudiesPath) else old(navigatedTo))
      ensures !saving && formData == old(formData) && loading == old(loading)
    {
      saving := true;
      path := CaseStudiesPath;
      body := formData;
      alert := Some(SaveAlert(result));
      if result == Ok {
        navigatedTo := Some(CaseStudiesPath);
      }
      saving := false;
    }
  }
}
