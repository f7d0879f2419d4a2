/**
 * The admin dashboard (src/app/pages/AdminDashboardPage.tsx): the case-study list with
 * its edit, new, cancel, save and delete actions, and the inline `CaseStudyEditor`
 * form, whose tools input keeps empty pieces where the images input drops them.
 */
module AdminDashboard {
  import opened Wrappers
  import opened Text
  import opened CaseStudies

  /** What a request came to: a response with its `ok` flag, or an exception. */
  datatype FetchResult = Response(ok: bool) | Threw

  /** The record the "New Case Study" button opens: id from the clock, this year, everything else blank. */
  function NewStudy(now: nat, year: nat): (r: CaseStudy)
    ensures r.id == "case-study-" + NatToDecimal(now) && r.year == NatToDecimal(year)
    ensures r.process == [] && r.images == [] && r.results == [] && r.overview.tools == []
  {
    BlankStudy("case-study-" + NatToDecimal(now), NatToDecimal(year))
  }

  class Dashboard {
    var caseStudies: seq<CaseStudy>
    var loading: bool
    var selectedStudy: Option<CaseStudy>
    var isEditing: bool
    var token: Option<string>
    var alert: Option<string>
    var navigatedTo: Option<string>

    /** The inline editor is shown exactly when editing with a study selected. */
    predicate ShowsEditor()
      reads this
    {
      isEditing && selectedStudy.Some?
    }

    constructor(token: Option<string>)
      ensures caseStudies == [] && loading && selectedStudy.None? && !isEditing
      ensures this.token == token && alert.None? && navigatedTo.None?
    {
      caseStudies := [];
      loading := true;
      selectedStudy := None;
      isEditing := false;
      this.token := token;
      alert := None;
      navigatedTo := None;
    }

    /** `fetchCaseStudies` finishing: a successful response replaces the list; loading ends either way. */
    method FetchCaseStudies(fetched: Option<seq<CaseStudy>>)
      modifies this
      ensures caseStudies == (if fetched.Some? then fetched.value else old(caseStudies)) && !loading
      ensures selectedStudy == old(selectedStudy) && isEditing == old(isEditing)
      ensures token == old(token) && alert == old(alert) && navigatedTo == old(navigatedTo)
    {
      if fetched.Some? {
        caseStudies := fetched.value;
      }
      loading := false;
    }

    /** The mount effect: without a stored token the page goes to the login and loads nothing. */
    method Mount(fetched: Option<seq<CaseStudy>>)
      modifies this
      ensures token.None? || token.value == "" ==>
                navigatedTo == Some("/admin/login") && caseStudies == old(caseStudies) && loading == old(loading)
      ensures token.Some? && token.value != "" ==>
                caseStudies == (if fetched.Some? then fetched.value else old(caseStudies)) && !loading &&
                navigatedTo == old(navigatedTo)
      ensures selectedStudy == old(selectedStudy) && isEditing == old(isEditing) && token == old(token)
      ensures alert == old(alert)
    {
      if token.None? || token.value == "" {
        navigatedTo := Some("/admin/login");
        return;
      }
      FetchCaseStudies(fetched);
    }

    method HandleLogout()
      modifies this
      ensures token.None? && navigatedTo == Some("/admin/login")
      ensures caseStudies == old(caseStudies) && loading == old(loading)
      ensures selectedStudy == old(selectedStudy) && isEditing == old(isEditing) && alert == old(alert)
    {
      token := None;
      navigatedTo := Some("/admin/login");
    }

    method HandleEdit(study: CaseStudy)
      modifies this
      ensures selectedStudy == Some(study) && isEditing && ShowsEditor()
      ensures caseStudies == old(caseStudies) && loading == old(loading)
      ensures token == old(token) && alert == old(alert) && navigatedTo == old(navigatedTo)
    {
      selectedStudy := Some(study);
      isEditing := true;
    }

    /** "New Case Study": the editor opens on a blank study; `now` and `year` stand for the clock. */
    method HandleNew(now: nat, year: nat)
      modifies this
      ensures selectedStudy == Some(NewStudy(now, year)) && isEditing && ShowsEditor()
      ensures caseStudies == old(caseStudies) && loading == old(loading)
      ensures token == old(token) && alert == old(alert) && navigatedTo == old(navigatedTo)
    {
      selectedStudy := Some(NewStudy(now, year));
      isEditing := true;
    }

    method HandleCancel()
      modifies this
      ensures !isEditing && selectedStudy.None? && !ShowsEditor()
      ensures caseStudies == old(caseStudies) && loading == old(loading)
      ensures token == old(token) && alert == old(alert) && navigatedTo == old(navigatedTo)
    {
      isEditing := false;
      selectedStudy := None;
    }

    /**
     * `handleSave(study)`: POSTs the study (the returned body); an ok response closes the
     * editor and reloads the list, a refusal changes nothing, an exception alerts.
     */
    method HandleSave(study: CaseStudy, result: FetchResult, refetched: Option<seq<CaseStudy>>)
      returns (body: CaseStudy)
      modifies this
      ensures body == study
      ensures result == Response(true) ==>
                !isEditing && selectedStudy.None? && !ShowsEditor() && !loading &&
                caseStudies == (if refetched.Some? then refetched.value else old(caseStudies))
      ensures result != Response(true) ==>
                isEditing == old(isEditing) && selectedStudy == old(selectedStudy) &&
                caseStudies == old(caseStudies) && loading == old(loading)
      ensures alert == (if result == Threw then Some("Failed to save case study") else old(alert))
      ensures token == old(token) && navigatedTo == old(navigatedTo)
    {
      body := study;
      match result {
        case Response(ok) =>
          if ok {
            isEditing := false;
            selectedStudy := None;
            FetchCaseStudies(refetched);
          }
        case Threw =>
          alert := Some("Failed to save case study");
      }
    }

    /** `handleDelete(id)`: only a confirmed, ok DELETE reloads the list; an exception alerts. */
    method HandleDelete(id: string, confirmed: bool, result: FetchResult, refetched: Option<seq<CaseStudy>>)
      modifies this
      ensures confirmed && result == Response(true) ==>
                caseStudies == (if refetched.Some? then refetched.value else old(caseStudies)) && !loading
      ensures !(confirmed && result == Response(true)) ==>
                caseStudies == old(caseStudies) && loading == old(loading)
      ensures alert == (if confirmed && result == Threw then Some("Failed to delete case study") else old(alert))
      ensures selectedStudy == old(selectedStudy) && isEditing == old(isEditing)
      ensures token == old(token) && navigatedTo == old(navigatedTo)
    {
      if !confirmed {
        return;
      }
      match result {
        case Response(ok) =>
          if ok {
            FetchCaseStudies(refetched);
          }
        case Threw =>
          alert := Some("Failed to delete case study");
      }
    }
  }

  /** The inline `CaseStudyEditor`: a copy of the study under edit. */
  class InlineEditor {
    var formData: CaseStudy

    constructor(study: CaseStudy)
      ensures formData == study
    {
      formData := study;
    }

    /** The tools input keeps empty pieces: one tool more than there are commas. */
    method SetTools(text: string)
      modifies this
      ensures formData == old(formData).(overview := old(formData).overview.(tools := ParseListKeepEmpty(text)))
      ensures |formData.overview.tools| == CountChar(text, ',') + 1
    {
      formData := formData.(overview := formData.overview.(tools := ParseListKeepEmpty(text)));
    }

    /** The images input drops empty pieces. */
    method SetImages(text: string)
      modifies this
      ensures formData == old(formData).(images := ParseListDropEmpty(text))
      ensures "" !in formData.images
    {
      formData := formData.(images := ParseListDropEmpty(text));
    }

    method HandleAddProcessStep()
      modifies this
      ensures formData == AddProcessStep(old(formData))
    {
      formData := AddProcessStep(formData);
    }

    method HandleRemoveProcessStep(index: int)
      modifies this
      ensures formData == RemoveProcessStep(old(formData), index)
    {
      formData := RemoveProcessStep(formData, index);
    }

    method HandleAddResult()
      modifies this
      ensures formData == AddResult(old(formData))
    {
      formData := AddResult(formData);
    }

    method HandleRemoveResult(index: int)
      modifies this
      ensures formData == RemoveResult(old(formData), index)
    {
      formData := RemoveResult(formData, index);
    }

    method HandleProcessStepChange(index: int, field: StepField, value: string)
      modifies this
      ensures formData == EditProcessStep(old(formData), index, field, value)
    {
      formData := EditProcessStep(formData, index, field, value);
    }

    method HandleResultChange(index: int, field: ResultField, value: string)
      modifies this
      ensures formData == EditResult(old(formData), index, field, value)
    {
      formData := EditResult(formData, index, field, value);
    }

    /** One of the three testimonial inputs; the study gets a testimonial if it had none. */
    method HandleTestimonialChange(field: TestimonialField, value: string)
      modifies this
      ensures formData == old(formData).(testimonial := Some(EditTestimonial(old(formData).testimonial, field, value)))
    {
      formData := formData.(testimonial := Some(EditTestimonial(formData.testimonial, field, value)));
    }

    /** `handleSubmit`: hands the form, as it stands, to the dashboard's save. */
    method HandleSubmit() returns (study: CaseStudy)
      ensures study == formData
    {
      study := formData;
    }
  }
}
