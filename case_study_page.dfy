/**
 * The public case-study page (src/app/pages/CaseStudyPage.tsx): the next-study link,
 * the password gate and the password submit.
 *
 * The unlock flag is page state and the page stays mounted when the route's `:id`
 * changes, so a study unlocked once leaves the next one unlocked too (see
 * `OpenNextAsWritten`); `OpenNextCorrected` resets the gate on a route change.
 */
module CaseStudyView {
  import opened Wrappers
  import opened Lists
  import opened CaseStudies
  import opened CaseStudyHooks

  /**
   * The study the "next" link points to: the one after the current study, wrapping
   * round to the first, and the first when the current id is not in the list.
   */
  function NextStudy(list: seq<CaseStudy>, id: string): (r: Option<CaseStudy>)
    ensures r.None? <==> |list| == 0
    ensures |list| > 0 && FindIndex(list, StudyHasId(id)) == -1 ==> r == Some(list[0])
    ensures var i := FindIndex(list, StudyHasId(id));
            0 <= i < |list| - 1 ==> r == Some(list[i + 1])
    ensures |list| > 0 && FindIndex(list, StudyHasId(id)) == |list| - 1 ==> r == Some(list[0])
  {
    if |list| > 0 then
      var i := FindIndex(list, StudyHasId(id));
      WrapAround(i + 1, |list|);
      Some(list[(i + 1) % |list|])
    else None
  }

  /** `j % n` for `0 <= j <= n`: `j` itself below `n`, zero at `n`. */
  lemma WrapAround(j: int, n: int)
    requires 0 <= j <= n && n > 0
    ensures j % n == (if j < n then j else 0)
  {
  }

  /** With a single study the link points back to it. */
  lemma NextStudySingleton(s: CaseStudy, id: string)
    ensures NextStudy([s], id) == Some(s)
  {
    var i := FindIndex([s], StudyHasId(id));
    assert i == -1 || i == 0;
  }

  /** With two or more studies of distinct ids, the link never points back to the current one. */
  lemma NextStudyMovesOn(list: seq<CaseStudy>, k: int)
    requires DistinctIds(list) && |list| >= 2 && 0 <= k < |list|
    ensures NextStudy(list, list[k].id).Some? && NextStudy(list, list[k].id).value.id != list[k].id
  {
    var i := FindIndex(list, StudyHasId(list[k].id));
    assert i != -1 by {
      assert StudyHasId(list[k].id)(list[k]);
    }
    assert i == k by {
      assert !(i < k) && !(k < i);
    }
  }

  /** What the page shows. */
  datatype Screen = Spinner | NotFound | Prompt(error: bool) | Content(study: CaseStudy, next: Option<CaseStudy>)

  /** The study is behind the password: `isPasswordProtected` is set to true. */
  predicate Protected(study: CaseStudy)
  {
    study.isPasswordProtected == Some(true)
  }

  /**
   * The screen for the page's state: a spinner while loading, "not found" without a
   * study, the prompt for a protected study not yet unlocked, the study otherwise.
   */
  function ScreenOf(loading: bool, study: Option<CaseStudy>, unlocked: bool, error: bool,
                    list: seq<CaseStudy>, id: string): (r: Screen)
    ensures r.Content? <==> !loading && study.Some? && (!Protected(study.value) || unlocked)
    ensures r.Content? ==> r.study == study.value && r.next == NextStudy(list, id)
    ensures r.Prompt? <==> !loading && study.Some? && Protected(study.value) && !unlocked
    ensures r.Prompt? ==> r.error == error
    ensures r == NotFound <==> !loading && study.None?
  {
    if loading then Spinner
    else if study.None? then NotFound
    else if Protected(study.value) && !unlocked then Prompt(error)
    else Content(study.value, NextStudy(list, id))
  }

  /** The typed password opens the loaded study: it has a password and the two are equal. */
  predicate PasswordMatches(study: Option<CaseStudy>, typed: string)
  {
    study.Some? && study.value.password == Some(typed)
  }

  class CaseStudyPage {
    var id: string
    var study: Option<CaseStudy>
    var loading: bool
    var caseStudies: seq<CaseStudy>
    var isUnlocked: bool
    var passwordError: bool
    var navigatedTo: Option<string>

    function Screen(): Screen
      reads this
    {
      ScreenOf(loading, study, isUnlocked, passwordError, caseStudies, id)
    }

    constructor(id: string)
      ensures this.id == id && study.None? && loading && caseStudies == []
      ensures !isUnlocked && !passwordError && navigatedTo.None? && Screen() == Spinner
    {
      this.id := id;
      study := None;
      loading := true;
      caseStudies := [];
      isUnlocked := false;
      passwordError := false;
      navigatedTo := None;
    }

    /** `useCaseStudy(id)` has finished with this study (or none). */
    method ReceiveStudy(s: Option<CaseStudy>)
      modifies this
      ensures study == s && !loading
      ensures id == old(id) && caseStudies == old(caseStudies) && isUnlocked == old(isUnlocked)
      ensures passwordError == old(passwordError) && navigatedTo == old(navigatedTo)
    {
      study := s;
      loading := false;
    }

    /** `useCaseStudies()` has finished with this list. */
    method ReceiveList(list: seq<CaseStudy>)
      modifies this
      ensures caseStudies == list
      ensures id == old(id) && study == old(study) && loading == old(loading) && isUnlocked == old(isUnlocked)
      ensures passwordError == old(passwordError) && navigatedTo == old(navigatedTo)
    {
      caseStudies := list;
    }

    /**
     * `handlePasswordSubmit`: the right password unlocks and clears the error; any other
     * input, or no study, sets the error and leaves the lock as it was.
     */
    method HandlePasswordSubmit(typed: string)
      modifies this
      ensures isUnlocked == (old(isUnlocked) || PasswordMatches(study, typed))
      ensures passwordError == !PasswordMatches(study, typed)
      ensures id == old(id) && study == old(study) && loading == old(loading) && caseStudies == old(caseStudies)
      ensures navigatedTo == old(navigatedTo)
    {
      if study.Some? && study.value.password == Some(typed) {
        isUnlocked := true;
        passwordError := false;
      } else {
        passwordError := true;
      }
    }

    /** `handleCancel`: back to the home page. */
    method HandleCancel()
      modifies this
      ensures navigatedTo == Some("/")
      ensures id == old(id) && study == old(study) && loading == old(loading) && caseStudies == old(caseStudies)
      ensures isUnlocked == old(isUnlocked) && passwordError == old(passwordError)
    {
      navigatedTo := Some("/");
    }

    /**
     * Following a link to another study as the page is written: only the route id
     * changes; the unlock flag, the error and the study on screen stay until the new
     * study arrives.
     */
    method RouteChangeAsWritten(newId: string)
      modifies this
      ensures id == newId
      ensures study == old(study) && loading == old(loading) && caseStudies == old(caseStudies)
      ensures isUnlocked == old(isUnlocked) && passwordError == old(passwordError) && navigatedTo == old(navigatedTo)
    {
      id := newId;
    }

    /** A route change that locks the page again, as a fresh mount would. */
    method RouteChangeCorrected(newId: string)
      modifies this
      ensures id == newId && !isUnlocked && !passwordError
      ensures study == old(study) && loading == old(loading) && caseStudies == old(caseStudies)
      ensures navigatedTo == old(navigatedTo)
    {
      id := newId;
      isUnlocked := false;
      passwordError := false;
    }
  }

  /**
   * As written: unlock protected study `a` with its password, follow the link to
   * protected study `b`, and `b` is shown without its password being asked for.
   */
  method OpenNextAsWritten(a: CaseStudy, b: CaseStudy) returns (screen: Screen)
    requires Protected(a) && a.password.Some? && Protected(b)
    ensures screen.Content? && screen.study == b
  {
    var page := new CaseStudyPage(a.id);
    page.ReceiveStudy(Some(a));
    assert page.Screen().Prompt?;
    page.HandlePasswordSubmit(a.password.value);
    page.RouteChangeAsWritten(b.id);
    page.ReceiveStudy(Some(b));
    screen := page.Screen();
  }

  /** Corrected: the same steps end at the password prompt for `b`, with no error shown. */
  method OpenNextCorrected(a: CaseStudy, b: CaseStudy) returns (screen: Screen)
    requires Protected(a) && a.password.Some? && Protected(b)
    ensures screen == Prompt(false)
  {
    var page := new CaseStudyPage(a.id);
    page.ReceiveStudy(Some(a));
    page.HandlePasswordSubmit(a.password.value);
    page.RouteChangeCorrected(b.id);
    page.ReceiveStudy(Some(b));
    screen := page.Screen();
  }
}
