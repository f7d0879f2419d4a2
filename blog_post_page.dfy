/**
 * One blog post (src/app/pages/BlogPostPage.tsx): what a fetched post leads to (the
 * article, a password prompt, or back to the list), the password check against the
 * session storage, and which screen the page renders.
 *
 * As written, a protected post whose password is not yet stored only sets
 * `passwordRequired` and leaves `post` null, so the prompt (which needs both) never
 * renders and the page is blank. `FetchAsWritten` keeps that behaviour and
 * `PromptNeverShownAsWritten` exhibits it; `FetchCorrected` also keeps the post. The
 * page class offers both: `FetchPost` as written and `FetchPostCorrected`.
 */
module BlogPostView {
  import opened Wrappers
  import opened BlogData

  /** The session-storage key a post's password is kept under. */
  function StorageKey(id: string): (r: string)
    ensures |r| == 10 + |id| && r[10..] == id
  {
    "blog_post_" + id
  }

  /** Different posts use different keys. */
  lemma StorageKeyInjective(a: string, b: string)
    requires StorageKey(a) == StorageKey(b)
    ensures a == b
  {
    assert a == StorageKey(a)[10..];
  }

  /**
   * The stored password equals the post's (`savedPassword === fetchedPost.password`): a
   * missing entry (`null`) never equals anything a post holds.
   */
  predicate Unlocked(p: BlogPost, session: map<string, string>)
  {
    StorageKey(p.id) in session && p.password == Some(session[StorageKey(p.id)])
  }

  /** What the GET by slug came to. `Refused` is a response whose `success` is false. */
  datatype Fetched = Success(post: BlogPost) | Refused | Threw

  /** What `fetchPost` decides to do with the response. */
  datatype Decision = Show(post: BlogPost) | AskPassword(post: BlogPost) | GoToList

  function Decide(result: Fetched, session: map<string, string>): (d: Decision)
    ensures d.GoToList? <==> !(result.Success? && result.post.status == "published")
    ensures d.Show? <==> result.Success? && result.post.status == "published" &&
                         (!result.post.passwordProtected || Unlocked(result.post, session))
    ensures !d.GoToList? ==> d.post == result.post
  {
    match result
    case Success(p) =>
      if p.status != "published" then GoToList
      else if p.passwordProtected && !Unlocked(p, session) then AskPassword(p)
      else Show(p)
    case _ => GoToList
  }

  /** The part of the page's state that decides what renders. */
  datatype View = View(post: Option<BlogPost>, passwordRequired: bool)

  const Initial := View(None, false)

  /** What the page shows: a spinner, the prompt, nothing, or the article. */
  datatype Screen = Spinner | PasswordPrompt | Blank | Article(post: BlogPost)

  function Render(loading: bool, v: View): (s: Screen)
    ensures s == Spinner <==> loading
    ensures s == PasswordPrompt <==> !loading && v.passwordRequired && v.post.Some?
    ensures s == Blank <==> !loading && v.post.None?
    ensures s.Article? <==> !loading && !v.passwordRequired && v.post.Some?
    ensures s.Article? ==> v.post == Some(s.post)
  {
    if loading then Spinner
    else if v.passwordRequired && v.post.Some? then PasswordPrompt
    else if v.post.None? then Blank
    else Article(v.post.value)
  }

  /** `fetchPost` as written: asking for the password leaves `post` as it was. */
  function FetchAsWritten(v: View, d: Decision): (r: View)
    ensures d.Show? ==> r.post == Some(d.post) && (d.post.passwordProtected ==> !r.passwordRequired)
    ensures d.AskPassword? ==> r.post == v.post && r.passwordRequired
    ensures d.GoToList? ==> r == v
  {
    match d
    case Show(p) => View(Some(p), if p.passwordProtected then false else v.passwordRequired)
    case AskPassword(_) => v.(passwordRequired := true)
    case GoToList => v
  }

  /** `fetchPost` corrected: asking for the password also keeps the post to ask about. */
  function FetchCorrected(v: View, d: Decision): (r: View)
    ensures d.Show? ==> r.post == Some(d.post) && (d.post.passwordProtected ==> !r.passwordRequired)
    ensures d.AskPassword? ==> r == View(Some(d.post), true)
    ensures d.GoToList? ==> r == v
  {
    match d
    case Show(p) => View(Some(p), if p.passwordProtected then false else v.passwordRequired)
    case AskPassword(p) => View(Some(p), true)
    case GoToList => v
  }

  /**
   * As written, the prompt never appears after the first fetch, whatever the response:
   * a post that needs its password leaves a blank page.
   */
  lemma PromptNeverShownAsWritten(result: Fetched, session: map<string, string>)
    ensures Render(false, FetchAsWritten(Initial, Decide(result, session))) != PasswordPrompt
    ensures Decide(result, session).AskPassword? ==>
              Render(false, FetchAsWritten(Initial, Decide(result, session))) == Blank
  {
  }

  /** The blank page happens: a published protected post with nothing stored. */
  lemma BlankPageExample(p: BlogPost)
    requires p.status == "published" && p.passwordProtected
    ensures Render(false, FetchAsWritten(Initial, Decide(Success(p), map[]))) == Blank
  {
    assert !Unlocked(p, map[]);
  }

  /**
   * Corrected, the first fetch shows the article exactly when the post is published and
   * unprotected or unlocked, the prompt exactly when its password is still needed, and
   * nothing otherwise (the page has navigated to the list).
   */
  lemma CorrectedGate(result: Fetched, session: map<string, string>)
    ensures var s := Render(false, FetchCorrected(Initial, Decide(result, session)));
            (s.Article? <==> Decide(result, session).Show?) &&
            (s.Article? ==> s.post == result.post) &&
            (s == PasswordPrompt <==> Decide(result, session).AskPassword?) &&
            (s == Blank <==> Decide(result, session).GoToList?)
  {
  }

  /** Once the right password is stored, fetching the post again shows it without asking. */
  lemma StoredPasswordUnlocks(p: BlogPost, typed: string, session: map<string, string>)
    requires p.status == "published" && p.password == Some(typed)
    ensures Decide(Success(p), session[StorageKey(p.id) := typed]) == Show(p)
  {
  }

  /** The page's state; `session` is the tab's session storage. */
  class BlogPostPage {
    var post: Option<BlogPost>
    var loading: bool
    var passwordRequired: bool
    var password: string
    var passwordError: string
    var session: map<string, string>
    var navigatedTo: Option<string>

    function CurrentView(): View
      reads this
    {
      View(post, passwordRequired)
    }

    function Screen(): (s: Screen)
      reads this
      ensures s == Render(loading, CurrentView())
    {
      Render(loading, CurrentView())
    }

    constructor(session: map<string, string>)
      ensures CurrentView() == Initial && loading && password == "" && passwordError == ""
      ensures this.session == session && navigatedTo.None?
    {
      post := None;
      loading := true;
      passwordRequired := false;
      password := "";
      passwordError := "";
      this.session := session;
      navigatedTo := None;
    }

    /** `fetchPost` as written: a prompt for a password never gets a post to show. */
    method FetchPost(result: Fetched)
      modifies this
      ensures CurrentView() == FetchAsWritten(old(CurrentView()), Decide(result, session))
      ensures navigatedTo == (if Decide(result, session).GoToList? then Some("/thoughts") else old(navigatedTo))
      ensures !loading
      ensures session == old(session) && password == old(password) && passwordError == old(passwordError)
    {
      match result {
        case Success(fetched) =>
          if fetched.status != "published" {
            navigatedTo := Some("/thoughts");
          } else if fetched.passwordProtected {
            var key := StorageKey(fetched.id);
            if key in session && fetched.password == Some(session[key]) {
              post := Some(fetched);
              passwordRequired := false;
            } else {
              passwordRequired := true;
            }
          } else {
            post := Some(fetched);
          }
        case Refused =>
          navigatedTo := Some("/thoughts");
        case Threw =>
          navigatedTo := Some("/thoughts");
      }
      loading := false;
    }

    /** `fetchPost` corrected: the protected post is kept, so the prompt can render. */
    method FetchPostCorrected(result: Fetched)
      modifies this
      ensures CurrentView() == FetchCorrected(old(CurrentView()), Decide(result, session))
      ensures navigatedTo == (if Decide(result, session).GoToList? then Some("/thoughts") else old(navigatedTo))
      ensures !loading
      ensures session == old(session) && password == old(password) && passwordError == old(passwordError)
    {
      match result {
        case Success(fetched) =>
          if fetched.status != "published" {
            navigatedTo := Some("/thoughts");
          } else if fetched.passwordProtected {
            post := Some(fetched);
            var key := StorageKey(fetched.id);
            passwordRequired := !(key in session && fetched.password == Some(session[key]));
          } else {
            post := Some(fetched);
          }
        case Refused =>
          navigatedTo := Some("/thoughts");
        case Threw =>
          navigatedTo := Some("/thoughts");
      }
      loading := false;
    }

    /**
     * `handlePasswordSubmit`: without a post nothing but the error reset happens; the
     * exact password is stored for the post and opens it; any other input sets the error.
     */
    method HandlePasswordSubmit()
      modifies this
      ensures post.None? ==> passwordError == "" && session == old(session) &&
                             passwordRequired == old(passwordRequired) && password == old(password)
      ensures post.Some? && post.value.password == Some(old(password)) ==>
                session == old(session)[StorageKey(post.value.id) := old(password)] &&
                Unlocked(post.value, session) && !passwordRequired && password == "" && passwordError == ""
      ensures post.Some? && post.value.password != Some(old(password)) ==>
                session == old(session) && passwordRequired == old(passwordRequired) &&
                password == old(password) && passwordError == "Incorrect password. Please try again."
      ensures post == old(post) && loading == old(loading) && navigatedTo == old(navigatedTo)
    {
      passwordError := "";
      if post.None? {
        return;
      }
      var p := post.value;
      if p.password == Some(password) {
        session := session[StorageKey(p.id) := password];
        passwordRequired := false;
        password := "";
      } else {
        passwordError := "Incorrect password. Please try again.";
      }
    }
  }
}
