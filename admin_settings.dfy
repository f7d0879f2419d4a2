/**
 * The site settings editor (src/app/pages/AdminSettingsPage.tsx): the settings record,
 * the expertise and typing-text inputs, and the save with its toast.
 */
module AdminSettings {
  import opened Wrappers
  import opened Lists
  import opened CaseStudies

  /**
   * The `SiteSettings` record. The properties no operation here reads or changes (the
   * logos, hero and about texts, contacts and social links) are kept by name in `texts`.
   */
  datatype SiteSettings = SiteSettings(
    siteName: string, siteTitle: Option<string>, faviconUrl: Option<string>,
    heroTypingTexts: Option<seq<string>>, aboutExpertise: seq<string>, texts: map<string, string>)

  datatype ToastKind = Success | Failure

  datatype Toast = Toast(text: string, kind: ToastKind)

  /** What the PUT came to: a response with its `ok` flag, or an exception. */
  datatype SaveResult = Response(ok: bool) | Threw

  /** The toast a save shows: the success toast exactly for an ok response. */
  function SaveToast(result: SaveResult): (r: Toast)
    ensures r.kind == Success <==> result == Response(true)
    ensures r.kind == Success ==> r.text == "Settings saved successfully!"
    ensures r.kind == Failure ==> r.text == "Failed to save settings"
  {
    if result == Response(true) then Toast("Settings saved successfully!", Success)
    else Toast("Failed to save settings", Failure)
  }

  /** `[...(texts || []), ""]`: one empty text at the end; a missing list counts as empty. */
  function AddTypingText(texts: Option<seq<string>>): (r: seq<string>)
    ensures r == texts.GetOr([]) + [""]
  {
    texts.GetOr([]) + [""]
  }

  /** `texts?.filter((_, i) => i !== index) || []`: exactly text i goes. */
  function RemoveTypingText(texts: Option<seq<string>>, index: int): (r: seq<string>)
    ensures texts.None? ==> r == []
    ensures texts.Some? && 0 <= index < |texts.value| ==> r == texts.value[..index] + texts.value[index + 1..]
    ensures texts.Some? && !(0 <= index < |texts.value|) ==> r == texts.value
  {
    RemoveAt(texts.GetOr([]), index)
  }

  /** Removing the text just added gives back the list (an empty one if there was none). */
  lemma AddThenRemoveTypingText(texts: Option<seq<string>>)
    ensures RemoveTypingText(Some(AddTypingText(texts)), |texts.GetOr([])|) == texts.GetOr([])
  {
    var t := texts.GetOr([]);
    assert (t + [""])[..|t|] == t;
  }

  class SettingsPage {
    var settings: SiteSettings
    var loading: bool
    var saving: bool
    var saved: bool
    var toast: Option<Toast>

    constructor()
      ensures settings == SiteSettings("", Some(""), Some(""), Some([]), [], map[])
      ensures loading && !saving && !saved && toast.None?
    {
      settings := SiteSettings("", Some(""), Some(""), Some([]), [], map[]);
      loading := true;
      saving := false;
      saved := false;
      toast := None;
    }

    /** `fetchSettings`: a successful response replaces the form; loading ends either way. */
    method FetchSettings(fetched: Option<SiteSettings>)
      modifies this
      ensures settings == (if fetched.Some? then fetched.value else old(settings))
      ensures !loading && saving == old(saving) && saved == old(saved) && toast == old(toast)
    {
      if fetched.Some? {
        settings := fetched.value;
      }
      loading := false;
    }

    /** The expertise input: the trimmed non-empty pieces between the commas. */
    method SetExpertise(text: string)
      modifies this
      ensures settings == old(settings).(aboutExpertise := ParseListDropEmpty(text))
      ensures "" !in settings.aboutExpertise
      ensures loading == old(loading) && saving == old(saving) && saved == old(saved) && toast == old(toast)
    {
      settings := settings.(aboutExpertise := ParseListDropEmpty(text));
    }

    /**
     * Typing into text `index`: a copy of the list with that one entry replaced; the
     * length and every other entry stay.
     */
    method HandleTypingTextChange(index: int, value: string)
      modifies this
      ensures var before := old(settings).heroTypingTexts.GetOr([]);
              settings.heroTypingTexts.Some? && |settings.heroTypingTexts.value| == |before| &&
              (forall i :: 0 <= i < |before| && i != index ==> settings.heroTypingTexts.value[i] == before[i]) &&
              (0 <= index < |before| ==> settings.heroTypingTexts.value[index] == value)
      ensures settings.(heroTypingTexts := old(settings).heroTypingTexts) == old(settings)
      ensures loading == old(loading) && saving == old(saving) && saved == old(saved) && toast == old(toast)
    {
      var newTexts := settings.heroTypingTexts.GetOr([]);
      if 0 <= index < |newTexts| {
        newTexts := newTexts[index := value];
      }
      settings := settings.(heroTypingTexts := Some(newTexts));
    }

    method HandleRemoveTypingText(index: int)
      modifies this
      ensures settings == old(settings).(heroTypingTexts := Some(RemoveTypingText(old(settings).heroTypingTexts, index)))
      ensures loading == old(loading) && saving == old(saving) && saved == old(saved) && toast == old(toast)
    {
      settings := settings.(heroTypingTexts := Some(RemoveTypingText(settings.heroTypingTexts, index)));
    }

    method HandleAddTypingText()
      modifies this
      ensures settings == old(settings).(heroTypingTexts := Some(AddTypingText(old(settings).heroTypingTexts)))
      ensures loading == old(loading) && saving == old(saving) && saved == old(saved) && toast == old(toast)
    {
      settings := settings.(heroTypingTexts := Some(AddTypingText(settings.heroTypingTexts)));
    }

    /**
     * `handleSave`: PUTs the settings (the returned body); `saved` and the success toast
     * exactly for an ok response, the error toast otherwise; saving ends either way.
     */
    method HandleSave(result: SaveResult) returns (body: SiteSettings)
      modifies this
      ensures body == settings && settings == old(settings)
      ensures saved <==> result == Response(true)
      ensures toast == Some(SaveToast(result))
      ensures !saving && loading == old(loading)
    {
      saving := true;
      saved := false;
      body := settings;
      if result == Response(true) {
        saved := true;
        toast := Some(Toast("Settings saved successfully!", Success));
      } else {
        toast := Some(Toast("Failed to save settings", Failure));
      }
      saving := false;
    }

    /** The timer the success schedules: the saved mark goes. */
    method ClearSaved()
      modifies this
      ensures !saved && settings == old(settings) && loading == old(loading)
      ensures saving == old(saving) && toast == old(toast)
    {
      saved := false;
    }
  }
}
