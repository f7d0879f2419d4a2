/**
 * The case-study record (the `CaseStudy` interface of src/app/data/caseStudies.ts) and
 * the edits both case-study editors make to it: the comma-separated list inputs, the
 * process and results lists, the password switch and the testimonial fields.
 */
module CaseStudies {
  import opened Wrappers
  import opened Text
  import opened Lists

  datatype ProcessStep = ProcessStep(title: string, description: string)

  datatype ResultItem = ResultItem(metric: string, value: string)

  datatype Testimonial = Testimonial(text: string, author: string, role: string)

  datatype Overview = Overview(role: string, duration: string, tools: seq<string>, description: string)

  /** A case study; the optional properties of the interface are `Option`s. */
  datatype CaseStudy = CaseStudy(
    id: string, title: string, subtitle: string, category: string, year: string, heroImage: string,
    overview: Overview, problem: string, solution: string,
    process: seq<ProcessStep>, images: seq<string>, results: seq<ResultItem>,
    testimonial: Option<Testimonial>, isPasswordProtected: Option<bool>, password: Option<string>,
    featured: Option<bool>)

  /** A blank study with the given id and year: every text empty, every list empty, no optional property. */
  function BlankStudy(id: string, year: string): (r: CaseStudy)
    ensures r.id == id && r.year == year
    ensures r.process == [] && r.images == [] && r.results == [] && r.overview.tools == []
    ensures r.title == "" && r.category == "" && r.testimonial.None? && r.password.None?
  {
    CaseStudy(id, "", "", "", year, "", Overview("", "", [], ""), "", "", [], [], [], None, None, None, None)
  }

  // ---------------------------------------------------------------------------------
  // Comma-separated inputs
  // ---------------------------------------------------------------------------------

  /** `parts.map(t => t.trim())`. */
  function TrimAll(parts: seq<string>): (r: seq<string>)
    ensures |r| == |parts|
    ensures forall i :: 0 <= i < |r| ==> r[i] == Trim(parts[i])
  {
    if |parts| == 0 then [] else [Trim(parts[0])] + TrimAll(parts[1..])
  }

  /** `Boolean(s)` for a string. */
  predicate NonEmpty(s: string) { s != "" }

  /**
   * `s.split(",").map(t => t.trim()).filter(Boolean)`: trimmed, comma-free, non-empty
   * pieces (the tools and images inputs of the standalone editor, the images input of the
   * dashboard editor, the expertise input of the settings page).
   */
  function ParseListDropEmpty(s: string): (r: seq<string>)
    ensures forall x :: x in r ==> x != "" && IsTrimmed(x) && ',' !in x
  {
    var pieces := TrimAll(SplitOn(s, ','));
    assert forall x :: x in pieces ==> IsTrimmed(x) && ',' !in x by {
      forall x | x in pieces ensures IsTrimmed(x) && ',' !in x {
        var i :| 0 <= i < |pieces| && pieces[i] == x;
        TrimKeepsMiddle(SplitOn(s, ',')[i]);
      }
    }
    Filter(pieces, NonEmpty)
  }

  /**
   * `s.split(",").map(t => t.trim())`: the dashboard editor's tools input keeps empty
   * pieces, one piece more than there are commas.
   */
  function ParseListKeepEmpty(s: string): (r: seq<string>)
    ensures |r| == CountChar(s, ',') + 1
    ensures forall x :: x in r ==> IsTrimmed(x)
  {
    TrimAll(SplitOn(s, ','))
  }

  /** Every piece behind a space. */
  function Indent(parts: seq<string>): (r: seq<string>)
    ensures |r| == |parts|
  {
    if |parts| == 0 then [] else [" " + parts[0]] + Indent(parts[1..])
  }

  lemma {:induction false} JoinIndent(parts: seq<string>)
    requires |parts| >= 1
    ensures Join(Indent(parts), [',']) == " " + Join(parts, ", ")
  {
    if |parts| > 1 {
      JoinIndent(parts[1..]);
      assert Indent(parts)[1..] == Indent(parts[1..]);
    }
  }

  /** `list.join(", ")` is the pieces joined by `,` with a space in front of all but the first. */
  lemma {:induction false} JoinCommaSpace(list: seq<string>)
    requires |list| >= 1
    ensures Join(list, ", ") == Join([list[0]] + Indent(list[1..]), [','])
  {
    var parts := [list[0]] + Indent(list[1..]);
    if |list| > 1 {
      var rest := Join(list[1..], ", ");
      JoinIndent(list[1..]);
      assert parts[1..] == Indent(list[1..]);
      assert Join(parts, [',']) == list[0] + [','] + (" " + rest);
      assert Join(list, ", ") == list[0] + ", " + rest;
      assert list[0] + ", " + rest == list[0] + [','] + (" " + rest);
    }
  }

  lemma {:induction false} TrimAllIndent(list: seq<string>)
    requires forall x :: x in list ==> IsTrimmed(x)
    ensures TrimAll(Indent(list)) == list
  {
    if |list| > 0 {
      TrimLeadingSpaces(" ", list[0]);
      TrimAllIndent(list[1..]);
      assert Indent(list)[1..] == Indent(list[1..]);
    }
  }

  lemma IndentNoComma(list: seq<string>)
    requires forall x :: x in list ==> ',' !in x
    ensures forall i :: 0 <= i < |list| ==> ',' !in Indent(list)[i]
  {
    if |list| > 0 {
      IndentNoComma(list[1..]);
      assert forall i :: 1 <= i < |list| ==> Indent(list)[i] == Indent(list[1..])[i - 1];
    }
  }

  /**
   * What the field shows (`list.join(", ")`) parses back to the list, when every item is
   * non-empty, trimmed and free of commas.
   */
  lemma ParseJoinRoundTrip(list: seq<string>)
    requires forall x :: x in list ==> x != "" && IsTrimmed(x) && ',' !in x
    ensures ParseListDropEmpty(Join(list, ", ")) == list
  {
    if |list| == 0 {
      assert SplitOn("", ',') == [""];
      assert TrimAll([""]) == [""];
    } else {
      var parts := [list[0]] + Indent(list[1..]);
      JoinCommaSpace(list);
      IndentNoComma(list[1..]);
      assert forall i :: 1 <= i < |parts| ==> parts[i] == Indent(list[1..])[i - 1];
      SplitOnJoin(parts, ',');
      TrimAllIndent(list[1..]);
      assert parts[1..] == Indent(list[1..]);
      assert TrimAll(parts) == [Trim(list[0])] + TrimAll(Indent(list[1..]));
      TrimTrimmed(list[0]);
      assert TrimAll(parts) == list;
      FilterAll(list, NonEmpty);
    }
  }

  /** Keeping the empty pieces and then dropping them is the other parser. */
  lemma DropEmptyFiltersKeepEmpty(s: string)
    ensures ParseListDropEmpty(s) == Filter(ParseListKeepEmpty(s), NonEmpty)
  {
  }

  /** An empty input is one empty tool for the keeping parser and no item for the dropping one. */
  lemma EmptyInputDiffers()
    ensures ParseListKeepEmpty("") == [""] && ParseListDropEmpty("") == []
  {
    assert SplitOn("", ',') == [""];
    assert TrimAll([""]) == [""];
  }

  // ---------------------------------------------------------------------------------
  // List edits
  // ---------------------------------------------------------------------------------

  /** `addProcessStep`: one empty step at the end. */
  function AddProcessStep(cs: CaseStudy): (r: CaseStudy)
    ensures r.process == cs.process + [ProcessStep("", "")]
    ensures r.(process := cs.process) == cs
  {
    cs.(process := cs.process + [ProcessStep("", "")])
  }

  /** `removeProcessStep(i)`: exactly step i goes, the others keep their order. */
  function RemoveProcessStep(cs: CaseStudy, index: int): (r: CaseStudy)
    ensures 0 <= index < |cs.process| ==> r.process == cs.process[..index] + cs.process[index + 1..]
    ensures !(0 <= index < |cs.process|) ==> r == cs
    ensures r.(process := cs.process) == cs
  {
    cs.(process := RemoveAt(cs.process, index))
  }

  /** `addResult`: one empty result at the end. */
  function AddResult(cs: CaseStudy): (r: CaseStudy)
    ensures r.results == cs.results + [ResultItem("", "")]
    ensures r.(results := cs.results) == cs
  {
    cs.(results := cs.results + [ResultItem("", "")])
  }

  /** `removeResult(i)`: exactly result i goes, the others keep their order. */
  function RemoveResult(cs: CaseStudy, index: int): (r: CaseStudy)
    ensures 0 <= index < |cs.results| ==> r.results == cs.results[..index] + cs.results[index + 1..]
    ensures !(0 <= index < |cs.results|) ==> r == cs
    ensures r.(results := cs.results) == cs
  {
    cs.(results := RemoveAt(cs.results, index))
  }

  /** Removing the step just added gives back the study. */
  lemma AddThenRemoveProcessStep(cs: CaseStudy)
    ensures RemoveProcessStep(AddProcessStep(cs), |cs.process|) == cs
  {
    assert (cs.process + [ProcessStep("", "")])[..|cs.process|] == cs.process;
  }

  /** Removing the result just added gives back the study. */
  lemma AddThenRemoveResult(cs: CaseStudy)
    ensures RemoveResult(AddResult(cs), |cs.results|) == cs
  {
    assert (cs.results + [ResultItem("", "")])[..|cs.results|] == cs.results;
  }

  /** The two inputs of a process step. */
  datatype StepField = StepTitle | StepDescription

  /** Typing into one input of step `index`: only that property of that step changes. */
  function EditProcessStep(cs: CaseStudy, index: int, field: StepField, value: string): (r: CaseStudy)
    ensures |r.process| == |cs.process| && r.(process := cs.process) == cs
    ensures forall i :: 0 <= i < |cs.process| && i != index ==> r.process[i] == cs.process[i]
    ensures 0 <= index < |cs.process| && field == StepTitle ==>
              r.process[index] == cs.process[index].(title := value)
    ensures 0 <= index < |cs.process| && field == StepDescription ==>
              r.process[index] == cs.process[index].(description := value)
  {
    if 0 <= index < |cs.process| then
      var step := cs.process[index];
      var edited := match field
        case StepTitle => step.(title := value)
        case StepDescription => step.(description := value);
      cs.(process := cs.process[index := edited])
    else cs
  }

  /** The two inputs of a result. */
  datatype ResultField = Metric | ResultValue

  /** Typing into one input of result `index`: only that property of that result changes. */
  function EditResult(cs: CaseStudy, index: int, field: ResultField, value: string): (r: CaseStudy)
    ensures |r.results| == |cs.results| && r.(results := cs.results) == cs
    ensures forall i :: 0 <= i < |cs.results| && i != index ==> r.results[i] == cs.results[i]
    ensures 0 <= index < |cs.results| && field == Metric ==>
              r.results[index] == cs.results[index].(metric := value)
    ensures 0 <= index < |cs.results| && field == ResultValue ==>
              r.results[index] == cs.results[index].(value := value)
  {
    if 0 <= index < |cs.results| then
      var item := cs.results[index];
      var edited := match field
        case Metric => item.(metric := value)
        case ResultValue => item.(value := value);
      cs.(results := cs.results[index := edited])
    else cs
  }

  /** The password checkbox: unticking forgets the password, ticking keeps whatever was there. */
  function SetPasswordProtection(cs: CaseStudy, checked: bool): (r: CaseStudy)
    ensures r.isPasswordProtected == Some(checked)
    ensures checked ==> r.password == cs.password
    ensures !checked ==> r.password.None?
    ensures r.(isPasswordProtected := cs.isPasswordProtected, password := cs.password) == cs
  {
    cs.(isPasswordProtected := Some(checked), password := if checked then cs.password else None)
  }

  /** Unticking and ticking again loses the password: the switch is not an undo. */
  lemma UntickLosesPassword(cs: CaseStudy)
    ensures SetPasswordProtection(SetPasswordProtection(cs, false), true).password.None?
  {
  }

  /** The three testimonial inputs. */
  datatype TestimonialField = Text | Author | Role

  /**
   * Editing one testimonial field: that field takes the input and the other two keep
   * their value, `""` when there was no testimonial.
   */
  function EditTestimonial(t: Option<Testimonial>, field: TestimonialField, value: string): (r: Testimonial)
    ensures field == Text ==> r.text == value
    ensures field == Author ==> r.author == value
    ensures field == Role ==> r.role == value
    ensures field != Text ==> r.text == (if t.Some? then t.value.text else "")
    ensures field != Author ==> r.author == (if t.Some? then t.value.author else "")
    ensures field != Role ==> r.role == (if t.Some? then t.value.role else "")
  {
    var base := t.GetOr(Testimonial("", "", ""));
    match field
    case Text => base.(text := value)
    case Author => base.(author := value)
    case Role => base.(role := value)
  }
}
