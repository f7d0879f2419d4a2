/**
 * The work page (src/app/pages/WorkPage.tsx): the category buttons, the category
 * filter and the result count under them.
 */
module WorkPage {
  import opened Lists
  import opened CaseStudies

  /** `caseStudies.map(study => study.category)`. */
  function CategoriesOf(list: seq<CaseStudy>): (r: seq<string>)
    ensures |r| == |list| && forall i :: 0 <= i < |list| ==> r[i] == list[i].category
  {
    seq(|list|, i requires 0 <= i < |list| => list[i].category)
  }

  /** The buttons: "All", then each category once, in order of first appearance. */
  function Categories(list: seq<CaseStudy>): (r: seq<string>)
    ensures |r| >= 1 && r[0] == "All"
    ensures forall c :: c in r[1..] <==> c in CategoriesOf(list)
    ensures NoDup(r[1..])
  {
    var d := Distinct(CategoriesOf(list));
    assert (["All"] + d)[1..] == d;
    ["All"] + d
  }

  /** The buttons are all different exactly when no study's category is literally "All". */
  lemma CategoriesNoDup(list: seq<CaseStudy>)
    ensures NoDup(Categories(list)) <==> forall i :: 0 <= i < |list| ==> list[i].category != "All"
  {
    if forall i :: 0 <= i < |list| ==> list[i].category != "All" {
      CategoriesNoDupWithoutAll(list);
    } else {
      var i :| 0 <= i < |list| && list[i].category == "All";
      CategoriesDupWithAll(list, i);
    }
  }

  lemma CategoriesNoDupWithoutAll(list: seq<CaseStudy>)
    requires forall i :: 0 <= i < |list| ==> list[i].category != "All"
    ensures NoDup(Categories(list))
  {
    var r := Categories(list);
    forall a, b | 0 <= a < b < |r| ensures r[a] != r[b] {
      if a == 0 {
        assert r[b] == r[1..][b - 1] && r[b] in CategoriesOf(list);
        var i :| 0 <= i < |list| && CategoriesOf(list)[i] == r[b];
      } else {
        assert r[a] == r[1..][a - 1] && r[b] == r[1..][b - 1];
      }
    }
  }

  lemma CategoriesDupWithAll(list: seq<CaseStudy>, i: int)
    requires 0 <= i < |list| && list[i].category == "All"
    ensures !NoDup(Categories(list))
  {
    var r := Categories(list);
    assert CategoriesOf(list)[i] == "All";
    assert "All" in r[1..];
    var k :| 0 <= k < |r[1..]| && r[1..][k] == "All";
    assert r[0] == r[k + 1];
  }

  /**
   * After "All" the buttons follow the order in which the categories first appear: a
   * study of an earlier button's category comes before every study of a later one's.
   */
  lemma CategoriesFirstAppearanceOrder(list: seq<CaseStudy>, a: int, b: int)
    requires 1 <= a < b < |Categories(list)|
    ensures exists i :: ComesFirst(list, i, Categories(list)[a], Categories(list)[b])
  {
    var i := ButtonsFirstOfBefore(list, a, b);
  }

  /** Study i has category x, and no study up to and including it has category y. */
  predicate ComesFirst(list: seq<CaseStudy>, i: int, x: string, y: string)
  {
    0 <= i < |list| && list[i].category == x && forall j :: 0 <= j <= i ==> list[j].category != y
  }

  /** A study of button a's category that comes before every study of button b's, for a < b. */
  lemma ButtonsFirstOfBefore(list: seq<CaseStudy>, a: int, b: int) returns (i: int)
    requires 1 <= a < b < |Categories(list)|
    ensures ComesFirst(list, i, Categories(list)[a], Categories(list)[b])
  {
    var x, y := Categories(list)[a], Categories(list)[b];
    var cats := CategoriesOf(list);
    CategoriesAt(list, a);
    CategoriesAt(list, b);
    DistinctOccursBefore(cats, x, y, a - 1, b - 1);
    i :| 0 <= i < |cats| && cats[i] == x && forall j :: 0 <= j <= i ==> cats[j] != y;
    CategoryPrefix(list, i, x, y);
  }

  /** A fact about the first i+1 categories is a fact about the first i+1 studies. */
  lemma CategoryPrefix(list: seq<CaseStudy>, i: int, x: string, y: string)
    requires 0 <= i < |list| && CategoriesOf(list)[i] == x
    requires forall j :: 0 <= j <= i ==> CategoriesOf(list)[j] != y
    ensures list[i].category == x && forall j :: 0 <= j <= i ==> list[j].category != y
  {
  }

  lemma CategoriesAt(list: seq<CaseStudy>, k: int)
    requires 1 <= k < |Categories(list)|
    ensures k - 1 < |Distinct(CategoriesOf(list))| && Categories(list)[k] == Distinct(CategoriesOf(list))[k - 1]
  {
  }

  /** `selectedCategory === "All" ? caseStudies : caseStudies.filter(...)`. */
  function FilteredStudies(list: seq<CaseStudy>, selected: string): (r: seq<CaseStudy>)
    ensures selected == "All" ==> r == list
    ensures selected != "All" ==> forall s :: s in r <==> s in list && s.category == selected
    ensures |r| <= |list|
  {
    if selected == "All" then list else Filter(list, (s: CaseStudy) => s.category == selected)
  }

  /** The filter distributes over `+`, so the shown studies keep the list's order and repeats. */
  lemma FilteredStudiesConcat(a: seq<CaseStudy>, b: seq<CaseStudy>, selected: string)
    ensures FilteredStudies(a + b, selected) == FilteredStudies(a, selected) + FilteredStudies(b, selected)
  {
    if selected != "All" {
      FilterAppend(a, b, (s: CaseStudy) => s.category == selected);
    }
  }

  /** Every button other than "All" selects at least one study. */
  lemma EveryCategorySelectsSome(list: seq<CaseStudy>, k: int)
    requires 1 <= k < |Categories(list)|
    ensures |FilteredStudies(list, Categories(list)[k])| > 0
  {
    var r := Categories(list);
    var c := r[k];
    assert c == r[1..][k - 1] && c in CategoriesOf(list);
    var i :| 0 <= i < |list| && CategoriesOf(list)[i] == c;
    if c != "All" {
      assert list[i] in FilteredStudies(list, c);
    }
  }

  /** The word after the count: singular exactly for one project. */
  function CountNoun(n: nat): (r: string)
    ensures r == "project" <==> n == 1
    ensures r == "projects" <==> n != 1
  {
    if n == 1 then "project" else "projects"
  }

  class WorkView {
    var selectedCategory: string

    /** The page opens on "All", which shows every study. */
    constructor()
      ensures selectedCategory == "All"
      ensures forall list :: FilteredStudies(list, selectedCategory) == list
    {
      selectedCategory := "All";
    }

    /** A category button. */
    method SelectCategory(category: string)
      modifies this
      ensures selectedCategory == category
    {
      selectedCategory := category;
    }

    /** The studies shown for a loaded list. */
    function Shown(list: seq<CaseStudy>): (r: seq<CaseStudy>)
      reads this
      ensures |r| <= |list|
      ensures selectedCategory == "All" ==> r == list
      ensures selectedCategory != "All" ==> forall s :: s in r <==> s in list && s.category == selectedCategory
    {
      FilteredStudies(list, selectedCategory)
    }
  }

  /** What a view shows for two lists joined is what it shows for each, in order. */
  lemma ShownConcat(v: WorkView, a: seq<CaseStudy>, b: seq<CaseStudy>)
    ensures v.Shown(a + b) == v.Shown(a) + v.Shown(b)
  {
    FilteredStudiesConcat(a, b, v.selectedCategory);
  }
}
