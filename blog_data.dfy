/**
 * The blog's data definitions (src/app/data/blogPosts.ts): the post record, the six
 * categories and their colours, the sample posts' identities, and the reading time.
 */
module BlogData {
  import opened Wrappers
  import opened Text
  import opened Lists

  /** A blog post as the pages hold it; dates are integer timestamps. */
  datatype BlogPost = BlogPost(
    id: string,
    slug: string,
    title: string,
    description: string,
    content: string,
    thumbnail: string,
    category: string,
    tags: seq<string>,
    status: string,
    featured: bool,
    passwordProtected: bool,
    password: Option<string>,
    publishedAt: int,
    updatedAt: int,
    readingTime: Option<int>,
    author: Option<string>)

  datatype Category = DesignUx | PersonalGrowth | Technology | CreativeProjects | IndustryInsights | Other

  /** The category's label, the string a post's `category` field holds. */
  function CategoryName(c: Category): string
  {
    match c
    case DesignUx => "Design & UX"
    case PersonalGrowth => "Personal Growth"
    case Technology => "Technology"
    case CreativeProjects => "Creative Projects"
    case IndustryInsights => "Industry Insights"
    case Other => "Other"
  }

  /** `blogCategories`, in the order the pages list them. */
  const BlogCategories: seq<Category> :=
    [DesignUx, PersonalGrowth, Technology, CreativeProjects, IndustryInsights, Other]

  /** The list holds each of the six categories exactly once. */
  lemma BlogCategoriesComplete()
    ensures |BlogCategories| == 6 && NoDup(BlogCategories)
    ensures forall c: Category :: c in BlogCategories
  {
    forall c: Category ensures c in BlogCategories {
      match c
      case DesignUx => assert BlogCategories[0] == c;
      case PersonalGrowth => assert BlogCategories[1] == c;
      case Technology => assert BlogCategories[2] == c;
      case CreativeProjects => assert BlogCategories[3] == c;
      case IndustryInsights => assert BlogCategories[4] == c;
      case Other => assert BlogCategories[5] == c;
    }
  }

  /** `getCategoryColor`: the gradient classes of a category's badge. */
  function CategoryColor(c: Category): (r: string)
    ensures |r| > 5 && r[..5] == "from-"
    ensures r == "from-gray-500 to-slate-500" <==> c == Other
  {
    match c
    case DesignUx => "from-purple-500 to-blue-500"
    case PersonalGrowth => "from-green-500 to-emerald-500"
    case Technology => "from-blue-500 to-cyan-500"
    case CreativeProjects => "from-pink-500 to-rose-500"
    case IndustryInsights => "from-orange-500 to-amber-500"
    case Other => "from-gray-500 to-slate-500"
  }

  /** Distinct categories get distinct colours (and distinct labels). */
  lemma CategoryColorInjective(c1: Category, c2: Category)
    requires c1 != c2
    ensures CategoryColor(c1) != CategoryColor(c2)
    ensures CategoryName(c1) != CategoryName(c2)
  {
    var a := CategoryColor(c1);
    var b := CategoryColor(c2);
    assert a[5..7] != b[5..7] || |a| != |b| || a[15..] != b[15..];
  }

  /** What identifies a sample post: its id, slug and title. */
  datatype SampleRef = SampleRef(id: string, slug: string, title: string)

  /** The sample posts, in list order. */
  const SamplePosts: seq<SampleRef> := [
    SampleRef("1", "design-thinking-beyond-sticky-notes",
              "Design Thinking: Beyond Sticky Notes and Workshops"),
    SampleRef("2", "product-owner-designer-relationship",
              "The Product Owner and Designer Relationship: A Love Story (Or Not)"),
    SampleRef("3", "user-interviews-actually-useful",
              "How to Conduct User Interviews That Are Actually Useful"),
    SampleRef("4", "saying-no-as-product-designer",
              "The Art of Saying No: A Product Designer's Survival Guide")
  ]

  /** The sample posts have pairwise distinct ids and pairwise distinct slugs. */
  lemma SamplePostsDistinct()
    ensures |SamplePosts| == 4
    ensures forall i, j :: 0 <= i < j < |SamplePosts| ==>
              SamplePosts[i].id != SamplePosts[j].id && SamplePosts[i].slug != SamplePosts[j].slug
  {
    forall i, j | 0 <= i < j < |SamplePosts|
      ensures SamplePosts[i].id != SamplePosts[j].id && SamplePosts[i].slug != SamplePosts[j].slug
    {
      var a, b := SamplePosts[i], SamplePosts[j];
      assert a.id[0] != b.id[0];
      assert a.slug[0] != b.slug[0];
    }
  }

  /** The number of pieces `content.trim().split(/\s+/)` gives. */
  function WordCount(content: string): (n: nat)
    ensures n >= 1
  {
    |SplitOnSpaceRuns(Trim(content))|
  }

  /** Whole minutes at 200 words a minute, rounded up. */
  function Minutes(words: nat): (m: int)
  {
    (words + 199) / 200
  }

  /** `Math.ceil(n / 200)`: the least number of minutes whose 200-word allowance covers `n` words. */
  lemma MinutesIsCeiling(n: nat)
    ensures (Minutes(n) - 1) * 200 < n <= Minutes(n) * 200
  {
  }

  /** More words never read faster. */
  lemma MinutesMonotone(n1: nat, n2: nat)
    requires n1 <= n2
    ensures Minutes(n1) <= Minutes(n2)
  {
  }

  /** `calculateReadingTime`. */
  function ReadingTime(content: string): (r: int)
    ensures r >= 1
    ensures (r - 1) * 200 < WordCount(content) <= r * 200
  {
    MinutesIsCeiling(WordCount(content));
    Minutes(WordCount(content))
  }

  /**
   * The count is a word count: text with any non-whitespace splits into words only, and
   * empty or all-whitespace text still counts one (empty) piece, so reads in one minute.
   */
  lemma WordCountCountsWords(content: string)
    ensures Trim(content) != [] ==>
              forall i :: 0 <= i < WordCount(content) ==> IsWord(SplitOnSpaceRuns(Trim(content))[i])
    ensures Trim(content) == [] ==> WordCount(content) == 1 && ReadingTime(content) == 1
  {
    if Trim(content) != [] {
      SplitTrimmedIntoWords(Trim(content));
    }
  }
}
