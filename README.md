# Portfolio site core, modelled in Dafny

This project models the logic of a portfolio website: a React front end over a
serverless JSON API backed by a key-value store. The model has two parts.

- **The resource API** (`supabase/functions/server/index.tsx`). The store is a map from
  string keys to JSON values:
  - case studies live under `case_study:<id>`;
  - blog posts live under `blog_post:<id>`;
  - the two singletons live under `site_settings` and `homepage_sections`.

  Each write handler is specified by a function from the old store to an `Outcome`, a
  response plus the new store. The `KvServer.Server` class runs the handlers against its
  `store` field, and every method is proved equal to its specification function. Two
  invariants are proved to hold across every handler:
  - every record sits at the key its own id gives;
  - no two posts share a truthy slug.

  Every admin handler answers 401 and leaves the store unchanged when the gate fails.

  Bulk initialization is proved idempotent.
- **The page and hook logic** of the front end:
  - blog helpers: reading time, slug generation, tags and the save payload;
  - the public and admin blog lists, and the blog post password gate;
  - the homepage section configuration and its admin edits;
  - the case-study editors and their comma-list parsing;
  - the settings form;
  - the case-study hooks with their bundled fallback data;
  - the case-study page, with its wrap-around "next" link and password gate;
  - the work page's categories;
  - the document title and favicon effect.

Component state becomes a class whose fields the handlers update. A fetch outcome, the
clock, a random UUID, `confirm()` and browser storage all become parameters or fields.
JSON values are a `Json.Value` datatype that models JavaScript truthiness, `===` and
object spread.

Helper modules: `Wrappers` (Option), `Lists` (filter, find, distinct, remove-at, sort),
`Text` (ASCII trim, lower-case, split and join, decimal text) and `Json`.

## Model

| member | source | states |
|---|---|---|
| `KvServer.Lookup` | supabase/functions/server/index.tsx:189 | `kv.get` yields a value exactly when the key is stored |
| `KvServer.KeyFamiliesDisjoint` | supabase/functions/server/index.tsx:223 | case-study keys, blog-post keys and the two singleton keys never collide, so a write to one family leaves the others alone |
| `KvServer.DistinctKeysDistinctIds` | supabase/functions/server/index.tsx:749 | in a well-formed store two different post keys hold posts whose ids are not `===` |
| `KvServer.WriteKeepsWellFormed` | supabase/functions/server/index.tsx:223 | writing a record at the key its id gives, or writing outside the record families, keeps every record keyed by its own id |
| `KvServer.RemoveKeepsInvariants` | supabase/functions/server/index.tsx:276 | deleting any key keeps id-keying and slug uniqueness |
| `KvServer.NonPostWriteKeepsUniqueSlugs` | supabase/functions/server/index.tsx:339 | a write outside `blog_post:` cannot break slug uniqueness |
| `KvServer.DefaultSectionIdsDistinct` | supabase/functions/server/index.tsx:359-431 | the eight default section ids are pairwise distinct |
| `KvServer.DefaultSectionAt` | supabase/functions/server/index.tsx:359-431 | default section i has id number i, `order` i+1 and `isVisible` true |
| `KvServer.DefaultSectionsShape` | supabase/functions/server/index.tsx:359-431 | there are eight default sections, ordered 1..8, all visible, with distinct string ids |
| `KvServer.AdminTest` | supabase/functions/server/index.tsx:54-63 | the admin test route succeeds iff the header passes the gate, and otherwise answers 401 |
| `KvServer.Login` | supabase/functions/server/index.tsx:66-103 | login succeeds iff the body's `password` is the secret; the token returned then passes the gate; any other body gets 401, and a `null` body gets the 500 of reading a property of null |
| `KvServer.GetCaseStudy` | supabase/functions/server/index.tsx:186-206 | a study is returned iff a truthy record is stored under `case_study:<id>`, and the result is exactly the record at that key; otherwise 404 "Case study not found" |
| `KvServer.GetSettings` | supabase/functions/server/index.tsx:294-330 | always succeeds with a truthy value: the stored settings when they are truthy, otherwise the built-in defaults |
| `KvServer.GetHomepageSections` | supabase/functions/server/index.tsx:355-440 | always succeeds with a truthy value: the stored sections when they are truthy, otherwise the eight default sections |
| `KvServer.AdminGetPost` | supabase/functions/server/index.tsx:691-715 | without the secret the answer is 401; with it, a post is returned iff a truthy record is stored under `blog_post:<id>`, the result is exactly that record, and otherwise the answer is 404 "Blog post not found" |
| `KvServer.CreateCaseStudyOutcome` | supabase/functions/server/index.tsx:209-236 | 401 without the secret; 400 with no store change when the body has no truthy id; otherwise an upsert at `case_study:<id>` after which GET by that id returns exactly the body, with every other key unchanged |
| `KvServer.UpdateCaseStudyOutcome` | supabase/functions/server/index.tsx:239-267 | 401 without the secret; 404 with no change when no truthy record exists; otherwise the record becomes existing overlaid by updates with `id` forced to the path id, written back at the same key |
| `KvServer.DeleteOutcome` | supabase/functions/server/index.tsx:270-292 | with the secret the key is gone and the answer is success even if it was absent; every other key is unchanged in every case |
| `KvServer.DeleteCaseStudyOutcome` | supabase/functions/server/index.tsx:270-292 | 401 without the secret; with it the answer is "Case study deleted" and reading the study back answers 404 |
| `KvServer.DeletePostOutcome` | supabase/functions/server/index.tsx:812-834 | 401 without the secret; with it the answer is "Blog post deleted" and reading the post back answers 404 |
| `KvServer.PutSettingsOutcome` | supabase/functions/server/index.tsx:333-352 | with the secret the body is stored and a later settings GET returns it (or the defaults when it is falsy); no other key changes |
| `KvServer.PostSectionsOutcome` | supabase/functions/server/index.tsx:443-467 | succeeds iff authorized and `sections` is an array; a later GET returns that array; a failure leaves the store as it was; no other key changes |
| `KvServer.CreatePostOutcome` | supabase/functions/server/index.tsx:718-762 | 401 without the secret; 400 "Slug is required" for an object without a truthy slug; for an object with a truthy slug, success iff no post with a different id has that slug, where the id is the body's own when truthy and the generated one otherwise; a success stores the body (with the generated id when it had none) at `blog_post:<id>`; a failure changes nothing |
| `KvServer.UpdatePostOutcome` | supabase/functions/server/index.tsx:765-809 | 401 without the secret; 404 when absent; success iff the slug is unchanged, falsy, or not used by another post; a success writes the merge with `id` preserved at the same key; a failure changes nothing |
| `KvServer.IdsDifferAtOtherKeys` | supabase/functions/server/index.tsx:738 | a post stored at a different key than the one a record's id gives has a different id, so the `p.id !== post.id` test excludes exactly the record being written |
| `KvServer.ReplacePostKeepsUniqueSlugs` | supabase/functions/server/index.tsx:736-749 | writing a post whose truthy slug no other post uses keeps slug uniqueness |
| `KvServer.CreatePostKeepsInvariants` | supabase/functions/server/index.tsx:718-762 | blog-post creation keeps id-keying and slug uniqueness |
| `KvServer.UpdatePostKeepsInvariants` | supabase/functions/server/index.tsx:765-809 | blog-post update keeps id-keying and slug uniqueness |
| `KvServer.CreateCaseStudyKeepsInvariants` | supabase/functions/server/index.tsx:209-236 | case-study creation keeps both invariants |
| `KvServer.UpdateCaseStudyKeepsInvariants` | supabase/functions/server/index.tsx:239-267 | case-study update keeps both invariants |
| `KvServer.DeleteKeepsInvariants` | supabase/functions/server/index.tsx:270-292 | deletion keeps both invariants |
| `KvServer.SingletonWritesKeepInvariants` | supabase/functions/server/index.tsx:333-352 | the settings and sections writes keep both invariants |
| `KvServer.RecordWrites` | supabase/functions/server/index.tsx:502-515 | the initialize loop makes one write per item, at the key that item's id gives |
| `KvServer.LeadingNonNull` | supabase/functions/server/index.tsx:502-515 | the loop gets through exactly the items before the first `null`, where reading `.id` throws |
| `KvServer.InitializeLoopsStore` | supabase/functions/server/index.tsx:502-574 | the store after initialize is the old store overridden by the study writes, then the post writes, then the settings step, stopping after the loop that hits a `null` |
| `KvServer.InitMessage` | supabase/functions/server/index.tsx:577-580 | the success message starts with "Initialized <n> case studies"; which of the two messages is chosen is stated by `InitMessageOfArray` and `InitMessageOfLengthField` |
| `KvServer.InitMessageOfArray` | supabase/functions/server/index.tsx:577-580 | for an array of posts the long message, with the array's length, appears exactly when the array is non-empty |
| `KvServer.InitMessageOfLengthField` | supabase/functions/server/index.tsx:577-580 | for an object with a `length` field the long message appears exactly when that field, converted to a number, is above 0, and it shows the field's own text as the count |
| `Json.GreaterThanZeroCoerces` | supabase/functions/server/index.tsx:578 | `> 0` converts first: the text "2" and `true` compare above 0, the texts " 0" and "-2" do not |
| `Json.DecimalTextPositive` | supabase/functions/server/index.tsx:578 | the decimal text of a count compares with 0 as the count itself does |
| `KvServer.SettleSettings` | supabase/functions/server/index.tsx:543-574 | afterwards the settings are truthy; truthy stored settings are kept as they are, otherwise the initial settings are written; no other key changes |
| `KvServer.InitializeLoops` | supabase/functions/server/index.tsx:502-585 | success iff neither list holds a `null`, with the given message; otherwise the 500 "Failed to initialize data" |
| `KvServer.InitializeOutcome` | supabase/functions/server/index.tsx:470-601 | 401 and no change without the secret; every answer other than success is an error; after a success the stored settings are truthy |
| `KvServer.InitializeWritesOnlyItsKeys` | supabase/functions/server/index.tsx:470-601 | initialize changes no key outside the two record families and `site_settings` |
| `KvServer.InitializeLoopsIdempotent` | supabase/functions/server/index.tsx:502-574 | running the loops and the settings step twice gives the store that running them once gives |
| `KvServer.InitializeIdempotent` | supabase/functions/server/index.tsx:470-601 | calling initialize twice with the same body and header leaves the same store as calling it once |
| `KvServer.InitializeValidation` | supabase/functions/server/index.tsx:486-494 | 401 without the secret; 400 with no writes when `caseStudies` is missing or not an array |
| `KvServer.InitializeLoopsEffects` | supabase/functions/server/index.tsx:502-574 | after a successful initialize every given study and post is stored at its id key, and the settings are the old ones if truthy, else the initial settings |
| `KvServer.InitializeSkipsSlugCheck` | supabase/functions/server/index.tsx:525-538 | initialize writes posts without the slug check, so two posts with the same slug can both end up stored |
| `KvServer.Server.constructor` | supabase/functions/server/index.tsx:6 | the server starts with an empty store that satisfies both invariants |
| `KvServer.Server.ScanPrefix` | supabase/functions/server/index.tsx:120 | `getByPrefix` visits each key with the prefix exactly once, in no particular order |
| `KvServer.Server.SlugInUse` | supabase/functions/server/index.tsx:736-741 | the scan finds a post with that slug and a different id iff one is stored |
| `KvServer.Server.ListCaseStudies` | supabase/functions/server/index.tsx:106-183 | the list holds exactly the stored case studies, one per key |
| `KvServer.Server.ListPublishedPosts` | supabase/functions/server/index.tsx:606-627 | the public list holds exactly the stored posts whose status is `"published"`, each once |
| `KvServer.Server.GetPostBySlug` | supabase/functions/server/index.tsx:630-658 | a post returned is stored, has that slug and is published; otherwise 404; with unique slugs, found iff a published post with that slug is stored |
| `KvServer.Server.AdminListPosts` | supabase/functions/server/index.tsx:661-688 | 401 without the secret; otherwise every stored post, once each, sorted by `updatedAt`, newest first |
| `KvServer.Server.CreateCaseStudy` | supabase/functions/server/index.tsx:209-236 | agrees with `CreateCaseStudyOutcome` and keeps id-keying |
| `KvServer.Server.UpdateCaseStudy` | supabase/functions/server/index.tsx:239-267 | agrees with `UpdateCaseStudyOutcome` and keeps id-keying |
| `KvServer.Server.DeleteCaseStudy` | supabase/functions/server/index.tsx:270-292 | agrees with `DeleteOutcome` on the study's key |
| `KvServer.Server.PutSettings` | supabase/functions/server/index.tsx:333-352 | agrees with `PutSettingsOutcome` |
| `KvServer.Server.PostHomepageSections` | supabase/functions/server/index.tsx:443-467 | agrees with `PostSectionsOutcome` |
| `KvServer.Server.CreatePost` | supabase/functions/server/index.tsx:718-762 | agrees with `CreatePostOutcome` and preserves slug uniqueness |
| `KvServer.Server.UpdatePost` | supabase/functions/server/index.tsx:765-809 | agrees with `UpdatePostOutcome` and preserves slug uniqueness |
| `KvServer.Server.DeletePost` | supabase/functions/server/index.tsx:812-834 | agrees with `DeleteOutcome` on the post's key and preserves slug uniqueness |
| `KvServer.Server.WriteRecords` | supabase/functions/server/index.tsx:502-515 | the loop writes the items before the first `null` in order, and reports completion iff there is no `null` |
| `KvServer.Server.Initialize` | supabase/functions/server/index.tsx:470-601 | agrees with the initialize specification and keeps id-keying |
| `Json.StrictEqIsEquality` | supabase/functions/server/index.tsx:738 | `===` on JSON values implies equality and is symmetric |
| `Json.Merge` | supabase/functions/server/index.tsx:252 | `{ ...existing, ...updates, id }` has `id` set to the path id, the union of both key sets, and the updates' value wherever updates has a key |
| `Json.MergeKeepsUnmentionedFields` | supabase/functions/server/index.tsx:252 | a field that updates does not mention keeps its existing value, or stays absent |
| `Json.MergedField` | supabase/functions/server/index.tsx:794 | each named field other than `id` of the merge reads as the update's field when present, else the existing one |
| `BlogData.BlogCategoriesComplete` | src/app/data/blogPosts.ts:22-37 | the category list has the six categories, each once |
| `BlogData.CategoryColor` | src/app/data/blogPosts.ts:980-989 | each colour is a `from-` gradient, and the grey one belongs to "Other" exactly |
| `BlogData.CategoryColorInjective` | src/app/data/blogPosts.ts:980-989 | distinct categories get distinct gradients and distinct names |
| `BlogData.SamplePostsDistinct` | src/app/data/blogPosts.ts:40-664 | the four sample posts have pairwise distinct ids and slugs |
| `BlogData.WordCount` | src/app/data/blogPosts.ts:965 | the piece count of the trimmed content split on whitespace runs is at least 1 |
| `BlogData.MinutesIsCeiling` | src/app/data/blogPosts.ts:966 | the minutes are the ceiling of words/200 |
| `BlogData.MinutesMonotone` | src/app/data/blogPosts.ts:964-966 | more words never give fewer minutes |
| `BlogData.ReadingTime` | src/app/data/blogPosts.ts:963-967 | reading time is at least 1 and equals ceil(word count / 200) |
| `BlogData.WordCountCountsWords` | src/app/data/blogPosts.ts:965 | for content that is not all whitespace every piece is a word; empty or all-whitespace content counts as one word, one minute |
| `BlogEditor.GenerateSlug` | src/app/pages/AdminBlogEditorPage.tsx:79-84 | the slug uses only `[a-z0-9-]`, has no leading, trailing or doubled `-`, and keeps exactly the lower-cased title's letters and digits in order |
| `BlogEditor.Collapse` | src/app/pages/AdminBlogEditorPage.tsx:82 | collapsing runs of other characters to one `-` never lengthens the text; where the dashes go is stated by `CollapseWordThenSeparator` |
| `BlogEditor.StripDashes` | src/app/pages/AdminBlogEditorPage.tsx:83 | text without a dash at either end is kept; a dash at both ends goes from both; at most two characters go |
| `BlogEditor.CollapseShape` | src/app/pages/AdminBlogEditorPage.tsx:82 | the collapsed text has only `[a-z0-9-]` and no doubled `-`, is empty only for empty input, and starts with `-` exactly when the input starts with a dropped character |
| `BlogEditor.CollapseWordThenSeparator` | src/app/pages/AdminBlogEditorPage.tsx:82 | a run of letters and digits is kept as it is, and the run of other characters after it, of any length, becomes exactly one `-` before the collapse of what follows |
| `BlogEditor.TwoWordSlug` | src/app/pages/AdminBlogEditorPage.tsx:79-84 | two words with any non-empty run of other characters between them give the lower-cased words joined by one `-` ("Hello,  World" gives "hello-world") |
| `BlogEditor.CollapseKeepsSlugChars` | src/app/pages/AdminBlogEditorPage.tsx:82 | collapsing keeps every letter and digit in order |
| `BlogEditor.StripDashesKeepsSlugChars` | src/app/pages/AdminBlogEditorPage.tsx:83 | trimming the outer dashes gives a slug with the same letters and digits |
| `BlogEditor.NoSlugCharsGiveEmptySlug` | src/app/pages/AdminBlogEditorPage.tsx:79-84 | a title with no letters or digits gives the empty slug |
| `BlogEditor.SlugIsFixedPoint` | src/app/pages/AdminBlogEditorPage.tsx:79-84 | a string that is already a slug is its own slug |
| `BlogEditor.GenerateSlugIdempotent` | src/app/pages/AdminBlogEditorPage.tsx:79-84 | generating a slug from a slug changes nothing |
| `BlogEditor.RemoveTag` | src/app/pages/AdminBlogEditorPage.tsx:104-108 | the tag is gone, every other tag stays, and a duplicate-free list stays duplicate-free |
| `Lists.FilterKeepsNoDup` | src/app/pages/AdminBlogEditorPage.tsx:104-108 | filtering a duplicate-free list (here the tags, without the removed one) keeps it duplicate-free |
| `BlogEditor.RemoveAddedTag` | src/app/pages/AdminBlogEditorPage.tsx:94-108 | removing a tag just added restores the list |
| `BlogEditor.SavePayload` | src/app/pages/AdminBlogEditorPage.tsx:116-127 | the payload has the computed reading time, `updatedAt` now, the requested status or else the current one, `publishedAt` reset to now exactly on draft to published, and every other field unchanged |
| `BlogEditor.SaveKeepsPublicationTime` | src/app/pages/AdminBlogEditorPage.tsx:122-125 | any save other than draft to published keeps `publishedAt` |
| `BlogEditor.SaveRequest` | src/app/pages/AdminBlogEditorPage.tsx:129-133 | a new post is POSTed to the collection, an existing one PUT to `/<id>`, with the payload as body |
| `BlogEditor.SavedStatus` | src/app/pages/AdminBlogEditorPage.tsx:120 | `status || post.status`: a non-empty requested status wins, otherwise the current one is kept |
| `BlogEditor.SaveAlert` | src/app/pages/AdminBlogEditorPage.tsx:145-157 | the alert is "created" or "updated" on an ok response by newness, "failed" on a non-ok response, and "error" on an exception or an ok response whose body is not JSON |
| `BlogEditor.Editor.constructor` | src/app/pages/AdminBlogEditorPage.tsx:29-48 | a new editor starts from the blank draft post, loading only for an existing id |
| `BlogEditor.Editor.FetchPost` | src/app/pages/AdminBlogEditorPage.tsx:56-77 | a fetched post replaces the form, and loading ends either way |
| `BlogEditor.Editor.HandleTitleChange` | src/app/pages/AdminBlogEditorPage.tsx:86-92 | the title changes; the slug is regenerated only for a new post; nothing else changes |
| `BlogEditor.Editor.HandleAddTag` | src/app/pages/AdminBlogEditorPage.tsx:94-101 | the trimmed input is appended and the input cleared only when it is non-empty and new; the tag list stays duplicate-free |
| `BlogEditor.Editor.HandleRemoveTag` | src/app/pages/AdminBlogEditorPage.tsx:104-108 | only the tag list changes, to the list without that tag |
| `BlogEditor.Editor.HandleSave` | src/app/pages/AdminBlogEditorPage.tsx:111-160 | sends the payload and request above, shows the alert `SaveAlert` gives (including "error" for an ok response whose body is not JSON), navigates to a new post's page only on an ok create that returned an id, and ends not saving |
| `AdminBlog.FilteredPosts` | src/app/pages/AdminBlogPage.tsx:157-160 | "all" keeps every post; any other filter keeps exactly the posts with that status |
| `AdminBlog.FilteredPostsConcat` | src/app/pages/AdminBlogPage.tsx:157-160 | filtering distributes over concatenation, so order is kept |
| `AdminBlog.PostStats` | src/app/pages/AdminBlogPage.tsx:162-166 | total is the list length; published plus drafts never exceeds it and equals it when every status is one of the two; what each count counts is fixed by `PostStatsConcat` and `PostStatsOne` |
| `AdminBlog.PostStatsConcat` | src/app/pages/AdminBlogPage.tsx:162-166 | each of the three counts of a concatenation is the sum of the counts of its parts |
| `AdminBlog.PostStatsOne` | src/app/pages/AdminBlogPage.tsx:164-165 | one post counts as published iff its status is "published" and as a draft iff it is "draft"; with `PostStatsConcat` the counts are the numbers of posts with those statuses |
| `AdminBlog.StatusCounts` | src/app/pages/AdminBlogPage.tsx:162-166 | the published and draft counts never exceed the total, and add up to it when every post is one of the two |
| `AdminBlog.RemovePost` | src/app/pages/AdminBlogPage.tsx:116 | the remaining posts are exactly those with a different id, never more than before; with `RemovePostConcat` this fixes order and repeats |
| `AdminBlog.RemovePostConcat` | src/app/pages/AdminBlogPage.tsx:116 | the removal distributes over `+`, so the remaining posts keep their order and their repeats |
| `AdminBlog.NewStatus` | src/app/pages/AdminBlogPage.tsx:128 | a published post becomes draft and anything else becomes published |
| `AdminBlog.NewStatusInvolution` | src/app/pages/AdminBlogPage.tsx:128 | toggling a draft or published status twice restores it |
| `AdminBlog.SetStatus` | src/app/pages/AdminBlogPage.tsx:146-150 | only posts with that id change, and only in status |
| `AdminBlog.SetStatusAbsent` | src/app/pages/AdminBlogPage.tsx:146-150 | an id not in the list changes nothing |
| `AdminBlog.SampleIds` | src/app/pages/AdminBlogPage.tsx:63 | the first n samples are sent in order |
| `AdminBlog.AdminBlogPage.constructor` | src/app/pages/AdminBlogPage.tsx:22-26 | the page starts empty, loading, with filter "all" |
| `AdminBlog.AdminBlogPage.FetchPosts` | src/app/pages/AdminBlogPage.tsx:32-53 | a fetched list replaces the posts, and loading ends either way |
| `AdminBlog.AdminBlogPage.HandleDelete` | src/app/pages/AdminBlogPage.tsx:97-125 | after confirmation, an ok response removes the posts with that id and shows success; a failure or an exception keeps the list and shows the matching alert; no confirmation changes nothing |
| `AdminBlog.AdminBlogPage.HandleToggleStatus` | src/app/pages/AdminBlogPage.tsx:127-155 | sends the post with the flipped status; only an ok response updates the local list, and only that post |
| `AdminBlog.AdminBlogPage.HandleInitializePosts` | src/app/pages/AdminBlogPage.tsx:55-95 | samples are posted in order; the loop stops after the first post whose response is not ok, with "Error: Failed to save post: <title>", or whose `fetch` throws, with "Error: <message>", and initializing ends; otherwise all four are sent and the success banner is shown |
| `AdminBlog.AdminBlogPage.FinishInitialization` | src/app/pages/AdminBlogPage.tsx:85-89 | the delayed reload refetches and clears the initializing state and message |
| `Thoughts.PublishedOnly` | src/app/pages/ThoughtsPage.tsx:45-48 | exactly the published posts are kept, never more than the list; order and repeats are fixed by `PublishedOnlyConcat` |
| `Thoughts.PublishedOnlyConcat` | src/app/pages/ThoughtsPage.tsx:45-48 | keeping the published posts distributes over `+` |
| `Thoughts.SomeTagIncludes` | src/app/pages/ThoughtsPage.tsx:72 | true iff some lower-cased tag contains the query |
| `Thoughts.Matching` | src/app/pages/ThoughtsPage.tsx:58-74 | exactly the posts in the category ("All" meaning any) whose title, description or a tag contains the lower-cased query, never more than the list; with `MatchingConcat` this fixes order and repeats |
| `Thoughts.MatchingConcat` | src/app/pages/ThoughtsPage.tsx:58-74 | both filters distribute over `+`, so the matching posts keep the list's order and each appears as often as in the list |
| `Thoughts.MatchingEverything` | src/app/pages/ThoughtsPage.tsx:61-66 | category "All" with an empty query keeps every post in order |
| `Thoughts.FilterPosts` | src/app/pages/ThoughtsPage.tsx:57-83 | the result is a permutation of the matching posts, sorted by `publishedAt`, newest first |
| `Thoughts.FilterPostsMembers` | src/app/pages/ThoughtsPage.tsx:58-74 | a post is shown iff it is in the list and matches both the category and the query |
| `Thoughts.FeaturedPosts` | src/app/pages/ThoughtsPage.tsx:85 | exactly the featured posts |
| `Thoughts.RegularPosts` | src/app/pages/ThoughtsPage.tsx:86 | exactly the non-featured posts |
| `Thoughts.FeaturedRegularSplit` | src/app/pages/ThoughtsPage.tsx:85-86 | the two lists are disjoint, together are the whole list, and both stay sorted |
| `Thoughts.ThoughtsPage.constructor` | src/app/pages/ThoughtsPage.tsx:17-21 | the page starts empty, loading, with no query and category "All" |
| `Thoughts.ThoughtsPage.Refilter` | src/app/pages/ThoughtsPage.tsx:28-30 | recomputes the shown list from the posts, the query and the category |
| `Thoughts.ThoughtsPage.FetchPosts` | src/app/pages/ThoughtsPage.tsx:32-55 | a fetched list is kept filtered to its published posts, and loading ends either way |
| `Thoughts.ThoughtsPage.SetSearchQuery` | src/app/pages/ThoughtsPage.tsx:20 | sets the query; the shown list follows |
| `Thoughts.ThoughtsPage.SetCategory` | src/app/pages/ThoughtsPage.tsx:21 | sets the category; the shown list follows |
| `BlogPostView.StorageKey` | src/app/pages/BlogPostPage.tsx:95 | the session key is `blog_post_` followed by the id |
| `BlogPostView.StorageKeyInjective` | src/app/pages/BlogPostPage.tsx:63-65 | different ids use different session keys |
| `BlogPostView.Decide` | src/app/pages/BlogPostPage.tsx:51-80 | an unsuccessful or unpublished answer goes back to the list; a published post is shown iff it is unprotected or the stored password matches |
| `BlogPostView.Render` | src/app/pages/BlogPostPage.tsx:129-206 | spinner while loading; the prompt iff a password is required and a post is set; blank without a post; the article otherwise |
| `BlogPostView.FetchAsWritten` | src/app/pages/BlogPostPage.tsx:61-74 | a shown post is set; a protected post without a stored password only raises `passwordRequired`, leaving the post unset |
| `BlogPostView.FetchCorrected` | src/app/pages/BlogPostPage.tsx:61-74 | as above, but a protected post is also set, so the prompt can render |
| `BlogPostView.PromptNeverShownAsWritten` | src/app/pages/BlogPostPage.tsx:138 | after the first fetch from the initial state the prompt never renders, and a protected post without a stored password renders blank |
| `BlogPostView.BlankPageExample` | src/app/pages/BlogPostPage.tsx:204-206 | a fresh visit to any published protected post renders blank |
| `BlogPostView.CorrectedGate` | src/app/pages/BlogPostPage.tsx:129-206 | with the corrected fetch the article shows iff the post may be shown, the prompt iff it asks for a password, and blank iff it goes back to the list |
| `BlogPostView.StoredPasswordUnlocks` | src/app/pages/BlogPostPage.tsx:63-68 | after the right password is stored under the post's key, the post is shown |
| `BlogPostView.BlogPostPage.Screen` | src/app/pages/BlogPostPage.tsx:129-206 | the screen is the render of the page's state |
| `BlogPostView.BlogPostPage.constructor` | src/app/pages/BlogPostPage.tsx:26-30 | the page starts loading, with no post, no prompt and no error |
| `BlogPostView.BlogPostPage.FetchPost` | src/app/pages/BlogPostPage.tsx:39-84 | the state follows the as-written fetch, goes to `/thoughts` exactly on that decision, and loading ends |
| `BlogPostView.BlogPostPage.FetchPostCorrected` | src/app/pages/BlogPostPage.tsx:39-84 | the same with the corrected fetch |
| `BlogPostView.BlogPostPage.HandlePasswordSubmit` | src/app/pages/BlogPostPage.tsx:86-101 | does nothing without a post; the right password is stored under the post's key, unlocks it and clears the prompt and input; a wrong one sets the error |
| `HomepageSections.DefaultSectionsShape` | src/app/hooks/useHomepageSections.ts:20-76 | eight sections with the server's ids, orders 1..8, all visible, distinct ids, and only "stats" carries data, its three stats |
| `HomepageSections.Loaded` | src/app/hooks/useHomepageSections.ts:88-101 | stored sections load as stored; nothing stored or unparseable gives the defaults |
| `HomepageSections.SectionConfig` | src/app/hooks/useHomepageSections.ts:115-117 | the first section with that id, or none iff no section has it |
| `HomepageSections.SectionVisible` | src/app/hooks/useHomepageSections.ts:119-122 | true for an unknown id, otherwise that section's `isVisible` |
| `HomepageSections.DefaultsAllVisible` | src/app/hooks/useHomepageSections.ts:20-76 | with the defaults every id is visible |
| `HomepageSections.SectionStore.constructor` | src/app/hooks/useHomepageSections.ts:81-82 | the hook starts empty and loading |
| `HomepageSections.SectionStore.LoadSections` | src/app/hooks/useHomepageSections.ts:88-101 | loads the stored sections or the defaults and ends loading |
| `HomepageSections.SectionStore.SaveSections` | src/app/hooks/useHomepageSections.ts:104-113 | returns true iff storage accepts the write; then storage and state hold the new sections, otherwise nothing changes |
| `HomepageSections.SaveThenLoad` | src/app/hooks/useHomepageSections.ts:88-109 | a successful save followed by a load yields the saved sections |
| `AdminHomepage.WithField` | src/app/pages/AdminHomepagePage.tsx:28 | sets exactly the named field of a stat |
| `AdminHomepage.MapMatching` | src/app/pages/AdminHomepagePage.tsx:18-20 | applies the update to the sections with that id and keeps the others |
| `AdminHomepage.ToggleVisibility` | src/app/pages/AdminHomepagePage.tsx:17-21 | same length; `isVisible` flips exactly on sections with that id; every other field is kept |
| `AdminHomepage.ToggleTwice` | src/app/pages/AdminHomepagePage.tsx:17-21 | toggling twice restores the list |
| `AdminHomepage.ToggleKeepsOtherVisibility` | src/app/pages/AdminHomepagePage.tsx:17-21 | toggling one id changes neither the config nor the visibility of another |
| `AdminHomepage.WithStats` | src/app/pages/AdminHomepagePage.tsx:29-30 | replaces the stats and keeps the rest of the section and its data |
| `AdminHomepage.UpdateStatValue` | src/app/pages/AdminHomepagePage.tsx:23-34 | only field f of stat i changes, in matching sections with stats; everything else is unchanged |
| `AdminHomepage.AddStat` | src/app/pages/AdminHomepagePage.tsx:36-47 | matching sections get `{Star, 0, New Stat}` appended to their stats, created when absent; others are unchanged |
| `AdminHomepage.RemoveStat` | src/app/pages/AdminHomepagePage.tsx:49-59 | matching sections with stats lose exactly stat i; the others are untouched |
| `AdminHomepage.AddThenRemoveStat` | src/app/pages/AdminHomepagePage.tsx:36-59 | removing the stat just added restores the stats |
| `AdminHomepage.AddStatCount` | src/app/pages/AdminHomepagePage.tsx:36-47 | adding grows the stat count by exactly one |
| `AdminHomepage.AdminHomepagePage.constructor` | src/app/pages/AdminHomepagePage.tsx:7-14 | the page starts from the hook's sections, not saving, with no message |
| `AdminHomepage.AdminHomepagePage.HandleToggleVisibility` | src/app/pages/AdminHomepagePage.tsx:17-21 | the sections become the toggled list |
| `AdminHomepage.AdminHomepagePage.HandleAddStat` | src/app/pages/AdminHomepagePage.tsx:36-47 | the sections become the list with the stat added |
| `AdminHomepage.AdminHomepagePage.HandleRemoveStat` | src/app/pages/AdminHomepagePage.tsx:49-59 | the sections become the list with the stat removed |
| `AdminHomepage.AdminHomepagePage.HandleUpdateStatValue` | src/app/pages/AdminHomepagePage.tsx:23-34 | the sections become the list with the stat field set |
| `AdminHomepage.AdminHomepagePage.HandleSave` | src/app/pages/AdminHomepagePage.tsx:61-82 | the success message iff the save succeeded, and the sections are then stored; otherwise the error message; not saving afterwards |
| `CaseStudies.BlankStudy` | src/app/pages/AdminCaseStudyEditorPage.tsx:19-43 | a study with the given id and year and every list and text empty |
| `CaseStudies.TrimAll` | src/app/pages/AdminCaseStudyEditorPage.tsx:424 | trims each piece |
| `CaseStudies.ParseListDropEmpty` | src/app/pages/AdminCaseStudyEditorPage.tsx:424 | the pieces are non-empty, trimmed and comma-free |
| `CaseStudies.ParseListKeepEmpty` | src/app/pages/AdminDashboardPage.tsx:502 | one trimmed piece per comma plus one |
| `CaseStudies.ParseJoinRoundTrip` | src/app/pages/AdminCaseStudyEditorPage.tsx:418-424 | joining with ", " and parsing back gives the list, for non-empty, trimmed, comma-free items |
| `CaseStudies.DropEmptyFiltersKeepEmpty` | src/app/pages/AdminDashboardPage.tsx:568 | the dropping parser is the keeping parser with the empty pieces filtered out |
| `CaseStudies.EmptyInputDiffers` | src/app/pages/AdminDashboardPage.tsx:502 | on empty input the two editors disagree: `[""]` against `[]` |
| `CaseStudies.AddProcessStep` | src/app/pages/AdminCaseStudyEditorPage.tsx:100-105 | appends one empty step; nothing else changes |
| `CaseStudies.RemoveProcessStep` | src/app/pages/AdminCaseStudyEditorPage.tsx:107-112 | deletes exactly step i, keeping order; an index out of range changes nothing |
| `CaseStudies.AddResult` | src/app/pages/AdminCaseStudyEditorPage.tsx:114-119 | appends one empty result; nothing else changes |
| `CaseStudies.RemoveResult` | src/app/pages/AdminCaseStudyEditorPage.tsx:121-126 | deletes exactly result i, keeping order; an index out of range changes nothing |
| `CaseStudies.AddThenRemoveProcessStep` | src/app/pages/AdminCaseStudyEditorPage.tsx:100-112 | removing the step just added restores the study |
| `CaseStudies.AddThenRemoveResult` | src/app/pages/AdminCaseStudyEditorPage.tsx:114-126 | removing the result just added restores the study |
| `CaseStudies.EditProcessStep` | src/app/pages/AdminCaseStudyEditorPage.tsx:533-537 | sets one field of step i; the other steps and fields are unchanged |
| `CaseStudies.EditResult` | src/app/pages/AdminCaseStudyEditorPage.tsx:595-599 | sets one field of result i; the other results and fields are unchanged |
| `CaseStudies.SetPasswordProtection` | src/app/pages/AdminCaseStudyEditorPage.tsx:333-337 | ticking keeps the password and unticking clears it; nothing else changes |
| `CaseStudies.UntickLosesPassword` | src/app/pages/AdminCaseStudyEditorPage.tsx:333-337 | unticking and re-ticking loses the password |
| `CaseStudies.EditTestimonial` | src/app/pages/AdminDashboardPage.tsx:708-755 | sets the edited field and keeps the other two, defaulting them to `""` |
| `CaseStudyEditor.SaveAlert` | src/app/pages/AdminCaseStudyEditorPage.tsx:84-95 | the success text; the server's error or "Unknown error" on refusal; the generic failure on an exception |
| `CaseStudyEditor.EditorPage.constructor` | src/app/pages/AdminCaseStudyEditorPage.tsx:12-43 | a blank form with the current year, loading unless the route id is "new" |
| `CaseStudyEditor.EditorPage.FetchCaseStudy` | src/app/pages/AdminCaseStudyEditorPage.tsx:45-64 | a fetched study replaces the form, and loading ends |
| `CaseStudyEditor.EditorPage.SetId` | src/app/pages/AdminCaseStudyEditorPage.tsx:207-211 | the id changes only for a new study |
| `CaseStudyEditor.EditorPage.SetTools` | src/app/pages/AdminCaseStudyEditorPage.tsx:418-424 | tools are the parsed list, with no empty entries |
| `CaseStudyEditor.EditorPage.SetImages` | src/app/pages/AdminCaseStudyEditorPage.tsx:486-490 | images are the parsed list, with no empty entries |
| `CaseStudyEditor.EditorPage.HandleAddProcessStep` | src/app/pages/AdminCaseStudyEditorPage.tsx:100-105 | the form gains one empty step |
| `CaseStudyEditor.EditorPage.HandleRemoveProcessStep` | src/app/pages/AdminCaseStudyEditorPage.tsx:107-112 | the form loses step i |
| `CaseStudyEditor.EditorPage.HandleAddResult` | src/app/pages/AdminCaseStudyEditorPage.tsx:114-119 | the form gains one empty result |
| `CaseStudyEditor.EditorPage.HandleRemoveResult` | src/app/pages/AdminCaseStudyEditorPage.tsx:121-126 | the form loses result i |
| `CaseStudyEditor.EditorPage.HandleProcessStepChange` | src/app/pages/AdminCaseStudyEditorPage.tsx:533-537 | one field of step i is set |
| `CaseStudyEditor.EditorPage.HandleResultChange` | src/app/pages/AdminCaseStudyEditorPage.tsx:595-599 | one field of result i is set |
| `CaseStudyEditor.EditorPage.HandlePasswordToggle` | src/app/pages/AdminCaseStudyEditorPage.tsx:333-337 | the form's protection follows the box, clearing the password when unticked |
| `CaseStudyEditor.EditorPage.HandleSubmit` | src/app/pages/AdminCaseStudyEditorPage.tsx:66-98 | always POSTs the whole form to the collection, new or not; shows the matching alert and returns to the list only on success |
| `AdminDashboard.NewStudy` | src/app/pages/AdminDashboardPage.tsx:170-188 | id `case-study-<now>`, the current year, and empty process, images, results and tools |
| `AdminDashboard.Dashboard.constructor` | src/app/pages/AdminDashboardPage.tsx:11-14 | starts empty, loading, not editing |
| `AdminDashboard.Dashboard.FetchCaseStudies` | src/app/pages/AdminDashboardPage.tsx:28-47 | a fetched list replaces the studies, and loading ends |
| `AdminDashboard.Dashboard.Mount` | src/app/pages/AdminDashboardPage.tsx:19-26 | without a token it goes to the login page; with one it loads the studies |
| `AdminDashboard.Dashboard.HandleLogout` | src/app/pages/AdminDashboardPage.tsx:49-52 | the token is removed and it goes to the login page |
| `AdminDashboard.Dashboard.HandleEdit` | src/app/pages/AdminDashboardPage.tsx:54-57 | the study is selected and the editor shows |
| `AdminDashboard.Dashboard.HandleNew` | src/app/pages/AdminDashboardPage.tsx:168-189 | the new default study is selected and the editor shows |
| `AdminDashboard.Dashboard.HandleCancel` | src/app/pages/AdminDashboardPage.tsx:124-127 | editing ends and the selection is cleared |
| `AdminDashboard.Dashboard.HandleSave` | src/app/pages/AdminDashboardPage.tsx:84-109 | POSTs the study; an ok response closes the editor, clears the selection and refetches; an exception alerts; a non-ok response changes nothing |
| `AdminDashboard.Dashboard.HandleDelete` | src/app/pages/AdminDashboardPage.tsx:59-82 | after confirmation, an ok response refetches; an exception alerts; otherwise nothing changes |
| `AdminDashboard.InlineEditor.constructor` | src/app/pages/AdminDashboardPage.tsx:271 | the form starts as the given study |
| `AdminDashboard.InlineEditor.SetTools` | src/app/pages/AdminDashboardPage.tsx:502 | tools are the comma pieces trimmed, empties kept: comma count plus one entries |
| `AdminDashboard.InlineEditor.SetImages` | src/app/pages/AdminDashboardPage.tsx:568 | images are the parsed list, with no empty entries |
| `AdminDashboard.InlineEditor.HandleAddProcessStep` | src/app/pages/AdminDashboardPage.tsx:279-284 | the form gains one empty step |
| `AdminDashboard.InlineEditor.HandleRemoveProcessStep` | src/app/pages/AdminDashboardPage.tsx:286-291 | the form loses step i |
| `AdminDashboard.InlineEditor.HandleAddResult` | src/app/pages/AdminDashboardPage.tsx:293-298 | the form gains one empty result |
| `AdminDashboard.InlineEditor.HandleRemoveResult` | src/app/pages/AdminDashboardPage.tsx:300-305 | the form loses result i |
| `AdminDashboard.InlineEditor.HandleProcessStepChange` | src/app/pages/AdminDashboardPage.tsx:611-615 | one field of step i is set |
| `AdminDashboard.InlineEditor.HandleResultChange` | src/app/pages/AdminDashboardPage.tsx:674-678 | one field of result i is set |
| `AdminDashboard.InlineEditor.HandleTestimonialChange` | src/app/pages/AdminDashboardPage.tsx:708-755 | the testimonial gets the edited field, keeping the other two |
| `AdminDashboard.InlineEditor.HandleSubmit` | src/app/pages/AdminDashboardPage.tsx:274-277 | hands the form as it stands to the save handler |
| `AdminSettings.SaveToast` | src/app/pages/AdminSettingsPage.tsx:107-116 | the success toast iff the response was ok, otherwise the error toast |
| `AdminSettings.AddTypingText` | src/app/pages/AdminSettingsPage.tsx:430-432 | appends `""`, a missing list counting as empty |
| `AdminSettings.RemoveTypingText` | src/app/pages/AdminSettingsPage.tsx:415-417 | deletes exactly index i; an index out of range changes nothing |
| `AdminSettings.AddThenRemoveTypingText` | src/app/pages/AdminSettingsPage.tsx:415-432 | removing the text just added restores the list |
| `AdminSettings.SettingsPage.constructor` | src/app/pages/AdminSettingsPage.tsx:35-60 | the form starts blank and loading |
| `AdminSettings.SettingsPage.FetchSettings` | src/app/pages/AdminSettingsPage.tsx:66-85 | fetched settings replace the form, and loading ends |
| `AdminSettings.SettingsPage.SetExpertise` | src/app/pages/AdminSettingsPage.tsx:517-522 | the expertise is the comma list trimmed with empties dropped |
| `AdminSettings.SettingsPage.HandleTypingTextChange` | src/app/pages/AdminSettingsPage.tsx:404-407 | replaces only text i, keeping the length |
| `AdminSettings.SettingsPage.HandleRemoveTypingText` | src/app/pages/AdminSettingsPage.tsx:415-417 | the texts lose index i |
| `AdminSettings.SettingsPage.HandleAddTypingText` | src/app/pages/AdminSettingsPage.tsx:430-432 | the texts gain `""` |
| `AdminSettings.SettingsPage.HandleSave` | src/app/pages/AdminSettingsPage.tsx:87-120 | sends the form; `saved` iff the response was ok; the matching toast; not saving afterwards in every case |
| `AdminSettings.SettingsPage.ClearSaved` | src/app/pages/AdminSettingsPage.tsx:109 | the timer clears `saved` and nothing else |
| `PageMeta.SiteTitle` | src/app/hooks/usePageMeta.ts:9-10 | `siteTitle` if non-empty, else `siteName` if non-empty, else "Portfolio"; never empty |
| `PageMeta.DocumentTitle` | src/app/hooks/usePageMeta.ts:12-16 | `page + " \| " + site` for a non-empty page title, the site title alone otherwise |
| `PageMeta.FaviconLinksAreIconLinks` | src/app/hooks/usePageMeta.ts:21-35 | both added links match `rel*='icon'`, so a later run removes them |
| `PageMeta.Document.constructor` | src/app/hooks/usePageMeta.ts:4 | a document with the given title and links |
| `PageMeta.Document.RemoveIconLinks` | src/app/hooks/usePageMeta.ts:21-22 | removes every icon link and keeps the others in order |
| `PageMeta.Document.Apply` | src/app/hooks/usePageMeta.ts:7-37 | sets the composed title; with a favicon URL the icon links are replaced by the `icon` and `apple-touch-icon` links to it; otherwise the links are untouched |
| `PageMeta.ReplacedIconLinks` | src/app/hooks/usePageMeta.ts:19-36 | after a replacement the icon links are exactly the two new ones, and the other links are kept in order |
| `PageMeta.ReplaceIdempotent` | src/app/hooks/usePageMeta.ts:19-36 | replacing twice gives the same links as replacing once |
| `CaseStudyHooks.Bundled` | src/app/data/caseStudies.ts:35-235 | a bundled study with the given id, title, category and year, not protected |
| `CaseStudyHooks.DefaultCaseStudiesShape` | src/app/data/caseStudies.ts:35-235 | four bundled studies with distinct ids, none protected |
| `CaseStudyHooks.StudyHasId` | src/app/hooks/useCaseStudies.ts:102 | the test holds iff the id matches |
| `CaseStudyHooks.Lookup` | src/app/hooks/useCaseStudies.ts:110 | a study with that id from the list, or none iff no study has it |
| `CaseStudyHooks.LookupDistinct` | src/app/hooks/useCaseStudies.ts:102 | with distinct ids, looking up an entry's id finds that entry |
| `CaseStudyHooks.LookupBundled` | src/app/hooks/useCaseStudies.ts:110 | every bundled study can be found by its id |
| `CaseStudyHooks.ListError` | src/app/hooks/useCaseStudies.ts:59-65 | the body's error when truthy, else "Failed to load case studies" |
| `CaseStudyHooks.CaseStudiesHook.constructor` | src/app/hooks/useCaseStudies.ts:7-10 | the hook starts empty, loading, without error |
| `CaseStudyHooks.CaseStudiesHook.FetchCaseStudies` | src/app/hooks/useCaseStudies.ts:16-72 | a successful body sets the list, even an empty one; any other outcome sets the error and the four bundled studies; loading ends |
| `CaseStudyHooks.Resolve` | src/app/hooks/useCaseStudies.ts:102-111 | the database's study with the id, else the bundled one, else none iff neither has it |
| `CaseStudyHooks.ResolveFallsBack` | src/app/hooks/useCaseStudies.ts:109-111 | a database without the id still yields the bundled study |
| `CaseStudyHooks.CaseStudyHook.constructor` | src/app/hooks/useCaseStudies.ts:77-80 | the hook starts with no study, loading, without error |
| `CaseStudyHooks.CaseStudyHook.FetchCaseStudy` | src/app/hooks/useCaseStudies.ts:86-126 | success resolves as above; `success: false` sets the error with no fallback; an exception sets the error and uses the bundled study; loading ends |
| `CaseStudyView.NextStudy` | src/app/pages/CaseStudyPage.tsx:14-15 | none iff the list is empty; the study after the current one, wrapping to the first; the first when the id is not found |
| `CaseStudyView.WrapAround` | src/app/pages/CaseStudyPage.tsx:15 | `(i + 1) % n` is i+1 below n and 0 at n |
| `CaseStudyView.NextStudySingleton` | src/app/pages/CaseStudyPage.tsx:15 | a one-study list links back to that study |
| `CaseStudyView.NextStudyMovesOn` | src/app/pages/CaseStudyPage.tsx:14-15 | with two or more distinct ids the link never points at the current study |
| `CaseStudyView.ScreenOf` | src/app/pages/CaseStudyPage.tsx:33-66 | content iff loaded and unprotected or unlocked; the prompt iff protected and locked; not found iff no study |
| `CaseStudyView.CaseStudyPage.constructor` | src/app/pages/CaseStudyPage.tsx:10-18 | the page starts loading, locked, without error |
| `CaseStudyView.CaseStudyPage.ReceiveStudy` | src/app/pages/CaseStudyPage.tsx:12 | the single-study hook delivers its study and loading ends |
| `CaseStudyView.CaseStudyPage.ReceiveList` | src/app/pages/CaseStudyPage.tsx:13 | the list hook delivers its list |
| `CaseStudyView.CaseStudyPage.HandlePasswordSubmit` | src/app/pages/CaseStudyPage.tsx:20-27 | unlocks iff a study is loaded and the input equals its password; the error is set exactly when it does not match |
| `CaseStudyView.CaseStudyPage.HandleCancel` | src/app/pages/CaseStudyPage.tsx:29-31 | navigates home and changes nothing else |
| `CaseStudyView.CaseStudyPage.RouteChangeAsWritten` | src/app/pages/CaseStudyPage.tsx:10-18 | a new route id keeps the page's unlock flag and error |
| `CaseStudyView.CaseStudyPage.RouteChangeCorrected` | src/app/pages/CaseStudyPage.tsx:17-18 | a new route id locks the page again and clears the error |
| `CaseStudyView.OpenNextAsWritten` | src/app/pages/CaseStudyPage.tsx:55 | unlocking protected study a and moving to protected study b shows b's content without a prompt |
| `CaseStudyView.OpenNextCorrected` | src/app/pages/CaseStudyPage.tsx:55 | with the reset, the same steps end at b's password prompt, with no error |
| `WorkPage.CategoriesOf` | src/app/pages/WorkPage.tsx:25 | the studies' categories, in list order |
| `WorkPage.Categories` | src/app/pages/WorkPage.tsx:25 | "All" first, then every study category exactly once, and nothing else |
| `WorkPage.CategoriesNoDup` | src/app/pages/WorkPage.tsx:25 | the buttons are distinct iff no study's category is literally "All" |
| `WorkPage.CategoriesFirstAppearanceOrder` | src/app/pages/WorkPage.tsx:25 | an earlier button's category appears in the studies before any study of a later button's category |
| `WorkPage.FilteredStudies` | src/app/pages/WorkPage.tsx:28-30 | "All" shows every study in order; another category shows exactly the studies with it, never more than the list; with `FilteredStudiesConcat` this fixes order and repeats |
| `WorkPage.FilteredStudiesConcat` | src/app/pages/WorkPage.tsx:28-30 | the filter distributes over `+`, so the shown studies keep the list's order and repeats |
| `WorkPage.EveryCategorySelectsSome` | src/app/pages/WorkPage.tsx:25-30 | every category button taken from the data shows at least one study |
| `WorkPage.CountNoun` | src/app/pages/WorkPage.tsx:100 | "project" iff exactly one study is shown |
| `WorkPage.WorkView.constructor` | src/app/pages/WorkPage.tsx:11 | the page opens on "All", which shows every study |
| `WorkPage.WorkView.SelectCategory` | src/app/pages/WorkPage.tsx:11 | a button selects its category |
| `WorkPage.WorkView.Shown` | src/app/pages/WorkPage.tsx:28-30 | with "All" selected every study is shown in order; otherwise exactly the studies of the selected category, never more than the list |
| `WorkPage.ShownConcat` | src/app/pages/WorkPage.tsx:28-30 | what a view shows for two lists joined is what it shows for each, in order |

## Left out

- The health route, the Hono router, CORS, the logger, `Deno.serve` and console output are not modelled. The `kv_store.tsx` implementation is not part of this model: the store is a map, and a prefix scan returns its keys in an arbitrary order.
- Network calls become parameters. Each `fetch` is replaced by its outcome (an ok flag, a body or an exception) passed in. The clock, `crypto.randomUUID`, `confirm()`, `localStorage` and `sessionStorage` become parameters or fields.
- `KvServer.Server.GetPostBySlug`: when two published posts share a slug, which one `find` returns depends on the scan order. The contract therefore says only that the returned post has the slug and is published.
- `KvServer.InitializeSkipsSlugCheck`: the initialize handler writes blog posts without the slug check that the create handler makes. This is modelled as written and stated as a property; the model does not correct it.
- A 500 from a thrown exception inside a handler is modelled only where the model can see the cause: a `null` body, or a `null` list entry in initialize. Failures of the store itself are not modelled.
- `KvServer.InitMessage`: a text `length` counts as above 0 only when, after ASCII whitespace is trimmed, it is a run of decimal digits with an optional leading `+` and some digit other than `0`. Texts such as "1.5", "1e2", "0x10" or "Infinity", which JavaScript also reads as positive, and whitespace outside ASCII are not modelled, so those take the short message in the model.
- JSON numbers are unbounded integers (`Json.Value.Num`). Fractions, `NaN`, infinities and the exponent text that `${id}` gives for numbers of 1e21 or more are not represented.
- Dates are integer timestamps. Parsing an ISO string, and the `NaN` an unparseable date gives, are not modelled. `formatBlogDate` is locale formatting and is left out.
- Text is ASCII. `toLowerCase` and the regular expression `\s` are modelled over ASCII letters and spaces; Unicode case mapping and Unicode spaces are not.
- `Lists.SortByKeyDesc` is not proved stable. The source's `Array.prototype.sort` is stable; the model proves only that the result is sorted and is a permutation.
- `HomepageSections.Loaded`: stored text is modelled as either a written list of sections or unparseable text. Text that parses as JSON but is not a list of sections is not modelled.
- `AdminHomepage.UpdateStatValue`: an index past the end leaves the stats unchanged. JavaScript would extend the array with holes.
- `CaseStudies.EditProcessStep`: an index past the end leaves the list unchanged. JavaScript would throw on `newProcess[index].title`.
- `CaseStudies.EditResult`: an index past the end leaves the list unchanged. JavaScript would throw.
- `AdminSettings.SettingsPage.HandleTypingTextChange`: an index past the end leaves the list unchanged. JavaScript would extend the array.
- The process and result edits copy the array but write into the shared element objects. Aliasing of those objects between the old and new state is not modelled; the model writes a new value.
- `BlogPostView.BlogPostPage` does not model the effect that runs only when a `slug` route parameter is present. A missing slug leaves the page loading forever; that case is not represented.
- Markdown rendering, share URLs and clipboard access on the blog post page are left out.
- A refetch after a successful save or delete is modelled as an immediate second outcome passed in. The 1.5-second delay in blog initialization is modelled as a separate `FinishInitialization` step.
- `CaseStudyHooks.Bundled`: of the bundled case studies' texts, only id, title, subtitle, category and year are copied. Their long descriptions, process steps and results are left blank.
- The cache-busting query string on the case-study request is left out.
- The case-study page's layout and the password prompt component are view code; only the state the page keeps is modelled.

## Findings

| source | as written | input that shows it | evidently intended | confidence | as-written member | corrected member |
|---|---|---|---|---|---|---|
| src/app/pages/BlogPostPage.tsx:69-71 | a protected post without a stored password sets `passwordRequired` but leaves `post` null; the prompt branch needs `post` (line 138), so the page returns null | any published post with `passwordProtected: true`, visited with empty session storage | the post is kept, so that the password prompt renders | not executed | `BlogPostView.PromptNeverShownAsWritten` | `BlogPostView.CorrectedGate` |
| src/app/pages/CaseStudyPage.tsx:17 | `isUnlocked` is page state that a change of the `:id` route parameter does not reset, so the gate at line 55 stays open | unlock protected study A, then follow the "next" link to protected study B | each study asks for its own password | not executed | `CaseStudyView.OpenNextAsWritten` | `CaseStudyView.OpenNextCorrected` |
