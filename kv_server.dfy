/**
 * The serverless resource API over a key-value store (supabase/functions/server/index.tsx).
 *
 * The store maps string keys to JSON values. Case studies live under `case_study:<id>`,
 * blog posts under `blog_post:<id>`, and the two singletons under `site_settings` and
 * `homepage_sections`. Every write handler is specified by a function from the old
 * store to an `Outcome` (response and new store); the `Server` class runs the handlers
 * against its store field and is proved to agree with those functions.
 */
module KvServer {
  import opened Wrappers
  import opened Text
  import opened Lists
  import opened Json

  const AdminPassword: string := "enricoadminpass"
  const CaseStudyPrefix: string := "case_study:"
  const BlogPostPrefix: string := "blog_post:"
  const SettingsKey: string := "site_settings"
  const SectionsKey: string := "homepage_sections"

  type Store = map<string, Value>

  /** The JSON reply of a handler. */
  datatype Response =
    | Ok(data: Value)                // { success: true, data }
    | Done(message: string)          // { success: true, message }, and the admin test reply
    | LoggedIn(token: string)        // { success: true, token, message: "Login successful" }
    | Fail(status: int, error: string)

  /** What a write handler returns and the store it leaves behind. */
  datatype Outcome = Outcome(response: Response, store: Store)

  /** `requireAdmin`: the `X-Admin-Password` header is present, non-empty and equal to the secret. */
  predicate Authorized(header: Option<string>)
  {
    header.Some? && header.value != "" && header.value == AdminPassword
  }

  const Unauthorized: Response := Fail(401, "Unauthorized")

  /** `kv.get(key)`: `None` when the key is absent. */
  function Lookup(store: Store, key: string): (r: Option<Value>)
    ensures r.Some? <==> key in store
  {
    if key in store then Some(store[key]) else None
  }

  /** The value at `key` is one of the records stored under `prefix`. */
  predicate StoredUnder(store: Store, prefix: string, v: Value)
  {
    exists k :: k in store && prefix <= k && store[k] == v
  }

  /** The keys a prefix scan visits. */
  function KeysUnder(store: Store, prefix: string): set<string>
  {
    set k | k in store && prefix <= k
  }

  function PostSlug(v: Value): Option<Value> { Prop(v, "slug") }
  function RecordId(v: Value): Option<Value> { Prop(v, "id") }

  /** `post.status === "published"`. */
  predicate IsPublished(v: Value)
  {
    StrictEq(Prop(v, "status"), Some(Str("published")))
  }

  /** The record stored under `key` for a record with this id: `${prefix}${record.id}`. */
  function RecordKey(prefix: string, v: Value): string
  {
    prefix + TemplateText(RecordId(v))
  }

  // ---------------------------------------------------------------------------------
  // Store invariants
  // ---------------------------------------------------------------------------------

  /** Records under `prefix` are not null and sit at the key their own id gives. */
  predicate KeyedById(store: Store, prefix: string)
  {
    forall k :: k in store && prefix <= k ==> !store[k].Null? && k == RecordKey(prefix, store[k])
  }

  /** Every handler keeps this: both record families are keyed by their ids. */
  predicate WellFormed(store: Store)
  {
    KeyedById(store, CaseStudyPrefix) && KeyedById(store, BlogPostPrefix)
  }

  /** No two blog posts at different keys share a truthy slug (what the write handlers check). */
  predicate UniqueSlugs(store: Store)
  {
    forall k1, k2 ::
      (k1 in store && k2 in store && BlogPostPrefix <= k1 && BlogPostPrefix <= k2 && k1 != k2 &&
       Truthy(PostSlug(store[k1])))
      ==> !StrictEq(PostSlug(store[k1]), PostSlug(store[k2]))
  }

  /** `find(p => p.slug === slug && p.id !== id)` over the blog posts finds something. */
  predicate SlugTaken(store: Store, slug: Option<Value>, id: Option<Value>)
  {
    exists k :: k in store && BlogPostPrefix <= k &&
      StrictEq(PostSlug(store[k]), slug) && !StrictEq(RecordId(store[k]), id)
  }

  /** The four key families are disjoint. */
  lemma KeyFamiliesDisjoint(k: string)
    ensures CaseStudyPrefix <= k ==> !(BlogPostPrefix <= k)
    ensures !(CaseStudyPrefix <= SettingsKey) && !(BlogPostPrefix <= SettingsKey)
    ensures !(CaseStudyPrefix <= SectionsKey) && !(BlogPostPrefix <= SectionsKey)
  {
    if CaseStudyPrefix <= k {
      assert k[0] == CaseStudyPrefix[0];
    }
    assert SettingsKey[0] != CaseStudyPrefix[0] && SettingsKey[0] != BlogPostPrefix[0];
    assert SectionsKey[0] != CaseStudyPrefix[0] && SectionsKey[0] != BlogPostPrefix[0];
  }

  /** Two posts at different keys of a well-formed store have ids that are not `===`. */
  lemma DistinctKeysDistinctIds(store: Store, k1: string, k2: string)
    requires WellFormed(store)
    requires k1 in store && k2 in store && BlogPostPrefix <= k1 && BlogPostPrefix <= k2 && k1 != k2
    ensures !StrictEq(RecordId(store[k1]), RecordId(store[k2]))
  {
    StrictEqIsEquality(RecordId(store[k1]), RecordId(store[k2]));
  }

  /** Writing a record at its own key, or any value at a key outside both families, keeps `WellFormed`. */
  lemma WriteKeepsWellFormed(store: Store, k: string, v: Value)
    requires WellFormed(store)
    requires ((k == RecordKey(CaseStudyPrefix, v) || k == RecordKey(BlogPostPrefix, v)) && !v.Null?) ||
             (!(CaseStudyPrefix <= k) && !(BlogPostPrefix <= k))
    ensures WellFormed(store[k := v])
  {
    KeyFamiliesDisjoint(k);
    var s := store[k := v];
    forall k' | k' in s && CaseStudyPrefix <= k'
      ensures !s[k'].Null? && k' == RecordKey(CaseStudyPrefix, s[k'])
    {
      KeyFamiliesDisjoint(k');
    }
  }

  /** Deleting any key keeps `WellFormed` and `UniqueSlugs`. */
  lemma RemoveKeepsInvariants(store: Store, k: string)
    requires WellFormed(store)
    ensures WellFormed(store - {k})
    ensures UniqueSlugs(store) ==> UniqueSlugs(store - {k})
  {
  }

  /** A write outside the blog family keeps `UniqueSlugs`. */
  lemma NonPostWriteKeepsUniqueSlugs(store: Store, k: string, v: Value)
    requires !(BlogPostPrefix <= k)
    ensures UniqueSlugs(store) ==> UniqueSlugs(store[k := v])
  {
  }

  // ---------------------------------------------------------------------------------
  // Built-in defaults
  // ---------------------------------------------------------------------------------

  function Strings(xs: seq<string>): (r: Value)
    ensures r.Arr? && |r.items| == |xs| && forall i :: 0 <= i < |xs| ==> r.items[i] == Str(xs[i])
  {
    Arr(seq(|xs|, i requires 0 <= i < |xs| => Str(xs[i])))
  }

  /** The settings `GET /settings` answers with when none are stored. */
  const DefaultSettings: Value := Obj(map[
    "siteName" := Str("Enrico R Tan"),
    "heroTitle" := Str("Crafting meaningful digital experiences"),
    "heroSubtitle" := Str("I'm a product designer focused on creating user-centered solutions that solve real problems and delight users."),
    "aboutTitle" := Str("Let's work together"),
    "aboutDescription" := Str("I'm passionate about solving complex problems through thoughtful design. With over 5 years of experience in product design, I've helped companies of all sizes create digital experiences that users love. My approach combines user research, strategic thinking, and visual design to deliver solutions that are both beautiful and functional."),
    "aboutExpertise" := Strings(["Product Design", "UX Research", "Design Systems", "Prototyping", "User Testing"]),
    "contactEmail" := Str("hello@example.com"),
    "contactPhone" := Str("+1 (555) 123-4567"),
    "socialLinkedIn" := Str("https://linkedin.com/in/yourprofile"),
    "socialTwitter" := Str("https://twitter.com/yourhandle"),
    "socialDribbble" := Str("https://dribbble.com/yourprofile"),
    "socialBehance" := Str("https://behance.net/yourprofile")
  ])

  /** The settings `/admin/initialize` writes when none are stored (they differ from `DefaultSettings`). */
  const InitialSettings: Value := Obj(map[
    "siteName" := Str("Enrico Portfolio"),
    "heroTitle" := Str("Crafting meaningful digital experiences"),
    "heroSubtitle" := Str("I'm a product designer focused on creating user-centered solutions that solve real problems and delight users. With a passion for beautiful interfaces and seamless interactions, I help companies transform their ideas into engaging digital products."),
    "aboutTitle" := Str("Let's work together"),
    "aboutDescription" := Str("I'm passionate about solving complex problems through thoughtful design. With over 5 years of experience in product design, I've helped companies of all sizes create digital experiences that users love. My approach combines user research, strategic thinking, and visual design to deliver solutions that are both beautiful and functional. I believe great design should be invisible - it should just work."),
    "aboutExpertise" := Strings(["Product Design", "UX Research", "Design Systems", "Prototyping", "User Testing", "Interface Design"]),
    "contactEmail" := Str("hello@enrico.design"),
    "contactPhone" := Str("+1 (555) 123-4567"),
    "socialLinkedIn" := Str("https://linkedin.com/in/yourprofile"),
    "socialTwitter" := Str("https://twitter.com/yourhandle"),
    "socialDribbble" := Str("https://dribbble.com/yourprofile"),
    "socialBehance" := Str("https://behance.net/yourprofile")
  ])

  function SectionEntry(id: string, name: string, order: int): Value
  {
    Obj(map["id" := Str(id), "name" := Str(name), "isVisible" := Bool(true), "order" := Num(order)])
  }

  function StatEntry(icon: string, value: string, caption: string): Value
  {
    Obj(map["icon" := Str(icon), "value" := Str(value), "label" := Str(caption)])
  }

  /** The eight sections `GET /homepage-sections` answers with when none are stored. */
  const DefaultSections: seq<Value> := [
    SectionEntry("hero", "Hero Section", 1),
    Obj(SectionEntry("stats", "Stats Section", 2).fields["data" := Obj(map["stats" := Arr([
      StatEntry("Users", "50+", "Happy Clients"),
      StatEntry("Zap", "100+", "Projects Completed"),
      StatEntry("Sparkles", "5+", "Years Experience")])])]),
    SectionEntry("values", "About Me / Values", 3),
    SectionEntry("philosophy", "Philosophy Section", 4),
    SectionEntry("experience", "Experience Timeline", 5),
    SectionEntry("skills", "Skills & Expertise", 6),
    SectionEntry("projects", "Featured Projects", 7),
    SectionEntry("cta", "CTA Section", 8)
  ]

  /** The default sections' ids, in list order. */
  const DefaultSectionIds: seq<string> :=
    ["hero", "stats", "values", "philosophy", "experience", "skills", "projects", "cta"]

  /** No two default sections share an id. */
  lemma DefaultSectionIdsDistinct()
    ensures NoDup(DefaultSectionIds)
  {
    var ids := DefaultSectionIds;
    forall i, j | 0 <= i < j < |ids| ensures ids[i] != ids[j] {
      assert ids[i][0] != ids[j][0] || ids[i][1] != ids[j][1];
    }
  }

  /** Each default section carries its id, visibility and position. */
  lemma DefaultSectionAt(i: nat)
    requires i < |DefaultSections|
    ensures Prop(DefaultSections[i], "id") == Some(Str(DefaultSectionIds[i]))
    ensures Prop(DefaultSections[i], "order") == Some(Num(i + 1))
    ensures Prop(DefaultSections[i], "isVisible") == Some(Bool(true))
  {
    if i == 0 {
      SectionEntryFields("hero", "Hero Section", 1);
    } else if i == 1 {
      StatsSectionAt();
    } else if i == 2 {
      SectionEntryFields("values", "About Me / Values", 3);
    } else if i == 3 {
      SectionEntryFields("philosophy", "Philosophy Section", 4);
    } else if i == 4 {
      SectionEntryFields("experience", "Experience Timeline", 5);
    } else if i == 5 {
      SectionEntryFields("skills", "Skills & Expertise", 6);
    } else if i == 6 {
      SectionEntryFields("projects", "Featured Projects", 7);
    } else {
      SectionEntryFields("cta", "CTA Section", 8);
    }
  }

  /** A section entry reads back its id, visibility and position. */
  lemma SectionEntryFields(id: string, name: string, order: int)
    ensures Prop(SectionEntry(id, name, order), "id") == Some(Str(id))
    ensures Prop(SectionEntry(id, name, order), "order") == Some(Num(order))
    ensures Prop(SectionEntry(id, name, order), "isVisible") == Some(Bool(true))
  {
  }

  /** The stats section is a section entry with a `data` field added. */
  lemma StatsSectionAt()
    ensures Prop(DefaultSections[1], "id") == Some(Str("stats"))
    ensures Prop(DefaultSections[1], "order") == Some(Num(2))
    ensures Prop(DefaultSections[1], "isVisible") == Some(Bool(true))
  {
    var e := SectionEntry("stats", "Stats Section", 2);
    assert DefaultSections[1].fields == e.fields["data" := DefaultSections[1].fields["data"]];
  }

  /** The default sections are eight visible entries with distinct ids, ordered 1 to 8. */
  lemma DefaultSectionsShape()
    ensures |DefaultSections| == 8
    ensures forall i :: 0 <= i < 8 ==>
      Prop(DefaultSections[i], "order") == Some(Num(i + 1)) &&
      Prop(DefaultSections[i], "isVisible") == Some(Bool(true)) &&
      Prop(DefaultSections[i], "id").Some? && Prop(DefaultSections[i], "id").value.Str?
    ensures forall i, j :: 0 <= i < j < 8 ==> Prop(DefaultSections[i], "id") != Prop(DefaultSections[j], "id")
  {
    forall i | 0 <= i < 8 ensures Prop(DefaultSections[i], "id") == Some(Str(DefaultSectionIds[i])) &&
                                  Prop(DefaultSections[i], "order") == Some(Num(i + 1)) &&
                                  Prop(DefaultSections[i], "isVisible") == Some(Bool(true)) {
      DefaultSectionAt(i);
    }
    DefaultSectionIdsDistinct();
  }

  // ---------------------------------------------------------------------------------
  // Handlers that only read, as functions of the store
  // ---------------------------------------------------------------------------------

  /** `GET /admin/test`. */
  function AdminTest(auth: Option<string>): (r: Response)
    ensures r.Done? <==> Authorized(auth)
    ensures !r.Done? ==> r == Unauthorized
  {
    if Authorized(auth) then Done("Admin authentication works!") else Unauthorized
  }

  /** `POST /admin/login`: the token handed out is the secret itself. */
  function Login(body: Value): (r: Response)
    ensures r.LoggedIn? <==> body.Obj? && "password" in body.fields && body.fields["password"] == Str(AdminPassword)
    ensures r.LoggedIn? ==> Authorized(Some(r.token))
    ensures !r.LoggedIn? ==> r.Fail? && (r.status == 401 <==> !body.Null?)
  {
    if body.Null? then Fail(500, "Login failed")
    else if StrictEq(Prop(body, "password"), Some(Str(AdminPassword))) then LoggedIn(AdminPassword)
    else Fail(401, "Invalid password")
  }

  /** `GET /case-studies/:id`. */
  function GetCaseStudy(store: Store, id: string): (r: Response)
    ensures r.Ok? <==> Truthy(Lookup(store, CaseStudyPrefix + id))
    ensures r.Ok? ==> StoredUnder(store, CaseStudyPrefix, r.data)
    ensures r.Ok? ==> r.data == store[CaseStudyPrefix + id]
    ensures !r.Ok? ==> r == Fail(404, "Case study not found")
  {
    var study := Lookup(store, CaseStudyPrefix + id);
    if !Truthy(study) then Fail(404, "Case study not found") else Ok(study.value)
  }

  /** `GET /settings`: the stored settings, or the built-in defaults when they are falsy or absent. */
  function GetSettings(store: Store): (r: Response)
    ensures r.Ok? && Truthy(Some(r.data))
    ensures Truthy(Lookup(store, SettingsKey)) ==> r.data == store[SettingsKey]
    ensures !Truthy(Lookup(store, SettingsKey)) ==> r.data == DefaultSettings
  {
    var settings := Lookup(store, SettingsKey);
    Ok(if Truthy(settings) then settings.value else DefaultSettings)
  }

  /** `GET /homepage-sections`. */
  function GetHomepageSections(store: Store): (r: Response)
    ensures r.Ok? && Truthy(Some(r.data))
    ensures Truthy(Lookup(store, SectionsKey)) ==> r.data == store[SectionsKey]
    ensures !Truthy(Lookup(store, SectionsKey)) ==> r.data == Arr(DefaultSections)
  {
    var sections := Lookup(store, SectionsKey);
    Ok(if Truthy(sections) then sections.value else Arr(DefaultSections))
  }

  /** `GET /admin/blog-posts/:id`. */
  function AdminGetPost(store: Store, auth: Option<string>, id: string): (r: Response)
    ensures !Authorized(auth) ==> r == Unauthorized
    ensures r.Ok? ==> StoredUnder(store, BlogPostPrefix, r.data) && Truthy(Some(r.data))
    ensures Authorized(auth) ==> (r.Ok? <==> Truthy(Lookup(store, BlogPostPrefix + id)))
    ensures r.Ok? ==> r.data == store[BlogPostPrefix + id]
    ensures Authorized(auth) && !r.Ok? ==> r == Fail(404, "Blog post not found")
  {
    if !Authorized(auth) then Unauthorized
    else
      var post := Lookup(store, BlogPostPrefix + id);
      if !Truthy(post) then Fail(404, "Blog post not found") else Ok(post.value)
  }

  // ---------------------------------------------------------------------------------
  // Write handlers, as functions from the old store to an outcome
  // ---------------------------------------------------------------------------------

  /** `POST /admin/case-studies`: an upsert at `case_study:<body.id>`. */
  function CreateCaseStudyOutcome(store: Store, auth: Option<string>, body: Value): (o: Outcome)
    ensures !Authorized(auth) ==> o == Outcome(Unauthorized, store)
    ensures o.response.Ok? <==> Authorized(auth) && Truthy(RecordId(body))
    ensures Authorized(auth) && !body.Null? && !Truthy(RecordId(body)) ==>
              o.response == Fail(400, "Case study ID is required")
    ensures !o.response.Ok? ==> o.store == store
    ensures o.response.Ok? ==>
              GetCaseStudy(o.store, TemplateText(RecordId(body))) == Ok(body) &&
              forall k :: k != RecordKey(CaseStudyPrefix, body) ==> Lookup(o.store, k) == Lookup(store, k)
  {
    if !Authorized(auth) then Outcome(Unauthorized, store)
    else if body.Null? then Outcome(Fail(500, "Failed to save case study"), store)
    else if !Truthy(RecordId(body)) then Outcome(Fail(400, "Case study ID is required"), store)
    else Outcome(Ok(body), store[RecordKey(CaseStudyPrefix, body) := body])
  }

  /**
   * `PUT /admin/case-studies/:id`: the stored record overlaid with the update, `id` forced
   * back to the path id.
   */
  function UpdateCaseStudyOutcome(store: Store, auth: Option<string>, id: string, updates: Value): (o: Outcome)
    ensures !Authorized(auth) ==> o == Outcome(Unauthorized, store)
    ensures Authorized(auth) && !Truthy(Lookup(store, CaseStudyPrefix + id)) ==>
              o == Outcome(Fail(404, "Case study not found"), store)
    ensures Authorized(auth) && Truthy(Lookup(store, CaseStudyPrefix + id)) ==>
              o.response.Ok? && o.store == store[CaseStudyPrefix + id := o.response.data]
    ensures o.response.Ok? ==> UpdatedRecord(store[CaseStudyPrefix + id], updates, id, o.response.data)
  {
    if !Authorized(auth) then Outcome(Unauthorized, store)
    else
      var key := CaseStudyPrefix + id;
      var existing := Lookup(store, key);
      if !Truthy(existing) then Outcome(Fail(404, "Case study not found"), store)
      else
        var updated := Obj(Merge(existing.value, updates, id));
        Outcome(Ok(updated), store[key := updated])
  }

  /**
   * `updated` is `existing` overlaid with `updates`: `id` is the path id, fields the update
   * carries take its values, and every other field of `existing` is kept.
   */
  ghost predicate UpdatedRecord(existing: Value, updates: Value, id: string, updated: Value)
  {
    updated.Obj? &&
    Prop(updated, "id") == Some(Str(id)) &&
    (forall f :: f in updated.fields <==> f == "id" || f in Spread(existing) || f in Spread(updates)) &&
    (forall f :: f != "id" && f in Spread(updates) ==> updated.fields[f] == Spread(updates)[f]) &&
    (forall f :: f != "id" && f !in Spread(updates) && f in Spread(existing) ==>
                 updated.fields[f] == Spread(existing)[f])
  }

  /** `DELETE /admin/case-studies/:id` and `DELETE /admin/blog-posts/:id`: succeeds whether or not the key exists. */
  function DeleteOutcome(store: Store, auth: Option<string>, key: string, message: string): (o: Outcome)
    ensures !Authorized(auth) ==> o == Outcome(Unauthorized, store)
    ensures Authorized(auth) ==> o.response == Done(message) && key !in o.store
    ensures forall k :: k != key ==> Lookup(o.store, k) == Lookup(store, k)
  {
    if !Authorized(auth) then Outcome(Unauthorized, store)
    else Outcome(Done(message), store - {key})
  }

  /** After a deletion with the secret, reading the study back answers 404. */
  function DeleteCaseStudyOutcome(store: Store, auth: Option<string>, id: string): (o: Outcome)
    ensures !Authorized(auth) ==> o == Outcome(Unauthorized, store)
    ensures Authorized(auth) ==> o.response == Done("Case study deleted") &&
                                 GetCaseStudy(o.store, id) == Fail(404, "Case study not found")
  {
    DeleteOutcome(store, auth, CaseStudyPrefix + id, "Case study deleted")
  }

  /** After a deletion with the secret, reading the post back answers 404. */
  function DeletePostOutcome(store: Store, auth: Option<string>, id: string): (o: Outcome)
    ensures !Authorized(auth) ==> o == Outcome(Unauthorized, store)
    ensures Authorized(auth) ==> o.response == Done("Blog post deleted") &&
                                 AdminGetPost(o.store, auth, id) == Fail(404, "Blog post not found")
  {
    DeleteOutcome(store, auth, BlogPostPrefix + id, "Blog post deleted")
  }

  /** `PUT /admin/settings`: the body replaces the settings wholesale. */
  function PutSettingsOutcome(store: Store, auth: Option<string>, body: Value): (o: Outcome)
    ensures !Authorized(auth) ==> o == Outcome(Unauthorized, store)
    ensures Authorized(auth) ==> o.response == Ok(body)
    ensures Authorized(auth) ==> GetSettings(o.store) == Ok(if Truthy(Some(body)) then body else DefaultSettings)
    ensures forall k :: k != SettingsKey ==> Lookup(o.store, k) == Lookup(store, k)
  {
    if !Authorized(auth) then Outcome(Unauthorized, store)
    else Outcome(Ok(body), store[SettingsKey := body])
  }

  /** `POST /homepage-sections`: the body's `sections` array replaces the stored one. */
  function PostSectionsOutcome(store: Store, auth: Option<string>, body: Value): (o: Outcome)
    ensures !Authorized(auth) ==> o == Outcome(Unauthorized, store)
    ensures o.response.Ok? <==> Authorized(auth) && Prop(body, "sections").Some? && Prop(body, "sections").value.Arr?
    ensures o.response.Ok? ==> GetHomepageSections(o.store) == Ok(Prop(body, "sections").value)
    ensures !o.response.Ok? ==> o.store == store
    ensures forall k :: k != SectionsKey ==> Lookup(o.store, k) == Lookup(store, k)
  {
    if !Authorized(auth) then Outcome(Unauthorized, store)
    else if body.Null? then Outcome(Fail(500, "Failed to update homepage sections"), store)
    else
      var sections := Prop(body, "sections");
      if !Truthy(sections) || !sections.value.Arr? then Outcome(Fail(400, "Invalid sections data"), store)
      else Outcome(Ok(sections.value), store[SectionsKey := sections.value])
  }

  /**
   * `POST /admin/blog-posts`. A post without a truthy `id` gets the generated `uuid`; the
   * post is refused without a truthy `slug` or when another post with a different id
   * already has that slug. Otherwise it is stored (an upsert) at `blog_post:<id>`.
   */
  function CreatePostOutcome(store: Store, auth: Option<string>, body: Value, uuid: string): (o: Outcome)
    ensures !Authorized(auth) ==> o == Outcome(Unauthorized, store)
    ensures !o.response.Ok? ==> o.store == store
    ensures o.response.Ok? ==>
              var post := o.response.data;
              Authorized(auth) && post.Obj? && Truthy(PostSlug(post)) &&
              !SlugTaken(store, PostSlug(post), RecordId(post)) &&
              o.store == store[RecordKey(BlogPostPrefix, post) := post] &&
              (if Truthy(RecordId(body)) then post == body
               else body.Obj? && RecordId(post) == Some(Str(uuid)) && post == Obj(body.fields["id" := Str(uuid)]))
    ensures Authorized(auth) && body.Obj? && !Truthy(PostSlug(body)) ==>
              o.response == Fail(400, "Slug is required")
    ensures Authorized(auth) && body.Obj? && Truthy(RecordId(body)) && Truthy(PostSlug(body)) ==>
              (o.response.Ok? <==> !SlugTaken(store, PostSlug(body), RecordId(body)))
    ensures Authorized(auth) && body.Obj? && !Truthy(RecordId(body)) && Truthy(PostSlug(body)) ==>
              (o.response.Ok? <==> !SlugTaken(store, PostSlug(body), Some(Str(uuid))))
  {
    if !Authorized(auth) then Outcome(Unauthorized, store)
    else if body.Null? then Outcome(Fail(500, "Failed to create blog post"), store)
    else if !Truthy(RecordId(body)) && !body.Obj? && !body.Arr? then
      // assigning `post.id` on a primitive throws
      Outcome(Fail(500, "Failed to create blog post"), store)
    else
      var post := if Truthy(RecordId(body)) || !body.Obj? then body else Obj(body.fields["id" := Str(uuid)]);
      assert PostSlug(post) == PostSlug(body);
      if !Truthy(PostSlug(post)) then Outcome(Fail(400, "Slug is required"), store)
      else if SlugTaken(store, PostSlug(post), RecordId(post)) then
        Outcome(Fail(400, "A post with this slug already exists"), store)
      else Outcome(Ok(post), store[RecordKey(BlogPostPrefix, post) := post])
  }

  /**
   * `PUT /admin/blog-posts/:id`: a shallow merge like the case-study update, refused when
   * the update carries a new truthy slug that a post with a different id already has.
   */
  function UpdatePostOutcome(store: Store, auth: Option<string>, id: string, updates: Value): (o: Outcome)
    ensures !Authorized(auth) ==> o == Outcome(Unauthorized, store)
    ensures Authorized(auth) && !Truthy(Lookup(store, BlogPostPrefix + id)) ==>
              o == Outcome(Fail(404, "Blog post not found"), store)
    ensures !o.response.Ok? ==> o.store == store
    ensures o.response.Ok? ==>
              BlogPostPrefix + id in store &&
              UpdatedRecord(store[BlogPostPrefix + id], updates, id, o.response.data) &&
              o.store == store[BlogPostPrefix + id := o.response.data]
    ensures Authorized(auth) && Truthy(Lookup(store, BlogPostPrefix + id)) && !updates.Null? ==>
              (o.response.Ok? <==>
                 !(Truthy(PostSlug(updates)) &&
                   !StrictEq(PostSlug(updates), PostSlug(store[BlogPostPrefix + id])) &&
                   SlugTaken(store, PostSlug(updates), Some(Str(id)))))
  {
    if !Authorized(auth) then Outcome(Unauthorized, store)
    else
      var key := BlogPostPrefix + id;
      var existing := Lookup(store, key);
      if !Truthy(existing) then Outcome(Fail(404, "Blog post not found"), store)
      else if updates.Null? then Outcome(Fail(500, "Failed to update blog post"), store)
      else
        var slug := PostSlug(updates);
        if Truthy(slug) && !StrictEq(slug, PostSlug(existing.value)) && SlugTaken(store, slug, Some(Str(id))) then
          Outcome(Fail(400, "A post with this slug already exists"), store)
        else
          var updated := Obj(Merge(existing.value, updates, id));
          Outcome(Ok(updated), store[key := updated])
  }

  // ---------------------------------------------------------------------------------
  // Slug uniqueness
  // ---------------------------------------------------------------------------------

  /** A post stored elsewhere than `RecordKey(BlogPostPrefix, v)` has an id that is not `=== v.id`. */
  lemma IdsDifferAtOtherKeys(store: Store, k: string, v: Value)
    requires WellFormed(store) && k in store && BlogPostPrefix <= k && k != RecordKey(BlogPostPrefix, v)
    ensures !StrictEq(RecordId(store[k]), RecordId(v))
  {
    StrictEqIsEquality(RecordId(store[k]), RecordId(v));
  }

  /** Replacing the post at `key` by one whose truthy slug no other post has keeps `UniqueSlugs`. */
  lemma ReplacePostKeepsUniqueSlugs(store: Store, key: string, v: Value)
    requires UniqueSlugs(store) && BlogPostPrefix <= key
    requires Truthy(PostSlug(v)) ==>
               forall k :: k in store && BlogPostPrefix <= k && k != key ==> !StrictEq(PostSlug(v), PostSlug(store[k]))
    ensures UniqueSlugs(store[key := v])
  {
    var s := store[key := v];
    forall k1, k2 | k1 in s && k2 in s && BlogPostPrefix <= k1 && BlogPostPrefix <= k2 && k1 != k2 &&
                    Truthy(PostSlug(s[k1]))
      ensures !StrictEq(PostSlug(s[k1]), PostSlug(s[k2]))
    {
      if k2 == key {
        StrictEqIsEquality(PostSlug(s[k1]), PostSlug(v));
      }
    }
  }

  /** Creating a post keeps the store well-formed and its slugs unique. */
  lemma CreatePostKeepsInvariants(store: Store, auth: Option<string>, body: Value, uuid: string)
    requires WellFormed(store)
    ensures WellFormed(CreatePostOutcome(store, auth, body, uuid).store)
    ensures UniqueSlugs(store) ==> UniqueSlugs(CreatePostOutcome(store, auth, body, uuid).store)
  {
    var o := CreatePostOutcome(store, auth, body, uuid);
    if o.response.Ok? && UniqueSlugs(store) {
      var post := o.response.data;
      var key := RecordKey(BlogPostPrefix, post);
      WriteKeepsWellFormed(store, key, post);
      forall k | k in store && BlogPostPrefix <= k && k != key
        ensures !StrictEq(PostSlug(post), PostSlug(store[k]))
      {
        IdsDifferAtOtherKeys(store, k, post);
        StrictEqIsEquality(PostSlug(post), PostSlug(store[k]));
      }
      ReplacePostKeepsUniqueSlugs(store, key, post);
    } else if o.response.Ok? {
      WriteKeepsWellFormed(store, RecordKey(BlogPostPrefix, o.response.data), o.response.data);
    }
  }

  /** Updating a post keeps the store well-formed and its slugs unique. */
  lemma UpdatePostKeepsInvariants(store: Store, auth: Option<string>, id: string, updates: Value)
    requires WellFormed(store)
    ensures WellFormed(UpdatePostOutcome(store, auth, id, updates).store)
    ensures UniqueSlugs(store) ==> UniqueSlugs(UpdatePostOutcome(store, auth, id, updates).store)
  {
    var o := UpdatePostOutcome(store, auth, id, updates);
    var key := BlogPostPrefix + id;
    if o.response.Ok? {
      TemplateTextOfString(id);
      WriteKeepsWellFormed(store, key, o.response.data);
    }
    if o.response.Ok? && UniqueSlugs(store) {
      var existing := store[key];
      var updated := o.response.data;
      assert updated == Obj(Merge(existing, updates, id));
      MergedField(existing, updates, id, "slug");
      var us := PostSlug(updates);
      forall k | k in store && BlogPostPrefix <= k && k != key && Truthy(PostSlug(updated))
        ensures !StrictEq(PostSlug(updated), PostSlug(store[k]))
      {
        StrictEqIsEquality(PostSlug(updated), PostSlug(store[k]));
        StrictEqIsEquality(us, PostSlug(existing));
        if us.Some? && !StrictEq(us, PostSlug(existing)) {
          assert !SlugTaken(store, us, Some(Str(id)));
          StrictEqIsEquality(RecordId(store[k]), Some(Str(id)));
        }
      }
      ReplacePostKeepsUniqueSlugs(store, key, updated);
    }
  }

  /** Storing a case study keeps both invariants. */
  lemma CreateCaseStudyKeepsInvariants(store: Store, auth: Option<string>, body: Value)
    requires WellFormed(store)
    ensures var s := CreateCaseStudyOutcome(store, auth, body).store; WellFormed(s) && (UniqueSlugs(store) ==> UniqueSlugs(s))
  {
    var key := RecordKey(CaseStudyPrefix, body);
    KeyFamiliesDisjoint(key);
    if CreateCaseStudyOutcome(store, auth, body).response.Ok? {
      WriteKeepsWellFormed(store, key, body);
      NonPostWriteKeepsUniqueSlugs(store, key, body);
    }
  }

  /** Updating a case study keeps both invariants. */
  lemma UpdateCaseStudyKeepsInvariants(store: Store, auth: Option<string>, id: string, updates: Value)
    requires WellFormed(store)
    ensures var s := UpdateCaseStudyOutcome(store, auth, id, updates).store; WellFormed(s) && (UniqueSlugs(store) ==> UniqueSlugs(s))
  {
    var o := UpdateCaseStudyOutcome(store, auth, id, updates);
    if o.response.Ok? {
      KeyFamiliesDisjoint(CaseStudyPrefix + id);
      TemplateTextOfString(id);
      WriteKeepsWellFormed(store, CaseStudyPrefix + id, o.response.data);
      NonPostWriteKeepsUniqueSlugs(store, CaseStudyPrefix + id, o.response.data);
    }
  }

  /** Either delete keeps both invariants. */
  lemma DeleteKeepsInvariants(store: Store, auth: Option<string>, key: string, message: string)
    requires WellFormed(store)
    ensures var s := DeleteOutcome(store, auth, key, message).store; WellFormed(s) && (UniqueSlugs(store) ==> UniqueSlugs(s))
  {
    RemoveKeepsInvariants(store, key);
  }

  /** Writing the settings or the sections keeps both invariants. */
  lemma SingletonWritesKeepInvariants(store: Store, auth: Option<string>, body: Value)
    requires WellFormed(store)
    ensures var s := PutSettingsOutcome(store, auth, body).store; WellFormed(s) && (UniqueSlugs(store) ==> UniqueSlugs(s))
    ensures var s := PostSectionsOutcome(store, auth, body).store; WellFormed(s) && (UniqueSlugs(store) ==> UniqueSlugs(s))
  {
    KeyFamiliesDisjoint(SettingsKey);
    if Authorized(auth) {
      WriteKeepsWellFormed(store, SettingsKey, body);
      NonPostWriteKeepsUniqueSlugs(store, SettingsKey, body);
      var p := PostSectionsOutcome(store, auth, body);
      if p.response.Ok? {
        WriteKeepsWellFormed(store, SectionsKey, p.response.data);
        NonPostWriteKeepsUniqueSlugs(store, SectionsKey, p.response.data);
      }
    }
  }

  // ---------------------------------------------------------------------------------
  // Bulk initialization
  // ---------------------------------------------------------------------------------

  const InitFailure: string := "Failed to initialize data"

  /** The `kv.set` calls a loop over `items` makes, one per record, keyed by the record's id. */
  function RecordWrites(prefix: string, items: seq<Value>): (ws: seq<(string, Value)>)
    ensures |ws| == |items|
    ensures forall i :: 0 <= i < |items| ==> ws[i] == (RecordKey(prefix, items[i]), items[i])
  {
    seq(|items|, i requires 0 <= i < |items| => (RecordKey(prefix, items[i]), items[i]))
  }

  /** Performing the writes in order: a later write to a key replaces an earlier one. */
  function WriteAll(store: Store, ws: seq<(string, Value)>): Store
    decreases |ws|
  {
    if |ws| == 0 then store else WriteAll(store, ws[..|ws| - 1])[ws[|ws| - 1].0 := ws[|ws| - 1].1]
  }

  /** How far a loop over `items` gets: reading `.id` of the first `null` entry throws. */
  function LeadingNonNull(items: seq<Value>): (n: nat)
    ensures n <= |items|
    ensures forall i :: 0 <= i < n ==> !items[i].Null?
    ensures n < |items| ==> items[n].Null?
  {
    var i := FindIndex(items, (v: Value) => v.Null?);
    if i == -1 then |items| else i
  }

  /** The success message: blog posts are mentioned when `blogPosts.length > 0`. */
  function InitMessage(studies: nat, blogPosts: Option<Value>): (r: string)
    ensures "Initialized " + NatToDecimal(studies) + " case studies" <= r
  {
    var len := if blogPosts.Some? then LengthProp(blogPosts.value) else None;
    if Truthy(blogPosts) && GreaterThanZero(len) then
      "Initialized " + NatToDecimal(studies) + " case studies, " + TemplateText(len) + " blog posts, and site settings"
    else
      "Initialized " + NatToDecimal(studies) + " case studies and site settings"
  }

  /** For an array of posts the long message appears exactly when it is non-empty, with its length. */
  lemma InitMessageOfArray(studies: nat, posts: seq<Value>)
    ensures |posts| > 0 ==>
              InitMessage(studies, Some(Arr(posts))) ==
              "Initialized " + NatToDecimal(studies) + " case studies, " + NatToDecimal(|posts|) + " blog posts, and site settings"
    ensures |posts| == 0 ==>
              InitMessage(studies, Some(Arr(posts))) == "Initialized " + NatToDecimal(studies) + " case studies and site settings"
  {
  }

  /**
   * For an object with a `length` field the long message appears exactly when that field,
   * converted to a number, is above 0, and the field's text is the count it shows (so
   * `{"length": "2"}` reads "2 blog posts" and `{"length": true}` "true blog posts").
   */
  lemma InitMessageOfLengthField(n: nat, len: Value)
    ensures GreaterThanZero(Some(len)) ==>
              InitMessage(n, Some(Obj(map["length" := len]))) ==
              "Initialized " + NatToDecimal(n) + " case studies, " + ValueText(len) + " blog posts, and site settings"
    ensures !GreaterThanZero(Some(len)) ==>
              InitMessage(n, Some(Obj(map["length" := len]))) == "Initialized " + NatToDecimal(n) + " case studies and site settings"
  {
    assert LengthProp(Obj(map["length" := len])) == Some(len);
  }

  /** The posts the second loop writes: none unless `blogPosts` is an array. */
  function PostsToWrite(blogPosts: Option<Value>): seq<Value>
  {
    if Truthy(blogPosts) && blogPosts.value.Arr? then blogPosts.value.items else []
  }

  /**
   * `POST /admin/initialize`: write every case study, then every blog post when an array
   * is given, then the initial settings only if the stored ones are falsy. A `null` entry
   * stops the loop with a 500 after the writes before it.
   */
  function InitializeOutcome(store: Store, auth: Option<string>, body: Value): (o: Outcome)
    ensures !Authorized(auth) ==> o == Outcome(Unauthorized, store)
    ensures o.response.Done? ==> Truthy(Lookup(o.store, SettingsKey))
    ensures !o.response.Done? ==> o.response.Fail?
  {
    if !Authorized(auth) then Outcome(Unauthorized, store)
    else if body.Null? then Outcome(Fail(500, InitFailure), store)
    else
      var cs := Prop(body, "caseStudies");
      if !Truthy(cs) || !cs.value.Arr? then Outcome(Fail(400, "Invalid case studies data"), store)
      else
        var bp := Prop(body, "blogPosts");
        InitializeLoops(store, cs.value.items, PostsToWrite(bp), InitMessage(|cs.value.items|, bp))
  }

  /** The two write loops and the settings step of `/admin/initialize`, once the body is validated. */
  function InitializeLoops(store: Store, studies: seq<Value>, posts: seq<Value>, message: string): (o: Outcome)
    ensures o.response.Done? <==> LeadingNonNull(studies) == |studies| && LeadingNonNull(posts) == |posts|
    ensures o.response.Done? ==> o.response.message == message
    ensures !o.response.Done? ==> o.response == Fail(500, InitFailure)
  {
    var n1 := LeadingNonNull(studies);
    var s1 := WriteAll(store, RecordWrites(CaseStudyPrefix, studies[..n1]));
    if n1 < |studies| then Outcome(Fail(500, InitFailure), s1)
    else
      var n2 := LeadingNonNull(posts);
      var s2 := WriteAll(s1, RecordWrites(BlogPostPrefix, posts[..n2]));
      if n2 < |posts| then Outcome(Fail(500, InitFailure), s2)
      else Outcome(Done(message), SettleSettings(s2))
  }

  /** Write the initial settings unless the stored ones are truthy. */
  function SettleSettings(store: Store): (r: Store)
    ensures Truthy(Lookup(r, SettingsKey))
    ensures Truthy(Lookup(store, SettingsKey)) ==> r == store
    ensures !Truthy(Lookup(store, SettingsKey)) ==> r[SettingsKey] == InitialSettings
    ensures forall k :: k != SettingsKey ==> Lookup(r, k) == Lookup(store, k)
  {
    if Truthy(Lookup(store, SettingsKey)) then store else store[SettingsKey := InitialSettings]
  }

  /** The writes amount to overriding the store with the map they build from nothing. */
  lemma {:induction false} WriteAllIsOverride(store: Store, ws: seq<(string, Value)>)
    ensures WriteAll(store, ws) == store + WriteAll(map[], ws)
    decreases |ws|
  {
    if |ws| > 0 {
      WriteAllIsOverride(store, ws[..|ws| - 1]);
    }
  }

  /** A key no write names keeps its value; every key a write names ends up present. */
  lemma {:induction false} WriteAllKeys(store: Store, ws: seq<(string, Value)>)
    ensures forall k :: (forall i :: 0 <= i < |ws| ==> ws[i].0 != k) ==> Lookup(WriteAll(store, ws), k) == Lookup(store, k)
    ensures forall i :: 0 <= i < |ws| ==> ws[i].0 in WriteAll(store, ws)
    ensures forall k :: k in WriteAll(store, ws) && k !in store ==> exists i :: 0 <= i < |ws| && ws[i].0 == k
    decreases |ws|
  {
    if |ws| > 0 {
      var init := ws[..|ws| - 1];
      WriteAllKeys(store, init);
      assert forall i :: 0 <= i < |init| ==> init[i] == ws[i];
      forall k | k in WriteAll(store, ws) && k !in store
        ensures exists i :: 0 <= i < |ws| && ws[i].0 == k
      {
        if k != ws[|ws| - 1].0 {
          var i :| 0 <= i < |init| && init[i].0 == k;
          assert ws[i].0 == k;
        }
      }
    }
  }

  /** The loop stops at `i` exactly when `i` is the first null entry or the end. */
  lemma LeadingNonNullAt(items: seq<Value>, i: nat)
    requires i <= |items| && forall j :: 0 <= j < i ==> !items[j].Null?
    requires i < |items| ==> items[i].Null?
    ensures LeadingNonNull(items) == i
  {
  }

  /** One more iteration of a write loop is one more write. */
  lemma RecordWritesStep(store: Store, prefix: string, items: seq<Value>, i: nat)
    requires i < |items|
    ensures WriteAll(store, RecordWrites(prefix, items[..i + 1])) ==
            WriteAll(store, RecordWrites(prefix, items[..i]))[RecordKey(prefix, items[i]) := items[i]]
  {
    var before := RecordWrites(prefix, items[..i]);
    var after := RecordWrites(prefix, items[..i + 1]);
    assert after[..|after| - 1] == before;
  }

  /** A map that already agrees with the overrides is unchanged by applying them again. */
  lemma OverrideAbsorbed(t: Store, m1: Store, m2: Store)
    requires forall k :: k in m2 ==> k in t && t[k] == m2[k]
    requires forall k :: k in m1 && k !in m2 ==> k in t && t[k] == m1[k]
    ensures (t + m1) + m2 == t
  {
    assert forall k :: k in (t + m1) + m2 <==> k in t;
  }

  /** The loops' writes as two overriding maps. */
  function LoopWrites(prefix: string, items: seq<Value>): Store
  {
    WriteAll(map[], RecordWrites(prefix, items[..LeadingNonNull(items)]))
  }

  /** The key of every loop write carries the loop's prefix. */
  lemma LoopWritesPrefixed(prefix: string, items: seq<Value>, k: string)
    requires k in LoopWrites(prefix, items)
    ensures prefix <= k
  {
    var ws := RecordWrites(prefix, items[..LeadingNonNull(items)]);
    WriteAllKeys(map[], ws);
    var i :| 0 <= i < |ws| && ws[i].0 == k;
  }

  /** The store the loops leave, written with map override. */
  lemma InitializeLoopsStore(store: Store, studies: seq<Value>, posts: seq<Value>, message: string)
    ensures var m1 := LoopWrites(CaseStudyPrefix, studies);
            var m2 := LoopWrites(BlogPostPrefix, posts);
            InitializeLoops(store, studies, posts, message).store ==
              if LeadingNonNull(studies) < |studies| then store + m1
              else if LeadingNonNull(posts) < |posts| then (store + m1) + m2
              else SettleSettings((store + m1) + m2)
  {
    var m1 := LoopWrites(CaseStudyPrefix, studies);
    WriteAllIsOverride(store, RecordWrites(CaseStudyPrefix, studies[..LeadingNonNull(studies)]));
    WriteAllIsOverride(store + m1, RecordWrites(BlogPostPrefix, posts[..LeadingNonNull(posts)]));
  }

  /** Initialization writes only record keys under the two prefixes and `site_settings`. */
  lemma InitializeWritesOnlyItsKeys(store: Store, auth: Option<string>, body: Value, k: string)
    requires !(CaseStudyPrefix <= k) && !(BlogPostPrefix <= k) && k != SettingsKey
    ensures Lookup(InitializeOutcome(store, auth, body).store, k) == Lookup(store, k)
  {
    if Authorized(auth) && !body.Null? {
      var cs := Prop(body, "caseStudies");
      if Truthy(cs) && cs.value.Arr? {
        var studies := cs.value.items;
        var posts := PostsToWrite(Prop(body, "blogPosts"));
        InitializeLoopsStore(store, studies, posts, InitMessage(|studies|, Prop(body, "blogPosts")));
        if k in LoopWrites(CaseStudyPrefix, studies) {
          LoopWritesPrefixed(CaseStudyPrefix, studies, k);
        }
        if k in LoopWrites(BlogPostPrefix, posts) {
          LoopWritesPrefixed(BlogPostPrefix, posts, k);
        }
      }
    }
  }

  /** Running the loops a second time on their own result changes nothing. */
  lemma InitializeLoopsIdempotent(store: Store, studies: seq<Value>, posts: seq<Value>, message: string)
    ensures var once := InitializeLoops(store, studies, posts, message).store;
            InitializeLoops(once, studies, posts, message).store == once
  {
    var once := InitializeLoops(store, studies, posts, message).store;
    var m1 := LoopWrites(CaseStudyPrefix, studies);
    var m2 := LoopWrites(BlogPostPrefix, posts);
    InitializeLoopsStore(store, studies, posts, message);
    InitializeLoopsStore(once, studies, posts, message);
    if LeadingNonNull(studies) < |studies| {
      OverrideAbsorbed(store + m1, m1, map[]);
      assert (store + m1) + m1 == ((store + m1) + m1) + map[];
    } else if LeadingNonNull(posts) < |posts| {
      OverrideAbsorbed((store + m1) + m2, m1, m2);
    } else {
      SettleOverridden(store, m1, m2, studies, posts);
    }
  }

  /** The settings step commutes with the loops' writes, which never name `site_settings`. */
  lemma SettleOverridden(store: Store, m1: Store, m2: Store, studies: seq<Value>, posts: seq<Value>)
    requires m1 == LoopWrites(CaseStudyPrefix, studies) && m2 == LoopWrites(BlogPostPrefix, posts)
    ensures var once := SettleSettings((store + m1) + m2);
            SettleSettings((once + m1) + m2) == once
  {
    KeyFamiliesDisjoint(SettingsKey);
    if SettingsKey in m1 {
      LoopWritesPrefixed(CaseStudyPrefix, studies, SettingsKey);
    }
    if SettingsKey in m2 {
      LoopWritesPrefixed(BlogPostPrefix, posts, SettingsKey);
    }
    var once := SettleSettings((store + m1) + m2);
    OverrideAbsorbed(once, m1, m2);
    assert Truthy(Lookup(once, SettingsKey));
  }

  /** Running `/admin/initialize` twice with the same body leaves the same store as running it once. */
  lemma InitializeIdempotent(store: Store, auth: Option<string>, body: Value)
    ensures var once := InitializeOutcome(store, auth, body).store;
            InitializeOutcome(once, auth, body).store == once
  {
    if Authorized(auth) && !body.Null? {
      var cs := Prop(body, "caseStudies");
      if Truthy(cs) && cs.value.Arr? {
        var bp := Prop(body, "blogPosts");
        InitializeLoopsIdempotent(store, cs.value.items, PostsToWrite(bp), InitMessage(|cs.value.items|, bp));
      }
    }
  }

  /** A body without a `caseStudies` array is refused before anything is written. */
  lemma InitializeValidation(store: Store, auth: Option<string>, body: Value)
    ensures !Authorized(auth) ==> InitializeOutcome(store, auth, body) == Outcome(Unauthorized, store)
    ensures Authorized(auth) && !body.Null? &&
            !(Prop(body, "caseStudies").Some? && Prop(body, "caseStudies").value.Arr?) ==>
              InitializeOutcome(store, auth, body) == Outcome(Fail(400, "Invalid case studies data"), store)
  {
  }

  /**
   * A completed run has stored a record at the key of every case study and every blog
   * post, and the settings are the old ones if truthy, the initial ones otherwise.
   */
  lemma InitializeLoopsEffects(store: Store, studies: seq<Value>, posts: seq<Value>, message: string)
    ensures var o := InitializeLoops(store, studies, posts, message);
            o.response.Done? ==>
              (forall i :: 0 <= i < |studies| ==> RecordKey(CaseStudyPrefix, studies[i]) in o.store) &&
              (forall i :: 0 <= i < |posts| ==> RecordKey(BlogPostPrefix, posts[i]) in o.store) &&
              Lookup(o.store, SettingsKey) ==
                (if Truthy(Lookup(store, SettingsKey)) then Lookup(store, SettingsKey) else Some(InitialSettings))
  {
    var o := InitializeLoops(store, studies, posts, message);
    if o.response.Done? {
      var m1 := LoopWrites(CaseStudyPrefix, studies);
      var m2 := LoopWrites(BlogPostPrefix, posts);
      InitializeLoopsStore(store, studies, posts, message);
      assert studies[..LeadingNonNull(studies)] == studies && posts[..LeadingNonNull(posts)] == posts;
      WriteAllKeys(map[], RecordWrites(CaseStudyPrefix, studies));
      WriteAllKeys(map[], RecordWrites(BlogPostPrefix, posts));
      KeyFamiliesDisjoint(SettingsKey);
      if SettingsKey in m1 {
        LoopWritesPrefixed(CaseStudyPrefix, studies, SettingsKey);
      }
      if SettingsKey in m2 {
        LoopWritesPrefixed(BlogPostPrefix, posts, SettingsKey);
      }
    }
  }

  /**
   * The bulk loop does not run the slug check: two posts with different ids and the
   * same slug are both stored.
   */
  lemma InitializeSkipsSlugCheck(message: string)
    ensures var post1 := Obj(map["id" := Str("1"), "slug" := Str("a")]);
            var post2 := Obj(map["id" := Str("2"), "slug" := Str("a")]);
            !UniqueSlugs(InitializeLoops(map[], [], [post1, post2], message).store)
  {
    var post1 := Obj(map["id" := Str("1"), "slug" := Str("a")]);
    var post2 := Obj(map["id" := Str("2"), "slug" := Str("a")]);
    var k1, k2 := BlogPostPrefix + "1", BlogPostPrefix + "2";
    var s := InitializeLoops(map[], [], [post1, post2], message).store;
    InitializeTwoPosts(post1, post2, message);
    assert k1[10] != k2[10];
    assert k1[0] != SettingsKey[0] && k2[0] != SettingsKey[0];
    assert Lookup(s, k1) == Some(post1) && Lookup(s, k2) == Some(post2);
    SharedSlugNotUnique(s, k1, k2);
  }

  /** The loops over no studies and two posts with ids "1" and "2" write exactly those two keys. */
  lemma InitializeTwoPosts(post1: Value, post2: Value, message: string)
    requires post1 == Obj(map["id" := Str("1"), "slug" := Str("a")])
    requires post2 == Obj(map["id" := Str("2"), "slug" := Str("a")])
    ensures InitializeLoops(map[], [], [post1, post2], message).store ==
            SettleSettings(map[BlogPostPrefix + "1" := post1][BlogPostPrefix + "2" := post2])
  {
    var posts := [post1, post2];
    LeadingNonNullAt(posts, 2);
    LeadingNonNullAt([], 0);
    assert posts[..2] == posts;
    assert RecordWrites(CaseStudyPrefix, [][..0]) == [];
    WriteTwoPosts(post1, post2);
  }

  lemma WriteTwoPosts(post1: Value, post2: Value)
    requires post1 == Obj(map["id" := Str("1"), "slug" := Str("a")])
    requires post2 == Obj(map["id" := Str("2"), "slug" := Str("a")])
    ensures WriteAll(map[], RecordWrites(BlogPostPrefix, [post1, post2])) ==
            map[BlogPostPrefix + "1" := post1][BlogPostPrefix + "2" := post2]
  {
    var k1 := RecordKey(BlogPostPrefix, post1);
    var k2 := RecordKey(BlogPostPrefix, post2);
    assert k1 == BlogPostPrefix + "1" && k2 == BlogPostPrefix + "2";
    var ws := RecordWrites(BlogPostPrefix, [post1, post2]);
    assert ws == [(k1, post1), (k2, post2)];
    assert ws[..1] == [(k1, post1)];
    assert ws[..1][..0] == [];
    assert WriteAll(map[], ws[..1][..0]) == map[];
    assert WriteAll(map[], ws[..1]) == map[k1 := post1];
  }

  /** Two different post keys holding the same truthy slug break `UniqueSlugs`. */
  lemma SharedSlugNotUnique(s: Store, k1: string, k2: string)
    requires k1 in s && k2 in s && BlogPostPrefix <= k1 && BlogPostPrefix <= k2 && k1 != k2
    requires Truthy(PostSlug(s[k1])) && StrictEq(PostSlug(s[k1]), PostSlug(s[k2]))
    ensures !UniqueSlugs(s)
  {
  }

  // ---------------------------------------------------------------------------------
  // The server
  // ---------------------------------------------------------------------------------

  /** The values stored at `keys`, in that order. */
  function ValuesAt(store: Store, keys: seq<string>): (vs: seq<Value>)
    requires forall i :: 0 <= i < |keys| ==> keys[i] in store
    ensures |vs| == |keys| && forall i :: 0 <= i < |keys| ==> vs[i] == store[keys[i]]
  {
    seq(|keys|, i requires 0 <= i < |keys| => store[keys[i]])
  }

  /** The values at the keys of a complete prefix scan are exactly the records under that prefix. */
  /** In a family keyed by id, the records at different keys differ, so a scan repeats no value. */
  lemma ScanValuesNoDup(store: Store, prefix: string, keys: seq<string>)
    requires KeyedById(store, prefix) && NoDup(keys)
    requires forall i :: 0 <= i < |keys| ==> keys[i] in store && prefix <= keys[i]
    ensures NoDup(ValuesAt(store, keys))
  {
    var vs := ValuesAt(store, keys);
    forall i, j | 0 <= i < j < |vs| ensures vs[i] != vs[j] {
      assert keys[i] == RecordKey(prefix, vs[i]) && keys[j] == RecordKey(prefix, vs[j]);
    }
  }

  lemma ScanValues(store: Store, prefix: string, keys: seq<string>)
    requires forall k :: k in keys <==> k in store && prefix <= k
    ensures forall i :: 0 <= i < |keys| ==> keys[i] in store
    ensures forall v :: v in ValuesAt(store, keys) <==> StoredUnder(store, prefix, v)
  {
    assert forall i :: 0 <= i < |keys| ==> keys[i] in keys;
    var vs := ValuesAt(store, keys);
    forall v ensures v in vs <==> StoredUnder(store, prefix, v) {
      if v in vs {
        var i :| 0 <= i < |vs| && vs[i] == v;
        assert keys[i] in keys;
      }
      if StoredUnder(store, prefix, v) {
        var k :| k in store && prefix <= k && store[k] == v;
        var i :| 0 <= i < |keys| && keys[i] == k;
        assert vs[i] == v;
      }
    }
  }

  /** `find` over a complete prefix scan finds something exactly when some record under the prefix qualifies. */
  lemma ScanFind(store: Store, prefix: string, keys: seq<string>, p: Value -> bool)
    requires forall k :: k in keys <==> k in store && prefix <= k
    ensures forall i :: 0 <= i < |keys| ==> keys[i] in store
    ensures Find(ValuesAt(store, keys), p).Some? <==> exists k :: k in store && prefix <= k && p(store[k])
    ensures Find(ValuesAt(store, keys), p).Some? ==>
              exists k :: k in store && prefix <= k && store[k] == Find(ValuesAt(store, keys), p).value
  {
    ScanValues(store, prefix, keys);
    var vs := ValuesAt(store, keys);
    if exists k :: k in store && prefix <= k && p(store[k]) {
      var k :| k in store && prefix <= k && p(store[k]);
      var i :| 0 <= i < |keys| && keys[i] == k;
      assert p(vs[i]);
    }
    var r := Find(vs, p);
    if r.Some? {
      var i :| 0 <= i < |vs| && vs[i] == r.value && p(vs[i]);
      assert keys[i] in keys;
    }
  }

  /** `new Date(post.updatedAt).getTime()`, with dates held as integer timestamps. */
  function UpdatedAt(v: Value): int
  {
    match Prop(v, "updatedAt")
    case Some(Num(t)) => t
    case _ => 0
  }

  class Server {
    var store: Store

    predicate Valid()
      reads this
    {
      WellFormed(store)
    }

    constructor()
      ensures store == map[] && Valid() && UniqueSlugs(store)
    {
      store := map[];
    }

    /** `kv.getByPrefix`: every key under `prefix` once, in an order the store chooses. */
    method ScanPrefix(prefix: string) returns (keys: seq<string>)
      ensures NoDup(keys)
      ensures forall k :: k in keys <==> k in store && prefix <= k
    {
      var pending := KeysUnder(store, prefix);
      keys := [];
      while pending != {}
        invariant pending <= KeysUnder(store, prefix)
        invariant NoDup(keys)
        invariant forall k :: k in keys ==> k in KeysUnder(store, prefix) && k !in pending
        invariant forall k :: k in KeysUnder(store, prefix) ==> k in keys || k in pending
        decreases |pending|
      {
        var k :| k in pending;
        keys := keys + [k];
        pending := pending - {k};
      }
    }

    /** `find(p => p.slug === slug && p.id !== id)` over a scan of the blog posts. */
    method SlugInUse(slug: Option<Value>, id: Option<Value>) returns (taken: bool)
      ensures taken == SlugTaken(store, slug, id)
    {
      var keys := ScanPrefix(BlogPostPrefix);
      var conflicts := (p: Value) => StrictEq(PostSlug(p), slug) && !StrictEq(RecordId(p), id);
      ScanFind(store, BlogPostPrefix, keys, conflicts);
      var found := Find(ValuesAt(store, keys), conflicts);
      taken := found.Some?;
    }

    /** `GET /case-studies`: every stored case study, once each. */
    method ListCaseStudies() returns (r: Response)
      ensures r.Ok? && r.data.Arr?
      ensures forall v :: v in r.data.items <==> StoredUnder(store, CaseStudyPrefix, v)
      ensures |r.data.items| == |KeysUnder(store, CaseStudyPrefix)|
    {
      var keys := ScanPrefix(CaseStudyPrefix);
      ScanValues(store, CaseStudyPrefix, keys);
      NoDupCardinality(keys);
      assert (set k | k in keys) == KeysUnder(store, CaseStudyPrefix);
      r := Ok(Arr(ValuesAt(store, keys)));
    }

    /** `GET /blog-posts`: exactly the stored posts whose status is "published". */
    method ListPublishedPosts() returns (r: Response)
      requires Valid()
      ensures r.Ok? && r.data.Arr?
      ensures forall v :: v in r.data.items <==> StoredUnder(store, BlogPostPrefix, v) && IsPublished(v)
      ensures NoDup(r.data.items)
    {
      var keys := ScanPrefix(BlogPostPrefix);
      ScanValues(store, BlogPostPrefix, keys);
      assert forall i :: 0 <= i < |keys| ==> keys[i] in keys;
      ScanValuesNoDup(store, BlogPostPrefix, keys);
      var posts := ValuesAt(store, keys);
      var published := Filter(posts, IsPublished);
      FilterKeepsNoDup(posts, IsPublished);
      forall v | v in posts && IsPublished(v) ensures v in published {
        var i :| 0 <= i < |posts| && posts[i] == v;
      }
      r := Ok(Arr(published));
    }

    /**
     * `GET /blog-posts/:slug`: the first post the scan meets with that slug, if it is
     * published. With unique slugs the answer does not depend on the scan order.
     */
    method GetPostBySlug(slug: string) returns (r: Response)
      requires Valid()
      ensures r.Ok? ==> StoredUnder(store, BlogPostPrefix, r.data) &&
                        PostSlug(r.data) == Some(Str(slug)) && IsPublished(r.data)
      ensures !r.Ok? ==> r == Fail(404, "Blog post not found")
      ensures UniqueSlugs(store) && slug != "" ==>
                (r.Ok? <==> exists k :: k in store && BlogPostPrefix <= k &&
                                        PostSlug(store[k]) == Some(Str(slug)) && IsPublished(store[k]))
    {
      var keys := ScanPrefix(BlogPostPrefix);
      var matches := (p: Value) => StrictEq(PostSlug(p), Some(Str(slug)));
      ScanFind(store, BlogPostPrefix, keys, matches);
      var post := Find(ValuesAt(store, keys), matches);
      if post.None? {
        return Fail(404, "Blog post not found");
      }
      StrictEqIsEquality(PostSlug(post.value), Some(Str(slug)));
      if !IsPublished(post.value) {
        r := Fail(404, "Blog post not found");
        if UniqueSlugs(store) && slug != "" {
          var k1 :| k1 in store && BlogPostPrefix <= k1 && store[k1] == post.value;
          forall k | k in store && BlogPostPrefix <= k && PostSlug(store[k]) == Some(Str(slug))
            ensures !IsPublished(store[k])
          {
            if k != k1 {
              assert false;
            }
          }
        }
        return;
      }
      r := Ok(post.value);
    }

    /** `GET /admin/blog-posts`: every stored post, newest `updatedAt` first. */
    method AdminListPosts(auth: Option<string>) returns (r: Response)
      requires Valid()
      ensures !Authorized(auth) ==> r == Unauthorized
      ensures Authorized(auth) ==>
                r.Ok? && r.data.Arr? && SortedDesc(r.data.items, UpdatedAt) &&
                (forall v :: v in r.data.items <==> StoredUnder(store, BlogPostPrefix, v)) &&
                |r.data.items| == |KeysUnder(store, BlogPostPrefix)|
    {
      if !Authorized(auth) {
        return Unauthorized;
      }
      var keys := ScanPrefix(BlogPostPrefix);
      ScanValues(store, BlogPostPrefix, keys);
      NoDupCardinality(keys);
      assert (set k | k in keys) == KeysUnder(store, BlogPostPrefix);
      var posts := ValuesAt(store, keys);
      var sorted := SortByKeyDesc(posts, UpdatedAt);
      assert forall v :: v in sorted <==> v in multiset(posts);
      assert |sorted| == |multiset(sorted)|;
      r := Ok(Arr(sorted));
    }

    method CreateCaseStudy(auth: Option<string>, body: Value) returns (r: Response)
      requires Valid()
      modifies this
      ensures Valid()
      ensures Outcome(r, store) == CreateCaseStudyOutcome(old(store), auth, body)
    {
      if !Authorized(auth) {
        return Unauthorized;
      }
      if body.Null? {
        return Fail(500, "Failed to save case study");
      }
      if !Truthy(RecordId(body)) {
        return Fail(400, "Case study ID is required");
      }
      KeyFamiliesDisjoint(RecordKey(CaseStudyPrefix, body));
      WriteKeepsWellFormed(store, RecordKey(CaseStudyPrefix, body), body);
      store := store[RecordKey(CaseStudyPrefix, body) := body];
      r := Ok(body);
    }

    method UpdateCaseStudy(auth: Option<string>, id: string, updates: Value) returns (r: Response)
      requires Valid()
      modifies this
      ensures Valid()
      ensures Outcome(r, store) == UpdateCaseStudyOutcome(old(store), auth, id, updates)
    {
      if !Authorized(auth) {
        return Unauthorized;
      }
      var key := CaseStudyPrefix + id;
      var existing := Lookup(store, key);
      if !Truthy(existing) {
        return Fail(404, "Case study not found");
      }
      var updated := Obj(Merge(existing.value, updates, id));
      TemplateTextOfString(id);
      WriteKeepsWellFormed(store, key, updated);
      store := store[key := updated];
      r := Ok(updated);
    }

    method DeleteCaseStudy(auth: Option<string>, id: string) returns (r: Response)
      requires Valid()
      modifies this
      ensures Valid()
      ensures Outcome(r, store) == DeleteCaseStudyOutcome(old(store), auth, id)
    {
      if !Authorized(auth) {
        return Unauthorized;
      }
      store := store - {CaseStudyPrefix + id};
      r := Done("Case study deleted");
    }

    method PutSettings(auth: Option<string>, body: Value) returns (r: Response)
      requires Valid()
      modifies this
      ensures Valid()
      ensures Outcome(r, store) == PutSettingsOutcome(old(store), auth, body)
    {
      if !Authorized(auth) {
        return Unauthorized;
      }
      KeyFamiliesDisjoint(SettingsKey);
      WriteKeepsWellFormed(store, SettingsKey, body);
      store := store[SettingsKey := body];
      r := Ok(body);
    }

    method PostHomepageSections(auth: Option<string>, body: Value) returns (r: Response)
      requires Valid()
      modifies this
      ensures Valid()
      ensures Outcome(r, store) == PostSectionsOutcome(old(store), auth, body)
    {
      if !Authorized(auth) {
        return Unauthorized;
      }
      if body.Null? {
        return Fail(500, "Failed to update homepage sections");
      }
      var sections := Prop(body, "sections");
      if !Truthy(sections) || !sections.value.Arr? {
        return Fail(400, "Invalid sections data");
      }
      KeyFamiliesDisjoint(SectionsKey);
      WriteKeepsWellFormed(store, SectionsKey, sections.value);
      store := store[SectionsKey := sections.value];
      r := Ok(sections.value);
    }

    method CreatePost(auth: Option<string>, body: Value, uuid: string) returns (r: Response)
      requires Valid()
      modifies this
      ensures Valid()
      ensures Outcome(r, store) == CreatePostOutcome(old(store), auth, body, uuid)
      ensures old(UniqueSlugs(store)) ==> UniqueSlugs(store)
    {
      CreatePostKeepsInvariants(store, auth, body, uuid);
      if !Authorized(auth) {
        return Unauthorized;
      }
      if body.Null? {
        return Fail(500, "Failed to create blog post");
      }
      var post := body;
      if !Truthy(RecordId(post)) {
        if post.Obj? {
          post := Obj(post.fields["id" := Str(uuid)]);
        } else if !post.Arr? {
          return Fail(500, "Failed to create blog post");
        }
      }
      if !Truthy(PostSlug(post)) {
        return Fail(400, "Slug is required");
      }
      var existing := SlugInUse(PostSlug(post), RecordId(post));
      if existing {
        return Fail(400, "A post with this slug already exists");
      }
      store := store[RecordKey(BlogPostPrefix, post) := post];
      r := Ok(post);
    }

    method UpdatePost(auth: Option<string>, id: string, updates: Value) returns (r: Response)
      requires Valid()
      modifies this
      ensures Valid()
      ensures Outcome(r, store) == UpdatePostOutcome(old(store), auth, id, updates)
      ensures old(UniqueSlugs(store)) ==> UniqueSlugs(store)
    {
      UpdatePostKeepsInvariants(store, auth, id, updates);
      if !Authorized(auth) {
        return Unauthorized;
      }
      var key := BlogPostPrefix + id;
      var existing := Lookup(store, key);
      if !Truthy(existing) {
        return Fail(404, "Blog post not found");
      }
      if updates.Null? {
        return Fail(500, "Failed to update blog post");
      }
      var slug := PostSlug(updates);
      if Truthy(slug) && !StrictEq(slug, PostSlug(existing.value)) {
        var conflicting := SlugInUse(slug, Some(Str(id)));
        if conflicting {
          return Fail(400, "A post with this slug already exists");
        }
      }
      var updated := Obj(Merge(existing.value, updates, id));
      store := store[key := updated];
      r := Ok(updated);
    }

    method DeletePost(auth: Option<string>, id: string) returns (r: Response)
      requires Valid()
      modifies this
      ensures Valid()
      ensures Outcome(r, store) == DeletePostOutcome(old(store), auth, id)
      ensures old(UniqueSlugs(store)) ==> UniqueSlugs(store)
    {
      if !Authorized(auth) {
        return Unauthorized;
      }
      RemoveKeepsInvariants(store, BlogPostPrefix + id);
      store := store - {BlogPostPrefix + id};
      r := Done("Blog post deleted");
    }

    /**
     * One loop of `/admin/initialize`: `kv.set` each record at its own key, in order,
     * stopping (the handler then answers 500) at the first `null` entry.
     */
    method WriteRecords(prefix: string, items: seq<Value>) returns (completed: bool)
      requires Valid() && (prefix == CaseStudyPrefix || prefix == BlogPostPrefix)
      modifies this
      ensures Valid()
      ensures completed <==> LeadingNonNull(items) == |items|
      ensures store == WriteAll(old(store), RecordWrites(prefix, items[..LeadingNonNull(items)]))
    {
      var i := 0;
      while i < |items|
        invariant 0 <= i <= |items|
        invariant forall j :: 0 <= j < i ==> !items[j].Null?
        invariant Valid()
        invariant store == WriteAll(old(store), RecordWrites(prefix, items[..i]))
      {
        var item := items[i];
        if item.Null? {
          LeadingNonNullAt(items, i);
          return false;
        }
        WriteKeepsWellFormed(store, RecordKey(prefix, item), item);
        RecordWritesStep(old(store), prefix, items, i);
        store := store[RecordKey(prefix, item) := item];
        i := i + 1;
      }
      assert items[..i] == items;
      LeadingNonNullAt(items, i);
      return true;
    }

    method Initialize(auth: Option<string>, body: Value) returns (r: Response)
      requires Valid()
      modifies this
      ensures Valid()
      ensures Outcome(r, store) == InitializeOutcome(old(store), auth, body)
    {
      if !Authorized(auth) {
        return Unauthorized;
      }
      if body.Null? {
        return Fail(500, InitFailure);
      }
      var caseStudies := Prop(body, "caseStudies");
      var blogPosts := Prop(body, "blogPosts");
      if !Truthy(caseStudies) || !caseStudies.value.Arr? {
        return Fail(400, "Invalid case studies data");
      }
      var studies := caseStudies.value.items;
      var completed := WriteRecords(CaseStudyPrefix, studies);
      if !completed {
        return Fail(500, InitFailure);
      }
      if Truthy(blogPosts) && blogPosts.value.Arr? {
        completed := WriteRecords(BlogPostPrefix, blogPosts.value.items);
        if !completed {
          return Fail(500, InitFailure);
        }
      } else {
        assert RecordWrites(BlogPostPrefix, [][..0]) == [];
      }
      var existingSettings := Lookup(store, SettingsKey);
      if !Truthy(existingSettings) {
        KeyFamiliesDisjoint(SettingsKey);
        WriteKeepsWellFormed(store, SettingsKey, InitialSettings);
        store := store[SettingsKey := InitialSettings];
      }
      r := Done(InitMessage(|studies|, blogPosts));
    }
  }
}
