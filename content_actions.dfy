/** The content server actions (src/app/actions/content-actions.ts): page-content updates,
    create/update/delete of posts and classes, and the admin credential change. Each action
    reads the whole list from the store, edits it, and writes the whole list back. */
module ContentActions {
  import opened Wrappers
  import opened Types
  import opened JsString
  import opened EmptyData
  import opened CmsStore
  import opened KeyedLists
  import Seqs
  import Slugify

  /** The object every action returns: `{ success, message }`, plus the slug after a create. */
  datatype Reply = Reply(success: bool, message: string, slug: Option<string>)

  function Succeeded(message: string): Reply {
    Reply(true, message, None)
  }

  function Failed(message: string): Reply {
    Reply(false, message, None)
  }

  /** The submitted form fields; a field the form did not send reads as "". */
  type Form = map<string, string>

  function Field(form: Form, name: string): string {
    if name in form then form[name] else ""
  }

  const Languages: seq<Language> := [En, De, Fa]

  function LangCode(lang: Language): string {
    match lang
    case En => "en"
    case De => "de"
    case Fa => "fa"
  }

  // ---- page content ----

  /** The entities saved whole by `updateHomeContent`, `updateAboutContent`,
      `updateContactContent` and `updateTimeline`. */
  predicate IsPageContent(e: Entity) {
    e == Home || e == About || e == Contact || e == Timeline
  }

  function UpdateSuccessMessage(e: Entity): string {
    match e
    case Home => "Home page content updated successfully!"
    case About => "About page content updated successfully!"
    case Contact => "Contact page content updated successfully!"
    case _ => "Timeline updated successfully!"
  }

  function UpdateFailureMessage(e: Entity): string {
    if e == Timeline then "Failed to update timeline." else "Failed to update content."
  }

  /** The reply of a page-content update: a success exactly when the write goes through. */
  function UpdateContentReply(configured: bool, e: Entity, io: Io): (r: Reply)
    ensures r.success <==> WriteOutcome(configured, io).Pass?
    ensures r.message == if r.success then UpdateSuccessMessage(e) else UpdateFailureMessage(e)
  {
    if WriteOutcome(configured, io).Pass? then Succeeded(UpdateSuccessMessage(e)) else Failed(UpdateFailureMessage(e))
  }

  /** The four page-content updates: save the value whole and report the outcome. */
  method UpdateContent(s: Store, e: Entity, v: Value, io: Io) returns (r: Reply)
    requires s.Valid() && IsPageContent(e) && Fits(e, v)
    modifies s
    ensures s.Valid()
    ensures s.configured == old(s.configured) && s.env == old(s.env) && s.empty == old(s.empty)
    ensures s.blobs == WriteEffect(s.configured, old(s.blobs), DataPath(e), v, io)
    ensures r == UpdateContentReply(s.configured, e, io)
  {
    var saved := s.Save(e, v, io);
    if saved.Fail? {
      return Failed(UpdateFailureMessage(e));
    }
    r := Succeeded(UpdateSuccessMessage(e));
  }

  // ---- form parsing ----

  /** The localized text a form sends as the fields `prefix + "en"`, `"de"` and `"fa"`. */
  function FormLoc(form: Form, prefix: string): (r: Loc)
    ensures forall lang: Language :: r.Get(lang) == Field(form, prefix + LangCode(lang))
  {
    Loc(Field(form, prefix + "en"), Field(form, prefix + "de"), Field(form, prefix + "fa"))
  }

  /** The `languages.forEach` loop that fills one localized field from the form. */
  method FillLoc(form: Form, prefix: string) returns (r: Loc)
    ensures r == FormLoc(form, prefix)
  {
    r := EmptyLoc;
    for i := 0 to |Languages|
      invariant forall j :: 0 <= j < i ==> r.Get(Languages[j]) == Field(form, prefix + LangCode(Languages[j]))
    {
      var lang := Languages[i];
      r := r.With(lang, Field(form, prefix + LangCode(lang)));
    }
    assert r.Get(Languages[0]) == r.en && r.Get(Languages[1]) == r.de && r.Get(Languages[2]) == r.fa;
  }

  predicate NonEmpty(s: string) {
    s != ""
  }

  function TrimAll(pieces: seq<string>): (r: seq<string>)
    ensures |r| == |pieces|
    ensures forall i :: 0 <= i < |r| ==> r[i] == Trim(pieces[i])
  {
    seq(|pieces|, i requires 0 <= i < |pieces| => Trim(pieces[i]))
  }

  /** `(text || '').split(sep).map(t => t.trim()).filter(Boolean)`: the non-empty trimmed
      pieces, in order. */
  function ParseList(text: string, sep: char): (r: seq<string>)
    ensures forall i :: 0 <= i < |r| ==> r[i] != "" && IsTrimmed(r[i]) && sep !in r[i]
  {
    var pieces := Split(text, sep);
    var trimmed := TrimAll(pieces);
    forall i | 0 <= i < |trimmed|
      ensures IsTrimmed(trimmed[i]) && sep !in trimmed[i]
    {
      TrimResult(pieces[i]);
    }
    Seqs.Filter(trimmed, NonEmpty)
  }

  /** Parsing a list joined with the separator gives the list back, when every entry is
      non-empty, trimmed and free of the separator. */
  lemma ParseJoin(parts: seq<string>, sep: char)
    requires forall i :: 0 <= i < |parts| ==> parts[i] != "" && IsTrimmed(parts[i]) && sep !in parts[i]
    ensures ParseList(Join(parts, [sep]), sep) == parts
  {
    if parts == [] {
      ParseEmpty(sep);
    } else {
      var text := Join(parts, [sep]);
      assert Split(text, sep) == parts by {
        SplitJoin(parts, sep);
      }
      assert TrimAll(parts) == parts by {
        TrimAllTrimmed(parts);
      }
      assert Seqs.Filter(parts, NonEmpty) == parts by {
        Seqs.FilterAll(parts, NonEmpty);
      }
      ParseListStages(text, sep, parts, parts, parts);
    }
  }

  /** An empty text is one empty piece, which the filter drops. */
  lemma ParseEmpty(sep: char)
    ensures ParseList("", sep) == []
  {
    assert Split("", sep) == [""];
    assert TrimAll([""]) == [""];
    ParseListStages("", sep, [""], [""], []);
  }

  /** `ParseList` as its stages: split, trim every piece, keep the non-empty ones. */
  lemma ParseListStages(text: string, sep: char, pieces: seq<string>, trimmed: seq<string>, r: seq<string>)
    requires Split(text, sep) == pieces && TrimAll(pieces) == trimmed
    requires Seqs.Filter(trimmed, NonEmpty) == r
    ensures ParseList(text, sep) == r
  {
  }

  /** Trimming entries that are already trimmed changes nothing. */
  lemma TrimAllTrimmed(parts: seq<string>)
    requires forall i :: 0 <= i < |parts| ==> IsTrimmed(parts[i])
    ensures TrimAll(parts) == parts
  {
    forall i | 0 <= i < |parts|
      ensures Trim(parts[i]) == parts[i]
    {
      TrimTrimmed(parts[i]);
    }
  }

  /** Entry `i` of a per-language list, or '' past its end (`list[i] || ''`). */
  function At(list: seq<string>, i: nat): string {
    if i < |list| then list[i] else ""
  }

  function Max3(a: nat, b: nat, c: nat): (r: nat)
    ensures r >= a && r >= b && r >= c
    ensures r == a || r == b || r == c
  {
    if a >= b && a >= c then a else if b >= c then b else c
  }

  /** The per-language lists zipped into localized entries, as long as the longest list. */
  function Zip3(en: seq<string>, de: seq<string>, fa: seq<string>): (r: seq<Loc>)
    ensures |r| == Max3(|en|, |de|, |fa|)
    ensures forall i :: 0 <= i < |r| ==> r[i] == Loc(At(en, i), At(de, i), At(fa, i))
  {
    seq(Max3(|en|, |de|, |fa|), i requires 0 <= i => Loc(At(en, i), At(de, i), At(fa, i)))
  }

  /** The `for` loop that pushes one localized entry per index up to the longest list. */
  method ZipLists(en: seq<string>, de: seq<string>, fa: seq<string>) returns (r: seq<Loc>)
    ensures r == Zip3(en, de, fa)
  {
    var n := Max3(|en|, |de|, |fa|);
    r := [];
    for i := 0 to n
      invariant |r| == i
      invariant forall k :: 0 <= k < i ==> r[k] == Loc(At(en, k), At(de, k), At(fa, k))
    {
      r := r + [Loc(At(en, i), At(de, i), At(fa, i))];
    }
  }

  /** One language of a list of localized entries. */
  function Column(list: seq<Loc>, lang: Language): (r: seq<string>)
    ensures |r| == |list|
    ensures forall i :: 0 <= i < |list| ==> r[i] == list[i].Get(lang)
  {
    if list == [] then [] else [list[0].Get(lang)] + Column(list[1..], lang)
  }

  function Blanks(n: nat): (r: seq<string>)
    ensures |r| == n && forall i :: 0 <= i < n ==> r[i] == ""
  {
    if n == 0 then [] else [""] + Blanks(n - 1)
  }

  /** The list of one language among the three. */
  function Pick(en: seq<string>, de: seq<string>, fa: seq<string>, lang: Language): seq<string> {
    match lang
    case En => en
    case De => de
    case Fa => fa
  }

  /** Each language of the zipped entries is that language's list padded with ''. */
  lemma ZipColumn(en: seq<string>, de: seq<string>, fa: seq<string>, lang: Language)
    ensures Column(Zip3(en, de, fa), lang) == Pick(en, de, fa, lang) + Blanks(Max3(|en|, |de|, |fa|) - |Pick(en, de, fa, lang)|)
  {
  }

  /** Dropping the blanks from a language of the zipped entries gives back the parsed list,
      so no tag, objective or prerequisite is lost or reordered by the zip. */
  lemma ZipRoundTrip(en: seq<string>, de: seq<string>, fa: seq<string>, lang: Language)
    requires forall i :: 0 <= i < |en| ==> en[i] != ""
    requires forall i :: 0 <= i < |de| ==> de[i] != ""
    requires forall i :: 0 <= i < |fa| ==> fa[i] != ""
    ensures Seqs.Filter(Column(Zip3(en, de, fa), lang), NonEmpty) == Pick(en, de, fa, lang)
  {
    ZipColumn(en, de, fa, lang);
    var list := Pick(en, de, fa, lang);
    DropPadding(list, Max3(|en|, |de|, |fa|) - |list|);
  }

  /** Filtering out the blanks of a list of non-empty entries padded with blanks. */
  lemma DropPadding(list: seq<string>, n: nat)
    requires forall i :: 0 <= i < |list| ==> list[i] != ""
    ensures Seqs.Filter(list + Blanks(n), NonEmpty) == list
  {
    Seqs.FilterConcat(list, Blanks(n), NonEmpty);
    Seqs.FilterAll(list, NonEmpty);
    NoneNonEmpty(Blanks(n));
  }

  lemma {:induction false} NoneNonEmpty(pad: seq<string>)
    requires forall i :: 0 <= i < |pad| ==> pad[i] == ""
    ensures Seqs.Filter(pad, NonEmpty) == []
  {
    if pad != [] {
      NoneNonEmpty(pad[1..]);
    }
  }

  predicate IsDigit(c: char) {
    '0' <= c <= '9'
  }

  function DigitsValue(s: string): nat
    requires forall i :: 0 <= i < |s| ==> IsDigit(s[i])
  {
    if s == [] then 0 else assert IsDigit(s[|s| - 1]); DigitsValue(s[..|s| - 1]) * 10 + (s[|s| - 1] as int - '0' as int)
  }

  /** `Number(text)` for the text of a numeric input: blank text is 0, a run of decimal digits
      is its value, anything else is NaN. */
  function NumberOf(text: string): (r: NumField)
    ensures r.Num? || r.NaN?
    ensures Trim(text) == "" ==> r == Num(0)
  {
    var t := Trim(text);
    if t == "" then Num(0)
    else if forall i :: 0 <= i < |t| ==> IsDigit(t[i]) then Num(DigitsValue(t))
    else NaN
  }

  /** `formData.get(name) ? Number(formData.get(name)) : undefined`. */
  function OptionalNumber(form: Form, name: string): (r: NumField)
    ensures r == Undefined <==> Field(form, name) == ""
    ensures r != Null
  {
    if Field(form, name) == "" then Undefined else NumberOf(Field(form, name))
  }

  /** A price of "0" is kept as the number 0: only an empty field leaves the price unset. */
  lemma ZeroPriceKept(form: Form)
    requires Field(form, "price") == "0"
    ensures OptionalNumber(form, "price") == Num(0)
  {
    SingleDigit(Field(form, "price"));
  }

  lemma SingleDigit(t: string)
    requires |t| == 1 && IsDigit(t[0])
    ensures NumberOf(t) == Num(t[0] as int - '0' as int)
  {
    assert !IsSpace(t[0]);
    assert IsTrimmed(t);
    TrimTrimmed(t);
    assert t[..0] == [];
    assert forall i :: 0 <= i < |t| ==> IsDigit(t[i]);
    assert DigitsValue(t) == t[0] as int - '0' as int;
  }

  // ---- posts ----

  function PostSlug(p: Post): string {
    p.slug
  }

  /** The post `createPost` builds from the form before it knows the slug and date. */
  function PostData(form: Form, category: PostCategory): Post {
    Post("", FormLoc(form, "title-"), FormLoc(form, "excerpt-"), FormLoc(form, "content-"),
         Field(form, "author"), "", category, Field(form, "imageUrl"), Field(form, "imageHint"),
         Zip3(ParseList(Field(form, "tags-en"), ','), ParseList(Field(form, "tags-de"), ','),
              ParseList(Field(form, "tags-fa"), ',')),
         Seo(FormLoc(form, "seo-title-"), FormLoc(form, "seo-desc-")))
  }

  function NewPost(form: Form, category: PostCategory, slug: string, date: string): Post {
    PostData(form, category).(slug := slug, date := date)
  }

  /** `createPost`. The category is the value of the form's category select; `now` is the
      ISO time of the call. */
  method CreatePost(s: Store, form: Form, category: PostCategory, now: string, io: Io) returns (r: Reply)
    requires s.Valid()
    modifies s
    ensures s.Valid()
    ensures s.configured == old(s.configured) && s.env == old(s.env) && s.empty == old(s.empty)
    ensures Field(form, "title-en") == "" ==> r == Failed("title_required") && s.blobs == old(s.blobs)
    ensures Field(form, "title-en") != "" ==>
      var read := ReadResult(s.configured, old(s.blobs), DataPath(Posts), DefaultOf(Posts, s.empty), io);
      var seeded := ReadEffect(s.configured, old(s.blobs), DataPath(Posts), DefaultOf(Posts, s.empty), io);
      var slug := Slugify.Slugify(Field(form, "title-en"));
      (read.Err? ==> r == Failed("Failed to create post.") && s.blobs == seeded)
      && (read.Ok? && HasKey(PostsOf(read.value.value), PostSlug, slug) ==>
            r == Failed("A post with slug \"" + slug + "\" already exists.") && s.blobs == seeded)
      && (read.Ok? && !HasKey(PostsOf(read.value.value), PostSlug, slug) ==>
            s.blobs == WriteEffect(s.configured, seeded, DataPath(Posts),
                                   PostsV([NewPost(form, category, slug, now)] + PostsOf(read.value.value)), io)
            && r == if WriteOutcome(s.configured, io).Pass? then Reply(true, "Post created successfully!", Some(slug))
                    else Failed("Failed to create post."))
  {
    var titleEn := Field(form, "title-en");
    if titleEn == "" {
      return Failed("title_required");
    }
    var tagsEn := ParseList(Field(form, "tags-en"), ',');
    var tagsDe := ParseList(Field(form, "tags-de"), ',');
    var tagsFa := ParseList(Field(form, "tags-fa"), ',');
    var tags := ZipLists(tagsEn, tagsDe, tagsFa);
    var title := FillLoc(form, "title-");
    var excerpt := FillLoc(form, "excerpt-");
    var content := FillLoc(form, "content-");
    var seoTitle := FillLoc(form, "seo-title-");
    var seoDescription := FillLoc(form, "seo-desc-");
    var postData := Post("", title, excerpt, content, Field(form, "author"), "", category,
                         Field(form, "imageUrl"), Field(form, "imageHint"), tags, Seo(seoTitle, seoDescription));
    assert postData == PostData(form, category);

    var read := s.Get(Posts, io);
    if read.Err? {
      return Failed("Failed to create post.");
    }
    var posts := PostsOf(read.value.value);
    var slug := Slugify.Slugify(titleEn);
    if IndexOfKey(posts, PostSlug, slug) >= 0 {
      return Failed("A post with slug \"" + slug + "\" already exists.");
    }
    var newPost := postData.(slug := slug, date := now);
    var saved := s.Save(Posts, PostsV([newPost] + posts), io);
    if saved.Fail? {
      return Failed("Failed to create post.");
    }
    r := Reply(true, "Post created successfully!", Some(slug));
  }

  /** `updatePost`. The list a fallback read hands out is `EMPTY_DATA.posts` itself, so the
      in-place assignment also changes what later fallback reads return. */
  method UpdatePost(s: Store, updated: Post, io: Io) returns (r: Reply)
    requires s.Valid()
    modifies s
    ensures s.Valid()
    ensures s.configured == old(s.configured) && s.env == old(s.env)
    ensures
      var read := ReadResult(s.configured, old(s.blobs), DataPath(Posts), DefaultOf(Posts, old(s.empty)), io);
      var seeded := ReadEffect(s.configured, old(s.blobs), DataPath(Posts), DefaultOf(Posts, old(s.empty)), io);
      (read.Err? ==> r == Failed("Failed to update post.") && s.blobs == seeded && s.empty == old(s.empty))
      && (read.Ok? && !HasKey(PostsOf(read.value.value), PostSlug, updated.slug) ==>
            r == Failed("Post not found.") && s.blobs == seeded && s.empty == old(s.empty))
      && (read.Ok? && HasKey(PostsOf(read.value.value), PostSlug, updated.slug) ==>
            var posts := ReplaceFirst(PostsOf(read.value.value), PostSlug, updated).value;
            s.blobs == WriteEffect(s.configured, seeded, DataPath(Posts), PostsV(posts), io)
            && s.empty == (if read.value.isDefault then WithDefault(old(s.empty), Posts, PostsV(posts)) else old(s.empty))
            && r == if WriteOutcome(s.configured, io).Pass? then Succeeded("Post updated successfully!")
                    else Failed("Failed to update post."))
  {
    var read := s.Get(Posts, io);
    if read.Err? {
      return Failed("Failed to update post.");
    }
    var posts := PostsOf(read.value.value);
    var postIndex := IndexOfKey(posts, PostSlug, updated.slug);
    if postIndex == -1 {
      return Failed("Post not found.");
    }
    posts := posts[postIndex := updated];
    if read.value.isDefault {
      s.ChangeDefaultInPlace(Posts, PostsV(posts));
    }
    var saved := s.Save(Posts, PostsV(posts), io);
    if saved.Fail? {
      return Failed("Failed to update post.");
    }
    r := Succeeded("Post updated successfully!");
  }

  /** `deletePost`: removes every post with the slug and reports success even when none
      matched. */
  method DeletePost(s: Store, slug: string, io: Io) returns (r: Reply)
    requires s.Valid()
    modifies s
    ensures s.Valid()
    ensures s.configured == old(s.configured) && s.env == old(s.env) && s.empty == old(s.empty)
    ensures
      var read := ReadResult(s.configured, old(s.blobs), DataPath(Posts), DefaultOf(Posts, s.empty), io);
      var seeded := ReadEffect(s.configured, old(s.blobs), DataPath(Posts), DefaultOf(Posts, s.empty), io);
      (read.Err? ==> r == Failed("Failed to delete post.") && s.blobs == seeded)
      && (read.Ok? ==>
            s.blobs == WriteEffect(s.configured, seeded, DataPath(Posts), PostsV(RemoveKey(PostsOf(read.value.value), PostSlug, slug)), io)
            && r == if WriteOutcome(s.configured, io).Pass? then Succeeded("Post deleted successfully!")
                    else Failed("Failed to delete post."))
  {
    var read := s.Get(Posts, io);
    if read.Err? {
      return Failed("Failed to delete post.");
    }
    var updatedPosts := RemoveKey(PostsOf(read.value.value), PostSlug, slug);
    var saved := s.Save(Posts, PostsV(updatedPosts), io);
    if saved.Fail? {
      return Failed("Failed to delete post.");
    }
    r := Succeeded("Post deleted successfully!");
  }

  // ---- classes ----

  function ClassSlug(c: Class): string {
    c.slug
  }

  /** The class `createClass` builds from the form before it knows the slug. */
  function ClassData(form: Form, classType: ClassType, level: ClassLevel, status: ClassStatus): Class {
    Class("", FormLoc(form, "title-"), classType, level, status, FormLoc(form, "excerpt-"),
          FormLoc(form, "description-"),
          Zip3(ParseList(Field(form, "objectives-en"), '\n'), ParseList(Field(form, "objectives-de"), '\n'),
               ParseList(Field(form, "objectives-fa"), '\n')),
          Zip3(ParseList(Field(form, "prerequisites-en"), '\n'), ParseList(Field(form, "prerequisites-de"), '\n'),
               ParseList(Field(form, "prerequisites-fa"), '\n')),
          Field(form, "imageUrl"), Field(form, "imageHint"),
          Schedule(FormLoc(form, "schedule-days-"), Field(form, "scheduleTime")),
          OptionalNumber(form, "price"), OptionalNumber(form, "maxStudents"),
          Seo(FormLoc(form, "seo-title-"), FormLoc(form, "seo-desc-")))
  }

  /** `createClass`. Type, level and status are the values of the form's selects. */
  method CreateClass(s: Store, form: Form, classType: ClassType, level: ClassLevel, status: ClassStatus, io: Io)
    returns (r: Reply)
    requires s.Valid()
    modifies s
    ensures s.Valid()
    ensures s.configured == old(s.configured) && s.env == old(s.env) && s.empty == old(s.empty)
    ensures Field(form, "title-en") == "" ==> r == Failed("title_required") && s.blobs == old(s.blobs)
    ensures Field(form, "title-en") != "" ==>
      var read := ReadResult(s.configured, old(s.blobs), DataPath(Classes), DefaultOf(Classes, s.empty), io);
      var seeded := ReadEffect(s.configured, old(s.blobs), DataPath(Classes), DefaultOf(Classes, s.empty), io);
      var slug := Slugify.Slugify(Field(form, "title-en"));
      (read.Err? ==> r == Failed("Failed to create class.") && s.blobs == seeded)
      && (read.Ok? && HasKey(ClassesOf(read.value.value), ClassSlug, slug) ==>
            r == Failed("A class with slug \"" + slug + "\" already exists.") && s.blobs == seeded)
      && (read.Ok? && !HasKey(ClassesOf(read.value.value), ClassSlug, slug) ==>
            s.blobs == WriteEffect(s.configured, seeded, DataPath(Classes),
                                   ClassesV([ClassData(form, classType, level, status).(slug := slug)] + ClassesOf(read.value.value)), io)
            && r == if WriteOutcome(s.configured, io).Pass? then Reply(true, "Class created successfully!", Some(slug))
                    else Failed("Failed to create class."))
  {
    var titleEn := Field(form, "title-en");
    if titleEn == "" {
      return Failed("title_required");
    }
    var objectivesEn := ParseList(Field(form, "objectives-en"), '\n');
    var objectivesDe := ParseList(Field(form, "objectives-de"), '\n');
    var objectivesFa := ParseList(Field(form, "objectives-fa"), '\n');
    var prerequisitesEn := ParseList(Field(form, "prerequisites-en"), '\n');
    var prerequisitesDe := ParseList(Field(form, "prerequisites-de"), '\n');
    var prerequisitesFa := ParseList(Field(form, "prerequisites-fa"), '\n');
    var title := FillLoc(form, "title-");
    var excerpt := FillLoc(form, "excerpt-");
    var description := FillLoc(form, "description-");
    var days := FillLoc(form, "schedule-days-");
    var seoTitle := FillLoc(form, "seo-title-");
    var seoDescription := FillLoc(form, "seo-desc-");
    var objectives := ZipLists(objectivesEn, objectivesDe, objectivesFa);
    var prerequisites := ZipLists(prerequisitesEn, prerequisitesDe, prerequisitesFa);
    var classData := Class("", title, classType, level, status, excerpt, description, objectives, prerequisites,
                           Field(form, "imageUrl"), Field(form, "imageHint"), Schedule(days, Field(form, "scheduleTime")),
                           OptionalNumber(form, "price"), OptionalNumber(form, "maxStudents"), Seo(seoTitle, seoDescription));
    assert classData == ClassData(form, classType, level, status);

    var read := s.Get(Classes, io);
    if read.Err? {
      return Failed("Failed to create class.");
    }
    var classes := ClassesOf(read.value.value);
    var slug := Slugify.Slugify(titleEn);
    if IndexOfKey(classes, ClassSlug, slug) >= 0 {
      return Failed("A class with slug \"" + slug + "\" already exists.");
    }
    var saved := s.Save(Classes, ClassesV([classData.(slug := slug)] + classes), io);
    if saved.Fail? {
      return Failed("Failed to create class.");
    }
    r := Reply(true, "Class created successfully!", Some(slug));
  }

  /** `updateClass`, with the same in-place change of a fallback list as `updatePost`. */
  method UpdateClass(s: Store, updated: Class, io: Io) returns (r: Reply)
    requires s.Valid()
    modifies s
    ensures s.Valid()
    ensures s.configured == old(s.configured) && s.env == old(s.env)
    ensures
      var read := ReadResult(s.configured, old(s.blobs), DataPath(Classes), DefaultOf(Classes, old(s.empty)), io);
      var seeded := ReadEffect(s.configured, old(s.blobs), DataPath(Classes), DefaultOf(Classes, old(s.empty)), io);
      (read.Err? ==> r == Failed("Failed to update class.") && s.blobs == seeded && s.empty == old(s.empty))
      && (read.Ok? && !HasKey(ClassesOf(read.value.value), ClassSlug, updated.slug) ==>
            r == Failed("Class not found.") && s.blobs == seeded && s.empty == old(s.empty))
      && (read.Ok? && HasKey(ClassesOf(read.value.value), ClassSlug, updated.slug) ==>
            var classes := ReplaceFirst(ClassesOf(read.value.value), ClassSlug, updated).value;
            s.blobs == WriteEffect(s.configured, seeded, DataPath(Classes), ClassesV(classes), io)
            && s.empty == (if read.value.isDefault then WithDefault(old(s.empty), Classes, ClassesV(classes)) else old(s.empty))
            && r == if WriteOutcome(s.configured, io).Pass? then Succeeded("Class updated successfully!")
                    else Failed("Failed to update class."))
  {
    var read := s.Get(Classes, io);
    if read.Err? {
      return Failed("Failed to update class.");
    }
    var classes := ClassesOf(read.value.value);
    var classIndex := IndexOfKey(classes, ClassSlug, updated.slug);
    if classIndex == -1 {
      return Failed("Class not found.");
    }
    classes := classes[classIndex := updated];
    if read.value.isDefault {
      s.ChangeDefaultInPlace(Classes, ClassesV(classes));
    }
    var saved := s.Save(Classes, ClassesV(classes), io);
    if saved.Fail? {
      return Failed("Failed to update class.");
    }
    r := Succeeded("Class updated successfully!");
  }

  /** `deleteClass`: removes every class with the slug, success even when none matched. */
  method DeleteClass(s: Store, slug: string, io: Io) returns (r: Reply)
    requires s.Valid()
    modifies s
    ensures s.Valid()
    ensures s.configured == old(s.configured) && s.env == old(s.env) && s.empty == old(s.empty)
    ensures
      var read := ReadResult(s.configured, old(s.blobs), DataPath(Classes), DefaultOf(Classes, s.empty), io);
      var seeded := ReadEffect(s.configured, old(s.blobs), DataPath(Classes), DefaultOf(Classes, s.empty), io);
      (read.Err? ==> r == Failed("Failed to delete class.") && s.blobs == seeded)
      && (read.Ok? ==>
            s.blobs == WriteEffect(s.configured, seeded, DataPath(Classes), ClassesV(RemoveKey(ClassesOf(read.value.value), ClassSlug, slug)), io)
            && r == if WriteOutcome(s.configured, io).Pass? then Succeeded("Class deleted successfully!")
                    else Failed("Failed to delete class."))
  {
    var read := s.Get(Classes, io);
    if read.Err? {
      return Failed("Failed to delete class.");
    }
    var updatedClasses := RemoveKey(ClassesOf(read.value.value), ClassSlug, slug);
    var saved := s.Save(Classes, ClassesV(updatedClasses), io);
    if saved.Fail? {
      return Failed("Failed to delete class.");
    }
    r := Succeeded("Class deleted successfully!");
  }

  // ---- credentials ----

  /** The outcome of the checks `updateUserCredentials` makes once it has the admin user. */
  datatype CredentialCheck = Reject(message: string) | Accept(user: AdminUser)

  /** The current password must match; a non-empty new password must equal its confirmation.
      The email is always replaced, and an empty new password keeps the old one. */
  function CheckCredentials(admin: AdminUser, currentPassword: string, newEmail: string,
                            newPassword: string, confirmPassword: string): (r: CredentialCheck)
    ensures r.Accept? <==> currentPassword == admin.password && (newPassword == "" || newPassword == confirmPassword)
    ensures currentPassword != admin.password ==> r == Reject("Incorrect current password.")
    ensures currentPassword == admin.password && newPassword != "" && newPassword != confirmPassword ==>
      r == Reject("New passwords do not match.")
    ensures r.Accept? ==> r.user.email == newEmail
    ensures r.Accept? ==> r.user.password == if newPassword == "" then admin.password else newPassword
  {
    if admin.password != currentPassword then Reject("Incorrect current password.")
    else if newPassword != "" && newPassword != confirmPassword then Reject("New passwords do not match.")
    else Accept(AdminUser(newEmail, if newPassword != "" then newPassword else admin.password))
  }

  /** `updateUserCredentials`. The admin read happens outside the `try`, so its failure escapes
      as an exception (`Err`). While the environment holds the credentials the save is skipped
      and the action still reports success. */
  method UpdateUserCredentials(s: Store, form: Form, io: Io) returns (r: Result<Reply>)
    requires s.Valid()
    modifies s
    ensures s.Valid()
    ensures s.configured == old(s.configured) && s.env == old(s.env) && s.empty == old(s.empty)
    ensures Field(form, "currentPassword") == "" || Field(form, "newEmail") == "" ==>
      r == Ok(Failed("Missing required fields.")) && s.blobs == old(s.blobs)
    ensures Field(form, "currentPassword") != "" && Field(form, "newEmail") != "" ==>
      var admin := AdminResult(s.configured, s.env, old(s.blobs), s.empty, io);
      var afterRead := AdminEffect(s.configured, s.env, old(s.blobs), s.empty, io);
      (admin.Err? ==> r.Err? && s.blobs == afterRead)
      && (admin.Ok? ==>
            var check := CheckCredentials(admin.value, Field(form, "currentPassword"), Field(form, "newEmail"),
                                          Field(form, "newPassword"), Field(form, "confirmPassword"));
            (check.Reject? ==> r == Ok(Failed(check.message)) && s.blobs == afterRead)
            && (check.Accept? && EnvCredentialsSet(s.env) ==>
                  r == Ok(Succeeded("Credentials updated successfully!")) && s.blobs == afterRead)
            && (check.Accept? && !EnvCredentialsSet(s.env) ==>
                  s.blobs == WriteEffect(s.configured, afterRead, DataPath(Admin), AdminV(check.user), io)
                  && r == Ok(if WriteOutcome(s.configured, io).Pass? then Succeeded("Credentials updated successfully!")
                             else Failed("Failed to update credentials."))))
  {
    var currentPassword := Field(form, "currentPassword");
    var newEmail := Field(form, "newEmail");
    var newPassword := Field(form, "newPassword");
    var confirmPassword := Field(form, "confirmPassword");
    if currentPassword == "" || newEmail == "" {
      return Ok(Failed("Missing required fields."));
    }
    var admin := s.GetAdminUser(io);
    if admin.Err? {
      return Err(admin.error);
    }
    var check := CheckCredentials(admin.value, currentPassword, newEmail, newPassword, confirmPassword);
    if check.Reject? {
      return Ok(Failed(check.message));
    }
    var saved := s.SaveAdminUser(check.user, io);
    if saved.Fail? {
      return Ok(Failed("Failed to update credentials."));
    }
    r := Ok(Succeeded("Credentials updated successfully!"));
  }
}
