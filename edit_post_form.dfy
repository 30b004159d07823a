/** The post editor's state (src/components/admin/blog/edit-post-form.tsx): loading a post
    by slug, the localized and SEO setters, and rewriting one language of the tags. */
module EditPostForm {
  import opened Wrappers
  import opened Types
  import opened JsString
  import opened KeyedLists
  import opened LocalizedLists
  import opened CmsStore
  import ContentActions

  /** A tag as stored: older posts kept plain strings. */
  datatype StoredTag = LegacyTag(s: string) | LocTag(loc: Loc)

  /** A plain-string tag becomes the same text in every language. */
  function NormalizeTag(tag: StoredTag): (r: Loc)
    ensures tag.LocTag? ==> r == tag.loc
    ensures tag.LegacyTag? ==> forall lang: Language :: r.Get(lang) == tag.s
  {
    match tag
    case LegacyTag(s) => Loc(s, s, s)
    case LocTag(loc) => loc
  }

  /** A missing SEO block becomes empty localized texts. */
  function NormalizeSeo(seo: Option<Seo>): (r: Seo)
    ensures seo.Some? ==> r == seo.value
    ensures seo.None? ==> forall lang: Language :: r.title.Get(lang) == "" && r.description.Get(lang) == ""
  {
    if seo.Some? then seo.value else EmptySeo
  }

  /** A post as read from storage: its `tags` and `seo` in their stored forms; the tags and
      SEO of `fields` are not used. */
  datatype StoredPost = StoredPost(fields: Post, tags: seq<StoredTag>, seo: Option<Seo>)

  function StoredSlug(p: StoredPost): string { p.fields.slug }

  /** The copy the editor works on: every tag localized and an SEO block present; every
      other field as stored. */
  function Normalize(p: StoredPost): (r: Post)
    ensures r.slug == p.fields.slug && r.title == p.fields.title && r.content == p.fields.content
    ensures |r.tags| == |p.tags| && forall i :: 0 <= i < |p.tags| ==> r.tags[i] == NormalizeTag(p.tags[i])
    ensures r.seo == NormalizeSeo(p.seo)
    ensures r == p.fields.(tags := r.tags, seo := r.seo)
  {
    p.fields.(tags := seq(|p.tags|, i requires 0 <= i < |p.tags| => NormalizeTag(p.tags[i])), seo := NormalizeSeo(p.seo))
  }

  /** A post already in the current form loads unchanged. */
  lemma NormalizeCurrent(post: Post)
    ensures Normalize(StoredPost(post, seq(|post.tags|, i requires 0 <= i < |post.tags| => LocTag(post.tags[i])), Some(post.seo))) == post
  {
    var r := Normalize(StoredPost(post, seq(|post.tags|, i requires 0 <= i < |post.tags| => LocTag(post.tags[i])), Some(post.seo)));
    assert r.tags == post.tags;
  }

  /** The three localized text fields the editor sets. */
  datatype TextField = Title | Excerpt | Content

  function TextOf(post: Post, field: TextField): Loc {
    match field
    case Title => post.title
    case Excerpt => post.excerpt
    case Content => post.content
  }

  datatype SeoField = SeoTitle | SeoDescription

  class Editor {
    /** `postData`: `None` until the post is loaded. */
    var postData: Option<Post>

    constructor ()
      ensures postData == None
    {
      postData := None;
    }

    /** The load effect: the post with the slug, normalized, or `notFound()` (`found` false). */
    method Load(posts: seq<StoredPost>, slug: string) returns (found: bool)
      modifies this
      ensures found <==> HasKey(posts, StoredSlug, slug)
      ensures found ==> postData == Some(Normalize(posts[IndexOfKey(posts, StoredSlug, slug)]))
      ensures found ==> postData.Some? && postData.value.slug == slug
      ensures !found ==> postData == old(postData)
    {
      var data := FindByKey(posts, StoredSlug, slug);
      if data.None? {
        return false;
      }
      postData := Some(Normalize(data.value));
      found := true;
    }

    /** `handleLocalizedInputChange`: one language of one text field. */
    method SetText(lang: Language, field: TextField, value: string)
      modifies this
      ensures old(postData) == None ==> postData == None
      ensures old(postData).Some? ==>
        postData.Some?
        && TextOf(postData.value, field) == TextOf(old(postData).value, field).With(lang, value)
        && forall other :: other != field ==> TextOf(postData.value, other) == TextOf(old(postData).value, other)
      ensures old(postData).Some? ==>
        postData.value.tags == old(postData).value.tags
        && postData.value.seo == old(postData).value.seo && postData.value.slug == old(postData).value.slug
    {
      if postData.Some? {
        var p := postData.value;
        match field
        case Title => postData := Some(p.(title := p.title.With(lang, value)));
        case Excerpt => postData := Some(p.(excerpt := p.excerpt.With(lang, value)));
        case Content => postData := Some(p.(content := p.content.With(lang, value)));
      }
    }

    /** `handleSeoInputChange`: one language of the SEO title or description. */
    method SetSeo(lang: Language, field: SeoField, value: string)
      modifies this
      ensures old(postData) == None ==> postData == None
      ensures old(postData).Some? ==> postData == Some(old(postData).value.(seo :=
        if field == SeoTitle then old(postData).value.seo.(title := old(postData).value.seo.title.With(lang, value))
        else old(postData).value.seo.(description := old(postData).value.seo.description.With(lang, value))))
    {
      if postData.Some? {
        var p := postData.value;
        if field == SeoTitle {
          postData := Some(p.(seo := p.seo.(title := p.seo.title.With(lang, value))));
        } else {
          postData := Some(p.(seo := p.seo.(description := p.seo.description.With(lang, value))));
        }
      }
    }

    /** `handleTagsChange`: the tags after language `lang` was typed as `value`. */
    method SetTags(lang: Language, value: string)
      modifies this
      ensures old(postData) == None ==> postData == None
      ensures old(postData).Some? ==>
        postData == Some(old(postData).value.(tags := Rewrite(old(postData).value.tags, lang, TagPieces(value))))
    {
      if postData.None? {
        return;
      }
      var newTags := ApplyPieces(postData.value.tags, lang, TagPieces(value));
      postData := Some(postData.value.(tags := newTags));
    }

    /** `handleFormAction`: nothing before the post is loaded; otherwise the reply of
        `updatePost` with the edited copy. A failed read or write gives "Failed to update
        post.", a slug that is not in the list read gives "Post not found.", and otherwise the
        list read, with the copy in place of the first post with its slug, is written back (and,
        when that list was the shared default, it is changed in place). With storage configured
        and working, a stored slug is saved and reported as a success. */
    method Submit(s: Store, io: Io) returns (r: Option<ContentActions.Reply>)
      requires s.Valid()
      modifies s
      ensures s.Valid() && s.configured == old(s.configured) && s.env == old(s.env)
      ensures old(postData).None? ==> r.None? && s.blobs == old(s.blobs) && s.empty == old(s.empty)
      ensures old(postData).Some? ==>
        var updated := old(postData).value;
        var read := ReadResult(s.configured, old(s.blobs), DataPath(Posts), DefaultOf(Posts, old(s.empty)), io);
        var seeded := ReadEffect(s.configured, old(s.blobs), DataPath(Posts), DefaultOf(Posts, old(s.empty)), io);
        r.Some?
        && (read.Err? ==> r.value == ContentActions.Failed("Failed to update post.") && s.blobs == seeded && s.empty == old(s.empty))
        && (read.Ok? && !HasKey(PostsOf(read.value.value), ContentActions.PostSlug, updated.slug) ==>
              r.value == ContentActions.Failed("Post not found.") && s.blobs == seeded && s.empty == old(s.empty))
        && (read.Ok? && HasKey(PostsOf(read.value.value), ContentActions.PostSlug, updated.slug) ==>
              var posts := ReplaceFirst(PostsOf(read.value.value), ContentActions.PostSlug, updated).value;
              s.blobs == WriteEffect(s.configured, seeded, DataPath(Posts), PostsV(posts), io)
              && s.empty == (if read.value.isDefault then WithDefault(old(s.empty), Posts, PostsV(posts)) else old(s.empty))
              && r.value == if WriteOutcome(s.configured, io).Pass? then ContentActions.Succeeded("Post updated successfully!")
                            else ContentActions.Failed("Failed to update post."))
      ensures
        var stored := PostsOf(ReadResult(true, old(s.blobs), DataPath(Posts), DefaultOf(Posts, old(s.empty)), NoFailure).value.value);
        (old(postData).Some? && old(s.configured) && io == NoFailure
          && HasKey(stored, ContentActions.PostSlug, old(postData).value.slug)) ==>
        r == Some(ContentActions.Succeeded("Post updated successfully!"))
        && DataPath(Posts) in s.blobs && s.blobs[DataPath(Posts)].Json?
        && PostsOf(s.blobs[DataPath(Posts)].value) == ReplaceFirst(stored, ContentActions.PostSlug, old(postData).value).value
    {
      if postData.None? {
        return None;
      }
      var reply := ContentActions.UpdatePost(s, postData.value, io);
      r := Some(reply);
    }
  }

  /** Editing the tags box without changing it keeps the tags. */
  method RetypeTagsKeepsThem(e: Editor, lang: Language)
    requires e.postData.Some? && |e.postData.value.tags| >= 1
    requires forall i :: 0 <= i < |e.postData.value.tags| ==>
      ',' !in e.postData.value.tags[i].Get(lang) && IsTrimmed(e.postData.value.tags[i].Get(lang))
    modifies e
    ensures e.postData == old(e.postData)
  {
    var shown := TagsText(e.postData.value.tags, lang);
    TagsRoundTrip(e.postData.value.tags, lang);
    e.SetTags(lang, shown);
  }
}
