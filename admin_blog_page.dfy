/** The admin post table (src/components/admin/blog/admin-blog-page-content.tsx): a filter
    that searches titles only, and what a delete shows. */
module AdminBlogPage {
  import opened Types
  import opened CmsStore
  import opened KeyedLists
  import Seqs
  import ClassesPage
  import BlogPage
  import ContentActions
  import AdminClassesPage

  type Choice<T> = ClassesPage.Choice<T>

  /** Unlike the public page, the search looks at the title only. */
  predicate PostMatches(post: Post, category: Choice<PostCategory>, lang: Language, term: string) {
    ClassesPage.Admits(category, post.category) && (term == "" || BlogPage.Mentions(post.title.Get(lang), term))
  }

  function FilterPosts(posts: seq<Post>, category: Choice<PostCategory>, lang: Language, term: string): (r: seq<Post>)
    ensures forall p :: p in r <==> p in posts && PostMatches(p, category, lang, term)
  {
    Seqs.Filter(posts, (p: Post) => PostMatches(p, category, lang, term))
  }

  lemma FilterKeepsOrder(posts: seq<Post>, category: Choice<PostCategory>, lang: Language, term: string)
    ensures Seqs.IsSubsequence(FilterPosts(posts, category, lang, term), posts)
  {
    Seqs.FilterIsSubsequence(posts, (p: Post) => PostMatches(p, category, lang, term));
  }

  /** Every post the admin search finds, the public search finds too, so the admin list is
      never longer than the public one. */
  lemma AdminFindsNoMore(posts: seq<Post>, category: Choice<PostCategory>, lang: Language, term: string)
    ensures forall p :: p in FilterPosts(posts, category, lang, term) ==> p in BlogPage.FilterPosts(posts, category, lang, term)
    ensures |FilterPosts(posts, category, lang, term)| <= |BlogPage.FilterPosts(posts, category, lang, term)|
  {
    Seqs.FilterLength(posts, (p: Post) => PostMatches(p, category, lang, term),
                      (p: Post) => BlogPage.PostMatches(p, category, lang, term));
  }

  /** A term found only in the content shows the post on the public page but not here. */
  lemma ContentOnlyMatch(post: Post, lang: Language, term: string)
    requires term != "" && !BlogPage.Mentions(post.title.Get(lang), term) && BlogPage.Mentions(post.content.Get(lang), term)
    ensures FilterPosts([post], ClassesPage.All, lang, term) == []
    ensures BlogPage.FilterPosts([post], ClassesPage.All, lang, term) == [post]
  {
    Seqs.FilterAll([post], (p: Post) => BlogPage.PostMatches(p, ClassesPage.All, lang, term));
  }

  /** The empty message shows exactly when no post matches. */
  lemma EmptyMessageIff(posts: seq<Post>, category: Choice<PostCategory>, lang: Language, term: string)
    ensures FilterPosts(posts, category, lang, term) == []
      <==> forall i :: 0 <= i < |posts| ==> !PostMatches(posts[i], category, lang, term)
  {
    var r := FilterPosts(posts, category, lang, term);
    if r != [] {
      assert r[0] in r;
    }
  }

  /** `handleDelete`: `deletePost`, then a refresh on success or an error toast showing the
      reply's message. A failed read or write shows "Failed to delete post."; a read that works
      removes every post with the slug from the list it read, and that list is written back.
      With no storage configured the reply is a success although nothing is stored. */
  method HandleDelete(s: Store, slug: string, io: Io) returns (f: AdminClassesPage.Feedback)
    requires s.Valid()
    modifies s
    ensures s.Valid()
    ensures s.configured == old(s.configured) && s.env == old(s.env) && s.empty == old(s.empty)
    ensures
      var read := ReadResult(s.configured, old(s.blobs), DataPath(Posts), DefaultOf(Posts, s.empty), io);
      var seeded := ReadEffect(s.configured, old(s.blobs), DataPath(Posts), DefaultOf(Posts, s.empty), io);
      (read.Err? ==> f == AdminClassesPage.ShowError("Failed to delete post.") && s.blobs == seeded)
      && (read.Ok? ==>
            s.blobs == WriteEffect(s.configured, seeded, DataPath(Posts), PostsV(RemoveKey(PostsOf(read.value.value), ContentActions.PostSlug, slug)), io)
            && f == if WriteOutcome(s.configured, io).Pass? then AdminClassesPage.Refreshed
                    else AdminClassesPage.ShowError("Failed to delete post."))
    ensures !s.configured ==> f == AdminClassesPage.Refreshed && s.blobs == old(s.blobs)
    ensures s.configured && f == AdminClassesPage.Refreshed ==>
      DataPath(Posts) in s.blobs && s.blobs[DataPath(Posts)].Json?
      && forall p :: p in PostsOf(s.blobs[DataPath(Posts)].value) ==> p.slug != slug
  {
    var reply := ContentActions.DeletePost(s, slug, io);
    f := AdminClassesPage.DeleteFeedback(reply);
  }
}
