/** The public blog list's filter (src/components/blog/blog-page-content.tsx). */
module BlogPage {
  import opened Types
  import opened JsString
  import Seqs
  import ClassesPage

  type Choice<T> = ClassesPage.Choice<T>

  /** `text.toLowerCase().includes(term.toLowerCase())`. */
  predicate Mentions(text: string, term: string) {
    Contains(Lower(text), Lower(term))
  }

  /** The empty search matches every post; otherwise the title or the content in the
      current language must mention the term. */
  predicate SearchMatches(post: Post, lang: Language, term: string) {
    term == "" || Mentions(post.title.Get(lang), term) || Mentions(post.content.Get(lang), term)
  }

  predicate PostMatches(post: Post, category: Choice<PostCategory>, lang: Language, term: string) {
    ClassesPage.Admits(category, post.category) && SearchMatches(post, lang, term)
  }

  /** `filteredPosts`: the posts of the chosen category that match the search, in order. */
  function FilterPosts(posts: seq<Post>, category: Choice<PostCategory>, lang: Language, term: string): (r: seq<Post>)
    ensures forall p :: p in r <==> p in posts && PostMatches(p, category, lang, term)
  {
    Seqs.Filter(posts, (p: Post) => PostMatches(p, category, lang, term))
  }

  lemma FilterKeepsOrder(posts: seq<Post>, category: Choice<PostCategory>, lang: Language, term: string)
    ensures Seqs.IsSubsequence(FilterPosts(posts, category, lang, term), posts)
  {
    Seqs.FilterIsSubsequence(posts, (p: Post) => PostMatches(p, category, lang, term));
  }

  /** Before any search or category choice, every post is listed. */
  lemma InitialShowsAll(posts: seq<Post>, lang: Language)
    ensures FilterPosts(posts, ClassesPage.All, lang, "") == posts
  {
    Seqs.FilterAll(posts, (p: Post) => PostMatches(p, ClassesPage.All, lang, ""));
  }

  /** Every text mentions itself, whatever its case: a post is found by its own title. */
  lemma FoundByOwnTitle(posts: seq<Post>, post: Post, lang: Language)
    requires post in posts
    ensures post in FilterPosts(posts, ClassesPage.All, lang, post.title.Get(lang))
  {
    var t := Lower(post.title.Get(lang));
    assert t[0..|t|] == t;
    ContainsAt(t, t, 0);
  }

  /** The "no articles" message shows exactly when no post matches. */
  lemma EmptyMessageIff(posts: seq<Post>, category: Choice<PostCategory>, lang: Language, term: string)
    ensures FilterPosts(posts, category, lang, term) == []
      <==> forall i :: 0 <= i < |posts| ==> !PostMatches(posts[i], category, lang, term)
  {
    var r := FilterPosts(posts, category, lang, term);
    if r != [] {
      assert r[0] in r;
    }
  }
}
