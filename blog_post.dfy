/** A single blog post page (src/components/blog/blog-post.tsx): the lookup by slug, the
    related posts, and the line breaks of the content. */
module BlogPost {
  import opened Wrappers
  import opened Types
  import opened KeyedLists
  import Seqs
  import ContentActions

  /** The page for a slug: the first post with that slug, as `find` returns it, or
      `notFound()`. */
  datatype Page = Found(post: Post) | NotFound

  function PostPage(posts: seq<Post>, slug: string): (r: Page)
    ensures r.NotFound? <==> forall i :: 0 <= i < |posts| ==> posts[i].slug != slug
    ensures r.Found? ==> r.post.slug == slug && r.post in posts
    ensures r.Found? ==>
      var i := IndexOfKey(posts, ContentActions.PostSlug, slug);
      0 <= i && r.post == posts[i] && forall j :: 0 <= j < i ==> posts[j].slug != slug
  {
    var found := FindByKey(posts, ContentActions.PostSlug, slug);
    if found.Some? then Found(found.value) else NotFound
  }

  predicate IsRelated(current: Post, p: Post) {
    p.category == current.category && p.slug != current.slug
  }

  /** `slice(0, n)`: the first `n` elements, or all of them when there are fewer. */
  function Take<T>(s: seq<T>, n: nat): (r: seq<T>)
    ensures |r| == (if |s| <= n then |s| else n)
    ensures r == s[..|r|]
    ensures Seqs.IsSubsequence(r, s)
  {
    if |s| <= n then SelfSubsequence(s); s
    else PrefixIsSubsequence(s, n); s[..n]
  }

  lemma {:induction false} PrefixIsSubsequence<T>(s: seq<T>, n: nat)
    requires n <= |s|
    ensures Seqs.IsSubsequence(s[..n], s)
  {
    if n == |s| {
      assert s[..n] == s;
      SelfSubsequence(s);
    } else {
      PrefixIsSubsequence(s[..|s| - 1], n);
      assert s[..|s| - 1][..n] == s[..n];
      SubsequenceOfInit(s[..n], s);
    }
  }

  lemma {:induction false} SelfSubsequence<T>(s: seq<T>)
    ensures Seqs.IsSubsequence(s, s)
  {
    if s != [] {
      SelfSubsequence(s[1..]);
    }
  }

  lemma {:induction false} SubsequenceOfInit<T>(a: seq<T>, s: seq<T>)
    requires s != [] && Seqs.IsSubsequence(a, s[..|s| - 1])
    ensures Seqs.IsSubsequence(a, s)
  {
    if a != [] && |s| > 1 {
      if a[0] == s[0] {
        assert s[..|s| - 1][1..] == s[1..][..|s[1..]| - 1];
        SubsequenceOfInit(a[1..], s[1..]);
      } else {
        assert s[..|s| - 1][1..] == s[1..][..|s[1..]| - 1];
        SubsequenceOfInit(a, s[1..]);
      }
    }
  }

  /** `posts.filter(same category, other slug).slice(0, 3)`: the first three related posts in
      their stored order, or all of them when there are fewer. */
  function RelatedPosts(posts: seq<Post>, current: Post): (r: seq<Post>)
    ensures var related := Seqs.Filter(posts, (p: Post) => IsRelated(current, p));
      |r| == (if |related| <= 3 then |related| else 3) && r == related[..|r|]
    ensures forall p :: p in r ==> p in posts && IsRelated(current, p)
    ensures Seqs.IsSubsequence(r, Seqs.Filter(posts, (p: Post) => IsRelated(current, p)))
  {
    var related := Seqs.Filter(posts, (p: Post) => IsRelated(current, p));
    Take(related, 3)
  }

  /** The post being read is never among its related posts. */
  lemma NotRelatedToItself(posts: seq<Post>, current: Post)
    ensures current !in RelatedPosts(posts, current)
  {
  }

  /** With three related posts or fewer, every one of them is shown, in order. */
  lemma AllWhenFew(posts: seq<Post>, current: Post)
    requires |Seqs.Filter(posts, (p: Post) => IsRelated(current, p))| <= 3
    ensures RelatedPosts(posts, current) == Seqs.Filter(posts, (p: Post) => IsRelated(current, p))
  {
  }

  /** With at least three other posts of the category, exactly three are shown. */
  lemma ThreeWhenAvailable(posts: seq<Post>, current: Post)
    requires |Seqs.Filter(posts, (p: Post) => IsRelated(current, p))| >= 3
    ensures |RelatedPosts(posts, current)| == 3
  {
  }

  /** `content.replace(/\n/g, '<br />')`. */
  function BreakLines(s: string): (r: string)
    ensures '\n' !in r
    ensures '\n' !in s ==> r == s
    ensures |r| == |s| + 5 * |Seqs.Filter(s, (c: char) => c == '\n')|
  {
    if s == [] then []
    else (if s[0] == '\n' then "<br />" else [s[0]]) + BreakLines(s[1..])
  }

  /** The replacement works character by character: breaking the lines of a concatenation is
      concatenating the broken lines of its parts. */
  lemma {:induction false} BreakLinesConcat(a: string, b: string)
    ensures BreakLines(a + b) == BreakLines(a) + BreakLines(b)
  {
    if a == [] {
      assert a + b == b;
    } else {
      assert (a + b)[0] == a[0];
      assert (a + b)[1..] == a[1..] + b;
      BreakLinesConcat(a[1..], b);
    }
  }

  /** A newline becomes `<br />`; every other character stays as it is. */
  lemma BreakLinesChar(c: char)
    ensures c == '\n' ==> BreakLines([c]) == "<br />"
    ensures c != '\n' ==> BreakLines([c]) == [c]
  {
    assert [c][1..] == [];
  }
}
