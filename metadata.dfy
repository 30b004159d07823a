/** The page head (src/components/layout/metadata.tsx): title, description, image, URLs and
    structured data, chosen by page type from the page's own content and its SEO fields. */
module Metadata {
  import opened Wrappers
  import opened Types
  import ContentActions

  const Domain := "https://linguasage.com"
  const SiteName := "LinguaSage"
  const DefaultDescription := "Learn languages with a master educator."
  const DefaultImage := Domain + "/og-image.png"
  const Logo := Domain + "/logo.png"

  /** JavaScript's `a || b` on strings: the empty string counts as missing. */
  function Or(a: string, b: string): (r: string)
    ensures a != "" ==> r == a
    ensures a == "" ==> r == b
  {
    if a != "" then a else b
  }

  /** The `pageType` prop; `Generic` is its default. */
  datatype PageType = PostKind | ClassKind | HomeKind | AboutKind | ContactKind | Generic

  datatype Props = Props(
    post: Option<Post>,
    classInfo: Option<Class>,
    homeContent: Option<HomeContent>,
    aboutContent: Option<AboutContent>,
    contactContent: Option<ContactContent>,
    pageType: PageType,
    pageTitle: Option<string>,
    pageDescription: Option<string>,
    pagePath: string)

  /** The offer of a course with a price. */
  datatype Offer = Offer(price: NumField, priceCurrency: string, category: ClassType)

  /** The JSON-LD object, by its `@type`; constant members are left implicit. */
  datatype StructuredData =
    | WebSite(url: string, name: string)
    | Organization(name: string, url: string, logo: string, email: string)
    | BlogPosting(id: string, headline: string, description: string, image: string, author: string, datePublished: string)
    | Course(name: string, description: string, offer: Option<Offer>)
    | WebPage(url: string, name: string, description: string)
    | ContactPage(url: string, name: string, description: string)

  datatype Head = Head(
    title: string,
    description: string,
    canonical: string,
    ogType: string,
    ogUrl: string,
    ogImage: string,
    ogLocale: string,
    twitterUrl: string,
    twitterImage: string,
    structuredData: StructuredData)

  /** The branch of the if/else chain taken: the page type, when its content was given. */
  datatype Branch = HomeBranch | PostBranch | ClassBranch | AboutBranch | ContactBranch | DefaultBranch

  function BranchOf(p: Props): (b: Branch)
    ensures b == HomeBranch <==> p.pageType == HomeKind && p.homeContent.Some?
    ensures b == PostBranch <==> p.pageType == PostKind && p.post.Some?
    ensures b == ClassBranch <==> p.pageType == ClassKind && p.classInfo.Some?
    ensures b == AboutBranch <==> p.pageType == AboutKind && p.aboutContent.Some?
    ensures b == ContactBranch <==> p.pageType == ContactKind && p.contactContent.Some?
  {
    if p.pageType == HomeKind && p.homeContent.Some? then HomeBranch
    else if p.pageType == PostKind && p.post.Some? then PostBranch
    else if p.pageType == ClassKind && p.classInfo.Some? then ClassBranch
    else if p.pageType == AboutKind && p.aboutContent.Some? then AboutBranch
    else if p.pageType == ContactKind && p.contactContent.Some? then ContactBranch
    else DefaultBranch
  }

  /** `s.substring(0, n)`. */
  function Prefix(s: string, n: nat): (r: string)
    ensures |r| == if |s| < n then |s| else n
    ensures r <= s
  {
    if |s| <= n then s else s[..n]
  }

  /** The title: the SEO title in the language if non-empty, otherwise the page's own title. */
  function Title(p: Props, lang: Language): string {
    match BranchOf(p)
    case HomeBranch => Or(p.homeContent.value.seo.title.Get(lang), p.homeContent.value.slogan.Get(lang))
    case PostBranch => Or(p.post.value.seo.title.Get(lang), p.post.value.title.Get(lang))
    case ClassBranch => Or(p.classInfo.value.seo.title.Get(lang), p.classInfo.value.title.Get(lang))
    case AboutBranch => Or(p.aboutContent.value.seo.title.Get(lang), p.aboutContent.value.title.Get(lang))
    case ContactBranch => Or(p.contactContent.value.seo.title.Get(lang), p.contactContent.value.title.Get(lang))
    case DefaultBranch => Or(p.pageTitle.GetOr(""), SiteName)
  }

  /** The description: the SEO description if non-empty, otherwise the page's own summary; the
      About page falls back to the first 160 characters of its story. */
  function Description(p: Props, lang: Language): string {
    match BranchOf(p)
    case HomeBranch => Or(p.homeContent.value.seo.description.Get(lang), p.homeContent.value.subSlogan.Get(lang))
    case PostBranch => Or(p.post.value.seo.description.Get(lang), p.post.value.excerpt.Get(lang))
    case ClassBranch => Or(p.classInfo.value.seo.description.Get(lang), p.classInfo.value.excerpt.Get(lang))
    case AboutBranch => Or(p.aboutContent.value.seo.description.Get(lang), Prefix(p.aboutContent.value.story.Get(lang), 160))
    case ContactBranch => Or(p.contactContent.value.seo.description.Get(lang), p.contactContent.value.description.Get(lang))
    case DefaultBranch => Or(p.pageDescription.GetOr(""), DefaultDescription)
  }

  function Image(p: Props): string {
    match BranchOf(p)
    case PostBranch => p.post.value.imageUrl
    case ClassBranch => p.classInfo.value.imageUrl
    case _ => DefaultImage
  }

  function Data(p: Props, lang: Language): StructuredData {
    var url := Domain + p.pagePath;
    match BranchOf(p)
    case HomeBranch => Organization(SiteName, Domain, Logo, "hello@linguasage.com")
    case PostBranch =>
      var post := p.post.value;
      BlogPosting(url, post.title.Get(lang), post.excerpt.Get(lang), post.imageUrl, post.author, post.date)
    case ClassBranch =>
      var c := p.classInfo.value;
      Course(c.title.Get(lang), c.excerpt.Get(lang),
             if c.price != Undefined then Some(Offer(c.price, "IRR", c.classType)) else None)
    case AboutBranch => WebPage(url, Title(p, lang), Description(p, lang))
    case ContactBranch => ContactPage(url, Title(p, lang), Description(p, lang))
    case DefaultBranch => WebSite(Domain, SiteName)
  }

  /** The rendered head. */
  function Render(p: Props, lang: Language): (h: Head)
    ensures h.canonical == Domain + p.pagePath && h.ogUrl == h.canonical && h.twitterUrl == h.canonical
    ensures h.ogType == (if p.pageType == PostKind then "article" else "website")
    ensures h.ogImage == h.twitterImage
    ensures h.ogLocale == ContentActions.LangCode(lang)
    ensures BranchOf(p) == DefaultBranch ==> h.title != "" && h.description != ""
  {
    var url := Domain + p.pagePath;
    Head(Title(p, lang), Description(p, lang), url, if p.pageType == PostKind then "article" else "website",
         url, Image(p), ContentActions.LangCode(lang), url, Image(p), Data(p, lang))
  }

  /** Without a matching page type and content, the caller's title and description or the site
      defaults are used. */
  lemma DefaultsWithoutContent(p: Props, lang: Language)
    requires BranchOf(p) == DefaultBranch
    ensures Render(p, lang).title == (if p.pageTitle.Some? && p.pageTitle.value != "" then p.pageTitle.value else SiteName)
    ensures Render(p, lang).description ==
      (if p.pageDescription.Some? && p.pageDescription.value != "" then p.pageDescription.value else DefaultDescription)
    ensures Render(p, lang).ogImage == DefaultImage
    ensures Render(p, lang).structuredData == WebSite(Domain, SiteName)
  {
  }

  /** A post page without its post is still marked as an article, with the default texts. */
  lemma PostTypeWithoutPost(p: Props, lang: Language)
    requires p.pageType == PostKind && p.post.None?
    ensures Render(p, lang).ogType == "article"
    ensures Render(p, lang).structuredData.WebSite?
  {
  }

  /** The SEO title wins when non-empty; otherwise the page's own title shows. */
  lemma SeoTitleWins(p: Props, lang: Language)
    requires BranchOf(p) == PostBranch
    ensures p.post.value.seo.title.Get(lang) != "" ==> Render(p, lang).title == p.post.value.seo.title.Get(lang)
    ensures p.post.value.seo.title.Get(lang) == "" ==> Render(p, lang).title == p.post.value.title.Get(lang)
  {
  }

  lemma ClassTitleFallback(p: Props, lang: Language)
    requires BranchOf(p) == ClassBranch
    ensures Render(p, lang).title ==
      if p.classInfo.value.seo.title.Get(lang) != "" then p.classInfo.value.seo.title.Get(lang) else p.classInfo.value.title.Get(lang)
  {
  }

  /** The About page's fallback description is the story cut to 160 characters. */
  lemma AboutDescriptionCut(p: Props, lang: Language)
    requires BranchOf(p) == AboutBranch && p.aboutContent.value.seo.description.Get(lang) == ""
    ensures Render(p, lang).description <= p.aboutContent.value.story.Get(lang)
    ensures |Render(p, lang).description| == if |p.aboutContent.value.story.Get(lang)| < 160 then |p.aboutContent.value.story.Get(lang)| else 160
  {
  }

  /** Only post and class pages show their own image. */
  lemma ImageRule(p: Props, lang: Language)
    ensures BranchOf(p) == PostBranch ==> Render(p, lang).ogImage == p.post.value.imageUrl
    ensures BranchOf(p) == ClassBranch ==> Render(p, lang).ogImage == p.classInfo.value.imageUrl
    ensures BranchOf(p) != PostBranch && BranchOf(p) != ClassBranch ==> Render(p, lang).ogImage == DefaultImage
  {
  }

  /** A course carries an offer exactly when its price is defined, a price of 0 included. */
  lemma OfferIffPrice(p: Props, lang: Language)
    requires BranchOf(p) == ClassBranch
    ensures Render(p, lang).structuredData.Course?
    ensures Render(p, lang).structuredData.offer.Some? <==> p.classInfo.value.price != Undefined
    ensures p.classInfo.value.price == Num(0) ==> Render(p, lang).structuredData.offer == Some(Offer(Num(0), "IRR", p.classInfo.value.classType))
  {
  }

  /** The About and Contact pages name themselves with the head's own title and description. */
  lemma PageDataMatchesHead(p: Props, lang: Language)
    requires BranchOf(p) == AboutBranch || BranchOf(p) == ContactBranch
    ensures Render(p, lang).structuredData.name == Render(p, lang).title
    ensures Render(p, lang).structuredData.description == Render(p, lang).description
    ensures Render(p, lang).structuredData.url == Render(p, lang).canonical
  {
  }
}
