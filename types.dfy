/** The records of the site's content model (src/lib/types.ts). */
module Types {

  /** The three site languages. */
  datatype Language = En | De | Fa

  /** A text in every site language: each of en, de and fa is always present (possibly empty). */
  datatype Loc = Loc(en: string, de: string, fa: string) {

    function Get(lang: Language): string {
      match lang
      case En => en
      case De => de
      case Fa => fa
    }

    /** The same text with the entry for `lang` replaced, as `{ ...loc, [lang]: value }` does. */
    function With(lang: Language, value: string): (r: Loc)
      ensures r.Get(lang) == value
      ensures forall other: Language :: other != lang ==> r.Get(other) == Get(other)
    {
      match lang
      case En => this.(en := value)
      case De => this.(de := value)
      case Fa => this.(fa := value)
    }
  }

  /** `{ en: '', de: '', fa: '' }`, the blank localized text every form starts from. */
  const EmptyLoc := Loc("", "", "")

  datatype Seo = Seo(title: Loc, description: Loc)

  const EmptySeo := Seo(EmptyLoc, EmptyLoc)

  datatype PostCategory = LanguageCategory | Culture | Tips

  datatype Post = Post(
    slug: string,
    title: Loc,
    excerpt: Loc,
    content: Loc,
    author: string,
    date: string,
    category: PostCategory,
    imageUrl: string,
    imageHint: string,
    tags: seq<Loc>,
    seo: Seo)

  datatype ClassType = Private | Group | Workshop
  datatype ClassLevel = A1 | A2 | B1 | B2 | C1 | C2
  datatype ClassStatus = Active | Full | Inactive

  /** An optional JavaScript number as it can reach the code: missing, `null`, `NaN` or a value.
      Only integral values are modelled. */
  datatype NumField = Undefined | Null | NaN | Num(n: int)

  datatype Schedule = Schedule(days: Loc, time: string)

  datatype Class = Class(
    slug: string,
    title: Loc,
    classType: ClassType,
    level: ClassLevel,
    status: ClassStatus,
    excerpt: Loc,
    description: Loc,
    objectives: seq<Loc>,
    prerequisites: seq<Loc>,
    imageUrl: string,
    imageHint: string,
    schedule: Schedule,
    price: NumField,
    maxStudents: NumField,
    seo: Seo)

  /** A class registration; the three last fields are optional in the source, here `None`. */
  datatype ClassRegistration = ClassRegistration(
    id: string,
    name: string,
    email: string,
    phone: string,
    className: string,
    classSlug: string,
    submittedAt: string,
    germanLevel: OptText,
    learningGoal: OptText,
    motivation: OptText)

  /** An optional string field (`field?: string`). */
  datatype OptText = NoText | Text(s: string)

  /** A contact message (declared in src/app/actions/user-actions.ts). */
  datatype ContactMessage = ContactMessage(
    id: string,
    name: string,
    email: string,
    subject: string,
    message: string,
    submittedAt: string)

  datatype TimelineEvent = TimelineEvent(year: string, title: Loc, description: Loc)

  datatype HomeContent = HomeContent(
    slogan: Loc,
    subSlogan: Loc,
    ctaClasses: Loc,
    ctaFreeCourse: Loc,
    missionTitle: Loc,
    missionText: Loc,
    manifestoTitle: Loc,
    manifestoText: Loc,
    recentPostsTitle: Loc,
    readMore: Loc,
    ctaTitle: Loc,
    ctaText: Loc,
    seo: Seo)

  datatype AboutContent = AboutContent(
    title: Loc,
    story: Loc,
    qualificationsTitle: Loc,
    testdafTitle: Loc,
    testdafDescription: Loc,
    timelineTitle: Loc,
    seo: Seo)

  datatype ContactContent = ContactContent(
    title: Loc,
    description: Loc,
    contactInfo: Loc,
    email: string,
    address: Loc,
    linkedinUrl: string,
    telegramUrl: string,
    seo: Seo)

  datatype AdminUser = AdminUser(email: string, password: string)

  /** One recorded page view; `referrer` is `null` when the request had no Referer header. */
  datatype PageView = PageView(
    path: string,
    timestamp: string,
    ip: string,
    userAgent: string,
    referrer: OptText)

  /** Changing one language of a localized text and reading it back gives the new value,
      and changing it back restores the original text. */
  lemma WithGetRoundTrip(loc: Loc, lang: Language, value: string)
    ensures loc.With(lang, value).Get(lang) == value
    ensures loc.With(lang, value).With(lang, loc.Get(lang)) == loc
  {
    match lang
    case En =>
    case De =>
    case Fa =>
  }
}
