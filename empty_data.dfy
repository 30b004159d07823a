/** The seed the content store falls back to (src/lib/empty-data.ts). Long page texts are kept
    out of the model: only the structural facts of the seed are recorded. */
module EmptyData {
  import opened Wrappers
  import opened Types

  /** The environment variables the site reads; an unset variable is the empty string, which
      JavaScript treats the same way (both are falsy). */
  datatype Env = Env(adminEmail: string, adminPassword: string)

  /** Both admin credentials come from the environment. */
  predicate EnvCredentialsSet(env: Env) {
    env.adminEmail != "" && env.adminPassword != ""
  }

  /** The whole content of the CMS, one field per stored entity. */
  datatype CmsData = CmsData(
    homeContent: HomeContent,
    aboutContent: AboutContent,
    contactContent: ContactContent,
    adminUser: AdminUser,
    posts: seq<Post>,
    classes: seq<Class>,
    timeline: seq<TimelineEvent>,
    registrations: seq<ClassRegistration>,
    messages: seq<ContactMessage>,
    analytics: seq<PageView>)

  predicate PostSlugsDistinct(posts: seq<Post>) {
    forall i, j :: 0 <= i < j < |posts| ==> posts[i].slug != posts[j].slug
  }

  predicate ClassSlugsDistinct(classes: seq<Class>) {
    forall i, j :: 0 <= i < j < |classes| ==> classes[i].slug != classes[j].slug
  }

  function SeedPost(slug: string, date: string, category: PostCategory, imageHint: string, tags: seq<Loc>): Post {
    Post(slug, EmptyLoc, EmptyLoc, EmptyLoc, "Fluentia", date, category, "", imageHint, tags, EmptySeo)
  }

  function SeedClass(slug: string, classType: ClassType, level: ClassLevel, time: string,
                     imageHint: string, price: NumField, maxStudents: NumField): Class {
    Class(slug, EmptyLoc, classType, level, Active, EmptyLoc, EmptyLoc, [], [], "", imageHint,
          Schedule(EmptyLoc, time), price, maxStudents, EmptySeo)
  }

  function SeedEvent(year: string): TimelineEvent {
    TimelineEvent(year, EmptyLoc, EmptyLoc)
  }

  /** The three seed posts. */
  function SeedPosts(): (r: seq<Post>)
    ensures |r| == 3 && PostSlugsDistinct(r)
  {
    [
      SeedPost("demystifying-german-cases", "2024-05-20T10:00:00Z", LanguageCategory, "grammar book",
               [Loc("grammar", "Grammatik", "\U{06AF}\U{0631}\U{0627}\U{0645}\U{0631}"),
                Loc("cases", "F\U{00E4}lle", "")]),
      SeedPost("german-culture-p\U{00FC}nktlichkeit", "2024-05-15T14:30:00Z", Culture, "clock berlin",
               [Loc("culture", "Kultur", ""), Loc("etiquette", "Etikette", "")]),
      SeedPost("5-tips-for-learning-german-faster", "2024-05-10T09:00:00Z", Tips, "language learning",
               [Loc("learning", "Lernen", ""), Loc("tips", "Tipps", ""), Loc("efficiency", "Effizienz", "")])
    ]
  }

  /** The three seed classes, all active. */
  function SeedClasses(): (r: seq<Class>)
    ensures |r| == 3 && ClassSlugsDistinct(r)
    ensures forall i :: 0 <= i < |r| ==> r[i].status == Active
  {
    [
      SeedClass("a1-beginner-course", Group, A1, "18:00 - 19:30", "classroom learning", Num(1500000), Num(10)),
      SeedClass("b2-exam-preparation-private", Private, B2, "By arrangement", "private tutoring", Num(5000000), Undefined),
      SeedClass("free-mitreden-workshop", Workshop, B1, "19:00 - 20:30", "business conversation", Num(0), Num(15))
    ]
  }

  /** `getEmptyCMSData`: three posts and three classes with distinct slugs, five timeline events,
      no registrations, messages or page views, and the admin user taken from the environment
      with "admin@example.com" / "password" for whichever variable is unset. */
  function GetEmptyCmsData(env: Env): (r: CmsData)
    ensures r.registrations == [] && r.messages == [] && r.analytics == []
    ensures r.adminUser.email == if env.adminEmail != "" then env.adminEmail else "admin@example.com"
    ensures r.adminUser.password == if env.adminPassword != "" then env.adminPassword else "password"
    ensures |r.posts| == 3 && PostSlugsDistinct(r.posts)
    ensures |r.classes| == 3 && ClassSlugsDistinct(r.classes)
    ensures forall i :: 0 <= i < |r.classes| ==> r.classes[i].status == Active
    ensures |r.timeline| == 5
  {
    var home := HomeContent(EmptyLoc, EmptyLoc, EmptyLoc, EmptyLoc, EmptyLoc, EmptyLoc, EmptyLoc,
                            EmptyLoc, EmptyLoc, EmptyLoc, EmptyLoc, EmptyLoc, EmptySeo);
    var about := AboutContent(EmptyLoc, EmptyLoc, EmptyLoc, EmptyLoc, EmptyLoc, EmptyLoc, EmptySeo);
    var contact := ContactContent(EmptyLoc, EmptyLoc, EmptyLoc, "", EmptyLoc, "", "", EmptySeo);
    var admin := AdminUser(
      if env.adminEmail != "" then env.adminEmail else "admin@example.com",
      if env.adminPassword != "" then env.adminPassword else "password");
    var posts := SeedPosts();
    var classes := SeedClasses();
    var timeline := [SeedEvent("2015"), SeedEvent("2018"), SeedEvent("2020"), SeedEvent("2022"), SeedEvent("2024")];
    CmsData(home, about, contact, admin, posts, classes, timeline, [], [], [])
  }

  /** The seed's private B2 class has no capacity, and its free workshop costs 0 (a set price). */
  lemma SeedClassFacts(env: Env)
    ensures GetEmptyCmsData(env).classes[1].maxStudents == Undefined
    ensures GetEmptyCmsData(env).classes[2].price == Num(0)
  {
  }
}
