/** The content store (src/lib/cms-store.ts): one JSON blob per entity, kept in a remote blob
    service, modelled here as a map from blob path to blob. */
module CmsStore {
  import opened Wrappers
  import opened Types
  import opened EmptyData

  /** The entities of the CMS, one blob each. */
  datatype Entity = Home | About | Contact | Admin | Posts | Classes | Timeline | Registrations | Messages | Analytics

  /** `DATA_PATHS`: the single fixed blob path of each entity. */
  function DataPath(e: Entity): (r: string)
    ensures |r| > 4 && r[..4] == "cms/"
  {
    match e
    case Home => "cms/homeContent.json"
    case About => "cms/aboutContent.json"
    case Contact => "cms/contactContent.json"
    case Admin => "cms/adminUser.json"
    case Posts => "cms/posts.json"
    case Classes => "cms/classes.json"
    case Timeline => "cms/timeline.json"
    case Registrations => "cms/registrations.json"
    case Messages => "cms/messages.json"
    case Analytics => "cms/analytics.json"
  }

  /** No two entities share a path, so saving one entity never touches another's blob. */
  lemma DataPathsDistinct(a: Entity, b: Entity)
    ensures a != b ==> DataPath(a) != DataPath(b)
  {
  }

  /** The parsed content of a blob, tagged with the entity it belongs to. */
  datatype Value =
    | HomeV(home: HomeContent)
    | AboutV(about: AboutContent)
    | ContactV(contact: ContactContent)
    | AdminV(admin: AdminUser)
    | PostsV(posts: seq<Post>)
    | ClassesV(classes: seq<Class>)
    | TimelineV(timeline: seq<TimelineEvent>)
    | RegistrationsV(registrations: seq<ClassRegistration>)
    | MessagesV(messages: seq<ContactMessage>)
    | AnalyticsV(analytics: seq<PageView>)

  /** The value has the shape the entity's getter casts it to. */
  predicate Fits(e: Entity, v: Value) {
    match e
    case Home => v.HomeV?
    case About => v.AboutV?
    case Contact => v.ContactV?
    case Admin => v.AdminV?
    case Posts => v.PostsV?
    case Classes => v.ClassesV?
    case Timeline => v.TimelineV?
    case Registrations => v.RegistrationsV?
    case Messages => v.MessagesV?
    case Analytics => v.AnalyticsV?
  }

  /** The entity's part of `EMPTY_DATA`, the value every fallback read returns. */
  function DefaultOf(e: Entity, d: CmsData): (r: Value)
    ensures Fits(e, r)
  {
    match e
    case Home => HomeV(d.homeContent)
    case About => AboutV(d.aboutContent)
    case Contact => ContactV(d.contactContent)
    case Admin => AdminV(d.adminUser)
    case Posts => PostsV(d.posts)
    case Classes => ClassesV(d.classes)
    case Timeline => TimelineV(d.timeline)
    case Registrations => RegistrationsV(d.registrations)
    case Messages => MessagesV(d.messages)
    case Analytics => AnalyticsV(d.analytics)
  }

  /** `EMPTY_DATA` after a caller changed the entity's fallback object in place. */
  function WithDefault(d: CmsData, e: Entity, v: Value): (r: CmsData)
    requires Fits(e, v)
    ensures DefaultOf(e, r) == v
    ensures forall other :: other != e ==> DefaultOf(other, r) == DefaultOf(other, d)
  {
    match e
    case Home => d.(homeContent := v.home)
    case About => d.(aboutContent := v.about)
    case Contact => d.(contactContent := v.contact)
    case Admin => d.(adminUser := v.admin)
    case Posts => d.(posts := v.posts)
    case Classes => d.(classes := v.classes)
    case Timeline => d.(timeline := v.timeline)
    case Registrations => d.(registrations := v.registrations)
    case Messages => d.(messages := v.messages)
    case Analytics => d.(analytics := v.analytics)
  }

  /** The list a getter returns, read off a value of the matching entity. */
  function PostsOf(v: Value): seq<Post> {
    if v.PostsV? then v.posts else []
  }

  function ClassesOf(v: Value): seq<Class> {
    if v.ClassesV? then v.classes else []
  }

  function MessagesOf(v: Value): seq<ContactMessage> {
    if v.MessagesV? then v.messages else []
  }

  function RegistrationsOf(v: Value): seq<ClassRegistration> {
    if v.RegistrationsV? then v.registrations else []
  }

  function AnalyticsOf(v: Value): seq<PageView> {
    if v.AnalyticsV? then v.analytics else []
  }

  /** What the blob service holds at a path: a JSON document, an empty body, or text that
      `JSON.parse` rejects. A path missing from the map answers with status 404. */
  datatype Blob = Json(value: Value) | EmptyText | Unparsable

  /** Failures of the network calls: `readFails` is any error other than a 404 while reading,
      `writeFails` makes `put` throw. */
  datatype Io = Io(readFails: bool, writeFails: bool)

  const NoFailure := Io(false, false)

  /** A read result; `isDefault` says it is the shared `EMPTY_DATA` object rather than a fresh
      parse, so changing it in place changes later fallback reads. */
  datatype Fetched = Fetched(value: Value, isDefault: bool)

  /** The result of `getBlob(path, emptyValue)`. */
  function ReadResult(configured: bool, blobs: map<string, Blob>, path: string, dflt: Value, io: Io): (r: Result<Fetched>)
    ensures !configured ==> r == Ok(Fetched(dflt, true))
    ensures configured && !io.readFails && path in blobs && blobs[path].Json? ==> r == Ok(Fetched(blobs[path].value, false))
    ensures configured && io.readFails ==> r == Ok(Fetched(dflt, true))
    ensures configured && !io.readFails && path in blobs && !blobs[path].Json? ==> r == Ok(Fetched(dflt, true))
    ensures configured && !io.readFails && path !in blobs && !io.writeFails ==> r == Ok(Fetched(dflt, true))
    ensures r.Err? <==> configured && !io.readFails && path !in blobs && io.writeFails
    ensures r.Ok? && r.value.isDefault ==> r.value.value == dflt
    ensures r.Ok? && !r.value.isDefault ==> path in blobs && blobs[path] == Json(r.value.value)
  {
    if !configured then Ok(Fetched(dflt, true))
    else if io.readFails then Ok(Fetched(dflt, true))
    else if path !in blobs then
      (if io.writeFails then Err("put failed while seeding " + path) else Ok(Fetched(dflt, true)))
    else
      match blobs[path]
      case Json(v) => Ok(Fetched(v, false))
      case EmptyText => Ok(Fetched(dflt, true))
      case Unparsable => Ok(Fetched(dflt, true))
  }

  /** The blob map after `getBlob`: only a 404 with a working store writes, and it writes the
      default at that one path. */
  function ReadEffect(configured: bool, blobs: map<string, Blob>, path: string, dflt: Value, io: Io): (r: map<string, Blob>)
    ensures r == blobs || r == blobs[path := Json(dflt)]
    ensures r != blobs <==> configured && !io.readFails && path !in blobs && !io.writeFails
  {
    if configured && !io.readFails && path !in blobs && !io.writeFails then blobs[path := Json(dflt)]
    else blobs
  }

  /** The blob map after `saveBlob(path, data)`: the whole value replaces the blob at that path
      when the store is configured and `put` succeeds. */
  function WriteEffect(configured: bool, blobs: map<string, Blob>, path: string, data: Value, io: Io): (r: map<string, Blob>)
    ensures configured && !io.writeFails ==> path in r && r[path] == Json(data)
    ensures forall p :: p != path ==> (p in r <==> p in blobs) && (p in r ==> r[p] == blobs[p])
    ensures !configured || io.writeFails ==> r == blobs
  {
    if configured && !io.writeFails then blobs[path := Json(data)] else blobs
  }

  function WriteOutcome(configured: bool, io: Io): (r: Outcome)
    ensures r.Fail? <==> configured && io.writeFails
  {
    if configured && io.writeFails then Fail("put failed") else Pass
  }

  /** The admin user `getAdminUser` resolves when the environment holds both credentials. */
  function EnvAdmin(env: Env): AdminUser {
    AdminUser(env.adminEmail, env.adminPassword)
  }

  /** The result of `getAdminUser`: the environment pair when both variables are set, otherwise
      the stored admin user read like any other blob (a failed seeding write propagates). */
  function AdminResult(configured: bool, env: Env, blobs: map<string, Blob>, empty: CmsData, io: Io): (r: Result<AdminUser>)
    requires forall e: Entity :: DataPath(e) in blobs && blobs[DataPath(e)].Json? ==> Fits(e, blobs[DataPath(e)].value)
    ensures EnvCredentialsSet(env) ==> r == Ok(EnvAdmin(env))
    ensures !EnvCredentialsSet(env) && !configured ==> r == Ok(empty.adminUser)
    ensures !EnvCredentialsSet(env) && configured && !io.readFails && DataPath(Admin) in blobs && blobs[DataPath(Admin)].Json?
      ==> r.Ok? && blobs[DataPath(Admin)].value == AdminV(r.value)
    ensures !EnvCredentialsSet(env) ==>
      var read := ReadResult(configured, blobs, DataPath(Admin), DefaultOf(Admin, empty), io);
      (r.Err? <==> read.Err?) && (r.Ok? ==> AdminV(r.value) == read.value.value)
    ensures !EnvCredentialsSet(env) && configured && io.readFails ==> r == Ok(empty.adminUser)
  {
    if EnvCredentialsSet(env) then Ok(EnvAdmin(env))
    else
      var read := ReadResult(configured, blobs, DataPath(Admin), DefaultOf(Admin, empty), io);
      if read.Err? then Err(read.error)
      else (assert Fits(Admin, read.value.value); Ok(read.value.value.admin))
  }

  /** The blob map after `getAdminUser`: untouched when the environment decides. */
  function AdminEffect(configured: bool, env: Env, blobs: map<string, Blob>, empty: CmsData, io: Io): (r: map<string, Blob>)
    ensures EnvCredentialsSet(env) ==> r == blobs
  {
    if EnvCredentialsSet(env) then blobs
    else ReadEffect(configured, blobs, DataPath(Admin), DefaultOf(Admin, empty), io)
  }

  /** A save followed by a read of the same entity returns the saved value. */
  lemma SaveThenRead(blobs: map<string, Blob>, e: Entity, v: Value, d: Value)
    ensures ReadResult(true, WriteEffect(true, blobs, DataPath(e), v, NoFailure), DataPath(e), d, NoFailure) == Ok(Fetched(v, false))
  {
  }

  /** Saving one entity leaves the read of every other entity as it was. */
  lemma SaveIsolation(blobs: map<string, Blob>, e: Entity, v: Value, other: Entity, d: Value, configured: bool, io: Io, io2: Io)
    requires other != e
    ensures ReadResult(configured, WriteEffect(configured, blobs, DataPath(e), v, io), DataPath(other), d, io2)
         == ReadResult(configured, blobs, DataPath(other), d, io2)
  {
    DataPathsDistinct(e, other);
  }

  /** A read that seeds a missing blob returns the default, and every later read returns that
      same value, now from the store, without writing again. */
  lemma SeedingIsStable(blobs: map<string, Blob>, path: string, d: Value)
    requires path !in blobs
    ensures ReadResult(true, blobs, path, d, NoFailure) == Ok(Fetched(d, true))
    ensures var seeded := ReadEffect(true, blobs, path, d, NoFailure);
      ReadResult(true, seeded, path, d, NoFailure) == Ok(Fetched(d, false))
      && ReadEffect(true, seeded, path, d, NoFailure) == seeded
  {
  }

  /** Without a blob token no read or write ever changes the store. */
  lemma UnconfiguredNeverWrites(blobs: map<string, Blob>, path: string, d: Value, io: Io)
    ensures ReadEffect(false, blobs, path, d, io) == blobs
    ensures WriteEffect(false, blobs, path, d, io) == blobs
    ensures WriteOutcome(false, io) == Pass
  {
  }

  /** The blob store together with the process state the store module keeps. */
  class Store {
    /** `BLOB_READ_WRITE_TOKEN` is set. */
    var configured: bool
    /** `ADMIN_EMAIL` and `ADMIN_PASSWORD`. The source reads `process.env` afresh on every
        call of `getAdminUser` and `saveAdminUser`; the model fixes them when the store is
        built, so a change of the environment while the process runs is not modelled. */
    var env: Env
    var blobs: map<string, Blob>
    /** `EMPTY_DATA`, built once when the module loads and shared by every fallback read. */
    var empty: CmsData

    /** Every entity's blob, when it holds JSON, has that entity's shape. */
    ghost predicate Valid()
      reads this
    {
      forall e: Entity :: DataPath(e) in blobs && blobs[DataPath(e)].Json? ==> Fits(e, blobs[DataPath(e)].value)
    }

    /** Module load: `EMPTY_DATA` is `getEmptyCMSData()` under the environment of that moment. */
    constructor (configured: bool, env: Env, blobs: map<string, Blob>)
      requires forall e: Entity :: DataPath(e) in blobs && blobs[DataPath(e)].Json? ==> Fits(e, blobs[DataPath(e)].value)
      ensures Valid()
      ensures this.configured == configured && this.env == env && this.blobs == blobs
      ensures empty == GetEmptyCmsData(env)
    {
      this.configured := configured;
      this.env := env;
      this.blobs := blobs;
      this.empty := GetEmptyCmsData(env);
    }

    /** `getBlob(DATA_PATHS[e], EMPTY_DATA[e])`, the getter of every entity. */
    method Get(e: Entity, io: Io) returns (r: Result<Fetched>)
      requires Valid()
      modifies this
      ensures Valid()
      ensures configured == old(configured) && env == old(env) && empty == old(empty)
      ensures r == ReadResult(configured, old(blobs), DataPath(e), DefaultOf(e, empty), io)
      ensures blobs == ReadEffect(configured, old(blobs), DataPath(e), DefaultOf(e, empty), io)
      ensures r.Ok? ==> Fits(e, r.value.value)
    {
      var path := DataPath(e);
      var dflt := DefaultOf(e, empty);
      if !configured {
        return Ok(Fetched(dflt, true));
      }
      if io.readFails {
        return Ok(Fetched(dflt, true));
      }
      if path !in blobs {
        var saved := Save(e, dflt, io);
        if saved.Fail? {
          return Err("put failed while seeding " + path);
        }
        return Ok(Fetched(dflt, true));
      }
      match blobs[path]
      case Json(v) => r := Ok(Fetched(v, false));
      case EmptyText => r := Ok(Fetched(dflt, true));
      case Unparsable => r := Ok(Fetched(dflt, true));
    }

    /** `saveBlob(DATA_PATHS[e], data)`, the setter of every entity. */
    method Save(e: Entity, data: Value, io: Io) returns (r: Outcome)
      requires Valid() && Fits(e, data)
      modifies this
      ensures Valid()
      ensures configured == old(configured) && env == old(env) && empty == old(empty)
      ensures r == WriteOutcome(configured, io)
      ensures blobs == WriteEffect(configured, old(blobs), DataPath(e), data, io)
    {
      if !configured {
        return Pass;
      }
      if io.writeFails {
        return Fail("put failed");
      }
      blobs := blobs[DataPath(e) := Json(data)];
      r := Pass;
    }

    /** `getAdminUser`: the environment credentials when both are set, without reading the
        store; otherwise the stored admin user. */
    method GetAdminUser(io: Io) returns (r: Result<AdminUser>)
      requires Valid()
      modifies this
      ensures Valid()
      ensures configured == old(configured) && env == old(env) && empty == old(empty)
      ensures r == AdminResult(configured, env, old(blobs), empty, io)
      ensures blobs == AdminEffect(configured, env, old(blobs), empty, io)
    {
      if EnvCredentialsSet(env) {
        return Ok(EnvAdmin(env));
      }
      var got := Get(Admin, io);
      if got.Err? {
        return Err(got.error);
      }
      r := Ok(got.value.value.admin);
    }

    /** `saveAdminUser`: refuses to write while both environment credentials are set. */
    method SaveAdminUser(data: AdminUser, io: Io) returns (r: Outcome)
      requires Valid()
      modifies this
      ensures Valid()
      ensures configured == old(configured) && env == old(env) && empty == old(empty)
      ensures EnvCredentialsSet(env) ==> r == Pass && blobs == old(blobs)
      ensures !EnvCredentialsSet(env) ==>
        r == WriteOutcome(configured, io) && blobs == WriteEffect(configured, old(blobs), DataPath(Admin), AdminV(data), io)
    {
      if EnvCredentialsSet(env) {
        return Pass;
      }
      r := Save(Admin, AdminV(data), io);
    }

    /** A caller changed the object a fallback read handed out, which is `EMPTY_DATA[e]`
        itself: later fallback reads of `e` return the changed value. */
    method ChangeDefaultInPlace(e: Entity, v: Value)
      requires Fits(e, v)
      modifies this
      ensures configured == old(configured) && env == old(env) && blobs == old(blobs)
      ensures empty == WithDefault(old(empty), e, v)
    {
      empty := WithDefault(empty, e, v);
    }
  }

  /** With both environment credentials set, saving the admin user and reading it back gives
      the environment pair, whatever was saved. */
  method EnvCredentialsWin(s: Store, data: AdminUser, io: Io) returns (u: Result<AdminUser>)
    requires s.Valid() && EnvCredentialsSet(s.env)
    modifies s
    ensures u == Ok(EnvAdmin(s.env))
    ensures s.blobs == old(s.blobs)
  {
    var _ := s.SaveAdminUser(data, io);
    u := s.GetAdminUser(io);
  }

  /** Without environment credentials a saved admin user is what later logins check against. */
  method StoredCredentialsRoundTrip(s: Store, data: AdminUser) returns (u: Result<AdminUser>)
    requires s.Valid() && s.configured && !EnvCredentialsSet(s.env)
    modifies s
    ensures u == Ok(data)
  {
    var _ := s.SaveAdminUser(data, NoFailure);
    u := s.GetAdminUser(NoFailure);
  }
}
