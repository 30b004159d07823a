/** A single class page (src/components/classes/class-details.tsx): the lookup by slug and
    what the sidebar shows for status, price, capacity and registration. */
module ClassDetails {
  import opened Wrappers
  import opened Types
  import opened KeyedLists
  import ContentActions
  import AdminClassesPage

  datatype Page = Found(info: Class) | NotFound

  /** The page for a slug: the first class with that slug, as `find` returns it, or
      `notFound()`. */
  function ClassPage(classes: seq<Class>, slug: string): (r: Page)
    ensures r.NotFound? <==> forall i :: 0 <= i < |classes| ==> classes[i].slug != slug
    ensures r.Found? ==> r.info.slug == slug && r.info in classes
    ensures r.Found? ==>
      var i := IndexOfKey(classes, ContentActions.ClassSlug, slug);
      0 <= i && r.info == classes[i] && forall j :: 0 <= j < i ==> classes[j].slug != slug
  {
    var found := FindByKey(classes, ContentActions.ClassSlug, slug);
    if found.Some? then Found(found.value) else NotFound
  }

  /** This page's own `statusMap` of badge variants. */
  function StatusVariant(status: ClassStatus): AdminClassesPage.BadgeVariant {
    match status
    case Active => AdminClassesPage.Default
    case Full => AdminClassesPage.Destructive
    case Inactive => AdminClassesPage.Secondary
  }

  /** The public page and the admin table show every status with the same badge variant. */
  lemma VariantsAgree(status: ClassStatus)
    ensures StatusVariant(status) == AdminClassesPage.StatusBadge(status).0
  {
  }

  /** The registration form is offered only for an active class. */
  predicate ShowsRegistration(info: Class) {
    info.status == Active
  }

  /** `classInfo.price || classInfo.price === 0`: a number, zero included, shows the price. */
  predicate ShowsPrice(price: NumField) {
    (price.Num? && price.n != 0) || price == Num(0)
  }

  lemma PriceShownIffNumber(price: NumField)
    ensures ShowsPrice(price) <==> price.Num?
  {
  }

  /** What the capacity slot of the sidebar renders. */
  datatype Render = Nothing | Stray(s: string) | CapacityLine(students: int)

  /** `{classInfo.maxStudents && (...)}` as written: a falsy number is itself rendered, so
      0 prints "0" and NaN prints "NaN". */
  function CapacityAsWritten(maxStudents: NumField): Render {
    match maxStudents
    case Undefined => Nothing
    case Null => Nothing
    case NaN => Stray("NaN")
    case Num(n) => if n == 0 then Stray("0") else CapacityLine(n)
  }

  /** A class with `maxStudents` 0 shows a stray "0" instead of nothing. */
  lemma ZeroRendersStrayText(info: Class)
    requires info.maxStudents == Num(0)
    ensures CapacityAsWritten(info.maxStudents) == Stray("0")
  {
  }

  /** The evidently intended rule: the capacity line for a non-zero number, nothing otherwise. */
  function Capacity(maxStudents: NumField): (r: Render)
    ensures r.CapacityLine? <==> maxStudents.Num? && maxStudents.n != 0
    ensures !r.CapacityLine? ==> r == Nothing
  {
    if maxStudents.Num? && maxStudents.n != 0 then CapacityLine(maxStudents.n) else Nothing
  }

  /** The two agree on every count except the falsy numbers. */
  lemma CapacityAgreesOnTruthy(maxStudents: NumField)
    requires maxStudents != Num(0) && maxStudents != NaN
    ensures Capacity(maxStudents) == CapacityAsWritten(maxStudents)
  {
  }
}
