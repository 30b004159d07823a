/** The class editor's state (src/components/admin/classes/edit-class-form.tsx): loading a
    class by slug, the localized, SEO and list setters, the numeric inputs, and the save that
    cleans the numbers before `updateClass`. */
module EditClassForm {
  import opened Wrappers
  import opened Types
  import opened JsString
  import opened KeyedLists
  import opened LocalizedLists
  import opened CmsStore
  import ContentActions

  /** A class as read from storage: its SEO block may be missing; the SEO of `fields` is not
      used. */
  datatype StoredClass = StoredClass(fields: Class, seo: Option<Seo>)

  function StoredSlug(c: StoredClass): string { c.fields.slug }

  /** The copy the editor works on: the stored class with an SEO block present. */
  function Normalize(c: StoredClass): (r: Class)
    ensures r.seo == (if c.seo.Some? then c.seo.value else EmptySeo)
    ensures r.(seo := c.fields.seo) == c.fields
  {
    c.fields.(seo := if c.seo.Some? then c.seo.value else EmptySeo)
  }

  /** What the price and capacity inputs store: an empty box leaves the number unset, anything
      else is `Number(text)`. */
  function InputNumber(text: string): (r: NumField)
    ensures r == Undefined <==> text == ""
    ensures r != Null
    ensures text == "0" ==> r == Num(0)
  {
    if text == "" then Undefined
    else if text == "0" then
      ContentActions.SingleDigit(text);
      ContentActions.NumberOf(text)
    else ContentActions.NumberOf(text)
  }

  /** The number `handleFormAction` saves: a missing, `null` or `NaN` number becomes unset. */
  function SaveNumber(n: NumField): (r: NumField)
    ensures r.Undefined? || r.Num?
    ensures n.Num? ==> r == n
    ensures !n.Num? ==> r == Undefined
  {
    if n.Undefined? || n.Null? || n.NaN? then Undefined else n
  }

  /** A non-numeric box text is never saved as a number. */
  lemma InputSavedClean(text: string)
    ensures SaveNumber(InputNumber(text)) == (if text == "" || ContentActions.NumberOf(text).NaN? then Undefined
                                             else ContentActions.NumberOf(text))
  {
  }

  /** The class `handleFormAction` hands to `updateClass`. */
  function DataToSave(c: Class): (r: Class)
    ensures r.price.Undefined? || r.price.Num?
    ensures r.maxStudents.Undefined? || r.maxStudents.Num?
    ensures r.(price := c.price, maxStudents := c.maxStudents) == c
  {
    c.(price := SaveNumber(c.price), maxStudents := SaveNumber(c.maxStudents))
  }

  /** Cleaning the numbers twice is cleaning them once. */
  lemma DataToSaveIdempotent(c: Class)
    ensures DataToSave(DataToSave(c)) == DataToSave(c)
  {
  }

  datatype TextField = Title | Excerpt | Description

  function TextOf(c: Class, field: TextField): Loc {
    match field
    case Title => c.title
    case Excerpt => c.excerpt
    case Description => c.description
  }

  datatype SeoField = SeoTitle | SeoDescription

  datatype ListField = Objectives | Prerequisites

  function ListOf(c: Class, field: ListField): seq<Loc> {
    match field
    case Objectives => c.objectives
    case Prerequisites => c.prerequisites
  }

  class Editor {
    /** `classData`: `None` until the class is loaded. */
    var classData: Option<Class>

    constructor ()
      ensures classData == None
    {
      classData := None;
    }

    /** The load effect: the class with the slug, normalized, or `notFound()` (`found` false). */
    method Load(classes: seq<StoredClass>, slug: string) returns (found: bool)
      modifies this
      ensures found <==> HasKey(classes, StoredSlug, slug)
      ensures found ==> classData == Some(Normalize(classes[IndexOfKey(classes, StoredSlug, slug)]))
      ensures found ==> classData.Some? && classData.value.slug == slug
      ensures !found ==> classData == old(classData)
    {
      var data := FindByKey(classes, StoredSlug, slug);
      if data.None? {
        return false;
      }
      classData := Some(Normalize(data.value));
      found := true;
    }

    /** `handleLocalizedInputChange`: one language of one text field. */
    method SetText(lang: Language, field: TextField, value: string)
      modifies this
      ensures old(classData) == None ==> classData == None
      ensures old(classData).Some? ==>
        classData.Some?
        && TextOf(classData.value, field) == TextOf(old(classData).value, field).With(lang, value)
        && forall other :: other != field ==> TextOf(classData.value, other) == TextOf(old(classData).value, other)
      ensures old(classData).Some? ==>
        classData.value.(title := old(classData).value.title, excerpt := old(classData).value.excerpt,
                         description := old(classData).value.description) == old(classData).value
    {
      if classData.Some? {
        var c := classData.value;
        match field
        case Title => classData := Some(c.(title := c.title.With(lang, value)));
        case Excerpt => classData := Some(c.(excerpt := c.excerpt.With(lang, value)));
        case Description => classData := Some(c.(description := c.description.With(lang, value)));
      }
    }

    /** `handleSeoInputChange`: one language of the SEO title or description. */
    method SetSeo(lang: Language, field: SeoField, value: string)
      modifies this
      ensures old(classData) == None ==> classData == None
      ensures old(classData).Some? ==> classData == Some(old(classData).value.(seo :=
        if field == SeoTitle then old(classData).value.seo.(title := old(classData).value.seo.title.With(lang, value))
        else old(classData).value.seo.(description := old(classData).value.seo.description.With(lang, value))))
    {
      if classData.Some? {
        var c := classData.value;
        if field == SeoTitle {
          classData := Some(c.(seo := c.seo.(title := c.seo.title.With(lang, value))));
        } else {
          classData := Some(c.(seo := c.seo.(description := c.seo.description.With(lang, value))));
        }
      }
    }

    /** `handleListChange`: one language of the objectives or prerequisites, one entry per line
        of the box. */
    method SetList(lang: Language, field: ListField, value: string)
      modifies this
      ensures old(classData) == None ==> classData == None
      ensures old(classData).Some? ==>
        classData.Some?
        && ListOf(classData.value, field) == Rewrite(ListOf(old(classData).value, field), lang, Split(value, '\n'))
      ensures old(classData).Some? ==>
        classData.value.(objectives := old(classData).value.objectives,
                         prerequisites := old(classData).value.prerequisites) == old(classData).value
      ensures old(classData).Some? ==>
        forall other :: other != field ==> ListOf(classData.value, other) == ListOf(old(classData).value, other)
    {
      if classData.None? {
        return;
      }
      var c := classData.value;
      var newList := ApplyPieces(ListOf(c, field), lang, Split(value, '\n'));
      match field
      case Objectives => classData := Some(c.(objectives := newList));
      case Prerequisites => classData := Some(c.(prerequisites := newList));
    }

    /** The price and capacity inputs: `handleInputChange` with the box's number. */
    method SetPrice(text: string)
      modifies this
      ensures old(classData) == None ==> classData == None
      ensures old(classData).Some? ==> classData == Some(old(classData).value.(price := InputNumber(text)))
    {
      if classData.Some? {
        classData := Some(classData.value.(price := InputNumber(text)));
      }
    }

    method SetMaxStudents(text: string)
      modifies this
      ensures old(classData) == None ==> classData == None
      ensures old(classData).Some? ==> classData == Some(old(classData).value.(maxStudents := InputNumber(text)))
    {
      if classData.Some? {
        classData := Some(classData.value.(maxStudents := InputNumber(text)));
      }
    }

    /** `handleFormAction`: nothing before the class is loaded; otherwise the reply of
        `updateClass` with the cleaned copy. A failed read or write gives "Failed to update
        class.", a slug that is not in the list read gives "Class not found.", and otherwise the
        list read, with the copy in place of the first class with its slug, is written back
        (and, when that list was the shared default, it is changed in place). With storage
        configured and working, a stored slug is saved and reported as a success. */
    method Submit(s: Store, io: Io) returns (r: Option<ContentActions.Reply>)
      requires s.Valid()
      modifies s
      ensures s.Valid() && s.configured == old(s.configured) && s.env == old(s.env)
      ensures old(classData).None? ==> r.None? && s.blobs == old(s.blobs) && s.empty == old(s.empty)
      ensures old(classData).Some? ==>
        var updated := DataToSave(old(classData).value);
        var read := ReadResult(s.configured, old(s.blobs), DataPath(Classes), DefaultOf(Classes, old(s.empty)), io);
        var seeded := ReadEffect(s.configured, old(s.blobs), DataPath(Classes), DefaultOf(Classes, old(s.empty)), io);
        r.Some?
        && (read.Err? ==> r.value == ContentActions.Failed("Failed to update class.") && s.blobs == seeded && s.empty == old(s.empty))
        && (read.Ok? && !HasKey(ClassesOf(read.value.value), ContentActions.ClassSlug, updated.slug) ==>
              r.value == ContentActions.Failed("Class not found.") && s.blobs == seeded && s.empty == old(s.empty))
        && (read.Ok? && HasKey(ClassesOf(read.value.value), ContentActions.ClassSlug, updated.slug) ==>
              var classes := ReplaceFirst(ClassesOf(read.value.value), ContentActions.ClassSlug, updated).value;
              s.blobs == WriteEffect(s.configured, seeded, DataPath(Classes), ClassesV(classes), io)
              && s.empty == (if read.value.isDefault then WithDefault(old(s.empty), Classes, ClassesV(classes)) else old(s.empty))
              && r.value == if WriteOutcome(s.configured, io).Pass? then ContentActions.Succeeded("Class updated successfully!")
                            else ContentActions.Failed("Failed to update class."))
      ensures
        var stored := ClassesOf(ReadResult(true, old(s.blobs), DataPath(Classes), DefaultOf(Classes, old(s.empty)), NoFailure).value.value);
        (old(classData).Some? && old(s.configured) && io == NoFailure
          && HasKey(stored, ContentActions.ClassSlug, old(classData).value.slug)) ==>
        r == Some(ContentActions.Succeeded("Class updated successfully!"))
        && DataPath(Classes) in s.blobs && s.blobs[DataPath(Classes)].Json?
        && ClassesOf(s.blobs[DataPath(Classes)].value) == ReplaceFirst(stored, ContentActions.ClassSlug, DataToSave(old(classData).value)).value
    {
      if classData.None? {
        return None;
      }
      var reply := ContentActions.UpdateClass(s, DataToSave(classData.value), io);
      r := Some(reply);
    }
  }

  /** Retyping the shown lines of a non-empty list without line breaks keeps the list. */
  method RetypeListKeepsIt(e: Editor, lang: Language, field: ListField)
    requires e.classData.Some? && |ListOf(e.classData.value, field)| >= 1
    requires forall i :: 0 <= i < |ListOf(e.classData.value, field)| ==> '\n' !in ListOf(e.classData.value, field)[i].Get(lang)
    modifies e
    ensures e.classData == old(e.classData)
  {
    var shown := LinesText(ListOf(e.classData.value, field), lang);
    LinesRoundTrip(ListOf(e.classData.value, field), lang);
    e.SetList(lang, field, shown);
    assert ListOf(e.classData.value, Objectives) == ListOf(old(e.classData).value, Objectives);
    assert ListOf(e.classData.value, Prerequisites) == ListOf(old(e.classData).value, Prerequisites);
  }
}
