/** The two-step class registration form (src/components/classes/registration-form.tsx):
    contact details on step 1, level, goal and motivation on step 2, then the save. */
module RegistrationForm {
  import opened Wrappers
  import opened Types
  import opened CmsStore
  import opened FormSchemas
  import UserActions

  /** The form's fields; the level and goal radio groups start unselected. */
  datatype Fields = Fields(
    name: string,
    email: string,
    phone: string,
    germanLevel: Option<string>,
    learningGoal: Option<string>,
    motivation: string)

  /** `defaultValues`, also what `form.reset()` restores. */
  const Defaults := Fields("", "", "", None, None, "")

  /** What `handleNext` checks: name of 2 or more characters, an email, a phone of 5 or more. */
  predicate ContactDetailsValid(f: Fields) {
    MinLength(f.name, 2) && IsEmail(f.email) && MinLength(f.phone, 5)
  }

  /** The whole schema: the contact details, and a level and a goal chosen; the motivation is
      optional. */
  predicate SchemaValid(f: Fields) {
    ContactDetailsValid(f) && f.germanLevel.Some? && f.learningGoal.Some?
  }

  /** The untouched form cannot move on. */
  lemma DefaultsStayOnStepOne()
    ensures !ContactDetailsValid(Defaults) && !SchemaValid(Defaults)
  {
  }

  /** The radio value a level is offered under: the upper-case name ("A1" … "C2"), not the
      lower-case `ClassLevel` string of src/lib/types.ts. */
  function LevelName(level: ClassLevel): string {
    match level
    case A1 => "A1"
    case A2 => "A2"
    case B1 => "B1"
    case B2 => "B2"
    case C1 => "C1"
    case C2 => "C2"
  }

  /** The levels offered by the radio group. */
  const OfferedLevels: seq<string> := ["A1", "A2", "B1", "B2", "C1", "C2"]

  /** The offered levels are exactly the names of the class levels, each once. */
  lemma OfferedLevelsAreClassLevels()
    ensures forall level: ClassLevel :: LevelName(level) in OfferedLevels
    ensures forall i :: 0 <= i < |OfferedLevels| ==> exists level: ClassLevel :: LevelName(level) == OfferedLevels[i]
    ensures forall i, j :: 0 <= i < j < |OfferedLevels| ==> OfferedLevels[i] != OfferedLevels[j]
  {
    assert LevelName(A1) == OfferedLevels[0] && LevelName(A2) == OfferedLevels[1];
    assert LevelName(B1) == OfferedLevels[2] && LevelName(B2) == OfferedLevels[3];
    assert LevelName(C1) == OfferedLevels[4] && LevelName(C2) == OfferedLevels[5];
    forall i, j | 0 <= i < j < |OfferedLevels|
      ensures OfferedLevels[i] != OfferedLevels[j]
    {
      assert OfferedLevels[i][0] != OfferedLevels[j][0] || OfferedLevels[i][1] != OfferedLevels[j][1];
    }
  }

  /** `onSubmit`'s payload: the fields plus the class's title in the page language and its
      slug. */
  function Payload(f: Fields, classInfo: Class, lang: Language): (r: UserActions.RegistrationData)
    requires SchemaValid(f)
    ensures r.name == f.name && r.email == f.email && r.phone == f.phone
    ensures r.className == classInfo.title.Get(lang) && r.classSlug == classInfo.slug
    ensures r.germanLevel == Text(f.germanLevel.value) && r.learningGoal == Text(f.learningGoal.value)
    ensures r.motivation == Text(f.motivation)
  {
    UserActions.RegistrationData(f.name, f.email, f.phone, classInfo.title.Get(lang), classInfo.slug,
                                 Text(f.germanLevel.value), Text(f.learningGoal.value), Text(f.motivation))
  }

  /** What a submit attempt shows: the schema refused the fields, a success toast, or an
      error toast. */
  datatype Outcome = Invalid | Registered | NotRegistered

  class Form {
    var step: int
    var fields: Fields

    ghost predicate Valid()
      reads this
    {
      step == 1 || step == 2
    }

    constructor ()
      ensures Valid() && step == 1 && fields == Defaults
    {
      step := 1;
      fields := Defaults;
    }

    /** `handleNext`: step 2 only when the contact details pass. */
    method Next()
      requires Valid()
      modifies this
      ensures Valid() && fields == old(fields)
      ensures step == if ContactDetailsValid(fields) then 2 else old(step)
    {
      if ContactDetailsValid(fields) {
        step := 2;
      }
    }

    /** The Back button. */
    method Back()
      requires Valid()
      modifies this
      ensures Valid() && step == 1 && fields == old(fields)
    {
      step := 1;
    }

    /** `form.handleSubmit(onSubmit)`: nothing happens unless the whole schema passes; then the
        registration is put in front of the list read and saved, and a success resets the form
        to step 1. A failed read or write shows the error toast; with no storage configured the
        save reports a success and the registration goes only into the shared default list. The id and time the
        action stamps are parameters. */
    method Submit(s: Store, classInfo: Class, lang: Language, id: string, now: string, io: Io)
      returns (outcome: Outcome)
      requires Valid() && s.Valid()
      modifies this, s
      ensures Valid() && s.Valid()
      ensures s.configured == old(s.configured) && s.env == old(s.env)
      ensures outcome == Invalid <==> !SchemaValid(old(fields))
      ensures outcome == Invalid ==> step == old(step) && fields == old(fields) && s.blobs == old(s.blobs) && s.empty == old(s.empty)
      ensures outcome == Registered ==> step == 1 && fields == Defaults
      ensures outcome == NotRegistered ==> step == old(step) && fields == old(fields)
      ensures SchemaValid(old(fields)) ==>
        var read := ReadResult(s.configured, old(s.blobs), DataPath(Registrations), DefaultOf(Registrations, old(s.empty)), io);
        var seeded := ReadEffect(s.configured, old(s.blobs), DataPath(Registrations), DefaultOf(Registrations, old(s.empty)), io);
        (read.Err? ==> outcome == NotRegistered && s.blobs == seeded && s.empty == old(s.empty))
        && (read.Ok? ==>
              var registrations := [UserActions.NewRegistration(Payload(old(fields), classInfo, lang), id, now)]
                                   + RegistrationsOf(read.value.value);
              s.blobs == WriteEffect(s.configured, seeded, DataPath(Registrations), RegistrationsV(registrations), io)
              && s.empty == (if read.value.isDefault then WithDefault(old(s.empty), Registrations, RegistrationsV(registrations)) else old(s.empty))
              && (outcome == Registered <==> WriteOutcome(s.configured, io).Pass?))
      ensures SchemaValid(old(fields)) && old(s.configured) && io == NoFailure ==>
        outcome == Registered
        && DataPath(Registrations) in s.blobs && s.blobs[DataPath(Registrations)].Json?
        && |RegistrationsOf(s.blobs[DataPath(Registrations)].value)| >= 1
        && RegistrationsOf(s.blobs[DataPath(Registrations)].value)[0]
           == UserActions.NewRegistration(Payload(old(fields), classInfo, lang), id, now)
    {
      if !SchemaValid(fields) {
        return Invalid;
      }
      var data := Payload(fields, classInfo, lang);
      var result := UserActions.SaveClassRegistration(s, data, id, now, io);
      if result.success {
        fields := Defaults;
        step := 1;
        outcome := Registered;
      } else {
        outcome := NotRegistered;
      }
    }
  }

  /** Details that pass, then a choice of level and goal, then a working save: the visitor
      goes through both steps and ends back on step 1 with an empty form. */
  method HappyPath(s: Store, classInfo: Class, lang: Language, details: Fields, id: string, now: string)
    returns (outcome: Outcome)
    requires s.Valid() && s.configured && SchemaValid(details)
    modifies s
    ensures outcome == Registered
  {
    var form := new Form();
    form.fields := details;
    form.Next();
    assert form.step == 2;
    outcome := form.Submit(s, classInfo, lang, id, now, NoFailure);
  }
}
