/** The contact form (src/components/contact/contact-form.tsx): its validator and the
    reset after a successful send. */
module ContactForm {
  import opened CmsStore
  import opened FormSchemas
  import UserActions

  datatype Fields = Fields(name: string, email: string, subject: string, message: string)

  /** `defaultValues`, also what `form.reset()` restores. */
  const Defaults := Fields("", "", "", "")

  /** The schema: name of 2 or more characters, an email, a subject of 5 or more, a message of
      10 or more. */
  predicate SchemaValid(f: Fields) {
    MinLength(f.name, 2) && IsEmail(f.email) && MinLength(f.subject, 5) && MinLength(f.message, 10)
  }

  /** An untouched form does not pass; no field may be left out. */
  lemma UntouchedFormInvalid(f: Fields)
    requires f.name == "" || f.subject == "" || f.message == "" || f.email == ""
    ensures !SchemaValid(f)
  {
    if f.email == "" {
      NoAtIsNotEmail(f.email);
    }
  }

  function Payload(f: Fields): (r: UserActions.MessageData)
    ensures r.name == f.name && r.email == f.email && r.subject == f.subject && r.message == f.message
  {
    UserActions.MessageData(f.name, f.email, f.subject, f.message)
  }

  datatype Outcome = Invalid | Sent | NotSent

  class Form {
    var fields: Fields

    constructor ()
      ensures fields == Defaults
    {
      fields := Defaults;
    }

    /** `form.handleSubmit(onSubmit)`: nothing happens unless the schema passes; then the
        message is put in front of the list read and saved. A sent message empties the form, a
        failed read or write leaves it as typed; with no storage configured the send reports a
        success and the message goes only into the shared default list. The id and time are parameters. */
    method Submit(s: Store, id: string, now: string, io: Io) returns (outcome: Outcome)
      requires s.Valid()
      modifies this, s
      ensures s.Valid() && s.configured == old(s.configured) && s.env == old(s.env)
      ensures outcome == Invalid <==> !SchemaValid(old(fields))
      ensures outcome == Invalid ==> fields == old(fields) && s.blobs == old(s.blobs) && s.empty == old(s.empty)
      ensures outcome == Sent ==> fields == Defaults
      ensures outcome == NotSent ==> fields == old(fields)
      ensures SchemaValid(old(fields)) ==>
        var read := ReadResult(s.configured, old(s.blobs), DataPath(Messages), DefaultOf(Messages, old(s.empty)), io);
        var seeded := ReadEffect(s.configured, old(s.blobs), DataPath(Messages), DefaultOf(Messages, old(s.empty)), io);
        (read.Err? ==> outcome == NotSent && s.blobs == seeded && s.empty == old(s.empty))
        && (read.Ok? ==>
              var messages := [UserActions.NewMessage(Payload(old(fields)), id, now)] + MessagesOf(read.value.value);
              s.blobs == WriteEffect(s.configured, seeded, DataPath(Messages), MessagesV(messages), io)
              && s.empty == (if read.value.isDefault then WithDefault(old(s.empty), Messages, MessagesV(messages)) else old(s.empty))
              && (outcome == Sent <==> WriteOutcome(s.configured, io).Pass?))
      ensures SchemaValid(old(fields)) && old(s.configured) && io == NoFailure ==>
        outcome == Sent
        && DataPath(Messages) in s.blobs && s.blobs[DataPath(Messages)].Json?
        && |MessagesOf(s.blobs[DataPath(Messages)].value)| >= 1
        && MessagesOf(s.blobs[DataPath(Messages)].value)[0] == UserActions.NewMessage(Payload(old(fields)), id, now)
      ensures SchemaValid(old(fields)) && old(s.configured) && io.writeFails ==> outcome == NotSent
    {
      if !SchemaValid(fields) {
        return Invalid;
      }
      var result := UserActions.SaveContactMessage(s, Payload(fields), id, now, io);
      if result.success {
        fields := Defaults;
        outcome := Sent;
      } else {
        outcome := NotSent;
      }
    }
  }
}
