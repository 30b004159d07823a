/** The visitor-facing server actions (src/app/actions/user-actions.ts): saving and deleting
    contact messages and class registrations. The clock and the random id suffix are
    parameters. */
module UserActions {
  import opened Wrappers
  import opened Types
  import opened EmptyData
  import opened CmsStore
  import opened KeyedLists
  import ContentActions

  type Reply = ContentActions.Reply

  /** The fields a visitor submits on the contact form. */
  datatype MessageData = MessageData(name: string, email: string, subject: string, message: string)

  /** The fields a visitor submits on the registration form. */
  datatype RegistrationData = RegistrationData(
    name: string,
    email: string,
    phone: string,
    className: string,
    classSlug: string,
    germanLevel: OptText,
    learningGoal: OptText,
    motivation: OptText)

  /** The stored message: the submitted fields, the generated id and the submission time. */
  function NewMessage(data: MessageData, id: string, now: string): (m: ContactMessage)
    ensures m.id == id && m.submittedAt == now
    ensures m.name == data.name && m.email == data.email && m.subject == data.subject && m.message == data.message
  {
    ContactMessage(id, data.name, data.email, data.subject, data.message, now)
  }

  /** The stored registration: the submitted fields, the generated id and the time. */
  function NewRegistration(data: RegistrationData, id: string, now: string): (g: ClassRegistration)
    ensures g.id == id && g.submittedAt == now
    ensures g.name == data.name && g.email == data.email && g.phone == data.phone
    ensures g.className == data.className && g.classSlug == data.classSlug
    ensures g.germanLevel == data.germanLevel && g.learningGoal == data.learningGoal && g.motivation == data.motivation
  {
    ClassRegistration(id, data.name, data.email, data.phone, data.className, data.classSlug, now,
                      data.germanLevel, data.learningGoal, data.motivation)
  }

  function MessageId(m: ContactMessage): string {
    m.id
  }

  function RegistrationId(g: ClassRegistration): string {
    g.id
  }

  /** `saveContactMessage`. The new message goes first (`unshift`); when the list came from
      the fallback default, the shift changes that default too, whatever the save does. */
  method SaveContactMessage(s: Store, data: MessageData, id: string, now: string, io: Io) returns (r: Reply)
    requires s.Valid()
    modifies s
    ensures s.Valid()
    ensures s.configured == old(s.configured) && s.env == old(s.env)
    ensures
      var read := ReadResult(s.configured, old(s.blobs), DataPath(Messages), DefaultOf(Messages, old(s.empty)), io);
      var seeded := ReadEffect(s.configured, old(s.blobs), DataPath(Messages), DefaultOf(Messages, old(s.empty)), io);
      (read.Err? ==> r == ContentActions.Failed("An unknown error occurred.") && s.blobs == seeded && s.empty == old(s.empty))
      && (read.Ok? ==>
            var messages := [NewMessage(data, id, now)] + MessagesOf(read.value.value);
            s.blobs == WriteEffect(s.configured, seeded, DataPath(Messages), MessagesV(messages), io)
            && s.empty == (if read.value.isDefault then WithDefault(old(s.empty), Messages, MessagesV(messages)) else old(s.empty))
            && r == if WriteOutcome(s.configured, io).Pass? then ContentActions.Succeeded("Message sent successfully!")
                    else ContentActions.Failed("An unknown error occurred."))
  {
    var read := s.Get(Messages, io);
    if read.Err? {
      return ContentActions.Failed("An unknown error occurred.");
    }
    var messages := MessagesOf(read.value.value);
    var newMessage := NewMessage(data, id, now);
    messages := [newMessage] + messages;
    if read.value.isDefault {
      s.ChangeDefaultInPlace(Messages, MessagesV(messages));
    }
    var saved := s.Save(Messages, MessagesV(messages), io);
    if saved.Fail? {
      return ContentActions.Failed("An unknown error occurred.");
    }
    r := ContentActions.Succeeded("Message sent successfully!");
  }

  /** `getContactMessages`: the stored list as read, or the read's exception. */
  method GetContactMessages(s: Store, io: Io) returns (r: Result<seq<ContactMessage>>)
    requires s.Valid()
    modifies s
    ensures s.Valid()
    ensures s.configured == old(s.configured) && s.env == old(s.env) && s.empty == old(s.empty)
    ensures
      var read := ReadResult(s.configured, old(s.blobs), DataPath(Messages), DefaultOf(Messages, s.empty), io);
      s.blobs == ReadEffect(s.configured, old(s.blobs), DataPath(Messages), DefaultOf(Messages, s.empty), io)
      && (read.Err? <==> r.Err?)
      && (read.Ok? ==> r == Ok(read.value.value.messages))
  {
    var read := s.Get(Messages, io);
    if read.Err? {
      return Err(read.error);
    }
    r := Ok(read.value.value.messages);
  }

  /** `deleteContactMessage`: drops every message with the id, success even when none matched. */
  method DeleteContactMessage(s: Store, id: string, io: Io) returns (r: Reply)
    requires s.Valid()
    modifies s
    ensures s.Valid()
    ensures s.configured == old(s.configured) && s.env == old(s.env) && s.empty == old(s.empty)
    ensures
      var read := ReadResult(s.configured, old(s.blobs), DataPath(Messages), DefaultOf(Messages, s.empty), io);
      var seeded := ReadEffect(s.configured, old(s.blobs), DataPath(Messages), DefaultOf(Messages, s.empty), io);
      (read.Err? ==> r == ContentActions.Failed("Failed to delete message.") && s.blobs == seeded)
      && (read.Ok? ==>
            s.blobs == WriteEffect(s.configured, seeded, DataPath(Messages), MessagesV(RemoveKey(MessagesOf(read.value.value), MessageId, id)), io)
            && r == if WriteOutcome(s.configured, io).Pass? then ContentActions.Succeeded("Message deleted successfully.")
                    else ContentActions.Failed("Failed to delete message."))
  {
    var read := s.Get(Messages, io);
    if read.Err? {
      return ContentActions.Failed("Failed to delete message.");
    }
    var updatedMessages := RemoveKey(MessagesOf(read.value.value), MessageId, id);
    var saved := s.Save(Messages, MessagesV(updatedMessages), io);
    if saved.Fail? {
      return ContentActions.Failed("Failed to delete message.");
    }
    r := ContentActions.Succeeded("Message deleted successfully.");
  }

  /** `saveClassRegistration`, with the same front insertion as `saveContactMessage`. */
  method SaveClassRegistration(s: Store, data: RegistrationData, id: string, now: string, io: Io) returns (r: Reply)
    requires s.Valid()
    modifies s
    ensures s.Valid()
    ensures s.configured == old(s.configured) && s.env == old(s.env)
    ensures
      var read := ReadResult(s.configured, old(s.blobs), DataPath(Registrations), DefaultOf(Registrations, old(s.empty)), io);
      var seeded := ReadEffect(s.configured, old(s.blobs), DataPath(Registrations), DefaultOf(Registrations, old(s.empty)), io);
      (read.Err? ==> r == ContentActions.Failed("An unknown error occurred.") && s.blobs == seeded && s.empty == old(s.empty))
      && (read.Ok? ==>
            var registrations := [NewRegistration(data, id, now)] + RegistrationsOf(read.value.value);
            s.blobs == WriteEffect(s.configured, seeded, DataPath(Registrations), RegistrationsV(registrations), io)
            && s.empty == (if read.value.isDefault then WithDefault(old(s.empty), Registrations, RegistrationsV(registrations)) else old(s.empty))
            && r == if WriteOutcome(s.configured, io).Pass? then ContentActions.Succeeded("Registration successful!")
                    else ContentActions.Failed("An unknown error occurred."))
  {
    var read := s.Get(Registrations, io);
    if read.Err? {
      return ContentActions.Failed("An unknown error occurred.");
    }
    var registrations := RegistrationsOf(read.value.value);
    var newRegistration := NewRegistration(data, id, now);
    registrations := [newRegistration] + registrations;
    if read.value.isDefault {
      s.ChangeDefaultInPlace(Registrations, RegistrationsV(registrations));
    }
    var saved := s.Save(Registrations, RegistrationsV(registrations), io);
    if saved.Fail? {
      return ContentActions.Failed("An unknown error occurred.");
    }
    r := ContentActions.Succeeded("Registration successful!");
  }

  /** `getClassRegistrations`: the stored list as read, or the read's exception. */
  method GetClassRegistrations(s: Store, io: Io) returns (r: Result<seq<ClassRegistration>>)
    requires s.Valid()
    modifies s
    ensures s.Valid()
    ensures s.configured == old(s.configured) && s.env == old(s.env) && s.empty == old(s.empty)
    ensures
      var read := ReadResult(s.configured, old(s.blobs), DataPath(Registrations), DefaultOf(Registrations, s.empty), io);
      s.blobs == ReadEffect(s.configured, old(s.blobs), DataPath(Registrations), DefaultOf(Registrations, s.empty), io)
      && (read.Err? <==> r.Err?)
      && (read.Ok? ==> r == Ok(read.value.value.registrations))
  {
    var read := s.Get(Registrations, io);
    if read.Err? {
      return Err(read.error);
    }
    r := Ok(read.value.value.registrations);
  }

  /** `deleteClassRegistration`: drops every registration with the id. */
  method DeleteClassRegistration(s: Store, id: string, io: Io) returns (r: Reply)
    requires s.Valid()
    modifies s
    ensures s.Valid()
    ensures s.configured == old(s.configured) && s.env == old(s.env) && s.empty == old(s.empty)
    ensures
      var read := ReadResult(s.configured, old(s.blobs), DataPath(Registrations), DefaultOf(Registrations, s.empty), io);
      var seeded := ReadEffect(s.configured, old(s.blobs), DataPath(Registrations), DefaultOf(Registrations, s.empty), io);
      (read.Err? ==> r == ContentActions.Failed("Failed to delete registration.") && s.blobs == seeded)
      && (read.Ok? ==>
            s.blobs == WriteEffect(s.configured, seeded, DataPath(Registrations),
                                   RegistrationsV(RemoveKey(RegistrationsOf(read.value.value), RegistrationId, id)), io)
            && r == if WriteOutcome(s.configured, io).Pass? then ContentActions.Succeeded("Registration deleted successfully.")
                    else ContentActions.Failed("Failed to delete registration."))
  {
    var read := s.Get(Registrations, io);
    if read.Err? {
      return ContentActions.Failed("Failed to delete registration.");
    }
    var updatedRegistrations := RemoveKey(RegistrationsOf(read.value.value), RegistrationId, id);
    var saved := s.Save(Registrations, RegistrationsV(updatedRegistrations), io);
    if saved.Fail? {
      return ContentActions.Failed("Failed to delete registration.");
    }
    r := ContentActions.Succeeded("Registration deleted successfully.");
  }

  /** Without a blob token, a sent message is still seen by the next listing, because the
      shift changed the shared fallback list. */
  method UnconfiguredMessageIsListed(s: Store, data: MessageData, id: string, now: string, io: Io)
    returns (listed: Result<seq<ContactMessage>>)
    requires s.Valid() && !s.configured
    modifies s
    ensures listed == Ok([NewMessage(data, id, now)] + old(s.empty.messages))
  {
    var sent := SaveContactMessage(s, data, id, now, io);
    listed := GetContactMessages(s, io);
  }

  /** Without a blob token, deleting a message is not seen by the next listing: the filter
      built a new list and the save was skipped. */
  method UnconfiguredDeleteIsLost(s: Store, id: string, io: Io) returns (listed: Result<seq<ContactMessage>>)
    requires s.Valid() && !s.configured
    modifies s
    ensures listed == Ok(old(s.empty.messages))
  {
    var deleted := DeleteContactMessage(s, id, io);
    listed := GetContactMessages(s, io);
  }

  /** Saving then deleting a message by a fresh id gives back the list as it was. */
  lemma SaveThenDelete(messages: seq<ContactMessage>, data: MessageData, id: string, now: string)
    requires !HasKey(messages, MessageId, id)
    ensures RemoveKey([NewMessage(data, id, now)] + messages, MessageId, id) == messages
  {
    PrependThenRemove(messages, MessageId, NewMessage(data, id, now));
  }
}
