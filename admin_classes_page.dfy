/** The admin classes table (src/components/admin/classes/admin-classes-page-content.tsx):
    the same type/level filter as the public page, the status badges, and what a delete shows. */
module AdminClassesPage {
  import opened Wrappers
  import opened Types
  import opened CmsStore
  import opened KeyedLists
  import ClassesPage
  import ContentActions

  datatype BadgeVariant = Default | Destructive | Secondary

  /** `statusMap`: the badge variant and the label key of each status. */
  function StatusBadge(status: ClassStatus): (r: (BadgeVariant, string))
    ensures status == Active <==> r.0 == Default
    ensures status == Full <==> r.0 == Destructive
    ensures status == Inactive <==> r.0 == Secondary
  {
    match status
    case Active => (Default, "active")
    case Full => (Destructive, "full")
    case Inactive => (Secondary, "inactive")
  }

  /** Different statuses never share a badge. */
  lemma StatusBadgeInjective(a: ClassStatus, b: ClassStatus)
    requires StatusBadge(a) == StatusBadge(b)
    ensures a == b
  {
  }

  /** What `handleDelete` does with the action's reply. */
  datatype Feedback = Refreshed | ShowError(description: string)

  function DeleteFeedback(reply: ContentActions.Reply): (f: Feedback)
    ensures f.Refreshed? <==> reply.success
    ensures f.ShowError? ==> f.description == reply.message
  {
    if reply.success then Refreshed else ShowError(reply.message)
  }

  /** `handleDelete`: `deleteClass`, then a refresh on success or an error toast showing the
      reply's message. A failed read or write shows "Failed to delete class."; a read that works
      removes every class with the slug from the list it read, and that list is written back.
      With no storage configured the reply is a success although nothing is stored. */
  method HandleDelete(s: Store, slug: string, io: Io) returns (f: Feedback)
    requires s.Valid()
    modifies s
    ensures s.Valid()
    ensures s.configured == old(s.configured) && s.env == old(s.env) && s.empty == old(s.empty)
    ensures
      var read := ReadResult(s.configured, old(s.blobs), DataPath(Classes), DefaultOf(Classes, s.empty), io);
      var seeded := ReadEffect(s.configured, old(s.blobs), DataPath(Classes), DefaultOf(Classes, s.empty), io);
      (read.Err? ==> f == ShowError("Failed to delete class.") && s.blobs == seeded)
      && (read.Ok? ==>
            s.blobs == WriteEffect(s.configured, seeded, DataPath(Classes), ClassesV(RemoveKey(ClassesOf(read.value.value), ContentActions.ClassSlug, slug)), io)
            && f == if WriteOutcome(s.configured, io).Pass? then Refreshed else ShowError("Failed to delete class."))
    ensures !s.configured ==> f == Refreshed && s.blobs == old(s.blobs)
    ensures s.configured && f == Refreshed ==>
      DataPath(Classes) in s.blobs && s.blobs[DataPath(Classes)].Json?
      && forall c :: c in ClassesOf(s.blobs[DataPath(Classes)].value) ==> c.slug != slug
  {
    var reply := ContentActions.DeleteClass(s, slug, io);
    f := DeleteFeedback(reply);
  }
}
