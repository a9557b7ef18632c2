/**
 * One ticket card (app/components/ticket-item.tsx): who may edit it, and what
 * the card shows.
 */
module TicketItem {

  import opened Types
  import opened Seqs

  /**
   * `canEdit` (lines 23-24). `role` is the `currentUserRole` prop, None where
   * the parent passes none. The second disjunct compares the ticket's joined
   * assignee with the ticket's own assignee column: the joined user's id, or
   * undefined without a join, against the column, which is null when
   * unassigned; undefined and null differ under `===`.
   */
  predicate CanEdit(role: Option<string>, t: Ticket)
  {
    role == Some("admin")
    || (t.assignedUser.Some? && t.row.assignedUserId == Some(t.assignedUser.value.id))
  }

  /** What the card renders. */
  datatype ItemView = ItemView(
    title: string,
    description: string,
    assigneeLabel: string,
    creatorLabel: string,
    policyLine: Option<string>,
    editButton: bool,
    editModal: bool)

  /** The card (lines 26-77): the edit button and the edit modal both hang on `canEdit`. */
  function RenderItem(role: Option<string>, t: Ticket): (v: ItemView)
    ensures v.editButton == v.editModal == CanEdit(role, t)
    ensures v.title == t.row.title && v.description == t.row.description
    ensures t.assignedUser.Some? && t.assignedUser.value.fullName != "" ==> v.assigneeLabel == t.assignedUser.value.fullName
    ensures v.creatorLabel == (if t.createdBy.Some? then t.createdBy.value.fullName else "")
    ensures v.assigneeLabel != ""
    ensures v.assigneeLabel == "Sin asignar" <==> t.assignedUser.None? || t.assignedUser.value.fullName in {"", "Sin asignar"}
    ensures v.policyLine.Some? <==> t.row.policyNumber.Some? && t.row.policyNumber.value != ""
    ensures v.policyLine.Some? ==> v.policyLine == t.row.policyNumber
  {
    var canEdit := CanEdit(role, t);
    ItemView(
      t.row.title,
      t.row.description,
      if t.assignedUser.Some? && t.assignedUser.value.fullName != "" then t.assignedUser.value.fullName else "Sin asignar",
      if t.createdBy.Some? then t.createdBy.value.fullName else "",
      if t.row.policyNumber.Some? && t.row.policyNumber.value != "" then t.row.policyNumber else None,
      canEdit,
      canEdit)
  }

  /** An admin may edit every ticket. */
  lemma AdminEditsEverything(t: Ticket)
    ensures CanEdit(Some("admin"), t)
  {
  }

  /**
   * For any other role, or none, the answer depends only on the ticket: the
   * viewer's own identity is never consulted.
   */
  lemma NonAdminEditDependsOnTicketOnly(role: Option<string>, other: Option<string>, t: Ticket)
    requires role != Some("admin") && other != Some("admin")
    ensures CanEdit(role, t) <==> CanEdit(other, t)
    ensures CanEdit(role, t) <==> t.assignedUser.Some? && t.row.assignedUserId == Some(t.assignedUser.value.id)
  {
  }

  /** An unassigned ticket is not editable except by an admin. */
  lemma UnassignedNotEditable(role: Option<string>, t: Ticket)
    requires role != Some("admin") && t.row.assignedUserId.None?
    ensures !CanEdit(role, t)
  {
  }

  /**
   * A ticket whose assignee joined to that user's profile is editable under
   * every role, whoever is looking.
   */
  lemma JoinedAssigneeEditableByAnyone(role: Option<string>, t: Ticket, p: Profile)
    requires t.row.assignedUserId == Some(p.id) && t.assignedUser == Some(p)
    ensures CanEdit(role, t)
  {
  }

  function EditableBy(role: Option<string>): Ticket -> bool
  {
    (t: Ticket) => CanEdit(role, t)
  }

  /**
   * On a list of tickets, the ones a non-admin may edit are the same for every
   * non-admin role; an admin may edit them all.
   */
  lemma EditableListing(tickets: seq<Ticket>, role: Option<string>)
    ensures role == Some("admin") ==> Filter(tickets, EditableBy(role)) == tickets
    ensures role != Some("admin") ==> Filter(tickets, EditableBy(role)) == Filter(tickets, EditableBy(None))
  {
    if role == Some("admin") {
      FilterKeepsAll(tickets, EditableBy(role));
    } else {
      FilterSamePredicate(tickets, EditableBy(role), EditableBy(None));
    }
  }
}
