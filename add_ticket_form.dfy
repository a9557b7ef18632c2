/**
 * The form that creates a ticket (app/components/add-ticket-form.tsx): its
 * state, the effect that assigns the ticket to the viewer when the viewer is
 * the only available user, and the submit handler that forces the assignee,
 * calls `createTicket` and resets the form on success.
 */
module AddTicketForm {

  import opened Types
  import opened Text
  import opened Actions

  /**
   * `formData`. The date input holds a calendar day, kept here as a day number
   * (days since 1970-01-01, UTC).
   */
  datatype FormData = FormData(
    title: string,
    description: string,
    assignedUserId: string,
    status: TicketStatus,
    policyNumber: string,
    createdDay: int)

  /** The state the form starts in (lines 19-26): everything empty, status assigned, today's date. */
  function InitialForm(today: int): (f: FormData)
    ensures f.title == "" && f.description == "" && f.assignedUserId == "" && f.policyNumber == ""
    ensures f.status == Assigned && f.createdDay == today
  {
    FormData("", "", "", Assigned, "", today)
  }

  /** The viewer is the one and only available user (line 34). */
  predicate SoleUserIsViewer(available: seq<Profile>, viewer: Option<string>)
  {
    |available| == 1 && viewer == Some(available[0].id)
  }

  /** The form after the users have loaded (lines 30-39). */
  function AfterUsersLoaded(form: FormData, available: seq<Profile>, viewer: Option<string>): (f: FormData)
    ensures SoleUserIsViewer(available, viewer) ==> f == form.(assignedUserId := viewer.value)
    ensures !SoleUserIsViewer(available, viewer) ==> f == form
  {
    if SoleUserIsViewer(available, viewer) then form.(assignedUserId := viewer.value) else form
  }

  /** `finalData` (lines 50-54), the argument handed to `createTicket`. */
  function Payload(form: FormData, users: seq<Profile>, viewer: Option<string>): (data: NewTicket)
    ensures |users| == 1 ==> data.assignedUserId == viewer
    ensures |users| != 1 ==> data.assignedUserId == Some(form.assignedUserId)
    ensures data.title == form.title && data.description == form.description && data.status == form.status
    ensures data.policyNumber == Some(form.policyNumber)
    ensures data.createdAt == form.createdDay * DayMs
  {
    NewTicket(form.title, form.description, form.status,
              if |users| == 1 then viewer else Some(form.assignedUserId),
              Some(form.policyNumber), form.createdDay * DayMs)
  }

  /** The form after a successful submit (lines 59-66). */
  function ResetForm(users: seq<Profile>, viewer: Option<string>, today: int): (f: FormData)
    ensures f.title == "" && f.description == "" && f.policyNumber == ""
    ensures f.status == Assigned && f.createdDay == today
    ensures f.assignedUserId != "" <==> |users| == 1 && viewer.Some? && viewer.value != ""
    ensures f.assignedUserId != "" ==> viewer == Some(f.assignedUserId)
  {
    FormData("", "", if |users| == 1 && viewer.Some? then viewer.value else "", Assigned, "", today)
  }

  /**
   * The payload of the form as it starts is rejected by `createTicket`'s
   * checks: by the assignee check for a viewer (with a non-empty id) who is
   * not an admin and is not the sole available user, and by the title check
   * otherwise. In the page the `required` inputs stop such a submit first.
   */
  lemma UntouchedFormRejected(profile: Profile, userId: string, users: seq<Profile>, today: int)
    ensures var data := Payload(InitialForm(today), users, Some(userId));
      CreateCheck(profile, userId, data) ==
        if profile.role != Admin && |users| != 1 && userId != "" then Some(AssignOnlySelf) else Some(TitleRequired)
  {
    var data := Payload(InitialForm(today), users, Some(userId));
    assert IsBlank(data.title) by { BlankIffAllWhitespace(data.title); }
  }

  /**
   * A viewer who is not an admin sees only themself as available user, and
   * so always submits themself as assignee: the assignee check of
   * `createTicket` never rejects the form's payload.
   */
  lemma NonAdminPayloadNamesSelf(form: FormData, self: Profile)
    ensures var data := Payload(form, [self], Some(self.id));
      data.assignedUserId == Some(self.id) && CreateCheck(self, self.id, data) != Some(AssignOnlySelf)
  {
  }

  /**
   * After a successful submit the next payload again names the viewer when
   * the viewer is the sole user; only the texts, the status and the date were
   * reset.
   */
  lemma ResetKeepsSelfAssignment(users: seq<Profile>, viewer: Option<string>, today: int)
    requires SoleUserIsViewer(users, viewer)
    ensures Payload(ResetForm(users, viewer, today), users, viewer).assignedUserId == viewer
    ensures viewer.value != "" ==> ResetForm(users, viewer, today) == AfterUsersLoaded(InitialForm(today), users, viewer)
  {
  }

  /** The component's state. */
  class Form {
    var formData: FormData
    var users: seq<Profile>
    var isSubmitting: bool
    /** `user?.id`, from the authentication context. */
    const viewer: Option<string>

    constructor(viewer: Option<string>, today: int)
      ensures this.viewer == viewer
      ensures formData == InitialForm(today) && users == [] && !isSubmitting
    {
      this.viewer := viewer;
      formData := InitialForm(today);
      users := [];
      isSubmitting := false;
    }

    /** The effect's continuation once `getAvailableUsers` returns (lines 30-39). */
    method UsersLoaded(available: seq<Profile>)
      modifies this
      ensures users == available
      ensures formData == AfterUsersLoaded(old(formData), available, viewer)
      ensures isSubmitting == old(isSubmitting)
    {
      users := available;
      if |available| == 1 && viewer.Some? && available[0].id == viewer.value {
        formData := formData.(assignedUserId := viewer.value);
      }
    }

    /** `handleSubmit` up to the call of `createTicket` (lines 44-56). */
    method StartSubmit() returns (data: NewTicket)
      modifies this
      ensures isSubmitting
      ensures data == Payload(formData, users, viewer)
      ensures formData == old(formData) && users == old(users)
    {
      isSubmitting := true;
      data := Payload(formData, users, viewer);
    }

    /**
     * `handleSubmit` after `createTicket` returns (lines 58-76): reset on
     * success, leave the fields as they were otherwise, and clear the flag on
     * every path.
     */
    method FinishSubmit(succeeded: bool, today: int)
      modifies this
      ensures !isSubmitting
      ensures formData == (if succeeded then ResetForm(users, viewer, today) else old(formData))
      ensures users == old(users)
    {
      if succeeded {
        formData := ResetForm(users, viewer, today);
      }
      isSubmitting := false;
    }

    /**
     * The whole submit against the ticket store: the payload of the form as it
     * stood goes through `createTicket`, whose outcome decides both the store
     * and whether the form is reset.
     */
    method Submit(store: TicketStore, session: Option<SessionUser>, newId: string, faults: StoreFaults, today: int)
      returns (r: Outcome<TicketRow>)
      requires store.Valid()
      modifies this, store
      ensures store.Valid() && !isSubmitting && users == old(users)
      ensures formData == (if r.Success? then ResetForm(users, viewer, today) else old(formData))
      ensures !SignedIn(session) ==>
        r == Failure(NotAuthenticated) && store.tickets == old(store.tickets) && store.profiles == old(store.profiles)
      ensures SignedIn(session) ==>
        var data := Payload(old(formData), old(users), viewer);
        var lk := ResolveProfile(old(store.profiles), session.value.id, session, faults);
        && store.profiles == lk.profiles
        && (lk.profile.None? ==> r == Failure(ProfileUnavailable))
        && (lk.profile.Some? ==>
              var check := CreateCheck(lk.profile.value, session.value.id, data);
              && (check.Some? ==> r == Failure(check.value))
              && (check.None? && faults.write ==> r == Failure(StoreFailure))
              && (check.None? && !faults.write ==>
                    r == Success(InsertedRow(newId, lk.profile.value, session.value.id, data))))
      ensures r.Success? ==>
        SignedIn(session) && r.value.createdById == session.value.id && store.tickets == old(store.tickets) + [r.value]
      ensures r.Failure? ==> store.tickets == old(store.tickets)
    {
      var data := StartSubmit();
      r := store.CreateTicket(session, data, newId, faults);
      FinishSubmit(r.Success?, today);
    }
  }
}
