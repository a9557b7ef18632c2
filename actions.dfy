/**
 * The server actions of app/actions.ts over an abstract store: a table of
 * ticket rows and a table of user profiles keyed by id. The session and the
 * store's failures are inputs of each action.
 *
 * The decisions (who sees which ticket, the checks before an insert or an
 * update, the row that gets inserted) are functions; the actions that change
 * the tables are methods of `TicketStore`.
 */
module Actions {

  import opened Types
  import opened Seqs
  import opened Text
  import opened Ordering

  /** The user of the server session: `session.session.user`. */
  datatype SessionUser = SessionUser(id: string, email: Option<string>)

  /**
   * The actions' guard `session.session?.user.id`: a session whose user has
   * an empty id counts as no session.
   */
  predicate SignedIn(session: Option<SessionUser>)
  {
    session.Some? && session.value.id != ""
  }

  /**
   * Which store calls fail during one action: the profile lookup with an error
   * other than "no rows" (code PGRST116), the profile insert, the read query
   * (the ticket listing, or the profile listing), and the ticket insert or
   * update.
   */
  datatype StoreFaults = StoreFaults(profileFetch: bool, profileInsert: bool, query: bool, write: bool)

  /** The `{ success: false, error }` cases, as tags. */
  datatype ActionError =
    | NotAuthenticated
    | ProfileUnavailable
    | AssignOnlySelf
    | TitleRequired
    | DescriptionRequired
    | PolicyNumberRequired
    | PermissionDenied
    | StoreFailure

  datatype Outcome<+T> = Success(value: T) | Failure(error: ActionError)

  /** The argument of `createTicket`: a ticket without its id (`created_by_id` is ignored). */
  datatype NewTicket = NewTicket(
    title: string,
    description: string,
    status: TicketStatus,
    assignedUserId: Option<string>,
    policyNumber: Option<string>,
    createdAt: int)

  /** One property of a `Partial<Ticket>`: absent (or undefined), or given. */
  datatype Field<+T> = Keep | Set(value: T)

  /** The argument of `updateTicket`; an assignee given as null is `Set(None)`. */
  datatype TicketPatch = TicketPatch(
    title: Field<string>,
    description: Field<string>,
    status: Field<TicketStatus>,
    assignedUserId: Field<Option<string>>,
    policyNumber: Field<string>,
    createdAt: Field<int>)

  // ---------------------------------------------------------------------------
  // Profiles

  /** `email?.split("@")[0] || "New User"`: the local part of the address, or a placeholder. */
  function FallbackName(email: Option<string>): (name: string)
    ensures name != "" && '@' !in name
    ensures name == "New User" || (email.Some? && name <= email.value)
    ensures email.Some? && email.value != [] && email.value[0] != '@' ==> name <= email.value
    ensures email.Some? && BeforeFirst(email.value, '@') != "" ==> name == BeforeFirst(email.value, '@')
    ensures email.None? || BeforeFirst(email.value, '@') == "" ==> name == "New User"
  {
    if email.Some? && BeforeFirst(email.value, '@') != "" then BeforeFirst(email.value, '@')
    else "New User"
  }

  /** The profile created for a user who has none (app/actions.ts:46-51, and the fallback at 273-282). */
  function DefaultProfile(id: string, email: Option<string>): (p: Profile)
    ensures p.id == id && p.role == User && p.fullName != ""
    ensures p.fullName == FallbackName(email)
    ensures p.email == (if email.Some? then email.value else "")
  {
    Profile(id, if email.Some? then email.value else "", FallbackName(email), User)
  }

  /** Every profile is stored under its own id. */
  ghost predicate ProfilesKeyed(profiles: map<string, Profile>)
  {
    forall k :: k in profiles ==> profiles[k].id == k
  }

  datatype ProfileLookup = ProfileLookup(profile: Option<Profile>, profiles: map<string, Profile>)

  /**
   * What `getUserProfile(userId)` returns and what the profile table becomes:
   * an existing profile is returned as it is; a missing one is created with
   * the default values, provided the session is there and the insert succeeds.
   */
  function ResolveProfile(profiles: map<string, Profile>, userId: string,
                          session: Option<SessionUser>, faults: StoreFaults): ProfileLookup
  {
    if faults.profileFetch then ProfileLookup(None, profiles)
    else if userId in profiles then ProfileLookup(Some(profiles[userId]), profiles)
    else if session.None? || faults.profileInsert then ProfileLookup(None, profiles)
    else
      var p := DefaultProfile(userId, session.value.email);
      ProfileLookup(Some(p), profiles[userId := p])
  }

  /**
   * Resolving a profile returns the profile stored under the user's id, adds at
   * most that one profile, and changes no existing profile (so no role ever
   * changes).
   */
  lemma ResolveProfileSound(profiles: map<string, Profile>, userId: string,
                            session: Option<SessionUser>, faults: StoreFaults)
    requires ProfilesKeyed(profiles)
    ensures var r := ResolveProfile(profiles, userId, session, faults);
      && ProfilesKeyed(r.profiles)
      && (r.profile.Some? ==> r.profile.value.id == userId && userId in r.profiles
                              && r.profiles[userId] == r.profile.value)
      && (forall k :: k in profiles ==> k in r.profiles && r.profiles[k] == profiles[k])
      && (forall k :: k in r.profiles ==> k in profiles || k == userId)
      && (userId !in profiles && r.profile.Some? ==> r.profile.value.role == User)
  {
  }

  /** Once a profile exists, resolving it again returns it and inserts nothing. */
  lemma ResolveProfileStable(profiles: map<string, Profile>, userId: string,
                             session: Option<SessionUser>, faults: StoreFaults, later: StoreFaults)
    requires !later.profileFetch
    ensures var r := ResolveProfile(profiles, userId, session, faults);
      r.profile.Some? ==> ResolveProfile(r.profiles, userId, session, later) == r
  {
  }

  predicate IsAdmin(profile: Option<Profile>)
  {
    profile.Some? && profile.value.role == Admin
  }

  // ---------------------------------------------------------------------------
  // Listing

  /** The visibility rule: an admin sees every ticket, anyone else those assigned to them or created by them. */
  predicate CanList(admin: bool, userId: string, row: TicketRow)
  {
    admin || row.assignedUserId == Some(userId) || row.createdById == userId
  }

  function VisibleTo(admin: bool, userId: string): TicketRow -> bool
  {
    (row: TicketRow) => CanList(admin, userId, row)
  }

  function RowCreatedAt(row: TicketRow): int
  {
    row.createdAt
  }

  function TicketCreatedAt(t: Ticket): int
  {
    t.row.createdAt
  }

  /** The profile a foreign-key join finds: the one stored under the id, when there is one. */
  function LookupProfile(profiles: map<string, Profile>, id: Option<string>): (r: Option<Profile>)
    ensures r.Some? <==> id.Some? && id.value in profiles
    ensures r.Some? ==> r.value == profiles[id.value]
  {
    if id.Some? && id.value in profiles then Some(profiles[id.value]) else None
  }

  /** The two joins of the listing query: the assignee's and the creator's profile. */
  function Join(rows: seq<TicketRow>, profiles: map<string, Profile>): (ts: seq<Ticket>)
    requires ProfilesKeyed(profiles)
    ensures |ts| == |rows|
    ensures forall i :: 0 <= i < |rows| ==> ts[i].row == rows[i]
    ensures forall i :: 0 <= i < |rows| && ts[i].assignedUser.Some? ==>
      rows[i].assignedUserId == Some(ts[i].assignedUser.value.id)
    ensures forall i :: 0 <= i < |rows| && ts[i].createdBy.Some? ==>
      Some(rows[i].createdById) == Some(ts[i].createdBy.value.id)
    ensures forall i :: 0 <= i < |rows| ==>
      ts[i].assignedUser == LookupProfile(profiles, rows[i].assignedUserId)
      && ts[i].createdBy == LookupProfile(profiles, Some(rows[i].createdById))
  {
    seq(|rows|, i requires 0 <= i < |rows| =>
      Ticket(rows[i], LookupProfile(profiles, rows[i].assignedUserId),
             LookupProfile(profiles, Some(rows[i].createdById))))
  }

  function RowsOf(ts: seq<Ticket>): (rows: seq<TicketRow>)
    ensures |rows| == |ts| && forall i :: 0 <= i < |ts| ==> rows[i] == ts[i].row
  {
    seq(|ts|, i requires 0 <= i < |ts| => ts[i].row)
  }

  /** What `getTickets` returns once the profile is known and the query succeeds. */
  function Listing(rows: seq<TicketRow>, profiles: map<string, Profile>, userId: string, admin: bool): seq<Ticket>
    requires ProfilesKeyed(profiles)
  {
    Join(SortDesc(Filter(rows, VisibleTo(admin, userId)), RowCreatedAt), profiles)
  }

  /** The listing holds the visible rows, each as often as in the table, and nothing else. */
  lemma ListingHoldsVisibleRows(rows: seq<TicketRow>, profiles: map<string, Profile>, userId: string, admin: bool)
    requires ProfilesKeyed(profiles)
    ensures multiset(RowsOf(Listing(rows, profiles, userId, admin))) == multiset(Filter(rows, VisibleTo(admin, userId)))
    ensures forall row :: row in RowsOf(Listing(rows, profiles, userId, admin)) <==>
      row in rows && CanList(admin, userId, row)
  {
    var sorted := SortDesc(Filter(rows, VisibleTo(admin, userId)), RowCreatedAt);
    assert RowsOf(Listing(rows, profiles, userId, admin)) == sorted;
    forall row | row in sorted ensures row in rows && CanList(admin, userId, row) {
      assert row in multiset(sorted);
    }
    forall row | row in rows && CanList(admin, userId, row) ensures row in sorted {
      assert row in multiset(Filter(rows, VisibleTo(admin, userId)));
    }
  }

  /** A non-admin sees exactly the tickets assigned to them or created by them. */
  lemma NonAdminListing(rows: seq<TicketRow>, profiles: map<string, Profile>, userId: string)
    requires ProfilesKeyed(profiles)
    ensures forall row :: row in RowsOf(Listing(rows, profiles, userId, false)) <==>
      row in rows && (row.assignedUserId == Some(userId) || row.createdById == userId)
  {
    ListingHoldsVisibleRows(rows, profiles, userId, false);
  }

  /** An admin sees every row of the table, each once per occurrence. */
  lemma AdminListing(rows: seq<TicketRow>, profiles: map<string, Profile>, userId: string)
    requires ProfilesKeyed(profiles)
    ensures multiset(RowsOf(Listing(rows, profiles, userId, true))) == multiset(rows)
  {
    ListingHoldsVisibleRows(rows, profiles, userId, true);
    FilterKeepsAll(rows, VisibleTo(true, userId));
  }

  /** The listing comes newest `created_at` first. */
  lemma ListingNewestFirst(rows: seq<TicketRow>, profiles: map<string, Profile>, userId: string, admin: bool)
    requires ProfilesKeyed(profiles)
    ensures SortedDesc(Listing(rows, profiles, userId, admin), TicketCreatedAt)
  {
    var sorted := SortDesc(Filter(rows, VisibleTo(admin, userId)), RowCreatedAt);
    SortDescSorted(Filter(rows, VisibleTo(admin, userId)), RowCreatedAt);
    var l := Listing(rows, profiles, userId, admin);
    assert forall i :: 0 <= i < |l| ==> TicketCreatedAt(l[i]) == RowCreatedAt(sorted[i]);
  }

  // ---------------------------------------------------------------------------
  // Creating and updating

  /**
   * The checks of `createTicket` after the profile is known, in their order:
   * the assignee, then title, description and policy number.
   */
  function CreateCheck(profile: Profile, userId: string, data: NewTicket): Option<ActionError>
  {
    if profile.role != Admin && data.assignedUserId != Some(userId) then Some(AssignOnlySelf)
    else if IsBlank(data.title) then Some(TitleRequired)
    else if IsBlank(data.description) then Some(DescriptionRequired)
    else if data.policyNumber.None? || IsBlank(data.policyNumber.value) then Some(PolicyNumberRequired)
    else None
  }

  /** The row `createTicket` inserts. */
  function InsertedRow(id: string, profile: Profile, userId: string, data: NewTicket): TicketRow
  {
    TicketRow(id, data.title, data.description, data.status,
              if profile.role == Admin then data.assignedUserId else Some(userId),
              userId, data.policyNumber, data.createdAt)
  }

  /**
   * A request passes the checks exactly when the caller is an admin or names
   * themself as assignee, and title, description and policy number all hold
   * something other than white space.
   */
  lemma CreateCheckPasses(profile: Profile, userId: string, data: NewTicket)
    ensures CreateCheck(profile, userId, data) == None <==>
      && (profile.role == Admin || data.assignedUserId == Some(userId))
      && !IsBlank(data.title) && !IsBlank(data.description)
      && data.policyNumber.Some? && !IsBlank(data.policyNumber.value)
  {
  }

  /** A non-admin naming anyone else is rejected, whatever the other fields hold. */
  lemma ForeignAssigneeRejectedFirst(profile: Profile, userId: string, data: NewTicket, other: NewTicket)
    requires profile.role != Admin && data.assignedUserId != Some(userId)
    requires other.assignedUserId == data.assignedUserId
    ensures CreateCheck(profile, userId, data) == Some(AssignOnlySelf)
    ensures CreateCheck(profile, userId, other) == Some(AssignOnlySelf)
  {
  }

  /**
   * Only the first failing field is reported: a blank title is reported as such
   * whatever the description and policy number hold, and so on down the list.
   */
  lemma FirstBlankFieldReported(profile: Profile, userId: string, data: NewTicket)
    requires profile.role == Admin || data.assignedUserId == Some(userId)
    ensures IsBlank(data.title) ==> CreateCheck(profile, userId, data) == Some(TitleRequired)
    ensures !IsBlank(data.title) && IsBlank(data.description) ==>
      CreateCheck(profile, userId, data) == Some(DescriptionRequired)
    ensures !IsBlank(data.title) && !IsBlank(data.description) && (data.policyNumber.None? || IsBlank(data.policyNumber.value))
      ==> CreateCheck(profile, userId, data) == Some(PolicyNumberRequired)
  {
  }

  /**
   * The row inserted after the checks pass is created by the caller, keeps the
   * requested assignee (for a non-admin the checks already forced it to be the
   * caller, so the override in the insert changes nothing), and is visible to
   * the caller.
   */
  lemma InsertedRowAfterChecks(id: string, profile: Profile, userId: string, data: NewTicket)
    requires CreateCheck(profile, userId, data) == None
    ensures var row := InsertedRow(id, profile, userId, data);
      && row.createdById == userId
      && row.assignedUserId == data.assignedUserId
      && (profile.role != Admin ==> row.assignedUserId == Some(userId))
      && row.title == data.title && row.description == data.description
      && row.status == data.status && row.policyNumber == data.policyNumber
      && row.createdAt == data.createdAt
      && CanList(profile.role == Admin, userId, row)
  {
  }

  /**
   * The permission check of `updateTicket`: an admin, or a payload that
   * assigns the ticket to the caller. The stored ticket is not consulted.
   */
  predicate MayUpdate(profile: Profile, userId: string, patch: TicketPatch)
  {
    profile.role == Admin || patch.assignedUserId == Set(Some(userId))
  }

  /** A row with the given properties set: each is the patch's value when given and the row's own otherwise. */
  function ApplyPatch(row: TicketRow, patch: TicketPatch): (r: TicketRow)
    ensures r.id == row.id && r.createdById == row.createdById
    ensures r.title == (if patch.title.Set? then patch.title.value else row.title)
    ensures r.description == (if patch.description.Set? then patch.description.value else row.description)
    ensures r.status == (if patch.status.Set? then patch.status.value else row.status)
    ensures r.assignedUserId == (if patch.assignedUserId.Set? then patch.assignedUserId.value else row.assignedUserId)
    ensures r.policyNumber == (if patch.policyNumber.Set? then Some(patch.policyNumber.value) else row.policyNumber)
    ensures r.createdAt == (if patch.createdAt.Set? then patch.createdAt.value else row.createdAt)
  {
    row.(
      title := if patch.title.Set? then patch.title.value else row.title,
      description := if patch.description.Set? then patch.description.value else row.description,
      status := if patch.status.Set? then patch.status.value else row.status,
      assignedUserId := if patch.assignedUserId.Set? then patch.assignedUserId.value else row.assignedUserId,
      policyNumber := if patch.policyNumber.Set? then Some(patch.policyNumber.value) else row.policyNumber,
      createdAt := if patch.createdAt.Set? then patch.createdAt.value else row.createdAt)
  }

  /** `update(...).eq("id", ticketId)`: every row with that id gets the given properties. */
  function UpdateRows(rows: seq<TicketRow>, ticketId: string, patch: TicketPatch): seq<TicketRow>
  {
    seq(|rows|, i requires 0 <= i < |rows| =>
      if rows[i].id == ticketId then ApplyPatch(rows[i], patch) else rows[i])
  }

  /**
   * An update keeps the table's length, every row's id and creator, leaves the
   * rows with other ids as they were, and sets exactly the given properties on
   * the matching rows.
   */
  lemma UpdateRowsEffect(rows: seq<TicketRow>, ticketId: string, patch: TicketPatch)
    ensures var rows' := UpdateRows(rows, ticketId, patch);
      && |rows'| == |rows|
      && (forall i :: 0 <= i < |rows| ==> rows'[i].id == rows[i].id && rows'[i].createdById == rows[i].createdById)
      && (forall i :: 0 <= i < |rows| && rows[i].id != ticketId ==> rows'[i] == rows[i])
      && (forall i :: 0 <= i < |rows| && rows[i].id == ticketId ==> rows'[i] == ApplyPatch(rows[i], patch))
      && (forall i :: 0 <= i < |rows| && rows[i].id == ticketId ==>
            (patch.title.Set? ==> rows'[i].title == patch.title.value)
            && (patch.title.Keep? ==> rows'[i].title == rows[i].title)
            && (patch.description.Set? ==> rows'[i].description == patch.description.value)
            && (patch.description.Keep? ==> rows'[i].description == rows[i].description)
            && (patch.policyNumber.Set? ==> rows'[i].policyNumber == Some(patch.policyNumber.value))
            && (patch.policyNumber.Keep? ==> rows'[i].policyNumber == rows[i].policyNumber)
            && (patch.createdAt.Set? ==> rows'[i].createdAt == patch.createdAt.value)
            && (patch.createdAt.Keep? ==> rows'[i].createdAt == rows[i].createdAt)
            && (patch.status.Set? ==> rows'[i].status == patch.status.value)
            && (patch.status.Keep? ==> rows'[i].status == rows[i].status)
            && (patch.assignedUserId.Set? ==> rows'[i].assignedUserId == patch.assignedUserId.value)
            && (patch.assignedUserId.Keep? ==> rows'[i].assignedUserId == rows[i].assignedUserId))
  {
  }

  /** A payload that does not name the caller as assignee (a status change, say) is refused to a non-admin. */
  lemma NonAdminNeedsSelfAssignment(profile: Profile, userId: string, patch: TicketPatch)
    requires profile.role != Admin
    ensures MayUpdate(profile, userId, patch) <==> patch.assignedUserId == Set(Some(userId))
    ensures patch.assignedUserId.Keep? ==> !MayUpdate(profile, userId, patch)
  {
  }

  /**
   * Because the check reads the payload, a non-admin may update any ticket,
   * including one assigned to and created by someone else, by assigning it to
   * themself; afterwards the ticket shows in their listing.
   */
  lemma NonAdminTakesOverAnyTicket(profile: Profile, userId: string, rows: seq<TicketRow>,
                                   i: int, patch: TicketPatch)
    requires 0 <= i < |rows| && patch.assignedUserId == Set(Some(userId))
    ensures MayUpdate(profile, userId, patch)
    ensures var rows' := UpdateRows(rows, rows[i].id, patch);
      rows'[i].assignedUserId == Some(userId) && CanList(false, userId, rows'[i])
  {
  }

  /** `users` lists each profile of the table exactly once. */
  ghost predicate ListsEveryProfile(users: seq<Profile>, profiles: map<string, Profile>)
  {
    && |users| == |profiles|
    && (forall i :: 0 <= i < |users| ==> users[i].id in profiles && profiles[users[i].id] == users[i])
    && (forall k :: k in profiles ==> profiles[k] in users)
  }

  // ---------------------------------------------------------------------------
  // The store and the actions

  class TicketStore {
    var tickets: seq<TicketRow>
    var profiles: map<string, Profile>

    ghost predicate Valid()
      reads this
    {
      ProfilesKeyed(profiles)
    }

    constructor (tickets: seq<TicketRow>, profiles: map<string, Profile>)
      requires ProfilesKeyed(profiles)
      ensures Valid() && this.tickets == tickets && this.profiles == profiles
    {
      this.tickets := tickets;
      this.profiles := profiles;
    }

    /** `getUserProfile` (app/actions.ts:7-73). */
    method GetUserProfile(userId: string, session: Option<SessionUser>, faults: StoreFaults)
      returns (profile: Option<Profile>)
      requires Valid()
      modifies this
      ensures Valid() && tickets == old(tickets)
      ensures var r := ResolveProfile(old(profiles), userId, session, faults);
        profile == r.profile && profiles == r.profiles
    {
      ResolveProfileSound(profiles, userId, session, faults);
      if faults.profileFetch {
        return None;
      }
      if userId in profiles {
        return Some(profiles[userId]);
      }
      if session.None? {
        return None;
      }
      var created := DefaultProfile(userId, session.value.email);
      if faults.profileInsert {
        return None;
      }
      profiles := profiles[userId := created];
      profile := Some(created);
    }

    /** `getTickets` (app/actions.ts:75-122). */
    method GetTickets(session: Option<SessionUser>, faults: StoreFaults) returns (r: seq<Ticket>)
      requires Valid()
      modifies this
      ensures Valid() && tickets == old(tickets)
      ensures !SignedIn(session) ==> r == [] && profiles == old(profiles)
      ensures SignedIn(session) ==>
        var lk := ResolveProfile(old(profiles), session.value.id, session, faults);
        && profiles == lk.profiles
        && r == (if faults.query then [] else Listing(tickets, profiles, session.value.id, IsAdmin(lk.profile)))
    {
      if !SignedIn(session) {
        return [];
      }
      var userId := session.value.id;
      var profile := GetUserProfile(userId, session, faults);
      if faults.query {
        return [];
      }
      r := Listing(tickets, profiles, userId, IsAdmin(profile));
    }

    /** `createTicket` (app/actions.ts:124-196); the store assigns the new row's id. */
    method CreateTicket(session: Option<SessionUser>, data: NewTicket, newId: string, faults: StoreFaults)
      returns (r: Outcome<TicketRow>)
      requires Valid()
      modifies this
      ensures Valid()
      ensures !SignedIn(session) ==> r == Failure(NotAuthenticated) && unchanged(this)
      ensures SignedIn(session) ==>
        var userId := session.value.id;
        var lk := ResolveProfile(old(profiles), userId, session, faults);
        && profiles == lk.profiles
        && (lk.profile.None? ==> r == Failure(ProfileUnavailable) && tickets == old(tickets))
        && (lk.profile.Some? ==>
              var check := CreateCheck(lk.profile.value, userId, data);
              && (check.Some? ==> r == Failure(check.value) && tickets == old(tickets))
              && (check.None? && faults.write ==> r == Failure(StoreFailure) && tickets == old(tickets))
              && (check.None? && !faults.write ==>
                    var row := InsertedRow(newId, lk.profile.value, userId, data);
                    r == Success(row) && tickets == old(tickets) + [row]))
    {
      if !SignedIn(session) {
        return Failure(NotAuthenticated);
      }
      var userId := session.value.id;
      var profile := GetUserProfile(userId, session, faults);
      if profile.None? {
        return Failure(ProfileUnavailable);
      }
      var check := CreateCheck(profile.value, userId, data);
      if check.Some? {
        return Failure(check.value);
      }
      if faults.write {
        return Failure(StoreFailure);
      }
      var row := InsertedRow(newId, profile.value, userId, data);
      tickets := tickets + [row];
      r := Success(row);
    }

    /** `updateTicket` (app/actions.ts:198-253). */
    method UpdateTicket(session: Option<SessionUser>, ticketId: string, patch: TicketPatch, faults: StoreFaults)
      returns (r: Outcome<()>)
      requires Valid()
      modifies this
      ensures Valid()
      ensures !SignedIn(session) ==> r == Failure(NotAuthenticated) && unchanged(this)
      ensures SignedIn(session) ==>
        var userId := session.value.id;
        var lk := ResolveProfile(old(profiles), userId, session, faults);
        && profiles == lk.profiles
        && (lk.profile.None? ==> r == Failure(ProfileUnavailable) && tickets == old(tickets))
        && (lk.profile.Some? && !MayUpdate(lk.profile.value, userId, patch) ==>
              r == Failure(PermissionDenied) && tickets == old(tickets))
        && (lk.profile.Some? && MayUpdate(lk.profile.value, userId, patch) ==>
              if faults.write then r == Failure(StoreFailure) && tickets == old(tickets)
              else r == Success(()) && tickets == UpdateRows(old(tickets), ticketId, patch))
    {
      if !SignedIn(session) {
        return Failure(NotAuthenticated);
      }
      var userId := session.value.id;
      var profile := GetUserProfile(userId, session, faults);
      if profile.None? {
        return Failure(ProfileUnavailable);
      }
      if !MayUpdate(profile.value, userId, patch) {
        return Failure(PermissionDenied);
      }
      if faults.write {
        return Failure(StoreFailure);
      }
      tickets := UpdateRows(tickets, ticketId, patch);
      r := Success(());
    }

    /** `getAvailableUsers` (app/actions.ts:255-324). */
    method GetAvailableUsers(session: Option<SessionUser>, faults: StoreFaults) returns (users: seq<Profile>)
      requires Valid()
      modifies this
      ensures Valid() && tickets == old(tickets)
      ensures !SignedIn(session) ==> users == [] && profiles == old(profiles)
      ensures SignedIn(session) ==>
        var userId := session.value.id;
        var lk := ResolveProfile(old(profiles), userId, session, faults);
        && profiles == lk.profiles
        && (lk.profile.None? ==> users == [DefaultProfile(userId, session.value.email)])
        && (lk.profile.Some? && lk.profile.value.role != Admin ==> users == [lk.profile.value])
        && (lk.profile.Some? && lk.profile.value.role == Admin ==>
              if faults.query then users == [lk.profile.value] else ListsEveryProfile(users, profiles))
    {
      if !SignedIn(session) {
        return [];
      }
      var userId := session.value.id;
      var profile := GetUserProfile(userId, session, faults);
      if profile.None? {
        return [DefaultProfile(userId, session.value.email)];
      }
      if profile.value.role == Admin {
        if faults.query {
          return [profile.value];
        }
        users := SelectAllProfiles();
      } else {
        users := [profile.value];
      }
    }

    /** The store's scan of the profile table, in no particular order. */
    method SelectAllProfiles() returns (all: seq<Profile>)
      requires Valid()
      ensures ListsEveryProfile(all, profiles)
    {
      var remaining := profiles.Keys;
      all := [];
      while remaining != {}
        invariant remaining <= profiles.Keys
        invariant |all| + |remaining| == |profiles|
        invariant forall i :: 0 <= i < |all| ==>
          all[i].id in profiles && all[i].id !in remaining && profiles[all[i].id] == all[i]
        invariant forall k :: k in profiles && k !in remaining ==> profiles[k] in all
        decreases |remaining|
      {
        var k :| k in remaining;
        all := all + [profiles[k]];
        remaining := remaining - {k};
      }
    }
  }
}
