/**
 * The ticket tracker's records (types/index.ts) and the few shapes every
 * component shares.
 */
module Types {

  import opened Seqs

  datatype Option<+T> = None | Some(value: T)

  /** Milliseconds in one day; timestamps are integers in milliseconds. */
  const DayMs: int := 86_400_000

  /**
   * The four statuses of types/index.ts:3. The store's column is plain text and
   * nothing enforces the four values, so a row may carry any other string:
   * `Unrecognized` keeps such a value.
   */
  datatype TicketStatus = Assigned | InProgress | Transferred | Solved | Unrecognized(raw: UnknownStatusName)

  /** A status text other than the four names the store uses for the known statuses. */
  type UnknownStatusName = s: string | s !in {"assigned", "in-progress", "transferred", "solved"} witness ""

  /** The three roles of types/index.ts:1. */
  datatype UserRole = Admin | User | Agent

  /** A row of the user-profile table (types/index.ts:23-30, timestamps left out). */
  datatype Profile = Profile(id: string, email: string, fullName: string, role: UserRole)

  /**
   * A row of the ticket table (types/index.ts:5-14): `assignedUserId` is null when
   * unassigned, `policyNumber` is optional, `createdAt` is a timestamp.
   */
  datatype TicketRow = TicketRow(
    id: string,
    title: string,
    description: string,
    status: TicketStatus,
    assignedUserId: Option<string>,
    createdById: string,
    policyNumber: Option<string>,
    createdAt: int)

  /**
   * A ticket as the listing action hands it to the client: the row together with
   * the profiles the store joins on `assigned_user_id` and `created_by_id`
   * (None when the join finds no profile).
   */
  datatype Ticket = Ticket(row: TicketRow, assignedUser: Option<Profile>, createdBy: Option<Profile>)

  /** The user the authentication service reports for the current session. */
  datatype AuthUser = AuthUser(id: string, email: Option<string>, role: Option<string>)

  function StatusIs(s: TicketStatus): Ticket -> bool
  {
    (t: Ticket) => t.row.status == s
  }

  /** `tickets.filter(t => t.status === s)`, the status filter every view uses. */
  function WithStatus(tickets: seq<Ticket>, s: TicketStatus): seq<Ticket>
  {
    Filter(tickets, StatusIs(s))
  }

  predicate IsKnownStatus(s: TicketStatus)
  {
    !s.Unrecognized?
  }
}
