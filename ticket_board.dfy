/**
 * The ticket board (app/components/ticket-board.tsx): four columns, one per
 * status, each listing the tickets of that status with their count, and the
 * role string every item on the board receives.
 */
module TicketBoard {

  import opened Types
  import opened Seqs
  import opened TicketItem

  /** The keys of `ticketsByStatus`, in the order `Object.keys` lists them. */
  const ColumnStatuses: seq<TicketStatus> := [Assigned, InProgress, Transferred, Solved]

  /** `statusTitles`. */
  function StatusTitle(s: TicketStatus): string
    requires IsKnownStatus(s)
  {
    match s
    case Assigned => "Asignados"
    case InProgress => "En Progreso"
    case Transferred => "Transferidos"
    case Solved => "Solucionados"
  }

  datatype Column = Column(status: TicketStatus, title: string, count: int, tickets: seq<Ticket>)

  /** The columns the board renders (lines 17-22 and 33-55). */
  function Board(tickets: seq<Ticket>): (cols: seq<Column>)
    ensures |cols| == |ColumnStatuses|
    ensures forall i :: 0 <= i < |cols| ==>
      cols[i].status == ColumnStatuses[i] && cols[i].title == StatusTitle(ColumnStatuses[i])
    ensures forall i :: 0 <= i < |cols| ==> cols[i].count == |cols[i].tickets|
  {
    seq(|ColumnStatuses|, i requires 0 <= i < |ColumnStatuses| =>
      var s := ColumnStatuses[i];
      var bucket := WithStatus(tickets, s);
      Column(s, StatusTitle(s), |bucket|, bucket))
  }

  /** A column holds exactly the input tickets of its status, in input order. */
  lemma ColumnExact(tickets: seq<Ticket>, i: int)
    requires 0 <= i < |ColumnStatuses|
    ensures forall t :: t in Board(tickets)[i].tickets <==> t in tickets && t.row.status == ColumnStatuses[i]
    ensures IsSubsequence(Board(tickets)[i].tickets, tickets)
  {
    FilterIsSubsequence(tickets, StatusIs(ColumnStatuses[i]));
  }

  /** A ticket whose status is none of the four is on no column. */
  lemma UnrecognizedOnNoColumn(tickets: seq<Ticket>, t: Ticket)
    requires !IsKnownStatus(t.row.status)
    ensures forall i :: 0 <= i < |ColumnStatuses| ==> t !in Board(tickets)[i].tickets
  {
  }

  function StatusIn(statuses: set<TicketStatus>): Ticket -> bool
  {
    (t: Ticket) => t.row.status in statuses
  }

  function KnownStatus(): Ticket -> bool
  {
    (t: Ticket) => IsKnownStatus(t.row.status)
  }

  /** The four status filters split the tickets of known status: each lands in exactly one. */
  lemma StatusPartition(tickets: seq<Ticket>)
    ensures multiset(WithStatus(tickets, Assigned)) + multiset(WithStatus(tickets, InProgress))
          + multiset(WithStatus(tickets, Transferred)) + multiset(WithStatus(tickets, Solved))
         == multiset(Filter(tickets, KnownStatus()))
  {
    var early, late := StatusIn({Assigned, InProgress}), StatusIn({Transferred, Solved});
    FilterSplit(tickets, StatusIs(Assigned), StatusIs(InProgress), early);
    FilterSplit(tickets, StatusIs(Transferred), StatusIs(Solved), late);
    FilterSplit(tickets, early, late, KnownStatus());
  }

  function ColumnsContent(cols: seq<Column>): multiset<Ticket>
  {
    if cols == [] then multiset{} else multiset(cols[0].tickets) + ColumnsContent(cols[1..])
  }

  function CountSum(cols: seq<Column>): int
  {
    if cols == [] then 0 else cols[0].count + CountSum(cols[1..])
  }

  /** The content and the count sum of four columns, written out. */
  lemma FourColumns(cols: seq<Column>)
    requires |cols| == 4
    ensures ColumnsContent(cols) == multiset(cols[0].tickets) + multiset(cols[1].tickets)
      + multiset(cols[2].tickets) + multiset(cols[3].tickets)
    ensures CountSum(cols) == cols[0].count + cols[1].count + cols[2].count + cols[3].count
  {
    assert cols[3..][1..] == [];
    assert ColumnsContent(cols[3..]) == multiset(cols[3].tickets);
    assert CountSum(cols[3..]) == cols[3].count;
    assert cols[2..][1..] == cols[3..];
    assert ColumnsContent(cols[2..]) == multiset(cols[2].tickets) + ColumnsContent(cols[3..]);
    assert CountSum(cols[2..]) == cols[2].count + CountSum(cols[3..]);
    assert cols[1..][1..] == cols[2..];
    assert ColumnsContent(cols[1..]) == multiset(cols[1].tickets) + ColumnsContent(cols[2..]);
    assert CountSum(cols[1..]) == cols[1].count + CountSum(cols[2..]);
  }

  /**
   * Together the columns hold each ticket of known status once and nothing
   * else, so the counts add up to the number of such tickets.
   */
  lemma BoardPartition(tickets: seq<Ticket>)
    ensures ColumnsContent(Board(tickets)) == multiset(Filter(tickets, KnownStatus()))
    ensures CountSum(Board(tickets)) == |Filter(tickets, KnownStatus())|
  {
    var cols := Board(tickets);
    FourColumns(cols);
    StatusPartition(tickets);
    var m0, m1, m2, m3 := multiset(cols[0].tickets), multiset(cols[1].tickets), multiset(cols[2].tickets), multiset(cols[3].tickets);
    assert |m0 + m1 + m2 + m3| == |m0| + |m1| + |m2| + |m3|;
  }

  /** When every ticket has one of the four statuses, the column counts add up to the input length. */
  lemma BoardCountsAllKnown(tickets: seq<Ticket>)
    requires forall t :: t in tickets ==> IsKnownStatus(t.row.status)
    ensures CountSum(Board(tickets)) == |tickets|
  {
    BoardPartition(tickets);
    FilterKeepsAll(tickets, KnownStatus());
  }

  /** `user?.role || 'user'` (line 50): the role string handed to every item. */
  function ItemRole(user: Option<AuthUser>): (role: string)
    ensures role != ""
    ensures role == "user" || (user.Some? && user.value.role == Some(role))
    ensures user.Some? && user.value.role.Some? && user.value.role.value != "" ==> role == user.value.role.value
  {
    if user.Some? && user.value.role.Some? && user.value.role.value != "" then user.value.role.value
    else "user"
  }

  /**
   * On the board an item is editable when the service reports the viewer's
   * role as "admin", or when the ticket's own join matches, exactly as in the
   * solved view, which passes no role at all.
   */
  lemma BoardEditRights(user: Option<AuthUser>, t: Ticket)
    ensures CanEdit(Some(ItemRole(user)), t) <==> (user.Some? && user.value.role == Some("admin")) || CanEdit(None, t)
  {
  }
}
