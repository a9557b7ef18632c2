/**
 * The user dashboard (app/components/user-dashboard.tsx): the per-status
 * counts and the four stat cards that show them.
 */
module UserDashboard {

  import opened Types
  import opened Seqs
  import opened TicketBoard

  /** `ticketStats` (lines 12-17). */
  datatype Stats = Stats(assignedCount: int, inProgressCount: int, transferredCount: int, solvedCount: int)

  function TicketStats(tickets: seq<Ticket>): Stats
  {
    Stats(|WithStatus(tickets, Assigned)|, |WithStatus(tickets, InProgress)|,
          |WithStatus(tickets, Transferred)|, |WithStatus(tickets, Solved)|)
  }

  /** One entry of `statCards`; the icon and colour are presentation only. */
  datatype StatCard = StatCard(title: string, value: int)

  /** `statCards` (lines 19-44). */
  function StatCards(stats: Stats): (cards: seq<StatCard>)
    ensures |cards| == 4
    ensures forall i :: 0 <= i < 4 ==> cards[i].title == StatusTitle(ColumnStatuses[i])
  {
    [ StatCard("Asignados", stats.assignedCount),
      StatCard("En Progreso", stats.inProgressCount),
      StatCard("Transferidos", stats.transferredCount),
      StatCard("Solucionados", stats.solvedCount) ]
  }

  function StatValue(stats: Stats, s: TicketStatus): int
  {
    match s
    case Assigned => stats.assignedCount
    case InProgress => stats.inProgressCount
    case Transferred => stats.transferredCount
    case Solved => stats.solvedCount
    case Unrecognized(_) => 0
  }

  /** The number of tickets with status `s`, counted one by one from the front. */
  function CountStatus(tickets: seq<Ticket>, s: TicketStatus): nat
  {
    if tickets == [] then 0
    else (if tickets[0].row.status == s then 1 else 0) + CountStatus(tickets[1..], s)
  }

  /** Each count is the number of tickets with that status. */
  lemma StatsCount(tickets: seq<Ticket>, s: TicketStatus)
    requires IsKnownStatus(s)
    ensures StatValue(TicketStats(tickets), s) == CountStatus(tickets, s)
  {
    FilterCountsStatus(tickets, s);
  }

  lemma {:induction false} FilterCountsStatus(tickets: seq<Ticket>, s: TicketStatus)
    ensures |WithStatus(tickets, s)| == CountStatus(tickets, s)
  {
    if tickets != [] {
      FilterCountsStatus(tickets[1..], s);
      assert tickets == [tickets[0]] + tickets[1..];
      FilterConcat([tickets[0]], tickets[1..], StatusIs(s));
      assert [tickets[0]][..0] == [];
    }
  }

  /** When every ticket has one of the four statuses, the counts add up to the number of tickets. */
  lemma StatsSumAllKnown(tickets: seq<Ticket>)
    requires forall t :: t in tickets ==> IsKnownStatus(t.row.status)
    ensures var st := TicketStats(tickets); st.assignedCount + st.inProgressCount + st.transferredCount + st.solvedCount == |tickets|
  {
    StatusPartition(tickets);
    FilterKeepsAll(tickets, KnownStatus());
    assert |multiset(tickets)| == |tickets|;
  }

  /** The counts do not depend on the order of the ticket list. */
  lemma StatsOrderIndependent(tickets: seq<Ticket>, reordered: seq<Ticket>)
    requires multiset(tickets) == multiset(reordered)
    ensures TicketStats(tickets) == TicketStats(reordered)
  {
    FilterLengthPermutation(tickets, reordered, StatusIs(Assigned));
    FilterLengthPermutation(tickets, reordered, StatusIs(InProgress));
    FilterLengthPermutation(tickets, reordered, StatusIs(Transferred));
    FilterLengthPermutation(tickets, reordered, StatusIs(Solved));
  }

  /** The cards show the same numbers, in the same order and under the same titles, as the board's columns. */
  lemma CardsMatchBoard(tickets: seq<Ticket>)
    ensures var cards, cols := StatCards(TicketStats(tickets)), Board(tickets);
      forall i :: 0 <= i < 4 ==> cards[i].title == cols[i].title && cards[i].value == cols[i].count
  {
  }
}
