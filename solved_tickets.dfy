/**
 * The "solved tickets" view (app/components/solved-tickets.tsx): the filter
 * chain over status, policy-number search and date, the grouping of the
 * result by day, and the day headings newest first.
 */
module SolvedTickets {

  import opened Types
  import opened Seqs
  import opened Text
  import opened Ordering

  datatype DateFilter = All | Today | Week | Month | Custom

  /**
   * What the view takes from the JavaScript Date API, left uninterpreted: the
   * current time, the local calendar day of a timestamp (`toDateString`), the
   * UTC day of a timestamp as a day number (`toISOString().split('T')[0]`),
   * the instant one calendar month before a timestamp (`setMonth(getMonth() - 1)`),
   * and the instant 23:59:59 local time on the day of a parsed date
   * (`setHours(23, 59, 59)`).
   */
  datatype Calendar = Calendar(
    now: int,
    localDay: int -> int,
    utcDay: int -> int,
    monthBefore: int -> int,
    endOfDay: int -> int)

  /**
   * The component's state: the search text, the date filter, and the bounds of
   * the custom range as parsed instants (None while the date field is empty).
   */
  datatype Criteria = Criteria(search: string, dateFilter: DateFilter, start: Option<int>, end: Option<int>)

  /** The state the view starts in: no search, every date. */
  function InitialCriteria(): Criteria
  {
    Criteria("", All, None, None)
  }

  /** `policyNumber?.toLowerCase().includes(search.toLowerCase())`, with an absent number failing. */
  predicate MatchesSearch(policyNumber: Option<string>, search: string)
  {
    policyNumber.Some? && Includes(ToLower(policyNumber.value), ToLower(search))
  }

  /** `filterByDate` (lines 27-53). */
  predicate MatchesDate(createdAt: int, c: Criteria, cal: Calendar)
  {
    match c.dateFilter
    case All => true
    case Today => cal.localDay(createdAt) == cal.localDay(cal.now)
    case Week => createdAt >= cal.now - 7 * DayMs
    case Month => createdAt >= cal.monthBefore(cal.now)
    case Custom =>
      if c.start.Some? && c.end.Some? then c.start.value <= createdAt <= cal.endOfDay(c.end.value)
      else true
  }

  function SearchPasses(search: string): Ticket -> bool
  {
    (t: Ticket) => MatchesSearch(t.row.policyNumber, search)
  }

  function DatePasses(c: Criteria, cal: Calendar): Ticket -> bool
  {
    (t: Ticket) => MatchesDate(t.row.createdAt, c, cal)
  }

  /** `filteredTickets` (lines 56-61), searching the ticket's policy number. */
  function FilterSolved(tickets: seq<Ticket>, c: Criteria, cal: Calendar): seq<Ticket>
  {
    Filter(Filter(WithStatus(tickets, Solved), SearchPasses(c.search)), DatePasses(c, cal))
  }

  // ---------------------------------------------------------------------------
  // The search as written

  /**
   * The property line 59 reads, `ticket.policyNumber`. The tickets the view
   * receives come from `getTickets`, whose objects carry the number as
   * `policy_number` only (app/actions.ts:106-117), so this is always undefined.
   */
  function PolicyNumberAsRead(t: Ticket): Option<string>
  {
    None
  }

  function SearchPassesAsWritten(search: string): Ticket -> bool
  {
    (t: Ticket) => MatchesSearch(PolicyNumberAsRead(t), search)
  }

  /** `filteredTickets` exactly as lines 56-61 are written. */
  function FilterSolvedAsWritten(tickets: seq<Ticket>, c: Criteria, cal: Calendar): seq<Ticket>
  {
    Filter(Filter(WithStatus(tickets, Solved), SearchPassesAsWritten(c.search)), DatePasses(c, cal))
  }

  /** As written, the view drops every ticket, whatever the criteria. */
  lemma AsWrittenShowsNothing(tickets: seq<Ticket>, c: Criteria, cal: Calendar)
    ensures FilterSolvedAsWritten(tickets, c, cal) == []
  {
    var solved := WithStatus(tickets, Solved);
    FilterKeepsNone(solved, SearchPassesAsWritten(c.search));
  }

  /**
   * A solved ticket with policy number "POL-1" and an assigned one with "POL-2",
   * under the initial criteria: as written the view shows neither; searching
   * the ticket's own policy number shows the solved one.
   */
  lemma AsWrittenLosesSolvedTicket(cal: Calendar, u: string)
    ensures var t1 := Ticket(TicketRow("1", "a", "b", Solved, Some(u), u, Some("POL-1"), 0), None, None);
      var t2 := Ticket(TicketRow("2", "a", "b", Assigned, Some(u), u, Some("POL-2"), 0), None, None);
      && FilterSolvedAsWritten([t1, t2], InitialCriteria(), cal) == []
      && FilterSolved([t1, t2], InitialCriteria(), cal) == [t1]
  {
    var t1 := Ticket(TicketRow("1", "a", "b", Solved, Some(u), u, Some("POL-1"), 0), None, None);
    var t2 := Ticket(TicketRow("2", "a", "b", Assigned, Some(u), u, Some("POL-2"), 0), None, None);
    AsWrittenShowsNothing([t1, t2], InitialCriteria(), cal);
    assert [t1, t2][..1] == [t1] && [t1][..0] == [];
    assert Filter([t1], StatusIs(Solved)) == [t1];
    assert WithStatus([t1, t2], Solved) == [t1];
    IncludesEmpty(ToLower("POL-1"));
    assert Filter([t1], SearchPasses("")) == [t1];
    assert Filter([t1], DatePasses(InitialCriteria(), cal)) == [t1];
  }

  // ---------------------------------------------------------------------------
  // Properties of the filter

  /** A ticket is shown exactly when it is solved, matches the search and matches the date filter. */
  lemma FilterSolvedMembership(tickets: seq<Ticket>, c: Criteria, cal: Calendar)
    ensures forall t :: t in FilterSolved(tickets, c, cal) <==>
      && t in tickets && t.row.status == Solved
      && MatchesSearch(t.row.policyNumber, c.search)
      && MatchesDate(t.row.createdAt, c, cal)
  {
  }

  /** The shown tickets keep the order they had in the input. */
  lemma FilterSolvedKeepsOrder(tickets: seq<Ticket>, c: Criteria, cal: Calendar)
    ensures IsSubsequence(FilterSolved(tickets, c, cal), tickets)
  {
    var solved := WithStatus(tickets, Solved);
    var searched := Filter(solved, SearchPasses(c.search));
    FilterIsSubsequence(tickets, StatusIs(Solved));
    FilterIsSubsequence(solved, SearchPasses(c.search));
    FilterIsSubsequence(searched, DatePasses(c, cal));
    SubsequenceTransitive(searched, solved, tickets);
    SubsequenceTransitive(FilterSolved(tickets, c, cal), searched, tickets);
  }

  /** Filtering the shown tickets again with the same criteria changes nothing. */
  lemma FilterSolvedIdempotent(tickets: seq<Ticket>, c: Criteria, cal: Calendar)
    ensures FilterSolved(FilterSolved(tickets, c, cal), c, cal) == FilterSolved(tickets, c, cal)
  {
    var shown := FilterSolved(tickets, c, cal);
    FilterKeepsAll(shown, StatusIs(Solved));
    FilterKeepsAll(shown, SearchPasses(c.search));
    FilterKeepsAll(shown, DatePasses(c, cal));
  }

  /**
   * The empty search keeps exactly the tickets that have a policy number: one
   * without a number is dropped even then.
   */
  lemma EmptySearchNeedsPolicyNumber(policyNumber: Option<string>)
    ensures MatchesSearch(policyNumber, "") <==> policyNumber.Some?
  {
    if policyNumber.Some? {
      IncludesEmpty(ToLower(policyNumber.value));
    }
  }

  /** The search ignores the case of the Latin letters on both sides. */
  lemma SearchIgnoresCase(number: string, search: string)
    ensures MatchesSearch(Some(number), search) <==> MatchesSearch(Some(ToLower(number)), ToLower(search))
  {
    ToLowerIdempotent(number);
    ToLowerIdempotent(search);
  }

  /**
   * The date filters `all` and a custom range with a missing bound keep every
   * ticket that passed the search.
   */
  lemma DateFilterPassThrough(tickets: seq<Ticket>, c: Criteria, cal: Calendar)
    requires c.dateFilter == All || (c.dateFilter == Custom && (c.start.None? || c.end.None?))
    ensures FilterSolved(tickets, c, cal) == Filter(WithStatus(tickets, Solved), SearchPasses(c.search))
  {
    FilterKeepsAll(Filter(WithStatus(tickets, Solved), SearchPasses(c.search)), DatePasses(c, cal));
  }

  /**
   * With both bounds on the same day and the end of that day at 23:59:59 UTC,
   * the custom range keeps a ticket created at 23:59:00 that day and drops one
   * created at 00:00:01 the next day.
   */
  lemma CustomRangeEndOfDay(day: int, c: Criteria, cal: Calendar)
    requires c.dateFilter == Custom && c.start == Some(day) && c.end == Some(day)
    requires cal.endOfDay(day) == day + DayMs - 1000
    ensures MatchesDate(day + DayMs - 60_000, c, cal)
    ensures !MatchesDate(day + DayMs + 1000, c, cal)
    ensures !MatchesDate(day - 1, c, cal)
  {
  }

  // ---------------------------------------------------------------------------
  // Grouping by day

  function DayIs(utcDay: int -> int, d: int): Ticket -> bool
  {
    (t: Ticket) => utcDay(t.row.createdAt) == d
  }

  /** The tickets of one group: those whose UTC day is `d`, in input order. */
  function OnDay(tickets: seq<Ticket>, utcDay: int -> int, d: int): seq<Ticket>
  {
    Filter(tickets, DayIs(utcDay, d))
  }

  /** Appending one ticket to the input adds it to the group of its own day only. */
  lemma OnDayStep(tickets: seq<Ticket>, i: int, utcDay: int -> int, d: int)
    requires 0 <= i < |tickets|
    ensures OnDay(tickets[..i + 1], utcDay, d)
         == OnDay(tickets[..i], utcDay, d) + (if utcDay(tickets[i].row.createdAt) == d then [tickets[i]] else [])
  {
    assert tickets[..i + 1][..i] == tickets[..i];
  }

  /** The groups and their keys after the reduce has seen `tickets`. */
  datatype Grouping = Grouping(groups: map<int, seq<Ticket>>, keys: seq<int>)

  /**
   * What the reduce of `groupedTickets` (lines 64-72) builds, step by step from
   * the front: the ticket goes at the end of its day's list, and a day seen for
   * the first time becomes the last key of the object.
   */
  function GroupingOf(tickets: seq<Ticket>, utcDay: int -> int): Grouping
  {
    if tickets == [] then Grouping(map[], [])
    else
      var g := GroupingOf(tickets[..|tickets| - 1], utcDay);
      var t := tickets[|tickets| - 1];
      var key := utcDay(t.row.createdAt);
      if key in g.groups then Grouping(g.groups[key := g.groups[key] + [t]], g.keys)
      else Grouping(g.groups[key := [t]], g.keys + [key])
  }

  /** The list under day `d` holds exactly that day's tickets, and a day with no list has none. */
  ghost predicate GroupListAt(g: Grouping, tickets: seq<Ticket>, utcDay: int -> int, d: int)
  {
    if d in g.groups then g.groups[d] == OnDay(tickets, utcDay, d) && g.groups[d] != []
    else OnDay(tickets, utcDay, d) == []
  }

  /**
   * The keys are the days that occur, each once; the list under a day holds
   * that day's tickets in input order and is never empty; a day with no list
   * has no tickets.
   */
  ghost predicate GroupsByDay(g: Grouping, tickets: seq<Ticket>, utcDay: int -> int)
  {
    && (forall d :: d in g.groups <==> d in g.keys)
    && (forall i, j :: 0 <= i < j < |g.keys| ==> g.keys[i] != g.keys[j])
    && (forall d :: GroupListAt(g, tickets, utcDay, d))
  }

  lemma {:induction false} GroupingOfGroupsByDay(tickets: seq<Ticket>, utcDay: int -> int)
    ensures GroupsByDay(GroupingOf(tickets, utcDay), tickets, utcDay)
  {
    if tickets != [] {
      var n := |tickets| - 1;
      GroupingOfGroupsByDay(tickets[..n], utcDay);
      assert tickets == tickets[..n] + [tickets[n]];
      GroupingStep(tickets[..n], tickets[n], utcDay);
    }
  }

  /** One step of the reduce keeps the grouping exact. */
  lemma GroupingStep(init: seq<Ticket>, t: Ticket, utcDay: int -> int)
    requires GroupsByDay(GroupingOf(init, utcDay), init, utcDay)
    ensures GroupsByDay(GroupingOf(init + [t], utcDay), init + [t], utcDay)
  {
    var g, h := GroupingOf(init, utcDay), GroupingOf(init + [t], utcDay);
    var key := utcDay(t.row.createdAt);
    assert (init + [t])[..|init|] == init;
    if key !in g.groups {
      assert h.keys == g.keys + [key];
      forall i, j | 0 <= i < j < |h.keys| ensures h.keys[i] != h.keys[j] {
        if j == |g.keys| {
          assert h.keys[i] == g.keys[i];
        }
      }
    }
    forall d ensures GroupListAt(h, init + [t], utcDay, d) {
      GroupingStepAt(init, t, utcDay, d);
    }
  }

  lemma GroupingStepAt(init: seq<Ticket>, t: Ticket, utcDay: int -> int, d: int)
    requires GroupListAt(GroupingOf(init, utcDay), init, utcDay, d)
    ensures GroupListAt(GroupingOf(init + [t], utcDay), init + [t], utcDay, d)
  {
    var s := init + [t];
    OnDayStep(s, |init|, utcDay, d);
    assert s[..|init|] == init && s[..|init| + 1] == s;
  }

  /** Every ticket's day is a key of the grouping. */
  lemma GroupsCoverTickets(g: Grouping, tickets: seq<Ticket>, utcDay: int -> int)
    requires GroupsByDay(g, tickets, utcDay)
    ensures forall t :: t in tickets ==> utcDay(t.row.createdAt) in g.groups
  {
    forall t | t in tickets ensures utcDay(t.row.createdAt) in g.groups {
      assert GroupListAt(g, tickets, utcDay, utcDay(t.row.createdAt));
      assert t in OnDay(tickets, utcDay, utcDay(t.row.createdAt));
    }
  }

  /** `groupedTickets` and `Object.keys(groupedTickets)` (lines 64-76), computed by the reduce's loop. */
  method GroupByDay(tickets: seq<Ticket>, utcDay: int -> int)
    returns (groups: map<int, seq<Ticket>>, keys: seq<int>)
    ensures Grouping(groups, keys) == GroupingOf(tickets, utcDay)
    ensures GroupsByDay(Grouping(groups, keys), tickets, utcDay)
  {
    groups, keys := map[], [];
    var i := 0;
    while i < |tickets|
      invariant 0 <= i <= |tickets|
      invariant Grouping(groups, keys) == GroupingOf(tickets[..i], utcDay)
    {
      var t := tickets[i];
      var key := utcDay(t.row.createdAt);
      assert tickets[..i + 1][..i] == tickets[..i];
      if key in groups {
        groups := groups[key := groups[key] + [t]];
      } else {
        groups := groups[key := [t]];
        keys := keys + [key];
      }
      i := i + 1;
    }
    assert tickets[..i] == tickets;
    GroupingOfGroupsByDay(tickets, utcDay);
  }

  /** A ticket lies in the group of its own day and in no other group. */
  lemma GroupOfEachTicket(tickets: seq<Ticket>, utcDay: int -> int, t: Ticket, d: int)
    requires t in tickets
    ensures t in OnDay(tickets, utcDay, d) <==> d == utcDay(t.row.createdAt)
  {
  }

  /** Each group keeps the order its tickets had in the input. */
  lemma GroupKeepsOrder(tickets: seq<Ticket>, utcDay: int -> int, d: int)
    ensures IsSubsequence(OnDay(tickets, utcDay, d), tickets)
  {
    FilterIsSubsequence(tickets, DayIs(utcDay, d));
  }

  /** `new Date(key).getTime()` for a day key: midnight UTC of that day. */
  function DayStart(day: int): int
  {
    day * DayMs
  }

  /** `sortedDates` (lines 74-76): the group keys, newest day first. */
  function SortedDates(keys: seq<int>): seq<int>
  {
    SortDesc(keys, DayStart)
  }

  /** Distinct keys come out once each, in strictly descending order. */
  lemma SortedDatesStrict(keys: seq<int>)
    requires forall i, j :: 0 <= i < j < |keys| ==> keys[i] != keys[j]
    ensures multiset(SortedDates(keys)) == multiset(keys)
    ensures forall d :: d in SortedDates(keys) <==> d in keys
    ensures forall i, j :: 0 <= i < j < |SortedDates(keys)| ==> SortedDates(keys)[i] > SortedDates(keys)[j]
  {
    var r := SortedDates(keys);
    SortDescSorted(keys, DayStart);
    DistinctMultiset(keys);
    DistinctMultiset(r);
    forall i, j | 0 <= i < j < |r| ensures r[i] > r[j] {
      assert DayStart(r[i]) >= DayStart(r[j]);
    }
    forall d ensures d in r <==> d in keys {
      assert d in r <==> d in multiset(r);
      assert d in keys <==> d in multiset(keys);
    }
  }

  /** A sequence has no repeated element exactly when its multiset counts each element at most once. */
  lemma {:induction false} DistinctMultiset(s: seq<int>)
    ensures (forall i, j :: 0 <= i < j < |s| ==> s[i] != s[j]) <==> (forall x :: multiset(s)[x] <= 1)
  {
    if s != [] {
      var init, last := s[..|s| - 1], s[|s| - 1];
      DistinctMultiset(init);
      assert s == init + [last];
      assert multiset(s) == multiset(init) + multiset{last};
      if forall i, j :: 0 <= i < j < |s| ==> s[i] != s[j] {
        assert last !in init by {
          forall k | 0 <= k < |init| ensures init[k] != last { assert s[k] == init[k]; }
        }
      }
      if forall x :: multiset(s)[x] <= 1 {
        assert forall x :: multiset(init)[x] <= 1 by {
          forall x ensures multiset(init)[x] <= 1 { assert multiset(s)[x] >= multiset(init)[x]; }
        }
        assert multiset(init)[last] == 0 by { assert multiset(s)[last] == multiset(init)[last] + 1; }
        forall i, j | 0 <= i < j < |s| ensures s[i] != s[j] {
          if j == |s| - 1 {
            assert s[i] in init by { assert s[i] == init[i]; }
          } else {
            assert s[i] == init[i] && s[j] == init[j];
          }
        }
      }
    }
  }

  // ---------------------------------------------------------------------------
  // The rendered view

  datatype Section = Section(day: int, tickets: seq<Ticket>)

  /** What the card shows: the "nothing found" message, or one section per day. */
  datatype Panel = NothingFound | Days(sections: seq<Section>)

  function Flatten(sections: seq<Section>): seq<Ticket>
  {
    if sections == [] then [] else sections[0].tickets + Flatten(sections[1..])
  }

  /**
   * The sections describe `shown` by day: newest day first, each section the
   * non-empty group of its day in input order, and together every shown ticket
   * exactly once.
   */
  ghost predicate ListsByDay(ss: seq<Section>, shown: seq<Ticket>, utcDay: int -> int)
  {
    && (forall i, j :: 0 <= i < j < |ss| ==> ss[i].day > ss[j].day)
    && (forall i :: 0 <= i < |ss| ==> ss[i].tickets == OnDay(shown, utcDay, ss[i].day) && ss[i].tickets != [])
    && multiset(Flatten(ss)) == multiset(shown)
  }

  /**
   * The view (lines 56-76 and 159-181): filter, group, sort the day keys, list
   * the sections. It is built on the corrected filter `FilterSolved`; on the
   * filter as written the view always shows "nothing found"
   * (`AsWrittenShowsNothing`).
   */
  method SolvedView(tickets: seq<Ticket>, c: Criteria, cal: Calendar) returns (panel: Panel)
    ensures FilterSolved(tickets, c, cal) == [] <==> panel.NothingFound?
    ensures panel.Days? ==> ListsByDay(panel.sections, FilterSolved(tickets, c, cal), cal.utcDay)
  {
    var shown := FilterSolved(tickets, c, cal);
    if shown == [] {
      return NothingFound;
    }
    var groups, keys := GroupByDay(shown, cal.utcDay);
    var dates := SortedDates(keys);
    SortedDatesStrict(keys);
    var sections := seq(|dates|, i requires 0 <= i < |dates| => Section(dates[i], groups[dates[i]]));
    GroupsCoverTickets(Grouping(groups, keys), shown, cal.utcDay);
    SectionsListByDay(shown, cal.utcDay, Grouping(groups, keys), sections);
    panel := Days(sections);
  }

  lemma SectionsListByDay(shown: seq<Ticket>, utcDay: int -> int, g: Grouping, sections: seq<Section>)
    requires GroupsByDay(g, shown, utcDay)
    requires |sections| == |SortedDates(g.keys)|
    requires forall i :: 0 <= i < |sections| ==>
      (SortedDates(g.keys)[i] in g.groups && sections[i] == Section(SortedDates(g.keys)[i], g.groups[SortedDates(g.keys)[i]]))
    ensures ListsByDay(sections, shown, utcDay)
  {
    var keys := g.keys;
    var dates := SortedDates(keys);
    SortedDatesStrict(keys);
    GroupsCoverTickets(g, shown, utcDay);
    forall t | t in shown ensures utcDay(t.row.createdAt) in dates {
      var d := utcDay(t.row.createdAt);
      assert d in g.groups;
      assert d in keys;
    }
    forall i | 0 <= i < |sections|
      ensures sections[i] == Section(dates[i], OnDay(shown, utcDay, dates[i])) && sections[i].tickets != []
    {
      assert GroupListAt(g, shown, utcDay, dates[i]);
    }
    FlattenIsPermutation(shown, utcDay, sections, dates);
  }

  function DaysIn(utcDay: int -> int, days: seq<int>): Ticket -> bool
  {
    (t: Ticket) => utcDay(t.row.createdAt) in days
  }

  /** Taking one more day out of the remaining ones splits the filter in two. */
  lemma {:induction false} SplitDay(tickets: seq<Ticket>, utcDay: int -> int, d: int, rest: seq<int>)
    requires d !in rest
    ensures multiset(OnDay(tickets, utcDay, d)) + multiset(Filter(tickets, DaysIn(utcDay, rest)))
         == multiset(Filter(tickets, DaysIn(utcDay, [d] + rest)))
  {
    if tickets != [] {
      SplitDay(tickets[..|tickets| - 1], utcDay, d, rest);
    }
  }

  /** The sections, read in order, hold the shown tickets, each as often as it is shown. */
  lemma FlattenIsPermutation(shown: seq<Ticket>, utcDay: int -> int, sections: seq<Section>, days: seq<int>)
    requires |sections| == |days|
    requires forall i, j :: 0 <= i < j < |days| ==> days[i] != days[j]
    requires forall i :: 0 <= i < |days| ==> sections[i] == Section(days[i], OnDay(shown, utcDay, days[i]))
    requires forall t :: t in shown ==> utcDay(t.row.createdAt) in days
    ensures multiset(Flatten(sections)) == multiset(shown)
  {
    FlattenDays(shown, utcDay, sections, days);
    FilterKeepsAll(shown, DaysIn(utcDay, days));
  }

  lemma {:induction false} FlattenDays(shown: seq<Ticket>, utcDay: int -> int, sections: seq<Section>, days: seq<int>)
    requires |sections| == |days|
    requires forall i, j :: 0 <= i < j < |days| ==> days[i] != days[j]
    requires forall i :: 0 <= i < |days| ==> sections[i] == Section(days[i], OnDay(shown, utcDay, days[i]))
    ensures multiset(Flatten(sections)) == multiset(Filter(shown, DaysIn(utcDay, days)))
  {
    if days == [] {
      FilterKeepsNone(shown, DaysIn(utcDay, []));
    } else {
      var rest := days[1..];
      FlattenDays(shown, utcDay, sections[1..], rest);
      assert days == [days[0]] + rest;
      assert days[0] !in rest by {
        forall k | 0 <= k < |rest| ensures rest[k] != days[0] { assert rest[k] == days[k + 1]; }
      }
      SplitDay(shown, utcDay, days[0], rest);
    }
  }
}
