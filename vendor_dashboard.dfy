/** The vendor dashboard (`VendorDashboard`): its own copy of the event list and
    three totals computed from it on every fetch, plus the lifecycle counts shown
    on its cards. */
module VendorDashboard {
  import opened Common
  import opened Sequences

  /** `list.reduce((total, e) => total + f(e), 0)`: a left fold from zero. It
      is the definition behind `TotalTickets`, `TicketsSold` and `TotalRevenue`;
      what it computes is stated by the `SumBy…` lemmas below and by those
      three metrics' contracts. */
  function SumBy(events: seq<Event>, f: Event -> int): int
  {
    if events == [] then 0
    else SumBy(events[..|events| - 1], f) + f(events[|events| - 1])
  }

  function TicketsOf(e: Event): int { OrZero(e.totalTickets) }
  function SoldOf(e: Event): int { OrZero(e.soldTickets) }
  function RevenueOf(e: Event): int { OrZero(e.soldTickets) * OrZero(e.ticketPrice) }

  /** The "Total Tickets" metric: never negative when no event's count is, and
      zero when every count is missing. */
  function TotalTickets(events: seq<Event>): (t: int)
    ensures (forall i :: 0 <= i < |events| ==> TicketsOf(events[i]) >= 0) ==> t >= 0
    ensures (forall i :: 0 <= i < |events| ==> events[i].totalTickets.None?) ==> t == 0
  {
    SumByNonNegative(events, TicketsOf);
    SumByMissing(events, TicketsOf);
    SumBy(events, TicketsOf)
  }

  /** The "Tickets Sold" metric: never negative when no event's sold count is,
      and zero when every sold count is missing. */
  function TicketsSold(events: seq<Event>): (t: int)
    ensures (forall i :: 0 <= i < |events| ==> SoldOf(events[i]) >= 0) ==> t >= 0
    ensures (forall i :: 0 <= i < |events| ==> events[i].soldTickets.None?) ==> t == 0
  {
    SumByNonNegative(events, SoldOf);
    SumByMissing(events, SoldOf);
    SumBy(events, SoldOf)
  }

  /** The revenue metric, in minor currency units: never negative when no sold
      count or price is, and zero when every sold count or every price is
      missing. */
  function TotalRevenue(events: seq<Event>): (r: int)
    ensures (forall i :: 0 <= i < |events| ==> SoldOf(events[i]) >= 0 && OrZero(events[i].ticketPrice) >= 0) ==> r >= 0
    ensures (forall i :: 0 <= i < |events| ==> events[i].soldTickets.None? || events[i].ticketPrice.None?) ==> r == 0
  {
    SumByNonNegative(events, RevenueOf);
    SumByMissing(events, RevenueOf);
    SumBy(events, RevenueOf)
  }

  /** Non-negative contributions give a non-negative total. */
  lemma {:induction false} SumByNonNegative(events: seq<Event>, f: Event -> int)
    ensures (forall i :: 0 <= i < |events| ==> f(events[i]) >= 0) ==> SumBy(events, f) >= 0
  {
    if events != [] && forall i :: 0 <= i < |events| ==> f(events[i]) >= 0 {
      SumByNonNegative(events[..|events| - 1], f);
    }
  }

  /** Zero contributions give a zero total. */
  lemma SumByMissing(events: seq<Event>, f: Event -> int)
    ensures (forall i :: 0 <= i < |events| ==> f(events[i]) == 0) ==> SumBy(events, f) == 0
  {
    if forall i :: 0 <= i < |events| ==> f(events[i]) == 0 {
      SumByZero(events, f);
    }
  }

  /** The "Yet to Start" card: `events.filter(e => !e.started).length`. */
  function YetToStartCount(events: seq<Event>): (n: nat)
    ensures n <= |events|
  {
    |Filter(events, Not(IsStarted))|
  }

  /** The "In Progress" card: `events.filter(e => e.started).length`. */
  function InProgressCount(events: seq<Event>): (n: nat)
    ensures n <= |events|
  {
    |Filter(events, IsStarted)|
  }

  /** The "Completed" card: `events.filter(e => e.completed).length`, never more
      than the "Total Events" metric. */
  function CompletedCount(events: seq<Event>): (n: nat)
    ensures n <= |events|
  {
    |Filter(events, IsCompleted)|
  }

  /** The fold over a concatenation is the sum of the folds. */
  lemma {:induction false} SumByAppend(a: seq<Event>, b: seq<Event>, f: Event -> int)
    ensures SumBy(a + b, f) == SumBy(a, f) + SumBy(b, f)
  {
    if b == [] {
      assert a + b == a;
    } else {
      SumByAppend(a, b[..|b| - 1], f);
      assert (a + b)[..|a + b| - 1] == a + b[..|b| - 1];
    }
  }

  /** The fold is the sum of each event's contribution, counted from the front. */
  lemma SumByCons(e: Event, rest: seq<Event>, f: Event -> int)
    ensures SumBy([e] + rest, f) == f(e) + SumBy(rest, f)
  {
    SumByAppend([e], rest, f);
    assert [e][..0] == [];
  }

  /** A pointwise smaller contribution gives a smaller total. */
  lemma {:induction false} SumByMonotone(events: seq<Event>, f: Event -> int, g: Event -> int)
    requires forall i :: 0 <= i < |events| ==> f(events[i]) <= g(events[i])
    ensures SumBy(events, f) <= SumBy(events, g)
  {
    if events != [] {
      SumByMonotone(events[..|events| - 1], f, g);
    }
  }

  /** Events with no contribution add nothing. */
  lemma {:induction false} SumByZero(events: seq<Event>, f: Event -> int)
    requires forall i :: 0 <= i < |events| ==> f(events[i]) == 0
    ensures SumBy(events, f) == 0
  {
    if events != [] {
      SumByZero(events[..|events| - 1], f);
    }
  }

  /** When every event has sold no more than it has, so does the dashboard. */
  lemma TicketsSoldAtMostTotal(events: seq<Event>)
    requires forall i :: 0 <= i < |events| ==> SoldOf(events[i]) <= TicketsOf(events[i])
    ensures TicketsSold(events) <= TotalTickets(events)
  {
    SumByMonotone(events, SoldOf, TicketsOf);
  }

  /** Events whose sold count is missing add nothing to the sold total or the
      revenue. */
  lemma NothingSoldNoRevenue(events: seq<Event>)
    requires forall i :: 0 <= i < |events| ==> events[i].soldTickets.None?
    ensures TicketsSold(events) == 0 && TotalRevenue(events) == 0
  {
    SumByZero(events, SoldOf);
    SumByZero(events, RevenueOf);
  }

  /** "Yet to Start" and "In Progress" split the list: together they are the
      "Total Events" metric. */
  lemma LifecyclePartition(events: seq<Event>)
    ensures YetToStartCount(events) + InProgressCount(events) == |events|
  {
    FilterPartition(events, IsStarted);
  }

  /** Under the server's lifecycle rule (completed implies started), completed
      events are among those counted "In Progress". */
  lemma CompletedAtMostInProgress(events: seq<Event>)
    requires forall i :: 0 <= i < |events| ==> events[i].completed ==> events[i].started
    ensures CompletedCount(events) <= InProgressCount(events)
  {
    FilterWeaker(events, IsCompleted, IsStarted);
  }

  class VendorDashboardView {
    var events: seq<Event>
    var totalTickets: int
    var ticketsSold: int
    var totalRevenue: int

    /** The totals always describe the list on show. */
    ghost predicate Valid()
      reads this
    {
      totalTickets == TotalTickets(events) &&
      ticketsSold == TicketsSold(events) &&
      totalRevenue == TotalRevenue(events)
    }

    constructor ()
      ensures Valid()
      ensures events == [] && totalTickets == 0 && ticketsSold == 0 && totalRevenue == 0
    {
      events := [];
      totalTickets := 0;
      ticketsSold := 0;
      totalRevenue := 0;
    }

    /** `fetchEvents`: a response replaces the list and recomputes the totals;
        a failure is only logged and changes nothing. */
    method FetchEvents(response: Response<seq<Event>>)
      requires Valid()
      modifies this
      ensures Valid()
      ensures response.Success? ==> events == response.payload
      ensures response.Failure? ==>
        events == old(events) && totalTickets == old(totalTickets) &&
        ticketsSold == old(ticketsSold) && totalRevenue == old(totalRevenue)
    {
      if response.Success? {
        var eventsData := response.payload;
        events := eventsData;
        totalTickets := TotalTickets(eventsData);
        ticketsSold := TicketsSold(eventsData);
        totalRevenue := TotalRevenue(eventsData);
      }
    }
  }
}
