/** The customer dashboard (`CustomerDashboard`): its own copy of the started
    events, refreshed by fetches, and the one-ticket purchase action. */
module CustomerDashboard {
  import opened Common
  import opened Sequences

  /** `response.data.filter(e => e.started)`. */
  function StartedOnly(events: seq<Event>): (r: seq<Event>)
    ensures forall i :: 0 <= i < |r| ==> r[i].started
    ensures |r| <= |events|
  {
    Filter(events, IsStarted)
  }

  /** The fetched list keeps exactly the started events: each with its
      multiplicity, in response order. */
  lemma StartedOnlyExact(events: seq<Event>, e: Event)
    ensures multiset(StartedOnly(events))[e] == if e.started then multiset(events)[e] else 0
    ensures IsSubsequence(StartedOnly(events), events)
  {
    FilterMultiplicity(events, IsStarted, e);
    FilterIsSubsequence(events, IsStarted);
  }

  /** Filtering a list that holds only started events changes nothing. */
  lemma StartedOnlyStable(events: seq<Event>)
    requires forall i :: 0 <= i < |events| ==> events[i].started
    ensures StartedOnly(events) == events
  {
    FilterKeepsAll(events, IsStarted);
  }

  /** The card's action button. */
  datatype Button = Button(caption: string, enabled: bool)

  /** "Purchase Ticket" while `availableTickets > 0`, else a disabled "Sold Out";
      a missing count compares false and shows "Sold Out". */
  function PurchaseButton(e: Event): (b: Button)
    ensures b.enabled <==> e.availableTickets.Some? && e.availableTickets.value > 0
    ensures b.caption == "Sold Out" <==> !b.enabled
    ensures b.enabled ==> b.caption == "Purchase Ticket"
  {
    if e.availableTickets.Some? && e.availableTickets.value > 0 then Button("Purchase Ticket", true)
    else Button("Sold Out", false)
  }

  /** The card's status line: "Ongoing" exactly for started events. */
  function StatusText(e: Event): (s: string)
    ensures s == "Ongoing" <==> e.started
    ensures s == "Not Started" <==> !e.started
  {
    if e.started then "Ongoing" else "Not Started"
  }

  /** Every card of a fetched list reads "Ongoing". */
  lemma FetchedAllOngoing(response: seq<Event>, i: nat)
    requires i < |StartedOnly(response)|
    ensures StatusText(StartedOnly(response)[i]) == "Ongoing"
  {
  }

  class CustomerDashboardView {
    var events: seq<Event>
    var snackbarOpen: bool
    var snackbarMessage: string
    var snackbarSeverity: Severity

    /** Only started events are ever on show. */
    ghost predicate Valid()
      reads this
    {
      forall i :: 0 <= i < |events| ==> events[i].started
    }

    constructor ()
      ensures Valid()
      ensures events == [] && !snackbarOpen && snackbarMessage == "" && snackbarSeverity == SuccessAlert
    {
      events := [];
      snackbarOpen := false;
      snackbarMessage := "";
      snackbarSeverity := SuccessAlert;
    }

    /** `fetchEvents`: a response replaces the list with its started events; a
        failure is only logged. */
    method FetchEvents(response: Response<seq<Event>>)
      requires Valid()
      modifies this
      ensures Valid()
      ensures response.Success? ==> events == StartedOnly(response.payload)
      ensures response.Failure? ==> events == old(events)
      ensures snackbarOpen == old(snackbarOpen) && snackbarMessage == old(snackbarMessage)
      ensures snackbarSeverity == old(snackbarSeverity)
    {
      if response.Success? {
        var startedEvents := StartedOnly(response.payload);
        events := startedEvents;
      }
    }

    /** `handlePurchaseTicket`: a success shows a success snackbar and fetches
        again (with outcome `refetch`); a failure shows an error snackbar and
        does not fetch. Returns whether the fetch was issued. */
    method HandlePurchaseTicket(eventId: string, purchase: Response<()>, refetch: Response<seq<Event>>)
      returns (refetched: bool)
      requires Valid()
      modifies this
      ensures Valid()
      ensures refetched <==> purchase.Success?
      ensures snackbarOpen
      ensures purchase.Success? ==>
        snackbarSeverity == SuccessAlert && snackbarMessage == "Ticket purchased successfully!"
      ensures purchase.Failure? ==>
        snackbarSeverity == ErrorAlert && snackbarMessage == "Failed to purchase ticket. Please try again."
      ensures events == if purchase.Success? && refetch.Success? then StartedOnly(refetch.payload) else old(events)
    {
      if purchase.Success? {
        snackbarMessage := "Ticket purchased successfully!";
        snackbarSeverity := SuccessAlert;
        snackbarOpen := true;
        FetchEvents(refetch);
        refetched := true;
      } else {
        snackbarMessage := "Failed to purchase ticket. Please try again.";
        snackbarSeverity := ErrorAlert;
        snackbarOpen := true;
        refetched := false;
      }
    }
  }
}
