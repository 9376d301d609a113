/** The purchase dialog (`EventDetailsModal`): a ticket count and a total price
    that only a guarded setter changes, and the purchase request built from them. */
module EventDetailsModal {
  import opened Common

  /** The event the dialog was opened for (its props). */
  datatype ModalEvent = ModalEvent(
    title: string,
    description: string,
    date: string,
    image: string,
    location: string,
    time: string,
    ticketPrice: int,
    ticketId: int)

  /** The body of the purchase POST. */
  datatype PurchaseRequest = PurchaseRequest(
    ticketCount: int,
    ticketId: int,
    totalPrice: int,
    title: string,
    userName: Option<string>)

  /** The ticket part of the dialog state. */
  datatype Tickets = Tickets(count: int, total: int)

  /** What the dialog keeps true: at least one ticket, and the total is the
      count times the unit price. */
  predicate Consistent(t: Tickets, price: int)
  {
    t.count >= 1 && t.total == t.count * price
  }

  /** The state the constructor sets up. */
  function InitialTickets(price: int): (t: Tickets)
    ensures Consistent(t, price)
  {
    Tickets(1, price)
  }

  /** `updateTicketCount(count)`: a count below one is ignored. */
  function UpdatedTickets(t: Tickets, price: int, count: int): (r: Tickets)
    ensures count >= 1 ==> Consistent(r, price) && r.count == count
    ensures count < 1 ==> r == t
  {
    if count >= 1 then Tickets(count, count * price) else t
  }

  /** The state after the user has asked for the counts `counts`, in order,
      starting from the constructor's state. */
  function Replay(price: int, counts: seq<int>): Tickets
  {
    if counts == [] then InitialTickets(price)
    else UpdatedTickets(Replay(price, counts[..|counts| - 1]), price, counts[|counts| - 1])
  }

  /** Every reachable state is consistent: the count never drops below one and
      the total always matches it. */
  lemma {:induction false} ReachableConsistent(price: int, counts: seq<int>)
    ensures Consistent(Replay(price, counts), price)
  {
    if counts != [] {
      ReachableConsistent(price, counts[..|counts| - 1]);
    }
  }

  /** The count in a reachable state is the last accepted request, or one if
      none was accepted. */
  lemma {:induction false} ReplayCountIsLastAccepted(price: int, counts: seq<int>, k: nat)
    requires k < |counts| && counts[k] >= 1
    requires forall j :: k < j < |counts| ==> counts[j] < 1
    ensures Replay(price, counts).count == counts[k]
  {
    if k < |counts| - 1 {
      ReplayCountIsLastAccepted(price, counts[..|counts| - 1], k);
    }
  }

  /** With no accepted request the state is still the constructor's. */
  lemma {:induction false} ReplayNoneAccepted(price: int, counts: seq<int>)
    requires forall j :: 0 <= j < |counts| ==> counts[j] < 1
    ensures Replay(price, counts) == InitialTickets(price)
  {
    if counts != [] {
      ReplayNoneAccepted(price, counts[..|counts| - 1]);
    }
  }

  /** The "-" button at one ticket keeps the count at one. */
  lemma DecrementAtOneKeepsOne(t: Tickets, price: int)
    requires Consistent(t, price) && t.count == 1
    ensures UpdatedTickets(t, price, t.count - 1) == t
  {
  }

  /** The request that `handlePurchase` posts: the count and total kept in the
      dialog's state, with the id and title of the event currently shown. When
      the state matches that event, at least one ticket is bought and the total
      is the count times its unit price. */
  function Request(t: Tickets, event: ModalEvent, userName: Option<string>): (r: PurchaseRequest)
    ensures r.ticketCount == t.count && r.totalPrice == t.total
    ensures Consistent(t, event.ticketPrice) ==>
      r.ticketCount >= 1 && r.totalPrice == r.ticketCount * event.ticketPrice
    ensures r.ticketId == event.ticketId && r.title == event.title && r.userName == userName
  {
    PurchaseRequest(t.count, event.ticketId, t.total, event.title, userName)
  }

  /** Three tickets at 1000 each are posted with a total of 3000; a count of zero
      is never sent. */
  lemma ThreeTicketsAtOneThousand(event: ModalEvent, userName: Option<string>)
    requires event.ticketPrice == 1000
    ensures Replay(1000, [3]).count == 3
    ensures Request(Replay(1000, [3]), event, userName).totalPrice == 3000
    ensures Replay(1000, [0]) == Replay(1000, [])
  {
    assert [3][..0] == [];
    assert [0][..0] == [];
  }

  /** The dialog. Its props (`event`, `userName`) are fields because the
      parent can render the same mounted dialog with other props; the ticket
      state is set from the props only by the constructor. */
  class EventDetailsDialog {
    var event: ModalEvent
    var userName: Option<string>
    var ticketCount: int
    var totalPrice: int
    var snackbarOpen: bool
    var snackbarMessage: string
    var snackbarSeverity: Severity

    /** The ticket state matches the event currently shown. */
    ghost predicate Valid()
      reads this
    {
      Consistent(Tickets(ticketCount, totalPrice), event.ticketPrice)
    }

    constructor (event: ModalEvent, userName: Option<string>)
      ensures Valid()
      ensures this.event == event && this.userName == userName
      ensures ticketCount == 1 && totalPrice == event.ticketPrice
      ensures !snackbarOpen && snackbarMessage == "" && snackbarSeverity == SuccessAlert
    {
      this.event := event;
      this.userName := userName;
      ticketCount := 1;
      totalPrice := event.ticketPrice;
      snackbarOpen := false;
      snackbarMessage := "";
      snackbarSeverity := SuccessAlert;
    }

    /** A re-render with new props: the props change and the whole state is
        kept, since the component has no update hook. */
    method ReceiveProps(event: ModalEvent, userName: Option<string>)
      modifies this
      ensures this.event == event && this.userName == userName
      ensures ticketCount == old(ticketCount) && totalPrice == old(totalPrice)
      ensures snackbarOpen == old(snackbarOpen) && snackbarMessage == old(snackbarMessage)
      ensures snackbarSeverity == old(snackbarSeverity)
    {
      this.event := event;
      this.userName := userName;
    }

    /** The corrected props update: a different event starts the ticket state
        afresh, as a remount would, so the state always matches the event shown. */
    method ReceivePropsResetting(event: ModalEvent, userName: Option<string>)
      requires Valid()
      modifies this
      ensures Valid()
      ensures this.event == event && this.userName == userName
      ensures event != old(this.event) ==> Tickets(ticketCount, totalPrice) == InitialTickets(event.ticketPrice)
      ensures event == old(this.event) ==> ticketCount == old(ticketCount) && totalPrice == old(totalPrice)
      ensures snackbarOpen == old(snackbarOpen) && snackbarMessage == old(snackbarMessage)
      ensures snackbarSeverity == old(snackbarSeverity)
    {
      if event != this.event {
        ticketCount := 1;
        totalPrice := event.ticketPrice;
      }
      this.event := event;
      this.userName := userName;
    }

    /** `updateTicketCount`: the total is computed from the unit price of the
        event shown at the time of the call. */
    method UpdateTicketCount(count: int)
      modifies this
      ensures Tickets(ticketCount, totalPrice) ==
              UpdatedTickets(Tickets(old(ticketCount), old(totalPrice)), event.ticketPrice, count)
      ensures count >= 1 ==> Valid()
      ensures old(Valid()) ==> Valid()
      ensures event == old(event) && userName == old(userName)
      ensures snackbarOpen == old(snackbarOpen) && snackbarMessage == old(snackbarMessage)
      ensures snackbarSeverity == old(snackbarSeverity)
    {
      if count >= 1 {
        ticketCount := count;
        totalPrice := count * event.ticketPrice;
      }
    }

    /** `handlePurchase`: posts the request built from the current state and
        props. On success the snackbar shows the response text and `onClose` is
        called; on failure it shows the error text. The ticket state and the
        props never change. */
    method HandlePurchase(response: Response<string>) returns (posted: PurchaseRequest, closeCalled: bool)
      modifies this
      ensures posted == Request(Tickets(ticketCount, totalPrice), event, userName)
      ensures event == old(event) && userName == old(userName)
      ensures ticketCount == old(ticketCount) && totalPrice == old(totalPrice)
      ensures snackbarOpen
      ensures closeCalled <==> response.Success?
      ensures response.Success? ==> snackbarSeverity == SuccessAlert && snackbarMessage == response.payload
      ensures response.Failure? ==> snackbarSeverity == ErrorAlert
      ensures response.Failure? ==>
        snackbarMessage == "There was an error processing the purchase. Please try again."
    {
      posted := Request(Tickets(ticketCount, totalPrice), event, userName);
      if response.Success? {
        snackbarMessage := response.payload;
        snackbarSeverity := SuccessAlert;
        snackbarOpen := true;
        closeCalled := true;
      } else {
        snackbarMessage := "There was an error processing the purchase. Please try again.";
        snackbarSeverity := ErrorAlert;
        snackbarOpen := true;
        closeCalled := false;
      }
    }
  }

  /** The event list keeps one dialog mounted across selections. Opening an
      event at 1000, then another at 500, and purchasing posts the second
      event's id with the first event's total. */
  method StaleTotalAfterReselect(first: ModalEvent, second: ModalEvent)
    returns (dialog: EventDetailsDialog, posted: PurchaseRequest)
    requires first.ticketPrice == 1000 && second.ticketPrice == 500
    ensures !dialog.Valid()
    ensures posted.ticketId == second.ticketId && posted.ticketCount == 1
    ensures posted.totalPrice == 1000
    ensures posted.totalPrice != posted.ticketCount * second.ticketPrice
  {
    dialog := new EventDetailsDialog(first, None);
    dialog.ReceiveProps(second, None);
    var closeCalled;
    posted, closeCalled := dialog.HandlePurchase(Failure);
  }

  /** With the corrected props update the same sequence posts the second
      event's own price. */
  method FreshTotalAfterReselect(first: ModalEvent, second: ModalEvent)
    returns (dialog: EventDetailsDialog, posted: PurchaseRequest)
    requires first.ticketPrice == 1000 && second.ticketPrice == 500
    ensures dialog.Valid()
    ensures posted.ticketId == second.ticketId && posted.ticketCount == 1
    ensures posted.totalPrice == 500
    ensures posted.totalPrice == posted.ticketCount * second.ticketPrice
  {
    dialog := new EventDetailsDialog(first, None);
    dialog.ReceivePropsResetting(second, None);
    var closeCalled;
    posted, closeCalled := dialog.HandlePurchase(Failure);
  }
}
