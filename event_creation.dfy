/** The short event-creation form (`src/events/EventCreation.tsx`): five text
    fields, a submit that refuses any empty field, posts the parsed event and
    hands the server's answer, with its numbers written back as text, to an
    optional `onAddEvent` callback. */
module EventCreation {
  import opened Common
  import opened Decimal

  datatype Field = EventName | Location | TicketPrice | TotalTickets | Date

  datatype FormData = FormData(
    eventName: string,
    location: string,
    ticketPrice: string,
    totalTickets: string,
    date: string)

  /** The form's initial and post-success contents. */
  const EmptyForm := FormData("", "", "", "", "")

  function Get(form: FormData, f: Field): string
  {
    match f
    case EventName => form.eventName
    case Location => form.location
    case TicketPrice => form.ticketPrice
    case TotalTickets => form.totalTickets
    case Date => form.date
  }

  /** `{ ...formData, [name]: value }`: only the named field changes. */
  function Set(form: FormData, f: Field, v: string): (r: FormData)
    ensures Get(r, f) == v
    ensures forall g :: g != f ==> Get(r, g) == Get(form, g)
  {
    match f
    case EventName => form.(eventName := v)
    case Location => form.(location := v)
    case TicketPrice => form.(ticketPrice := v)
    case TotalTickets => form.(totalTickets := v)
    case Date => form.(date := v)
  }

  /** The submit guard: no field is the empty string. */
  function AllFilled(form: FormData): (ok: bool)
    ensures ok <==> forall f :: Get(form, f) != ""
  {
    var filled := form.eventName != "" && form.location != "" && form.ticketPrice != "" &&
      form.totalTickets != "" && form.date != "";
    assert !filled ==> exists f :: Get(form, f) == "" by {
      if form.eventName == "" { assert Get(form, EventName) == ""; }
      else if form.location == "" { assert Get(form, Location) == ""; }
      else if form.ticketPrice == "" { assert Get(form, TicketPrice) == ""; }
      else if form.totalTickets == "" { assert Get(form, TotalTickets) == ""; }
      else if form.date == "" { assert Get(form, Date) == ""; }
    }
    filled
  }

  /** The body of the POST. */
  datatype EventRequest = EventRequest(
    name: string,
    location: string,
    ticketPrice: Option<int>,
    totalTickets: Option<int>,
    date: string)

  /** The request built from the form: the name field is sent as `name`, the
      numbers are parsed, location and date go through as typed. */
  function Request(form: FormData, parseInt: NumberParser, parseFloat: NumberParser): (r: EventRequest)
    ensures r.name == Get(form, EventName) && r.location == Get(form, Location) && r.date == Get(form, Date)
    ensures r.ticketPrice == parseFloat(Get(form, TicketPrice))
    ensures r.totalTickets == parseInt(Get(form, TotalTickets))
  {
    EventRequest(form.eventName, form.location, parseFloat(form.ticketPrice),
                 parseInt(form.totalTickets), form.date)
  }

  /** A request sent from a filled form carries no empty text. */
  lemma FilledFormRequest(form: FormData, parseInt: NumberParser, parseFloat: NumberParser)
    requires AllFilled(form)
    ensures var r := Request(form, parseInt, parseFloat);
      r.name != "" && r.location != "" && r.date != ""
  {
    assert Get(form, EventName) != "" && Get(form, Location) != "" && Get(form, Date) != "";
  }

  /** The event the server answers with; a number it leaves out is `None`. */
  datatype CreatedEvent = CreatedEvent(
    name: string,
    location: string,
    ticketPrice: Option<int>,
    totalTickets: Option<int>,
    date: string)

  /** The argument of `onAddEvent`: the form's shape, all text. */
  datatype AddedEvent = AddedEvent(
    eventName: string,
    location: string,
    ticketPrice: string,
    totalTickets: string,
    date: string)

  /** The `onAddEvent` argument built from the answer. `toString` on a missing
      number throws, which is `None` here. */
  function Added(data: CreatedEvent): (r: Option<AddedEvent>)
    ensures r.Some? <==> data.ticketPrice.Some? && data.totalTickets.Some?
    ensures r.Some? ==> r.value.eventName == data.name && r.value.location == data.location
    ensures r.Some? ==> r.value.date == data.date
    ensures r.Some? ==> ParseDecimal(r.value.ticketPrice) == data.ticketPrice
    ensures r.Some? ==> ParseDecimal(r.value.totalTickets) == data.totalTickets
  {
    match (data.ticketPrice, data.totalTickets)
    case (Some(price), Some(total)) =>
      IntToStringRoundTrip(price);
      IntToStringRoundTrip(total);
      Some(AddedEvent(data.name, data.location, IntToString(price), IntToString(total), data.date))
    case _ => None
  }

  /** Whether the whole `try` block of `handleFormSubmit` completes: the POST
      succeeds and, when a callback is supplied, building its argument does
      not throw. */
  predicate Completes(response: Response<CreatedEvent>, onAddEventSupplied: bool)
  {
    response.Success? && (onAddEventSupplied ==> Added(response.payload).Some?)
  }

  const FillAllFields := "Please fill out all fields before submitting."
  const Created := "Event created successfully!"
  const CreateFailed := "Failed to create event. Please try again."

  class EventCreationView {
    var formData: FormData
    var snackbar: Snackbar

    constructor ()
      ensures formData == EmptyForm && snackbar == Snackbar(false, "", SuccessAlert)
    {
      formData := EmptyForm;
      snackbar := Snackbar(false, "", SuccessAlert);
    }

    /** `handleInputChange`: the named field takes the typed value. */
    method HandleInputChange(f: Field, v: string)
      modifies this
      ensures formData == Set(old(formData), f, v)
      ensures snackbar == old(snackbar)
    {
      formData := Set(formData, f, v);
    }

    /** `handleFormSubmit`. An empty field stops it before any request with an
        error snackbar. Otherwise the request is posted; the callback, when
        supplied, gets the answer as text; then the form is reset with a
        success snackbar. Any failure on the way keeps the form and shows the
        error snackbar. */
    method HandleFormSubmit(parseInt: NumberParser, parseFloat: NumberParser,
                            onAddEventSupplied: bool, response: Response<CreatedEvent>)
      returns (posted: Option<EventRequest>, notified: Option<AddedEvent>)
      modifies this
      ensures posted.Some? <==> AllFilled(old(formData))
      ensures posted.Some? ==> posted.value == Request(old(formData), parseInt, parseFloat)
      ensures posted.None? ==> formData == old(formData)
      ensures posted.None? ==> snackbar == Snackbar(true, FillAllFields, ErrorAlert)
      ensures notified.Some? <==> posted.Some? && onAddEventSupplied && Completes(response, onAddEventSupplied)
      ensures notified.Some? ==> notified == Added(response.payload)
      ensures posted.Some? && Completes(response, onAddEventSupplied) ==>
        formData == EmptyForm && snackbar == Snackbar(true, Created, SuccessAlert)
      ensures posted.Some? && !Completes(response, onAddEventSupplied) ==> formData == old(formData)
      ensures posted.Some? && !Completes(response, onAddEventSupplied) ==>
        snackbar == Snackbar(true, CreateFailed, ErrorAlert)
    {
      notified := None;
      if !AllFilled(formData) {
        snackbar := Snackbar(true, FillAllFields, ErrorAlert);
        posted := None;
        return;
      }
      posted := Some(Request(formData, parseInt, parseFloat));
      if response.Failure? {
        snackbar := Snackbar(true, CreateFailed, ErrorAlert);
        return;
      }
      if onAddEventSupplied {
        var added := Added(response.payload);
        if added.None? {
          snackbar := Snackbar(true, CreateFailed, ErrorAlert);
          return;
        }
        notified := added;
      }
      formData := EmptyForm;
      snackbar := Snackbar(true, Created, SuccessAlert);
    }
  }

  /** After a successful submit the form is empty again, so submitting it once
      more posts nothing. */
  lemma ResetFormIsNotSubmittable()
    ensures !AllFilled(EmptyForm)
  {
    assert Get(EmptyForm, EventName) == "";
  }
}
