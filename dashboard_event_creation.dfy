/** The vendor's full event-creation form (`src/dashboards/EventCreation.tsx`):
    eleven text fields, a per-field validation rule table that yields an error
    map, and a submit that posts the parsed event and resets the form. */
module DashboardEventCreation {
  import opened Common

  datatype Field =
    | EventName | Location | TicketPrice | TotalTickets | MaxTicketCapacity
    | CustomerRetrievalRate | ImageUrl | Description | TicketReleaseRate | Date | Time

  datatype FormData = FormData(
    eventName: string,
    location: string,
    ticketPrice: string,
    totalTickets: string,
    maxTicketCapacity: string,
    customerRetrievalRate: string,
    imageUrl: string,
    description: string,
    ticketReleaseRate: string,
    date: string,
    time: string,
    started: bool)

  /** The form's initial and post-success contents. */
  const EmptyForm := FormData("", "", "", "", "", "", "", "", "", "", "", false)

  function Get(form: FormData, f: Field): string
  {
    match f
    case EventName => form.eventName
    case Location => form.location
    case TicketPrice => form.ticketPrice
    case TotalTickets => form.totalTickets
    case MaxTicketCapacity => form.maxTicketCapacity
    case CustomerRetrievalRate => form.customerRetrievalRate
    case ImageUrl => form.imageUrl
    case Description => form.description
    case TicketReleaseRate => form.ticketReleaseRate
    case Date => form.date
    case Time => form.time
  }

  /** `{ ...formData, [name]: value }`: only the named field changes. */
  function Set(form: FormData, f: Field, v: string): (r: FormData)
    ensures Get(r, f) == v
    ensures forall g :: g != f ==> Get(r, g) == Get(form, g)
    ensures r.started == form.started
  {
    match f
    case EventName => form.(eventName := v)
    case Location => form.(location := v)
    case TicketPrice => form.(ticketPrice := v)
    case TotalTickets => form.(totalTickets := v)
    case MaxTicketCapacity => form.(maxTicketCapacity := v)
    case CustomerRetrievalRate => form.(customerRetrievalRate := v)
    case ImageUrl => form.(imageUrl := v)
    case Description => form.(description := v)
    case TicketReleaseRate => form.(ticketReleaseRate := v)
    case Date => form.(date := v)
    case Time => form.(time := v)
  }

  /** `parse(x) <= k`; NaN compares false. */
  predicate AtMost(n: Option<int>, k: int)
  {
    n.Some? && n.value <= k
  }

  /** `parse(x) < k`; NaN compares false. */
  predicate Below(n: Option<int>, k: int)
  {
    n.Some? && n.value < k
  }

  /** The rule table: the message `validateForm` stores under `f`, if any. */
  function FieldError(form: FormData, f: Field, parseInt: NumberParser, parseFloat: NumberParser): (r: Option<string>)
    ensures Get(form, f) == "" ==> r.Some?
    ensures r.Some? ==> r.value != ""
  {
    match f
    case EventName => if form.eventName == "" then Some("Event Name is required.") else None
    case Location => if form.location == "" then Some("Location is required.") else None
    case ImageUrl => if form.imageUrl == "" then Some("Image URL is required.") else None
    case Description => if form.description == "" then Some("Description is required.") else None
    case TicketPrice =>
      if form.ticketPrice == "" || AtMost(parseFloat(form.ticketPrice), 0)
      then Some("Ticket Price must be greater than 0.") else None
    case TotalTickets =>
      if form.totalTickets == "" || AtMost(parseInt(form.totalTickets), 0)
      then Some("Total Tickets must be greater than 0.") else None
    case MaxTicketCapacity =>
      if form.maxTicketCapacity == "" || AtMost(parseInt(form.maxTicketCapacity), 0)
      then Some("Max Ticket Capacity is required.") else None
    case CustomerRetrievalRate =>
      if form.customerRetrievalRate == "" || Below(parseFloat(form.customerRetrievalRate), 0)
      then Some("Customer Retrieval Rate is required.") else None
    case TicketReleaseRate =>
      if form.ticketReleaseRate == "" || Below(parseFloat(form.ticketReleaseRate), 0)
      then Some("Ticket Release Rate is required.") else None
    case Date => if form.date == "" then Some("Event Date is required.") else None
    case Time => if form.time == "" then Some("Event Time is required.") else None
  }

  /** No rule of the table fires. */
  predicate FormValid(form: FormData, parseInt: NumberParser, parseFloat: NumberParser)
  {
    forall f :: FieldError(form, f, parseInt, parseFloat).None?
  }

  /** The position of a field's rule in `validateForm`. */
  function Rank(f: Field): (k: nat)
    ensures k < 11
  {
    match f
    case EventName => 0
    case Location => 1
    case ImageUrl => 2
    case Description => 3
    case TicketPrice => 4
    case TotalTickets => 5
    case MaxTicketCapacity => 6
    case CustomerRetrievalRate => 7
    case TicketReleaseRate => 8
    case Date => 9
    case Time => 10
  }

  /** `m` holds, among the fields whose rules come before the `checked`-th,
      exactly the failing ones, each under its own rule's message. */
  ghost predicate ErrorsFor(form: FormData, parseInt: NumberParser, parseFloat: NumberParser,
                            m: map<Field, string>, checked: nat)
  {
    forall f ::
      (f in m <==> Rank(f) < checked && FieldError(form, f, parseInt, parseFloat).Some?) &&
      (f in m ==> FieldError(form, f, parseInt, parseFloat) == Some(m[f]))
  }

  /** One line of `validateForm`: when the rule of `f` fails, its message is
      stored under `f`. */
  method ApplyRule(form: FormData, parseInt: NumberParser, parseFloat: NumberParser,
                   errors: map<Field, string>, f: Field, ghost checked: nat)
    returns (r: map<Field, string>)
    requires Rank(f) == checked && ErrorsFor(form, parseInt, parseFloat, errors, checked)
    ensures ErrorsFor(form, parseInt, parseFloat, r, checked + 1)
  {
    var error := FieldError(form, f, parseInt, parseFloat);
    if error.Some? {
      r := errors[f := error.value];
    } else {
      r := errors;
    }
  }

  /** Once every field is checked, the map holds exactly the failing fields with
      their messages, and it is empty exactly when the form is valid. */
  lemma AllChecked(form: FormData, parseInt: NumberParser, parseFloat: NumberParser,
                   m: map<Field, string>)
    requires ErrorsFor(form, parseInt, parseFloat, m, 11)
    ensures forall f :: f in m <==> FieldError(form, f, parseInt, parseFloat).Some?
    ensures forall f :: f in m ==> m[f] == FieldError(form, f, parseInt, parseFloat).value
    ensures |m| == 0 <==> FormValid(form, parseInt, parseFloat)
  {
    if |m| != 0 {
      var f :| f in m;
      assert FieldError(form, f, parseInt, parseFloat).Some?;
    } else {
      assert forall f :: f !in m;
    }
  }

  /** `validateForm`'s `newErrors`, built by one assignment per failing rule in
      the source's order: exactly the failing fields are keys, each with its
      rule's message, and the map is empty exactly when the form is valid. */
  method BuildErrors(form: FormData, parseInt: NumberParser, parseFloat: NumberParser)
    returns (newErrors: map<Field, string>)
    ensures forall f :: f in newErrors <==> FieldError(form, f, parseInt, parseFloat).Some?
    ensures forall f :: f in newErrors ==> newErrors[f] == FieldError(form, f, parseInt, parseFloat).value
    ensures |newErrors| == 0 <==> FormValid(form, parseInt, parseFloat)
  {
    newErrors := map[];
    newErrors := ApplyRule(form, parseInt, parseFloat, newErrors, EventName, 0);
    newErrors := ApplyRule(form, parseInt, parseFloat, newErrors, Location, 1);
    newErrors := ApplyRule(form, parseInt, parseFloat, newErrors, ImageUrl, 2);
    newErrors := ApplyRule(form, parseInt, parseFloat, newErrors, Description, 3);
    newErrors := ApplyRule(form, parseInt, parseFloat, newErrors, TicketPrice, 4);
    newErrors := ApplyRule(form, parseInt, parseFloat, newErrors, TotalTickets, 5);
    newErrors := ApplyRule(form, parseInt, parseFloat, newErrors, MaxTicketCapacity, 6);
    newErrors := ApplyRule(form, parseInt, parseFloat, newErrors, CustomerRetrievalRate, 7);
    newErrors := ApplyRule(form, parseInt, parseFloat, newErrors, TicketReleaseRate, 8);
    newErrors := ApplyRule(form, parseInt, parseFloat, newErrors, Date, 9);
    newErrors := ApplyRule(form, parseInt, parseFloat, newErrors, Time, 10);
    AllChecked(form, parseInt, parseFloat, newErrors);
  }

  /** An empty field is always flagged, under its own key. */
  lemma EmptyFieldFlagged(form: FormData, f: Field, parseInt: NumberParser, parseFloat: NumberParser)
    requires Get(form, f) == ""
    ensures FieldError(form, f, parseInt, parseFloat).Some?
  {
  }

  /** Name, location, image, description, date and time are flagged exactly
      when empty. */
  lemma TextFieldFlaggedIffEmpty(form: FormData, f: Field, parseInt: NumberParser, parseFloat: NumberParser)
    requires f in {EventName, Location, ImageUrl, Description, Date, Time}
    ensures FieldError(form, f, parseInt, parseFloat).Some? <==> Get(form, f) == ""
  {
  }

  /** A price, ticket total or capacity that parses to zero or less is flagged;
      a rate is flagged only when it parses below zero, so "0" passes for rates. */
  lemma NumericBounds(form: FormData, f: Field, parseInt: NumberParser, parseFloat: NumberParser)
    requires Get(form, f) != ""
    ensures f == TicketPrice ==>
      (FieldError(form, f, parseInt, parseFloat).Some? <==> AtMost(parseFloat(Get(form, f)), 0))
    ensures f == TotalTickets || f == MaxTicketCapacity ==>
      (FieldError(form, f, parseInt, parseFloat).Some? <==> AtMost(parseInt(Get(form, f)), 0))
    ensures f == CustomerRetrievalRate || f == TicketReleaseRate ==>
      (FieldError(form, f, parseInt, parseFloat).Some? <==> Below(parseFloat(Get(form, f)), 0))
  {
  }

  /** A non-empty number that does not parse (NaN) passes every rule. */
  lemma UnparsableNumberPasses(form: FormData, f: Field, parseInt: NumberParser, parseFloat: NumberParser)
    requires Get(form, f) != ""
    requires parseInt(Get(form, f)).None? && parseFloat(Get(form, f)).None?
    ensures FieldError(form, f, parseInt, parseFloat).None?
  {
  }

  /** The body of the POST. */
  datatype NewEvent = NewEvent(
    name: string,
    location: string,
    ticketPrice: Option<int>,
    totalTickets: Option<int>,
    description: string,
    maxTicketCapacity: Option<int>,
    customerRetrievalRate: Option<int>,
    ticketReleaseRate: Option<int>,
    date: string,
    imageUrl: string,
    time: string,
    started: bool)

  /** The event `handleFormSubmit` posts: text fields copied, numbers parsed. */
  function Payload(form: FormData, parseInt: NumberParser, parseFloat: NumberParser): (e: NewEvent)
    ensures !e.started
  {
    NewEvent(form.eventName, form.location, parseFloat(form.ticketPrice), parseInt(form.totalTickets),
             form.description, parseInt(form.maxTicketCapacity), parseFloat(form.customerRetrievalRate),
             parseFloat(form.ticketReleaseRate), form.date, form.imageUrl, form.time, false)
  }

  /** What validation guarantees of a posted event: no empty text, and each
      number either positive (price, totals) or non-negative (rates), or NaN. */
  lemma ValidPayload(form: FormData, parseInt: NumberParser, parseFloat: NumberParser)
    requires FormValid(form, parseInt, parseFloat)
    ensures var e := Payload(form, parseInt, parseFloat);
      e.name != "" && e.location != "" && e.description != "" && e.imageUrl != "" &&
      e.date != "" && e.time != "" &&
      (e.ticketPrice.None? || e.ticketPrice.value > 0) &&
      (e.totalTickets.None? || e.totalTickets.value > 0) &&
      (e.maxTicketCapacity.None? || e.maxTicketCapacity.value > 0) &&
      (e.customerRetrievalRate.None? || e.customerRetrievalRate.value >= 0) &&
      (e.ticketReleaseRate.None? || e.ticketReleaseRate.value >= 0)
  {
    assert FieldError(form, EventName, parseInt, parseFloat).None?;
    assert FieldError(form, Location, parseInt, parseFloat).None?;
    assert FieldError(form, Description, parseInt, parseFloat).None?;
    assert FieldError(form, ImageUrl, parseInt, parseFloat).None?;
    assert FieldError(form, Date, parseInt, parseFloat).None?;
    assert FieldError(form, Time, parseInt, parseFloat).None?;
    assert FieldError(form, TicketPrice, parseInt, parseFloat).None?;
    assert FieldError(form, TotalTickets, parseInt, parseFloat).None?;
    assert FieldError(form, MaxTicketCapacity, parseInt, parseFloat).None?;
    assert FieldError(form, CustomerRetrievalRate, parseInt, parseFloat).None?;
    assert FieldError(form, TicketReleaseRate, parseInt, parseFloat).None?;
  }

  /** The error map after typing into `f`: a set (non-empty) message under `f`
      is blanked, every other entry is kept. */
  function ClearError(errors: map<Field, string>, f: Field): (r: map<Field, string>)
    ensures r.Keys == errors.Keys
    ensures f in r ==> r[f] == ""
    ensures forall g :: g in errors && g != f ==> r[g] == errors[g]
  {
    if f in errors && errors[f] != "" then errors[f := ""] else errors
  }

  class EventCreationForm {
    var formData: FormData
    var errors: map<Field, string>
    var snackbar: Snackbar

    constructor ()
      ensures formData == EmptyForm && errors == map[]
      ensures snackbar == Snackbar(false, "", SuccessAlert)
    {
      formData := EmptyForm;
      errors := map[];
      snackbar := Snackbar(false, "", SuccessAlert);
    }

    /** `handleInputChange`: the named field takes the typed value and its
        error, if one is shown, is blanked. */
    method HandleInputChange(f: Field, v: string)
      modifies this
      ensures formData == Set(old(formData), f, v)
      ensures errors == ClearError(old(errors), f)
      ensures snackbar == old(snackbar)
    {
      formData := Set(formData, f, v);
      if f in errors && errors[f] != "" {
        errors := errors[f := ""];
      }
    }

    /** `validateForm`: stores the rule table's error map and reports whether it
        is empty. */
    method ValidateForm(parseInt: NumberParser, parseFloat: NumberParser) returns (ok: bool)
      modifies this
      ensures ok <==> FormValid(formData, parseInt, parseFloat)
      ensures forall f :: f in errors <==> FieldError(formData, f, parseInt, parseFloat).Some?
      ensures forall f :: f in errors ==> errors[f] == FieldError(formData, f, parseInt, parseFloat).value
      ensures formData == old(formData) && snackbar == old(snackbar)
    {
      var newErrors := BuildErrors(formData, parseInt, parseFloat);
      errors := newErrors;
      ok := |newErrors| == 0;
    }

    /** `handleFormSubmit`: nothing is posted when validation fails; otherwise
        the payload is posted and the outcome decides between a reset form with
        a success snackbar and the kept form with an error snackbar. */
    method HandleFormSubmit(parseInt: NumberParser, parseFloat: NumberParser, response: Response<()>)
      returns (posted: Option<NewEvent>)
      modifies this
      ensures posted.Some? <==> FormValid(old(formData), parseInt, parseFloat)
      ensures posted.Some? ==> posted.value == Payload(old(formData), parseInt, parseFloat)
      ensures posted.Some? ==> !posted.value.started
      ensures forall f :: f in errors <==> FieldError(old(formData), f, parseInt, parseFloat).Some?
      ensures forall f :: f in errors ==> errors[f] == FieldError(old(formData), f, parseInt, parseFloat).value
      ensures posted.None? ==> formData == old(formData) && snackbar == old(snackbar)
      ensures posted.Some? && response.Success? ==>
        formData == EmptyForm && snackbar == Snackbar(true, "Event created successfully!", SuccessAlert)
      ensures posted.Some? && response.Failure? ==>
        formData == old(formData) &&
        snackbar == Snackbar(true, "Failed to create event. Please try again.", ErrorAlert)
    {
      var ok := ValidateForm(parseInt, parseFloat);
      if !ok {
        posted := None;
        return;
      }
      var event := Payload(formData, parseInt, parseFloat);
      posted := Some(event);
      if response.Success? {
        formData := EmptyForm;
        snackbar := Snackbar(true, "Event created successfully!", SuccessAlert);
      } else {
        snackbar := Snackbar(true, "Failed to create event. Please try again.", ErrorAlert);
      }
    }
  }
}
