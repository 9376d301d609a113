/** Values shared by the views: optional values, the outcome of one HTTP request,
    snackbar severities and the event record the server returns. */
module Common {

  datatype Option<T> = None | Some(value: T)

  /** The outcome of one request to the event service: the response body on a 2xx
      answer, or a failure (network error or non-2xx status). */
  datatype Response<T> = Success(payload: T) | Failure

  /** The two severities a snackbar alert is shown with. */
  datatype Severity = SuccessAlert | ErrorAlert

  /** A snackbar notification as the creation forms keep it. */
  datatype Snackbar = Snackbar(open: bool, message: string, severity: Severity)

  /** A number parser as the browser provides it (`parseInt`, `parseFloat`):
      `None` stands for NaN. Prices are integers in minor currency units. */
  type NumberParser = string -> Option<int>

  /** An event as the server lists it. Numeric fields that the server may omit
      are optional; `None` is the missing (or falsy) value. */
  datatype Event = Event(
    id: string,
    name: string,
    location: string,
    date: string,
    totalTickets: Option<int>,
    soldTickets: Option<int>,
    availableTickets: Option<int>,
    ticketPrice: Option<int>,
    started: bool,
    completed: bool)

  function IsStarted(e: Event): bool { e.started }
  function IsCompleted(e: Event): bool { e.completed }

  /** `parseInt(x || "0")`: a missing number counts as zero. */
  function OrZero(o: Option<int>): int
  {
    match o
    case None => 0
    case Some(v) => v
  }
}
