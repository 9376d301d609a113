/** The vendor's event table (`EventTable`): its own copy of the event list,
    replaced by the initial fetch and edited by the start and delete actions, and
    the status chip and start-button state it renders for each row. */
module EventTable {
  import opened Common
  import opened Sequences

  /** The predicate "has id `id`" (`event.id === eventId`). */
  function HasId(id: string): Event -> bool
  {
    (e: Event) => e.id == id
  }

  /** `{ ...event, started: true }` for the matching id, the event itself otherwise. */
  function MarkStarted(e: Event, id: string): (r: Event)
    ensures r.started <==> e.started || e.id == id
    ensures r == e.(started := r.started)
  {
    if e.id == id then e.(started := true) else e
  }

  /** The list after a successful start: `prevEvents.map(...)`. */
  function StartEvent(events: seq<Event>, id: string): (r: seq<Event>)
    ensures |r| == |events|
    ensures forall i :: 0 <= i < |events| ==>
      r[i].started == (events[i].started || events[i].id == id) &&
      r[i] == events[i].(started := r[i].started)
  {
    if events == [] then []
    else [MarkStarted(events[0], id)] + StartEvent(events[1..], id)
  }

  /** The list after a successful delete: `prevEvents.filter(e => e.id !== id)`. */
  function DeleteEvent(events: seq<Event>, id: string): (r: seq<Event>)
    ensures forall i :: 0 <= i < |r| ==> r[i].id != id
  {
    Filter(events, Not(HasId(id)))
  }

  /** Starting the same id twice gives the list that starting it once gives. */
  lemma {:induction false} StartEventIdempotent(events: seq<Event>, id: string)
    ensures StartEvent(StartEvent(events, id), id) == StartEvent(events, id)
  {
    if events != [] {
      StartEventIdempotent(events[1..], id);
    }
  }

  /** A start only ever raises `started`: no event is un-started, and the
      `completed` flags are exactly as before. */
  lemma StartEventMonotone(events: seq<Event>, id: string, i: nat)
    requires i < |events|
    ensures events[i].started ==> StartEvent(events, id)[i].started
    ensures StartEvent(events, id)[i].completed == events[i].completed
  {
  }

  /** A delete keeps every other event with its multiplicity and order, and the
      list shrinks by exactly the number of events that had the id. */
  lemma DeleteEventKeepsOthers(events: seq<Event>, id: string, e: Event)
    requires e.id != id
    ensures multiset(DeleteEvent(events, id))[e] == multiset(events)[e]
    ensures IsSubsequence(DeleteEvent(events, id), events)
    ensures |DeleteEvent(events, id)| == |events| - |Filter(events, HasId(id))|
  {
    FilterMultiplicity(events, Not(HasId(id)), e);
    FilterIsSubsequence(events, Not(HasId(id)));
    FilterPartition(events, HasId(id));
    FilterExtensional(events, Not(Not(HasId(id))), HasId(id));
  }

  /** Deleting an id that no event has changes nothing. */
  lemma DeleteAbsentId(events: seq<Event>, id: string)
    requires forall i :: 0 <= i < |events| ==> events[i].id != id
    ensures DeleteEvent(events, id) == events
  {
    FilterKeepsAll(events, Not(HasId(id)));
  }

  /** The status chip's label. */
  function StatusLabel(e: Event): (chip: string)
    ensures chip == "Completed" <==> e.completed
    ensures chip == "In Progress" <==> !e.completed && e.started
    ensures chip == "Yet to Start" <==> !e.completed && !e.started
  {
    if e.completed then "Completed"
    else if e.started then "In Progress"
    else "Yet to Start"
  }

  /** Whether the row's start button is disabled: exactly the rows whose chip
      reads "In Progress" or "Completed". */
  function StartDisabled(e: Event): (d: bool)
    ensures d <==> StatusLabel(e) == "In Progress" || StatusLabel(e) == "Completed"
  {
    e.started || e.completed
  }

  /** The start button is enabled exactly on rows labelled "Yet to Start". */
  lemma StartEnabledIffYetToStart(e: Event)
    ensures !StartDisabled(e) <==> StatusLabel(e) == "Yet to Start"
  {
  }

  /** After a successful start no row with that id can be started again. */
  lemma StartedRowsDisabled(events: seq<Event>, id: string, i: nat)
    requires i < |events| && events[i].id == id
    ensures StartDisabled(StartEvent(events, id)[i])
    ensures StatusLabel(StartEvent(events, id)[i]) != "Yet to Start"
  {
  }

  /** The component state that the handlers change. */
  class EventTableView {
    var fetchedEvents: seq<Event>
    var snackbarOpen: bool
    var snackbarMessage: string

    constructor ()
      ensures fetchedEvents == [] && !snackbarOpen && snackbarMessage == ""
    {
      fetchedEvents := [];
      snackbarOpen := false;
      snackbarMessage := "";
    }

    /** The mount-time fetch: the response replaces the list wholesale; a
        failure is only logged. */
    method OnInitialFetch(response: Response<seq<Event>>)
      modifies this
      ensures response.Success? ==> fetchedEvents == response.payload
      ensures response.Failure? ==> fetchedEvents == old(fetchedEvents)
      ensures snackbarOpen == old(snackbarOpen) && snackbarMessage == old(snackbarMessage)
    {
      if response.Success? {
        fetchedEvents := response.payload;
      }
    }

    /** `handleStartEvent`: on success the matching rows are marked started; a
        failure is only logged. */
    method HandleStartEvent(id: string, response: Response<()>)
      modifies this
      ensures response.Success? ==> fetchedEvents == StartEvent(old(fetchedEvents), id)
      ensures response.Failure? ==> fetchedEvents == old(fetchedEvents)
      ensures snackbarOpen == old(snackbarOpen) && snackbarMessage == old(snackbarMessage)
    {
      if response.Success? {
        fetchedEvents := StartEvent(fetchedEvents, id);
      }
    }

    /** `handleDeleteEvent`: on success the rows with that id disappear; either
        way the snackbar opens with the outcome. */
    method HandleDeleteEvent(id: string, response: Response<()>)
      modifies this
      ensures response.Success? ==> fetchedEvents == DeleteEvent(old(fetchedEvents), id)
      ensures response.Success? ==> snackbarMessage == "Event deleted successfully"
      ensures response.Failure? ==> fetchedEvents == old(fetchedEvents)
      ensures response.Failure? ==> snackbarMessage == "Error deleting event"
      ensures snackbarOpen
    {
      if response.Success? {
        fetchedEvents := DeleteEvent(fetchedEvents, id);
        snackbarMessage := "Event deleted successfully";
      } else {
        snackbarMessage := "Error deleting event";
      }
      snackbarOpen := true;
    }
  }
}
