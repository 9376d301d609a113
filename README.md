# Ticketing front end: a verified model of its state handling

This project models the browser side of an event-ticketing system in Dafny. The model covers:

- **Log-stream client.** The push-channel client holds one nullable socket and an ordered list of listener callbacks. It can connect, dispatch an inbound frame, subscribe, unsubscribe and disconnect.
- **Ticket-log terminal.** It subscribes on mount, appends each delivered log line, can be cleared, and unsubscribes and disconnects on unmount.
- **Vendor event table.** It keeps a private copy of the event list. The list is replaced by the initial fetch and edited by the start and delete actions. The table also shows a status chip and a start button for each row.
- **Purchase dialog.** It keeps a ticket count and a matching total price, and builds the purchase request from them.
- **Vendor dashboard.** It computes three totals from every fetch and shows lifecycle counts.
- **Customer dashboard.** It shows only started events, and a purchase there is followed by a re-fetch.
- **Full event-creation form.** It has eleven fields, a rule table that yields a field-to-message error map, and a submit that posts the parsed event and resets the form.
- **Short event-creation form.** It has five fields and checks that none is empty. It posts the event and passes the server's answer to an optional callback, with the numbers written back as text.

How the browser's side effects are modelled:

- **Component state.** A component's state becomes a Dafny `class`. Its handlers become methods that modify that state.
- **Requests.** Every HTTP request becomes a parameter of type `Response<T>`, which is either `Success(payload)` or `Failure`. `Failure` stands for both a network error and a non-2xx status.
- **Parsing.** `JSON.parse`, `parseInt` and `parseFloat` become function parameters. For `parseInt` and `parseFloat`, `None` stands for NaN.
- **Listeners.** A listener callback is represented by its identity, a `nat`. JavaScript's `!==` on functions is equality of these identities.
- **Money.** Prices and revenue are integers in minor currency units.

Modules:

| file | module | source |
|---|---|---|
| `common.dfy` | `Common` | values shared by the views |
| `sequences.dfy` | `Sequences` | `Array.prototype.filter` and its laws |
| `decimal.dfy` | `Decimal` | `Number.prototype.toString` on integers and its inverse |
| `log_stream.dfy` | `LogStream` | `src/service/WebSocketService.ts` |
| `terminal_log.dfy` | `TerminalLog` | `src/dashboards/TerminalLog.tsx` |
| `event_table.dfy` | `EventTable` | `src/dashboards/EventTable.tsx` |
| `event_details_modal.dfy` | `EventDetailsModal` | `src/dashboards/EventDetailsModal.tsx` |
| `vendor_dashboard.dfy` | `VendorDashboard` | `src/dashboards/VendorDashboard.tsx` |
| `customer_dashboard.dfy` | `CustomerDashboard` | `src/dashboards/CustomerDashboard.tsx` |
| `dashboard_event_creation.dfy` | `DashboardEventCreation` | `src/dashboards/EventCreation.tsx` |
| `event_creation.dfy` | `EventCreation` | `src/events/EventCreation.tsx` |

`validateForm` in the full creation form is eleven `if` statements that each store one message. `DashboardEventCreation.BuildErrors` performs them in the same order. Each one is a call to `ApplyRule`, which applies the rule of one field as the rule table `FieldError` states it. This keeps the proof of each step separate from the others.

## Model

| member | source | states |
|---|---|---|
| LogStream.WebSocketService.constructor | src/service/WebSocketService.ts:8-12 | a new client holds no socket and no listeners |
| LogStream.WebSocketService.Connect | src/service/WebSocketService.ts:14-20 | a socket that is already held is kept; otherwise a fresh open socket to the client's URL is held; the listener list is unchanged |
| LogStream.WebSocketService.OnMessage | src/service/WebSocketService.ts:26-34 | a frame that does not parse reaches no listener; a parsed frame is delivered exactly once to each listener entry, in list order, duplicates included |
| LogStream.WebSocketService.OnClose | src/service/WebSocketService.ts:40-43 | the close handler clears the handle whichever socket closed; listeners are unchanged |
| LogStream.WebSocketService.OnCloseOfCurrent | src/service/WebSocketService.ts:40-43 | corrected close handler: only the close of the socket currently held clears the handle |
| LogStream.WebSocketService.AddListener | src/service/WebSocketService.ts:46-48 | the callback is appended at the end; duplicates are kept; the socket is untouched |
| LogStream.WebSocketService.RemoveListener | src/service/WebSocketService.ts:50-52 | the new list is the old one with every entry equal to the callback removed |
| LogStream.WebSocketService.Disconnect | src/service/WebSocketService.ts:54-59 | a held socket is closed and forgotten; with none held nothing happens; listeners are unchanged |
| LogStream.Socket.Close | src/service/WebSocketService.ts:56 | a closed socket is marked closed |
| LogStream.StaleCloseOrphansLiveSocket | src/service/WebSocketService.ts:40-43 | connect, disconnect, connect, then the first socket's close event: the client holds no socket although the second one is still open |
| LogStream.StaleCloseKeepsLiveSocket | src/service/WebSocketService.ts:40-43 | the same sequence with the corrected handler leaves the open socket held |
| Sequences.Filter | src/dashboards/EventTable.tsx:78 | the result is no longer than the input and every element satisfies the predicate |
| Sequences.Without | src/service/WebSocketService.ts:51 | the removed value no longer occurs and the list does not grow |
| Sequences.Only | src/service/WebSocketService.ts:33 | the entries equal to one value; `TerminalLog.TicketLogs.Receive` counts with it the deliveries of this `forEach` that reach the view's callback |
| Sequences.FilterIsSubsequence | src/dashboards/EventTable.tsx:78 | the kept elements appear in their original relative order |
| Sequences.FilterMultiplicity | src/dashboards/CustomerDashboard.tsx:59-61 | each kept value keeps its multiplicity; each dropped value has none |
| Sequences.FilterMembership | src/dashboards/CustomerDashboard.tsx:59-61 | a value is in the result exactly when it is in the input and satisfies the predicate |
| Sequences.FilterAppend | src/service/WebSocketService.ts:33 | filtering distributes over concatenation; it is the step of `TerminalLog.TicketLogs.Receive`'s loop over this `forEach` |
| Sequences.FilterKeepsAll | src/dashboards/CustomerDashboard.tsx:59-61 | a list whose elements all pass is unchanged |
| Sequences.FilterDropsAll | src/service/WebSocketService.ts:51 | a list whose elements all fail becomes empty; `WithoutAppended` uses it on the appended callback |
| Sequences.FilterIdempotent | src/dashboards/CustomerDashboard.tsx:59-61 | filtering twice by the same predicate equals filtering once |
| Sequences.FilterExtensional | src/dashboards/EventTable.tsx:78 | predicates that agree on the list's elements filter it alike; `EventTable.DeleteEventKeepsOthers` uses it to count the deleted rows |
| Sequences.FilterPartition | src/dashboards/VendorDashboard.tsx:198-219 | a predicate and its negation split the list: the two lengths add up to the whole |
| Sequences.FilterWeaker | src/dashboards/VendorDashboard.tsx:219-240 | a predicate implied by another keeps at least as many elements |
| Sequences.WithoutLength | src/service/WebSocketService.ts:51 | removing a callback shortens the list by exactly its number of entries |
| Sequences.WithoutAbsent | src/service/WebSocketService.ts:51 | removing an absent callback leaves the list unchanged |
| Sequences.WithoutKeepsOthers | src/service/WebSocketService.ts:51 | every other callback keeps its multiplicity and order |
| Sequences.WithoutAppended | src/service/WebSocketService.ts:51 | removing a callback just appended equals removing it from the list before the append |
| TerminalLog.TicketLogs.constructor | src/dashboards/TerminalLog.tsx:6 | the terminal starts with no log lines |
| TerminalLog.TicketLogs.Mount | src/dashboards/TerminalLog.tsx:9-20 | connects first, then subscribes: afterwards a socket is held (the existing one if there was one) and the view's callback is the last listener |
| TerminalLog.TicketLogs.HandleUpdate | src/dashboards/TerminalLog.tsx:12-18 | the record's `logMessage` is appended; earlier lines stay as a prefix |
| TerminalLog.TicketLogs.HandleClearLogs | src/dashboards/TerminalLog.tsx:34-36 | the log becomes empty |
| TerminalLog.TicketLogs.Unmount | src/dashboards/TerminalLog.tsx:22-25 | unsubscribes the same callback, then disconnects: the socket that was held is closed, no socket is held, and every entry of the callback is gone |
| TerminalLog.TicketLogs.Receive | src/dashboards/TerminalLog.tsx:12-20 | a frame that does not parse adds nothing; a parsed frame appends its line once per entry of this view's callback in the listener list |
| TerminalLog.MountUnmountRestoresListeners | src/dashboards/TerminalLog.tsx:9-26 | mounting then unmounting a view whose callback was not registered gives back the listener list exactly |
| EventTable.StartEvent | src/dashboards/EventTable.tsx:61-65 | same length; an event is started afterwards exactly when it was started before or has the id; every other field is unchanged |
| EventTable.MarkStarted | src/dashboards/EventTable.tsx:63 | an event is started afterwards exactly when it was started before or has the id; every other field is unchanged |
| EventTable.DeleteEvent | src/dashboards/EventTable.tsx:78 | no remaining event has the deleted id |
| EventTable.StartEventIdempotent | src/dashboards/EventTable.tsx:61-65 | starting the same id twice gives the list that starting it once gives |
| EventTable.StartEventMonotone | src/dashboards/EventTable.tsx:61-65 | a start never un-starts an event and never changes `completed` |
| EventTable.DeleteEventKeepsOthers | src/dashboards/EventTable.tsx:78 | every event with another id keeps its multiplicity and order; the list shrinks by exactly the number of events with the id |
| EventTable.DeleteAbsentId | src/dashboards/EventTable.tsx:78 | deleting an id that no event has changes nothing |
| EventTable.StatusLabel | src/dashboards/EventTable.tsx:169-175 | "Completed" exactly when completed; "In Progress" exactly when started and not completed; "Yet to Start" exactly when neither |
| EventTable.StartDisabled | src/dashboards/EventTable.tsx:184 | the start button is disabled exactly on rows whose chip reads "In Progress" or "Completed" |
| EventTable.StartEnabledIffYetToStart | src/dashboards/EventTable.tsx:169-184 | the start button is enabled exactly on rows whose chip reads "Yet to Start" |
| EventTable.StartedRowsDisabled | src/dashboards/EventTable.tsx:56-70 | after a start, every row with that id has its start button disabled and no longer reads "Yet to Start" |
| EventTable.EventTableView.constructor | src/dashboards/EventTable.tsx:39-41 | empty list, closed snackbar, empty message |
| EventTable.EventTableView.OnInitialFetch | src/dashboards/EventTable.tsx:44-53 | a response replaces the list wholesale; a failure changes nothing |
| EventTable.EventTableView.HandleStartEvent | src/dashboards/EventTable.tsx:56-70 | on success the list becomes the started list; on failure it is unchanged; the snackbar is never touched |
| EventTable.EventTableView.HandleDeleteEvent | src/dashboards/EventTable.tsx:73-89 | on success the rows with the id disappear and "Event deleted successfully" is shown; on failure the list is kept and "Error deleting event" is shown; the snackbar opens either way |
| EventDetailsModal.InitialTickets | src/dashboards/EventDetailsModal.tsx:47-49 | the initial count (one) and total (one unit price) are consistent |
| EventDetailsModal.UpdatedTickets | src/dashboards/EventDetailsModal.tsx:56-63 | a count of at least one is taken, with total = count × price; a smaller count leaves the state as it was |
| EventDetailsModal.ReachableConsistent | src/dashboards/EventDetailsModal.tsx:56-63 | while the unit price stays the same, after any sequence of requested counts the count is at least one and the total is count × price |
| EventDetailsModal.ReplayCountIsLastAccepted | src/dashboards/EventDetailsModal.tsx:56-63 | the count shown is the last requested count that was at least one |
| EventDetailsModal.ReplayNoneAccepted | src/dashboards/EventDetailsModal.tsx:56-63 | if no requested count was at least one, the state is still the initial one |
| EventDetailsModal.DecrementAtOneKeepsOne | src/dashboards/EventDetailsModal.tsx:183 | the "-" button at one ticket leaves the state unchanged |
| EventDetailsModal.Request | src/dashboards/EventDetailsModal.tsx:66-76 | the posted count and total are those kept in the state, and id, title and user name come from the current props; when the state matches the event shown, the count is at least one and the total is count × its unit price |
| EventDetailsModal.ThreeTicketsAtOneThousand | src/dashboards/EventDetailsModal.tsx:56-76 | three tickets at 1000 post a total of 3000; a request for zero tickets is ignored |
| EventDetailsModal.EventDetailsDialog.constructor | src/dashboards/EventDetailsModal.tsx:45-54 | one ticket at the unit price, closed success snackbar with an empty message |
| EventDetailsModal.EventDetailsDialog.ReceiveProps | src/dashboards/EventCardList.tsx:131-145 | a re-render of the mounted dialog with other props changes only the props; the ticket state and snackbar are kept |
| EventDetailsModal.EventDetailsDialog.ReceivePropsResetting | src/dashboards/EventCardList.tsx:131-145 | corrected props update: a different event restarts the ticket state at one ticket at its price, so the state always matches the event shown |
| EventDetailsModal.EventDetailsDialog.UpdateTicketCount | src/dashboards/EventDetailsModal.tsx:56-63 | the guarded setter computes the total from the unit price of the event shown at the time; an accepted count makes the state match that event, and a state that matched keeps matching; props and snackbar are untouched |
| EventDetailsModal.EventDetailsDialog.HandlePurchase | src/dashboards/EventDetailsModal.tsx:65-93 | posts the request built from the current state and props; success shows the server's text and calls `onClose`; failure shows the fixed error text; the ticket state and props never change |
| EventDetailsModal.StaleTotalAfterReselect | src/dashboards/EventCardList.tsx:131-145 | opening an event at 1000, then one at 500, and purchasing posts the second event's id with a total of 1000 for one ticket; the state no longer matches the event shown |
| EventDetailsModal.FreshTotalAfterReselect | src/dashboards/EventCardList.tsx:131-145 | the same sequence with the corrected props update posts a total of 500, the second event's price, and the state matches the event shown |
| VendorDashboard.YetToStartCount | src/dashboards/VendorDashboard.tsx:198 | the "Yet to Start" count is at most the number of events |
| VendorDashboard.InProgressCount | src/dashboards/VendorDashboard.tsx:219 | the "In Progress" count is at most the number of events |
| VendorDashboard.CompletedCount | src/dashboards/VendorDashboard.tsx:240 | the "Completed" count is at most the number of events |
| VendorDashboard.TotalTickets | src/dashboards/VendorDashboard.tsx:85-89 | "Total Tickets" is never negative when no event's count is, and is zero when every count is missing |
| VendorDashboard.TicketsSold | src/dashboards/VendorDashboard.tsx:90-94 | "Tickets Sold" is never negative when no event's sold count is, and is zero when every sold count is missing |
| VendorDashboard.TotalRevenue | src/dashboards/VendorDashboard.tsx:95-101 | the revenue is never negative when no sold count or price is, and is zero when each event lacks its sold count or its price |
| VendorDashboard.SumByNonNegative | src/dashboards/VendorDashboard.tsx:85-101 | non-negative contributions give a non-negative reduce |
| VendorDashboard.SumByMissing | src/dashboards/VendorDashboard.tsx:85-101 | contributions that are all zero give a zero reduce |
| VendorDashboard.SumByAppend | src/dashboards/VendorDashboard.tsx:85-101 | the reduce over a concatenation is the sum of the reduces |
| VendorDashboard.SumByCons | src/dashboards/VendorDashboard.tsx:85-101 | the reduce is the first event's contribution plus the reduce of the rest |
| VendorDashboard.SumByMonotone | src/dashboards/VendorDashboard.tsx:85-101 | smaller contributions per event give a smaller total |
| VendorDashboard.SumByZero | src/dashboards/VendorDashboard.tsx:85-101 | events that contribute nothing give a zero total |
| VendorDashboard.TicketsSoldAtMostTotal | src/dashboards/VendorDashboard.tsx:85-94 | if every event has sold no more than it has, "Tickets Sold" is at most "Total Tickets" |
| VendorDashboard.NothingSoldNoRevenue | src/dashboards/VendorDashboard.tsx:90-101 | events with no sold count give zero tickets sold and zero revenue |
| VendorDashboard.LifecyclePartition | src/dashboards/VendorDashboard.tsx:198-219 | "Yet to Start" plus "In Progress" equals the number of events (the "Total Events" metric at line 143) |
| VendorDashboard.CompletedAtMostInProgress | src/dashboards/VendorDashboard.tsx:219-240 | when completed implies started, "Completed" is at most "In Progress" |
| VendorDashboard.VendorDashboardView.constructor | src/dashboards/VendorDashboard.tsx:47-50 | empty list and zero totals, which match it |
| VendorDashboard.VendorDashboardView.FetchEvents | src/dashboards/VendorDashboard.tsx:77-109 | a response replaces the list and the three totals always describe the list on show; a failure changes nothing |
| CustomerDashboard.StartedOnly | src/dashboards/CustomerDashboard.tsx:59-61 | only started events are kept, and the list does not grow |
| CustomerDashboard.StartedOnlyExact | src/dashboards/CustomerDashboard.tsx:59-61 | every started event keeps its multiplicity and response order; unstarted ones are gone |
| CustomerDashboard.StartedOnlyStable | src/dashboards/CustomerDashboard.tsx:59-61 | a list of started events is kept as it is |
| CustomerDashboard.PurchaseButton | src/dashboards/CustomerDashboard.tsx:120-132 | the button is enabled exactly when available tickets are known and positive; it reads "Purchase Ticket" when enabled and "Sold Out" otherwise |
| CustomerDashboard.StatusText | src/dashboards/CustomerDashboard.tsx:116 | the card reads "Ongoing" exactly for started events and "Not Started" otherwise |
| CustomerDashboard.FetchedAllOngoing | src/dashboards/CustomerDashboard.tsx:116 | every card of a fetched list reads "Ongoing" |
| CustomerDashboard.CustomerDashboardView.constructor | src/dashboards/CustomerDashboard.tsx:42-47 | empty list, closed success snackbar |
| CustomerDashboard.CustomerDashboardView.FetchEvents | src/dashboards/CustomerDashboard.tsx:56-66 | a response replaces the list with its started events; a failure changes nothing; only started events are ever on show |
| CustomerDashboard.CustomerDashboardView.HandlePurchaseTicket | src/dashboards/CustomerDashboard.tsx:73-88 | success shows the success text and re-fetches; failure shows the error text and does not re-fetch |
| Decimal.NatToString | src/events/EventCreation.tsx:84-85 | at least one digit, only digits, no leading zero |
| Decimal.IntToString | src/events/EventCreation.tsx:84-85 | never empty |
| Decimal.NatToStringRoundTrip | src/events/EventCreation.tsx:84-85 | reading the digits back gives the number |
| Decimal.IntToStringRoundTrip | src/events/EventCreation.tsx:84-85 | reading the decimal text back gives the integer, sign included |
| DashboardEventCreation.Set | src/dashboards/EventCreation.tsx:50-53 | the named field takes the value, every other field and `started` are unchanged |
| DashboardEventCreation.ClearError | src/dashboards/EventCreation.tsx:55-60 | the same keys; the typed field's message is blanked; every other message is kept |
| DashboardEventCreation.FieldError | src/dashboards/EventCreation.tsx:82-97 | the rule table: an empty field always has a message, and a message stored for a failing rule is never blank |
| DashboardEventCreation.ApplyRule | src/dashboards/EventCreation.tsx:81-97 | one rule line: after it, the map holds exactly the failing fields among those checked so far, with their messages |
| DashboardEventCreation.AllChecked | src/dashboards/EventCreation.tsx:99-102 | once all eleven rules ran, the keys are exactly the failing fields and the map is empty exactly when no rule fires |
| DashboardEventCreation.BuildErrors | src/dashboards/EventCreation.tsx:64-102 | the error map has exactly the failing fields as keys, each with its rule's message, and is empty exactly when the form is valid |
| DashboardEventCreation.EmptyFieldFlagged | src/dashboards/EventCreation.tsx:81-97 | an empty field always gets an error |
| DashboardEventCreation.TextFieldFlaggedIffEmpty | src/dashboards/EventCreation.tsx:81-84 | name, location, image URL, description, date and time get an error exactly when empty |
| DashboardEventCreation.NumericBounds | src/dashboards/EventCreation.tsx:85-94 | a non-empty price, ticket total or capacity is flagged exactly when it parses to at most zero; a non-empty rate is flagged exactly when it parses below zero |
| DashboardEventCreation.UnparsableNumberPasses | src/dashboards/EventCreation.tsx:85-94 | a non-empty field that parses to NaN passes its rule |
| DashboardEventCreation.Payload | src/dashboards/EventCreation.tsx:112-125 | the posted event is never started |
| DashboardEventCreation.ValidPayload | src/dashboards/EventCreation.tsx:105-125 | a posted event has no empty text; price, totals and capacity are positive or NaN; rates are non-negative or NaN |
| DashboardEventCreation.EventCreationForm.constructor | src/dashboards/EventCreation.tsx:26-46 | all fields empty, no errors, closed success snackbar |
| DashboardEventCreation.EventCreationForm.HandleInputChange | src/dashboards/EventCreation.tsx:50-62 | the field takes the value and its shown error is blanked; the snackbar is untouched |
| DashboardEventCreation.EventCreationForm.ValidateForm | src/dashboards/EventCreation.tsx:64-103 | stores the rule table's error map (exactly the failing fields, each with its rule's message) and returns true exactly when the form is valid |
| DashboardEventCreation.EventCreationForm.HandleFormSubmit | src/dashboards/EventCreation.tsx:105-165 | the stored error map has exactly the failing fields, each with its rule's message; an invalid form posts nothing; a valid one posts the parsed payload; success resets the form and shows the success text; failure keeps the form and shows the error text |
| EventCreation.Set | src/events/EventCreation.tsx:49-54 | the named field takes the value, the other four are unchanged |
| EventCreation.AllFilled | src/events/EventCreation.tsx:60 | the guard passes exactly when no field is empty |
| EventCreation.Request | src/events/EventCreation.tsx:71-77 | the form's name field is sent as `name`; location and date pass through; the price and ticket total are the parsed texts |
| EventCreation.FilledFormRequest | src/events/EventCreation.tsx:60-77 | a request sent from a filled form has non-empty name, location and date |
| EventCreation.Added | src/events/EventCreation.tsx:80-88 | built exactly when both numbers are present; text fields are copied; reading the number texts back gives the server's numbers |
| EventCreation.EventCreationView.constructor | src/events/EventCreation.tsx:33-45 | all five fields empty, closed success snackbar |
| EventCreation.EventCreationView.HandleInputChange | src/events/EventCreation.tsx:49-54 | only the named field changes |
| EventCreation.EventCreationView.HandleFormSubmit | src/events/EventCreation.tsx:56-115 | an empty field gives the fill-out error and no request; otherwise the request is posted; the callback is called only when supplied and the answer converts; full success resets all five fields with the success text; any failure keeps the form with the error text |
| EventCreation.ResetFormIsNotSubmittable | src/events/EventCreation.tsx:91-97 | the reset form fails the guard, so a second submit posts nothing |

## Left out

- Rendering (layout, icons, styles, date formatting), the side navigation and the other components under `src/common` are not modelled. The same holds for `App.tsx` routing, `src/api/eventApi.ts` and `src/utils/axiosInstance.ts`.
- Request URLs and HTTP verbs are left out. Each request is reduced to its outcome, a `Response` parameter. In the customer dashboard's purchase, the event id only chooses the URL and does not appear in the model. The event table's start and delete actions do use the id, to pick the rows they change.
- Timers are not modelled: the customer dashboard's five-second polling, the navigation `setTimeout` after a creation, and the terminal's auto-scroll effect.
- The socket's `onopen` and `onerror` handlers only log, and are not modelled. The transport is reduced to a `Socket` object that can be closed.
- Asynchronous interleaving is not modelled. Every handler runs to completion before the next one. In particular, the customer dashboard's re-fetch after a purchase is not awaited in the source but takes effect at once here.
- Floating-point numbers are not modelled. Prices, rates and revenue are integers, and `parseFloat` and `parseInt` are parameters. A fractional count typed into the purchase dialog is not modelled.
- VendorDashboard.TotalRevenue: NaN arithmetic is left out. A sold count or price that does not parse counts as 0 here, where `parseFloat` would make the whole sum NaN.
- VendorDashboard.TotalTickets: NaN arithmetic is left out. The event's `totalTickets` is a string, and one that `parseInt` cannot read would make the sum NaN; here every present count is an integer.
- VendorDashboard.TicketsSold: NaN arithmetic is left out, for the same reason: a `soldTickets` string that `parseInt` cannot read would make the sum NaN.
- LogStream.WebSocketService.OnMessage: a frame that parses to something other than a record with a `logMessage` field is not modelled.
- LogStream.WebSocketService.OnMessage: a listener that throws, which would stop the `forEach`, is not modelled.
- DashboardEventCreation.Payload: the contract states only that the event is not started. The field-by-field copy is the function's definition, and `ValidPayload` states what validation guarantees about it.
- Decimal.IntToString: JavaScript writes integers of magnitude 10^21 or more in exponent notation ("1e+21"); `IntToString` always writes every digit, so the two texts differ for such numbers.
- `console.log` calls and the snackbar close handlers are not modelled.
- `localStorage` (the user name passed to the purchase dialog) is not modelled. The user name is a prop, given to the constructor and to `ReceiveProps`.
- The event list around the purchase dialog (`src/dashboards/EventCardList.tsx`) is not part of this model beyond what `ReceiveProps` takes from it: the selected event is passed as new props to the one dialog it keeps mounted. Its only caller, src/dashboards/VendorDashboard.tsx:251, passes no `events`, so the stale-total sequence of the second finding needs a caller that does.

## Findings

| source | as written | input that shows it | evidently intended | confidence | as-written member | corrected member |
|---|---|---|---|---|---|---|
| src/service/WebSocketService.ts:40-43 | the `onclose` handler of every socket sets `this.socket = null`, whichever socket is currently held | `connect()`, `disconnect()`, `connect()`, then the first socket's close event arrives: the client forgets the second, still-open socket, so a later `connect()` opens a third one and `disconnect()` cannot close the second | only the close of the socket currently held clears the handle | medium, not executed | LogStream.StaleCloseOrphansLiveSocket | LogStream.StaleCloseKeepsLiveSocket |
| src/dashboards/EventCardList.tsx:131-145 | the event list renders one purchase dialog with no `key`, so selecting another event only passes new props; the dialog keeps its `ticketCount` and `totalPrice`, and `handlePurchase` (src/dashboards/EventDetailsModal.tsx:66-76) posts the old total with the new event's id | with a caller that passes `events`: open an event priced 1000, close the dialog, open an event priced 500, press Purchase: the request is one ticket of the second event with a total of 1000. The only caller in this repository, src/dashboards/VendorDashboard.tsx:251, renders the list without `events`, so its render throws at src/dashboards/EventCardList.tsx:70 before any dialog opens | a dialog opened for another event starts at one ticket at that event's price, as a remount (`key={selectedEvent.id}`) would give | low, not executed | EventDetailsModal.StaleTotalAfterReselect | EventDetailsModal.FreshTotalAfterReselect |
