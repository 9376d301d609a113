/** The ticket-log terminal view (`TicketLogs`): it subscribes one callback to the
    log-stream client on mount, appends each delivered `logMessage` to its `logs`,
    can clear them, and unsubscribes and disconnects on unmount. */
module TerminalLog {
  import opened Sequences
  import opened LogStream

  class TicketLogs {
    const service: WebSocketService
    /** The identity of this mount's `handleUpdate` callback. */
    const handler: ListenerId
    var logs: seq<string>

    constructor (service: WebSocketService, handler: ListenerId)
      ensures this.service == service && this.handler == handler
      ensures logs == []
    {
      this.service := service;
      this.handler := handler;
      logs := [];
    }

    /** The mount effect: connect first, then subscribe `handleUpdate`. */
    method Mount()
      modifies service
      ensures service.socket != null
      ensures old(service.socket) != null ==> service.socket == old(service.socket)
      ensures old(service.socket) == null ==> fresh(service.socket)
      ensures service.listeners == old(service.listeners) + [handler]
    {
      service.Connect();
      service.AddListener(handler);
    }

    /** `handleUpdate`: the record's `logMessage` becomes the last log line. */
    method HandleUpdate(message: LogRecord)
      modifies this
      ensures logs == old(logs) + [message.logMessage]
    {
      logs := logs + [message.logMessage];
    }

    /** `handleClearLogs`. */
    method HandleClearLogs()
      modifies this
      ensures logs == []
    {
      logs := [];
    }

    /** The unmount clean-up: unsubscribe the same callback, then disconnect. */
    method Unmount()
      modifies service, service.socket
      ensures old(service.socket) != null ==> old(service.socket).closed
      ensures service.socket == null
      ensures service.listeners == Without(old(service.listeners), handler)
    {
      service.RemoveListener(handler);
      service.Disconnect();
    }

    /** One inbound frame: the client dispatches it to every listener and this
        view's callback runs once per entry of it in the list. Other callbacks
        are outside this view. */
    method Receive(frame: string, parse: FrameParser)
      modifies this
      ensures parse(frame).None? ==> logs == old(logs)
      ensures parse(frame).Some? ==>
        logs == old(logs) + seq(|Only(service.listeners, handler)|, _ => parse(frame).value.logMessage)
    {
      var deliveries := service.OnMessage(frame, parse);
      if parse(frame).None? {
        return;
      }
      ghost var line := parse(frame).value.logMessage;
      ghost var listeners := service.listeners;
      var i := 0;
      while i < |deliveries|
        invariant 0 <= i <= |deliveries| == |listeners|
        invariant service.listeners == listeners
        invariant logs == old(logs) + seq(|Only(listeners[..i], handler)|, _ => line)
      {
        assert listeners[..i + 1] == listeners[..i] + [listeners[i]];
        FilterAppend(listeners[..i], [listeners[i]], Equals(handler));
        if deliveries[i].listener == handler {
          HandleUpdate(deliveries[i].message);
        }
        i := i + 1;
      }
      assert listeners[..i] == listeners;
    }
  }

  /** Mounting and then unmounting a view whose callback was not yet registered
      gives the listener list back exactly as it was before the mount. */
  lemma MountUnmountRestoresListeners(before: seq<ListenerId>, handler: ListenerId)
    requires handler !in before
    ensures Without(before + [handler], handler) == before
  {
    WithoutAppended(before, handler);
    WithoutAbsent(before, handler);
  }
}
