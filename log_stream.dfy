/** The push-channel log client (`WebSocketService`): a nullable socket handle and
    an ordered list of listener callbacks. The WebSocket transport is reduced to a
    `Socket` object that can be closed; `JSON.parse` is a parameter. */
module LogStream {
  import opened Common
  import opened Sequences

  /** The identity of a listener callback; two entries are the same callback
      exactly when their identities are equal (`!==` on functions). */
  type ListenerId = nat

  /** A parsed push-channel record `{ logMessage: string }`. */
  datatype LogRecord = LogRecord(logMessage: string)

  /** One call `callback(parsedMessage)` made while a frame is dispatched. */
  datatype Delivery = Delivery(listener: ListenerId, message: LogRecord)

  /** `JSON.parse` on an inbound frame; `None` when it throws. */
  type FrameParser = string -> Option<LogRecord>

  /** A browser WebSocket, reduced to its endpoint and whether it was closed. */
  class Socket {
    const url: string
    var closed: bool

    constructor (url: string)
      ensures this.url == url && !closed
    {
      this.url := url;
      closed := false;
    }

    method Close()
      modifies this
      ensures closed
    {
      closed := true;
    }
  }

  class WebSocketService {
    const url: string
    var socket: Socket?
    var listeners: seq<ListenerId>

    constructor (url: string)
      ensures this.url == url
      ensures socket == null && listeners == []
    {
      this.url := url;
      socket := null;
      listeners := [];
    }

    /** Opens a socket to `url` unless one is already held; the listener list
        is never touched. */
    method Connect()
      modifies this
      ensures listeners == old(listeners)
      ensures old(socket) != null ==> socket == old(socket)
      ensures old(socket) == null ==> socket != null && fresh(socket) && socket.url == url && !socket.closed
    {
      if socket != null {
        return;
      }
      socket := new Socket(url);
    }

    /** The `onclose` handler installed on `closing` by `Connect`: it clears the
        handle whichever socket is currently held. */
    method OnClose(closing: Socket)
      modifies this
      ensures socket == null
      ensures listeners == old(listeners)
    {
      socket := null;
    }

    /** `onclose` as evidently intended: only the close of the socket currently
        held clears the handle. */
    method OnCloseOfCurrent(closing: Socket)
      modifies this
      ensures old(socket) == closing ==> socket == null
      ensures old(socket) != closing ==> socket == old(socket)
      ensures listeners == old(listeners)
    {
      if socket == closing {
        socket := null;
      }
    }

    /** Appends the callback; duplicates are kept. */
    method AddListener(callback: ListenerId)
      modifies this
      ensures listeners == old(listeners) + [callback]
      ensures socket == old(socket)
    {
      listeners := listeners + [callback];
    }

    /** Drops every entry equal to the callback, keeping the rest in order. */
    method RemoveListener(callback: ListenerId)
      modifies this
      ensures listeners == Without(old(listeners), callback)
      ensures socket == old(socket)
    {
      listeners := Without(listeners, callback);
    }

    /** Closes and forgets the socket if one is held. */
    method Disconnect()
      modifies this, socket
      ensures socket == null
      ensures listeners == old(listeners)
      ensures old(socket) != null ==> old(socket).closed
    {
      if socket != null {
        socket.Close();
        socket := null;
      }
    }

    /** The `onmessage` handler: parses the frame and calls every listener, in
        list order, with the parsed record. A frame whose parse throws reaches
        no listener. */
    method OnMessage(frame: string, parse: FrameParser) returns (deliveries: seq<Delivery>)
      ensures parse(frame).None? ==> deliveries == []
      ensures parse(frame).Some? ==>
        |deliveries| == |listeners| &&
        forall i :: 0 <= i < |listeners| ==> deliveries[i] == Delivery(listeners[i], parse(frame).value)
    {
      deliveries := [];
      var parsed := parse(frame);
      if parsed.None? {
        return;
      }
      var i := 0;
      while i < |listeners|
        invariant 0 <= i <= |listeners|
        invariant |deliveries| == i
        invariant forall k :: 0 <= k < i ==> deliveries[k] == Delivery(listeners[k], parsed.value)
      {
        deliveries := deliveries + [Delivery(listeners[i], parsed.value)];
        i := i + 1;
      }
    }
  }

  /** A close event from a socket that was already replaced leaves the service
      without a handle while the live socket stays open: connect, disconnect,
      connect again, then the first socket's close event arrives. */
  method StaleCloseOrphansLiveSocket(url: string) returns (service: WebSocketService, live: Socket)
    ensures service.socket == null
    ensures !live.closed
  {
    service := new WebSocketService(url);
    service.Connect();
    var first := service.socket;
    service.Disconnect();
    service.Connect();
    live := service.socket;
    service.OnClose(first);
  }

  /** With the corrected handler the same sequence keeps the live socket. */
  method StaleCloseKeepsLiveSocket(url: string) returns (service: WebSocketService, live: Socket)
    ensures service.socket == live
    ensures !live.closed
  {
    service := new WebSocketService(url);
    service.Connect();
    var first := service.socket;
    service.Disconnect();
    service.Connect();
    live := service.socket;
    service.OnCloseOfCurrent(first);
  }
}
