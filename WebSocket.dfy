/**
 * The client's socket service: one socket slot, a bounded reconnect counter with a fixed
 * delay, and sends gated on the socket being open.  The browser socket is abstracted to
 * its identity, URL, subprotocols and ready state; `setTimeout` to a list of pending
 * reconnects; frames actually transmitted to the `sent` log.
 */
module WebSocket {
  import opened Wrappers

  const MaxReconnectAttempts: nat := 5
  const ReconnectTimeoutMs: nat := 3000
  /** The game a scheduled reconnect joins, whatever game was joined before. */
  const ReconnectGameId := "1001"
  const ServerUrlPrefix := "ws://140.245.228.15:8080/ws?gameId="

  /** `WebSocket.readyState`: CONNECTING, OPEN, CLOSING, CLOSED. */
  datatype ReadyState = Connecting | Open | Closing | Closed

  /** One browser socket; `id` tells the sockets created over the service's life apart. */
  datatype Socket = Socket(id: nat, url: string, protocols: seq<string>, readyState: ReadyState)

  /** An outbound message `{type, data}`. */
  datatype Message = Message(kind: string, data: string)

  /**
   * The callback `connect` may be given.  The one callback the client passes sends a
   * message once the socket is open.
   */
  datatype ConnectCallback = SendOnConnect(message: Message)

  /** A reconnect queued with `setTimeout`. */
  datatype PendingReconnect = PendingReconnect(delayMs: nat, gameId: string)

  /** An inbound frame after `JSON.parse`: not JSON, the value `null`, or a value whose `type` is read. */
  datatype Frame = NotJson | JsonNull | JsonValue(typeField: Option<string>)

  /** The branch `handleMessage` takes. */
  datatype MessageKind = PlayerTurn | UpdateHand | Unknown

  /** What became of a frame: the parse failed, reading its `type` threw, or a branch ran. */
  datatype Delivery = ParseFailed | HandlerThrew | Handled(kind: MessageKind)

  function Url(gameId: string): (r: string)
    ensures |r| == |ServerUrlPrefix| + |gameId|
    ensures r[..|ServerUrlPrefix|] == ServerUrlPrefix && r[|ServerUrlPrefix|..] == gameId
  {
    ServerUrlPrefix + gameId
  }

  /** `[token || '']`: the stored token as the one subprotocol, or the empty string. */
  function Subprotocols(token: Option<string>): (r: seq<string>)
    ensures |r| == 1
    ensures token.Some? ==> r[0] == token.value
    ensures token.None? ==> r[0] == ""
  {
    [token.GetOr("")]
  }

  predicate IsOpen(socket: Option<Socket>) {
    socket.Some? && socket.value.readyState == Open
  }

  /** `handleMessage`'s switch; every branch only logs. */
  function Classify(typeField: Option<string>): (k: MessageKind)
    ensures k == PlayerTurn <==> typeField == Some("PLAYER_TURN")
    ensures k == UpdateHand <==> typeField == Some("UPDATE_HAND")
  {
    match typeField
    case Some("PLAYER_TURN") => PlayerTurn
    case Some("UPDATE_HAND") => UpdateHand
    case _ => Unknown
  }

  /** The socket slot after an open event from socket `id`. */
  function Opened(socket: Option<Socket>, id: nat): (r: Option<Socket>)
    ensures r.Some? <==> socket.Some?
    ensures socket.Some? && socket.value.id == id ==> r == Some(socket.value.(readyState := Open))
    ensures socket.Some? && socket.value.id != id ==> r == socket
  {
    if socket.Some? && socket.value.id == id then Some(socket.value.(readyState := Open)) else socket
  }

  /** The socket slot after a close event from socket `id`. */
  function ClosedBy(socket: Option<Socket>, id: nat): (r: Option<Socket>)
    ensures !IsOpen(socket) ==> !IsOpen(r)
    ensures socket.Some? && socket.value.id == id ==> r == Some(socket.value.(readyState := Closed))
    ensures !(socket.Some? && socket.value.id == id) ==> r == socket
  {
    if socket.Some? && socket.value.id == id then Some(socket.value.(readyState := Closed)) else socket
  }

  class WebSocketService {
    var socket: Option<Socket>
    var reconnectAttempts: nat
    var onConnectCallback: Option<ConnectCallback>
    /** Identity of the next socket the service creates. */
    var nextSocketId: nat
    /** Reconnects queued with `setTimeout` that have not fired yet, oldest first. */
    var pending: seq<PendingReconnect>
    /** Messages handed to `socket.send`, in order. */
    var sent: seq<Message>
    /** Sockets on which `close()` was called, in order. */
    var closeRequested: seq<nat>

    ghost predicate Valid()
      reads this
    {
      && reconnectAttempts <= MaxReconnectAttempts
      && (socket.Some? ==> socket.value.id < nextSocketId)
      && forall k :: 0 <= k < |pending| ==> pending[k] == PendingReconnect(ReconnectTimeoutMs, ReconnectGameId)
    }

    constructor ()
      ensures Valid()
      ensures socket == None && reconnectAttempts == 0 && onConnectCallback == None
      ensures pending == [] && sent == [] && closeRequested == [] && nextSocketId == 0
    {
      socket := None;
      reconnectAttempts := 0;
      onConnectCallback := None;
      nextSocketId := 0;
      pending := [];
      sent := [];
      closeRequested := [];
    }

    /**
     * `connect(gameId, onConnect)`.  The callback slot is overwritten first; then a new
     * socket takes the slot, unless the socket constructor throws (`constructorThrows`),
     * in which case the error is caught and the old slot stays.  The previous socket is
     * not closed.  `token` is what session storage holds under "token".
     */
    method Connect(gameId: string, onConnect: Option<ConnectCallback>, token: Option<string>, constructorThrows: bool)
      requires Valid()
      modifies this`socket, this`onConnectCallback, this`nextSocketId
      ensures Valid()
      ensures onConnectCallback == onConnect
      ensures constructorThrows ==> socket == old(socket) && nextSocketId == old(nextSocketId)
      ensures !constructorThrows ==> socket == Some(Socket(old(nextSocketId), Url(gameId), Subprotocols(token), Connecting))
      ensures !constructorThrows ==> nextSocketId == old(nextSocketId) + 1
    {
      onConnectCallback := onConnect;
      if !constructorThrows {
        socket := Some(Socket(nextSocketId, Url(gameId), Subprotocols(token), Connecting));
        nextSocketId := nextSocketId + 1;
      }
    }

    /**
     * `onopen` of socket `id` (the current one or an older one whose handlers still point
     * here): the counter resets and the stored callback runs.
     */
    method OnOpen(id: nat)
      requires Valid()
      modifies this`socket, this`reconnectAttempts, this`sent
      ensures Valid()
      ensures reconnectAttempts == 0
      ensures socket == Opened(old(socket), id)
      ensures old(onConnectCallback).None? ==> sent == old(sent)
      ensures old(onConnectCallback).Some? ==>
        sent == old(sent) + (if IsOpen(socket) then [old(onConnectCallback).value.message] else [])
    {
      socket := Opened(socket, id);
      reconnectAttempts := 0;
      if onConnectCallback.Some? {
        SendMessage(onConnectCallback.value.message);
      }
    }

    /** `onclose` of socket `id`, followed by `handleReconnect`. */
    method OnClose(id: nat)
      requires Valid()
      modifies this`socket, this`reconnectAttempts, this`pending
      ensures Valid()
      ensures socket == ClosedBy(old(socket), id)
      ensures old(reconnectAttempts) < MaxReconnectAttempts ==>
        reconnectAttempts == old(reconnectAttempts) + 1
        && pending == old(pending) + [PendingReconnect(ReconnectTimeoutMs, ReconnectGameId)]
      ensures old(reconnectAttempts) == MaxReconnectAttempts ==>
        reconnectAttempts == old(reconnectAttempts) && pending == old(pending)
    {
      socket := ClosedBy(socket, id);
      HandleReconnect();
    }

    /** Below the bound: count one more attempt and queue one reconnect; at the bound: only log. */
    method HandleReconnect()
      requires Valid()
      modifies this`reconnectAttempts, this`pending
      ensures Valid()
      ensures old(reconnectAttempts) < MaxReconnectAttempts ==>
        reconnectAttempts == old(reconnectAttempts) + 1
        && pending == old(pending) + [PendingReconnect(ReconnectTimeoutMs, ReconnectGameId)]
      ensures old(reconnectAttempts) == MaxReconnectAttempts ==>
        reconnectAttempts == old(reconnectAttempts) && pending == old(pending)
    {
      if reconnectAttempts < MaxReconnectAttempts {
        reconnectAttempts := reconnectAttempts + 1;
        pending := pending + [PendingReconnect(ReconnectTimeoutMs, ReconnectGameId)];
      }
    }

    /**
     * The oldest queued reconnect fires: `connect("1001")` with no callback.  `token` and
     * `constructorThrows` are as for `Connect`.
     */
    method FireReconnect(token: Option<string>, constructorThrows: bool)
      requires Valid() && pending != []
      modifies this`socket, this`onConnectCallback, this`nextSocketId, this`pending
      ensures Valid()
      ensures pending == old(pending)[1..]
      ensures onConnectCallback == None
      ensures !constructorThrows ==>
        socket == Some(Socket(old(nextSocketId), Url(ReconnectGameId), Subprotocols(token), Connecting))
      ensures constructorThrows ==> socket == old(socket) && nextSocketId == old(nextSocketId)
      ensures !constructorThrows ==> nextSocketId == old(nextSocketId) + 1
    {
      var timer := pending[0];
      pending := pending[1..];
      Connect(timer.gameId, None, token, constructorThrows);
    }

    /** `disconnect`: close the socket and empty the slot; nothing else is reset or cancelled. */
    method Disconnect()
      requires Valid()
      modifies this`socket, this`closeRequested
      ensures Valid()
      ensures socket == None
      ensures old(socket).Some? ==> closeRequested == old(closeRequested) + [old(socket).value.id]
      ensures old(socket).None? ==> closeRequested == old(closeRequested)
    {
      if socket.Some? {
        closeRequested := closeRequested + [socket.value.id];
        socket := None;
      }
    }

    /** `handleMessage`: picks a branch by `type` and changes nothing. */
    method HandleMessage(typeField: Option<string>) returns (kind: MessageKind)
      ensures kind == PlayerTurn <==> typeField == Some("PLAYER_TURN")
      ensures kind == UpdateHand <==> typeField == Some("UPDATE_HAND")
    {
      kind := Classify(typeField);
    }

    /**
     * `onmessage`: a frame that is not JSON is caught before `handleMessage`; `null`
     * parses but reading its `type` throws, which the same `catch` absorbs.
     */
    method OnMessage(frame: Frame) returns (d: Delivery)
      ensures frame.NotJson? <==> d == ParseFailed
      ensures frame.JsonNull? <==> d == HandlerThrew
      ensures frame.JsonValue? ==> d == Handled(Classify(frame.typeField))
    {
      match frame
      case NotJson => d := ParseFailed;
      case JsonNull => d := HandlerThrew;
      case JsonValue(t) =>
        var kind := HandleMessage(t);
        d := Handled(kind);
    }

    /** `sendMessage`: transmitted only on an open socket, otherwise dropped. */
    method SendMessage(message: Message)
      modifies this`sent
      ensures IsOpen(socket) ==> sent == old(sent) + [message]
      ensures !IsOpen(socket) ==> sent == old(sent)
    {
      if socket.Some? && socket.value.readyState == Open {
        sent := sent + [message];
      }
    }
  }

  /** Six closes in a row: five reconnects are queued and the counter stops at five. */
  method ReconnectBudget()
  {
    var service := new WebSocketService();
    service.Connect("42", None, Some("t"), false);
    var i := 0;
    while i < 6
      invariant 0 <= i <= 6
      invariant service.Valid()
      invariant service.reconnectAttempts == if i < 5 then i else 5
      invariant |service.pending| == service.reconnectAttempts
    {
      service.OnClose(0);
      i := i + 1;
    }
    assert service.reconnectAttempts == MaxReconnectAttempts && |service.pending| == 5;
  }

  /**
   * `disconnect` does not stop the closed socket's `onclose` from queueing a reconnect,
   * and that reconnect joins game "1001".
   */
  method ReconnectAfterDisconnect()
  {
    var service := new WebSocketService();
    service.Connect("42", None, Some("t"), false);
    service.OnOpen(0);
    service.Disconnect();
    assert service.socket == None && service.closeRequested == [0];
    service.OnClose(0);
    assert service.pending == [PendingReconnect(3000, "1001")];
    service.FireReconnect(Some("t"), false);
    assert service.socket == Some(Socket(1, Url("1001"), ["t"], Connecting));
  }

  /** A send before the socket opens is dropped; the connect callback's message goes out on open. */
  method SendGatedOnOpen()
  {
    var service := new WebSocketService();
    var request := Message("gamedetailsreq", "");
    service.Connect("42", Some(SendOnConnect(request)), Some("t"), false);
    service.SendMessage(Message("startgamereq", ""));
    assert service.sent == [];
    service.OnOpen(0);
    assert service.sent == [request];
  }
}
