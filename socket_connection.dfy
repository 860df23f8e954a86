/**
 * The forwarding client of the viewer: one socket to the relay, opened and
 * closed as the configuration changes, joining the configured room, and
 * emitting `room:emit` envelopes to it.
 *
 * The hook's effects and the socket's event handlers are methods; the caller
 * plays React and socket.io by calling them in the order those would run.
 */
module SocketConnection {
  import opened Wrappers
  import opened Json
  import JsBuiltins

  /** `{ isConnected, error }` as the hook returns it. */
  datatype Status = Status(isConnected: bool, error: Option<string>)

  /** The handshake credentials sent with the connection. */
  datatype Auth = Auth(apiKey: string, userId: string)

  /**
   * The socket the hook holds. `serial` tells sockets apart; `joinRoomId` is the
   * room id the `connect` handler closed over when the socket was created.
   */
  datatype Socket = Socket(serial: nat, url: string, auth: Auth, joinRoomId: string, connected: bool)

  /** One `socket.emit(name, data)`. */
  datatype Frame = Frame(name: string, data: Value)

  /** What the client did to the network, in order. */
  datatype Action =
    | Opened(serial: nat, url: string, auth: Auth, reconnectionAttempts: nat, timeoutMs: nat)
    | Closed(serial: nat)
    | Emitted(serial: nat, frame: Frame)

  const UserIdPrefix: string := "tiktok-viewer-"
  const ReconnectionAttempts: nat := 5
  const ConnectTimeoutMs: nat := 10000
  const JoinEvent: string := "room:join"
  const EmitEvent: string := "room:emit"
  const JoinFailedPrefix: string := "Joined failed: "

  /** The lifecycle effect connects only when enabled and both the URL and the key are non-empty. */
  predicate ConfigComplete(enabled: bool, url: string, apiKey: string)
  {
    enabled && url != "" && apiKey != ""
  }

  /**
   * The handshake `auth` object; `randomBase36` is `Math.random().toString(36)`,
   * of which `substr(2, 9)` is kept.
   */
  function HandshakeAuth(apiKey: string, randomBase36: string): (a: Auth)
    ensures a.apiKey == apiKey
    ensures |UserIdPrefix| <= |a.userId| <= |UserIdPrefix| + 9
    ensures a.userId[..|UserIdPrefix|] == UserIdPrefix
    ensures |randomBase36| >= 2 ==> a.userId[|UserIdPrefix|..] == randomBase36[2..JsBuiltins.Min(11, |randomBase36|)]
    ensures |randomBase36| < 2 ==> a.userId == UserIdPrefix
  {
    Auth(apiKey, UserIdPrefix + JsBuiltins.Substr(randomBase36, 2, 9))
  }

  /** `{ roomId }` sent with `room:join`. */
  function JoinFrame(roomId: string): (f: Frame)
    ensures f.name == JoinEvent
    ensures Get(Some(f.data), "roomId") == Some(Str(roomId))
    ensures f.data.Object? && f.data.fields.Keys == {"roomId"}
  {
    Frame(JoinEvent, Object(map["roomId" := Str(roomId)]))
  }

  /** `{ roomId, event: eventName, payload }`; the payload is carried as given. */
  function Envelope(roomId: string, eventName: string, payload: Value): (j: Value)
    ensures j.Object? && j.fields.Keys == {"roomId", "event", "payload"}
    ensures Get(Some(j), "roomId") == Some(Str(roomId))
    ensures Get(Some(j), "event") == Some(Str(eventName))
    ensures Get(Some(j), "payload") == Some(payload)
  {
    Object(map["roomId" := Str(roomId), "event" := Str(eventName), "payload" := payload])
  }

  function EmitFrame(roomId: string, eventName: string, payload: Value): (f: Frame)
    ensures f.name == EmitEvent && f.data == Envelope(roomId, eventName, payload)
  {
    Frame(EmitEvent, Envelope(roomId, eventName, payload))
  }

  /** Different envelopes are different frames: the room, the event name and the payload are all recoverable. */
  lemma EnvelopeInjective(r1: string, e1: string, p1: Value, r2: string, e2: string, p2: Value)
    requires EmitFrame(r1, e1, p1) == EmitFrame(r2, e2, p2)
    ensures r1 == r2 && e1 == e2 && p1 == p2
  {
  }

  /** The status error a join acknowledgement sets: only one carrying a truthy `error` sets one. */
  function JoinFailure(response: Option<Value>): (r: Option<string>)
    ensures r.Some? <==> Truthy(Get(response, "error"))
    ensures r.Some? ==> r.value == JoinFailedPrefix + ToText(Get(response, "error").value)
  {
    var e := Get(response, "error");
    if Truthy(e) then Some(JoinFailedPrefix + ToText(e.value)) else None
  }

  /** `ack?.error || (ack && !ack.ok)`: whether an emit acknowledgement is logged as a failure. */
  predicate EmitAckFailed(ack: Option<Value>)
    ensures !Truthy(ack) ==> !EmitAckFailed(ack)
    ensures Truthy(ack) && !ack.value.Object? ==> EmitAckFailed(ack)
  {
    Truthy(Get(ack, "error")) || (Truthy(ack) && !Truthy(Get(ack, "ok")))
  }

  /** The relay's acknowledgements `{ok: true}` and `{ok: false, error}` read as success and failure; no acknowledgement is no failure. */
  lemma EmitAckAgainstRelay(reason: string)
    ensures !EmitAckFailed(None)
    ensures !EmitAckFailed(Some(Object(map["ok" := Bool(true)])))
    ensures EmitAckFailed(Some(Object(map["ok" := Bool(false), "error" := Str(reason)])))
  {
  }

  /**
   * Every acknowledgement, by shape: an object fails exactly when its `error`
   * is truthy or its `ok` is falsy; any other truthy value fails; a falsy or
   * missing acknowledgement does not.
   */
  lemma EmitAckFailedByShape(ack: Option<Value>)
    ensures ack.Some? && ack.value.Object? ==>
      (EmitAckFailed(ack) <==> Truthy(Get(ack, "error")) || !Truthy(Get(ack, "ok")))
    ensures Truthy(ack) && !ack.value.Object? ==> EmitAckFailed(ack)
    ensures !Truthy(ack) ==> !EmitAckFailed(ack)
  {
  }

  /** A frame that names a non-empty room. */
  ghost predicate NamesRoom(f: Frame)
  {
    f.data.Object? && "roomId" in f.data.fields && f.data.fields["roomId"].Str? && f.data.fields["roomId"].s != ""
  }

  /**
   * What the client's guards guarantee of everything it did: every action is
   * about a socket it created, a socket emits nothing once closed, and every
   * frame names a room.
   */
  ghost predicate LogSafe(log: seq<Action>, nextSerial: nat)
  {
    && (forall i :: 0 <= i < |log| ==> log[i].serial < nextSerial)
    && (forall i, j :: 0 <= i < j < |log| && log[i].Closed? && log[j].Emitted? ==> log[j].serial != log[i].serial)
    && (forall i :: 0 <= i < |log| && log[i].Emitted? ==> NamesRoom(log[i].frame))
  }

  /** One more action keeps the log safe when it is about a known socket and, if it emits, through an open socket and naming a room. */
  lemma LogSafeExtend(log: seq<Action>, n: nat, a: Action, m: nat)
    requires LogSafe(log, n) && n <= m && a.serial < m
    requires a.Emitted? ==> Closed(a.serial) !in log && NamesRoom(a.frame)
    ensures LogSafe(log + [a], m)
  {
  }

  /** The hook's state: its props, its status, the socket reference and what it sent. */
  class SocketClient {
    var url: string
    var apiKey: string
    var roomId: string
    var enabled: bool
    var status: Status
    var socket: Option<Socket>
    /** True when the last lifecycle effect run returned a cleanup (it created `socket`). */
    var cleanupPending: bool
    var nextSerial: nat
    ghost var log: seq<Action>

    ghost predicate Valid()
      reads this
    {
      && LogSafe(log, nextSerial)
      && (socket.Some? ==> socket.value.serial < nextSerial && Closed(socket.value.serial) !in log)
      && (cleanupPending ==> socket.Some?)
    }

    constructor (url: string, apiKey: string, roomId: string, enabled: bool)
      ensures Valid()
      ensures this.url == url && this.apiKey == apiKey && this.roomId == roomId && this.enabled == enabled
      ensures status == Status(false, None) && socket == None && !cleanupPending && log == []
    {
      this.url, this.apiKey, this.roomId, this.enabled := url, apiKey, roomId, enabled;
      status := Status(false, None);
      socket := None;
      cleanupPending := false;
      nextSerial := 0;
      log := [];
    }

    /** A render with new props; the effects whose dependencies changed are then called by the caller. */
    method SetProps(url: string, apiKey: string, roomId: string, enabled: bool)
      requires Valid()
      modifies this
      ensures Valid()
      ensures this.url == url && this.apiKey == apiKey && this.roomId == roomId && this.enabled == enabled
      ensures status == old(status) && socket == old(socket) && cleanupPending == old(cleanupPending)
      ensures nextSerial == old(nextSerial) && log == old(log)
    {
      this.url, this.apiKey, this.roomId, this.enabled := url, apiKey, roomId, enabled;
    }

    /**
     * The lifecycle effect (dependencies `url`, `apiKey`, `enabled`).
     * `randomBase36` stands for `Math.random().toString(36)`; `ioFailure` is the
     * message of an exception thrown by `io(...)`, if it throws.
     */
    method LifecycleEffect(randomBase36: string, ioFailure: Option<string>)
      requires Valid()
      modifies this
      ensures Valid()
      ensures url == old(url) && apiKey == old(apiKey) && roomId == old(roomId) && enabled == old(enabled)
      ensures !ConfigComplete(enabled, url, apiKey) && old(socket).Some? ==>
        socket == None && status == Status(false, None) && !cleanupPending &&
        log == old(log) + [Closed(old(socket).value.serial)] && nextSerial == old(nextSerial)
      ensures !ConfigComplete(enabled, url, apiKey) && old(socket).None? ==>
        socket == None && status == old(status) && !cleanupPending &&
        log == old(log) && nextSerial == old(nextSerial)
      ensures ConfigComplete(enabled, url, apiKey) && ioFailure.Some? ==>
        socket == old(socket) && status == Status(false, ioFailure) && !cleanupPending &&
        log == old(log) && nextSerial == old(nextSerial)
      ensures ConfigComplete(enabled, url, apiKey) && ioFailure.None? ==>
        var auth := HandshakeAuth(apiKey, randomBase36);
        && socket == Some(Socket(old(nextSerial), url, auth, roomId, false))
        && status == old(status) && cleanupPending && nextSerial == old(nextSerial) + 1
        && log == old(log) + [Opened(old(nextSerial), url, auth, ReconnectionAttempts, ConnectTimeoutMs)]
    {
      if !ConfigComplete(enabled, url, apiKey) {
        if socket.Some? {
          LogSafeExtend(log, nextSerial, Closed(socket.value.serial), nextSerial);
          log := log + [Closed(socket.value.serial)];
          socket := None;
          status := Status(false, None);
        }
        cleanupPending := false;
        return;
      }
      var auth := HandshakeAuth(apiKey, randomBase36);
      if ioFailure.Some? {
        status := Status(false, ioFailure);
        cleanupPending := false;
        return;
      }
      var open := Opened(nextSerial, url, auth, ReconnectionAttempts, ConnectTimeoutMs);
      LogSafeExtend(log, nextSerial, open, nextSerial + 1);
      log := log + [open];
      socket := Some(Socket(nextSerial, url, auth, roomId, false));
      nextSerial := nextSerial + 1;
      cleanupPending := true;
    }

    /**
     * The cleanup the lifecycle effect returned, run before the effect re-runs
     * or on unmount. socket.io raises `disconnect` from inside `disconnect()`
     * when the socket was connected, so the handler's status reset happens too.
     */
    method LifecycleCleanup()
      requires Valid()
      modifies this
      ensures Valid()
      ensures url == old(url) && apiKey == old(apiKey) && roomId == old(roomId) && enabled == old(enabled)
      ensures nextSerial == old(nextSerial) && !cleanupPending
      ensures old(cleanupPending) ==>
        socket == None && log == old(log) + [Closed(old(socket).value.serial)] &&
        status == (if old(socket).value.connected then Status(false, None) else old(status))
      ensures !old(cleanupPending) ==> socket == old(socket) && status == old(status) && log == old(log)
    {
      if cleanupPending {
        var s := socket.value;
        LogSafeExtend(log, nextSerial, Closed(s.serial), nextSerial);
        log := log + [Closed(s.serial)];
        if s.connected {
          status := Status(false, None);
        }
        socket := None;
        cleanupPending := false;
      }
    }

    /** The room effect (dependencies `roomId`, `status.isConnected`): re-join on a room switch; no leave is sent. */
    method RoomEffect()
      requires Valid()
      modifies this
      ensures Valid()
      ensures url == old(url) && apiKey == old(apiKey) && roomId == old(roomId) && enabled == old(enabled)
      ensures status == old(status) && socket == old(socket) && cleanupPending == old(cleanupPending)
      ensures nextSerial == old(nextSerial)
      ensures log == old(log) + (if socket.Some? && socket.value.connected && roomId != ""
                                 then [Emitted(socket.value.serial, JoinFrame(roomId))] else [])
    {
      if socket.Some? && socket.value.connected && roomId != "" {
        var sent := Emitted(socket.value.serial, JoinFrame(roomId));
        LogSafeExtend(log, nextSerial, sent, nextSerial);
        log := log + [sent];
      }
    }

    /** The socket's `connect` handler: connected, error cleared, and one join for the room it closed over. */
    method OnConnect()
      requires Valid() && socket.Some?
      modifies this
      ensures Valid()
      ensures url == old(url) && apiKey == old(apiKey) && roomId == old(roomId) && enabled == old(enabled)
      ensures status == Status(true, None)
      ensures socket == Some(old(socket).value.(connected := true))
      ensures cleanupPending == old(cleanupPending) && nextSerial == old(nextSerial)
      ensures var s := old(socket).value;
        log == old(log) + (if s.joinRoomId != "" then [Emitted(s.serial, JoinFrame(s.joinRoomId))] else [])
    {
      var s := socket.value;
      socket := Some(s.(connected := true));
      status := Status(true, None);
      if s.joinRoomId != "" {
        var sent := Emitted(s.serial, JoinFrame(s.joinRoomId));
        LogSafeExtend(log, nextSerial, sent, nextSerial);
        log := log + [sent];
      }
    }

    /** The acknowledgement of the join sent by `OnConnect`: an `error` in it becomes the status error. */
    method OnJoinAck(response: Option<Value>)
      requires Valid()
      modifies this
      ensures Valid()
      ensures url == old(url) && apiKey == old(apiKey) && roomId == old(roomId) && enabled == old(enabled)
      ensures status.isConnected == old(status.isConnected)
      ensures status.error == (if JoinFailure(response).Some? then JoinFailure(response) else old(status.error))
      ensures socket == old(socket) && cleanupPending == old(cleanupPending)
      ensures nextSerial == old(nextSerial) && log == old(log)
    {
      var failure := JoinFailure(response);
      if failure.Some? {
        status := status.(error := failure);
      }
    }

    /** The socket's `connect_error` handler. */
    method OnConnectError(message: string)
      requires Valid() && socket.Some?
      modifies this
      ensures Valid()
      ensures url == old(url) && apiKey == old(apiKey) && roomId == old(roomId) && enabled == old(enabled)
      ensures status == Status(false, Some(message))
      ensures socket == Some(old(socket).value.(connected := false))
      ensures cleanupPending == old(cleanupPending) && nextSerial == old(nextSerial) && log == old(log)
    {
      socket := Some(socket.value.(connected := false));
      status := Status(false, Some(message));
    }

    /** The socket's `disconnect` handler (a drop by the transport or the server). */
    method OnDisconnect()
      requires Valid() && socket.Some?
      modifies this
      ensures Valid()
      ensures url == old(url) && apiKey == old(apiKey) && roomId == old(roomId) && enabled == old(enabled)
      ensures status == Status(false, None)
      ensures socket == Some(old(socket).value.(connected := false))
      ensures cleanupPending == old(cleanupPending) && nextSerial == old(nextSerial) && log == old(log)
    {
      socket := Some(socket.value.(connected := false));
      status := Status(false, None);
    }

    /** `sendToSocket(eventName, payload)`: one `room:emit` envelope when connected with a room, else nothing. */
    method SendToSocket(eventName: string, payload: Value)
      requires Valid()
      modifies this
      ensures Valid()
      ensures url == old(url) && apiKey == old(apiKey) && roomId == old(roomId) && enabled == old(enabled)
      ensures status == old(status) && socket == old(socket) && cleanupPending == old(cleanupPending)
      ensures nextSerial == old(nextSerial)
      ensures log == old(log) + (if socket.Some? && socket.value.connected && roomId != ""
                                 then [Emitted(socket.value.serial, EmitFrame(roomId, eventName, payload))] else [])
    {
      if !(socket.Some? && socket.value.connected) || roomId == "" {
        return;
      }
      var sent := Emitted(socket.value.serial, EmitFrame(roomId, eventName, payload));
      LogSafeExtend(log, nextSerial, sent, nextSerial);
      log := log + [sent];
    }
  }
}
