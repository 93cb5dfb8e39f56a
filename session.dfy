/**
 * The control session with one TV (LGTVRepositoryImpl): a connection state,
 * an optional WebSocket, the one-shot result of the pending connect call and
 * the frames handed to the socket.
 *
 * Every assignment to the state in the session is absolute: an event either
 * sets one fixed state or leaves the state alone. `Target` says which; `Run`
 * folds a history of events; the class keeps its state equal to the fold of
 * everything that happened to it.
 */
module Session {
  import opened Wrappers
  import opened Devices

  /** The id of the registration request, reused by the pairing request. */
  const RegisterId: string := "register_0"

  /** A text frame from the TV, already parsed (JSON parsing is not modelled). */
  datatype Inbound =
    | Malformed
      /** `kind` is the "type" field, `id` the "id" field ("" when absent),
          `errorCode` the "code" of the "error" object when there is one. */
    | Message(kind: string, id: string, errorCode: Option<string>)

  /** A frame from the TV. */
  datatype Incoming = TextFrame(message: Inbound) | BinaryFrame

  /** A frame handed to the socket. The fixed manifest of a registration is not modelled. */
  datatype Outgoing =
    | Register(id: string, clientKey: Option<string>)
    | Raw(text: string)
    | Close(code: int, reason: string)

  /** The handshake sent as soon as the socket opens. */
  const Handshake: Outgoing := Register(RegisterId, None)

  /** The state of the suspended `connectToTV` call. */
  datatype ConnectResult = NotRequested | Pending | Succeeded | Failed

  /** A socket opened towards `ws://host:port`. */
  datatype Endpoint = Endpoint(host: string, port: int)

  /** Everything that can move the connection state. */
  datatype SessionEvent =
    | ConnectStarted
    | SetupFailed
    | Opened
    | Received(frame: Incoming)
    | PeerClosing
    | SocketFailed
    | DisconnectRequested

  /** The 401 answer to the registration: the TV wants a pairing code. */
  predicate AsksForPairing(m: Inbound) {
    m == Message("response", RegisterId, Some("401"))
  }

  /** An answer to the registration that carries an error other than 401. */
  predicate RejectsRegistration(m: Inbound) {
    m.Message? && m.kind == "response" && m.id == RegisterId &&
    m.errorCode.Some? && m.errorCode.value != "401"
  }

  /** An answer to the registration without an error, or the "registered" event. */
  predicate AcceptsRegistration(m: Inbound) {
    m.Message? &&
    ((m.kind == "response" && m.id == RegisterId && m.errorCode.None?) || m.kind == "registered")
  }

  /** A text frame that accepts the registration. */
  predicate AcceptedBy(e: SessionEvent) {
    e.Received? && e.frame.TextFrame? && AcceptsRegistration(e.frame.message)
  }

  /** The state an event sets, or None when it leaves the state alone. */
  function Target(e: SessionEvent): (t: Option<ConnectionState>)
    ensures t == Some(Connecting) <==> e == ConnectStarted
    ensures t == Some(Pairing) <==> e.Received? && e.frame.TextFrame? && AsksForPairing(e.frame.message)
    ensures t == Some(Connected) <==> e == Opened || AcceptedBy(e)
    ensures t == Some(Error) <==>
      e == SetupFailed || e == SocketFailed || (e.Received? && e.frame.TextFrame? && RejectsRegistration(e.frame.message))
    ensures t == Some(Disconnected) <==> e == PeerClosing || e == DisconnectRequested
  {
    match e
    case ConnectStarted => Some(Connecting)
    case SetupFailed => Some(Error)
    case Opened => Some(Connected)
    case PeerClosing => Some(Disconnected)
    case SocketFailed => Some(Error)
    case DisconnectRequested => Some(Disconnected)
    case Received(BinaryFrame) => None
    case Received(TextFrame(Malformed)) => None
    case Received(TextFrame(Message(kind, id, errorCode))) =>
      if kind == "response" then
        if id != RegisterId then None
        else if errorCode == Some("401") then Some(Pairing)
        else if errorCode.Some? then Some(Error)
        else Some(Connected)
      else if kind == "registered" then Some(Connected)
      else None
  }

  /** One transition. */
  function Step(s: ConnectionState, e: SessionEvent): ConnectionState {
    Target(e).GetOr(s)
  }

  /** The state after a history of events, starting from `s`. */
  function Run(s: ConnectionState, events: seq<SessionEvent>): ConnectionState
    decreases |events|
  {
    if events == [] then s else Step(Run(s, events[..|events| - 1]), events[|events| - 1])
  }

  /** The state set by the last event of a history that sets one. */
  function LastTarget(events: seq<SessionEvent>): Option<ConnectionState>
    decreases |events|
  {
    if events == [] then None
    else if Target(events[|events| - 1]).Some? then Target(events[|events| - 1])
    else LastTarget(events[..|events| - 1])
  }

  /** The state depends on nothing but the last state-setting event. */
  lemma {:induction false} RunIsLastTarget(s: ConnectionState, events: seq<SessionEvent>)
    ensures Run(s, events) == LastTarget(events).GetOr(s)
    decreases |events|
  {
    if events != [] {
      RunIsLastTarget(s, events[..|events| - 1]);
    }
  }

  /** A state other than the starting one was set by some event of the history. */
  lemma {:induction false} RunReachedBy(s: ConnectionState, events: seq<SessionEvent>)
    ensures Run(s, events) == s || exists i :: 0 <= i < |events| && Target(events[i]) == Some(Run(s, events))
    decreases |events|
  {
    if events != [] {
      var n := |events| - 1;
      RunReachedBy(s, events[..n]);
      if Target(events[n]).None? && Run(s, events[..n]) != s {
        var i :| 0 <= i < n && Target(events[..n][i]) == Some(Run(s, events[..n]));
        assert events[..n][i] == events[i];
      }
    }
  }

  /** A session that ends in PAIRING got there through a 401 answer to the registration. */
  lemma PairingOnlyAfter401(events: seq<SessionEvent>)
    requires Run(Disconnected, events) == Pairing
    ensures exists i :: 0 <= i < |events| && events[i] == Received(TextFrame(Message("response", RegisterId, Some("401"))))
  {
    RunReachedBy(Disconnected, events);
  }

  /** A session that ends CONNECTED saw the socket open, a successful registration or "registered". */
  lemma ConnectedOnlyAfterOpenOrRegistration(events: seq<SessionEvent>)
    requires Run(Disconnected, events) == Connected
    ensures exists i :: 0 <= i < |events| && (events[i] == Opened || AcceptedBy(events[i]))
  {
    RunReachedBy(Disconnected, events);
  }

  /** Events that leave the state alone can be dropped from a history. */
  lemma {:induction false} InertEventsDropOut(s: ConnectionState, events: seq<SessionEvent>, e: SessionEvent)
    requires Target(e).None?
    ensures Run(s, events + [e]) == Run(s, events)
  {
    assert (events + [e])[..|events|] == events;
  }

  /** Disconnecting ends in DISCONNECTED whatever came before. */
  lemma DisconnectWins(s: ConnectionState, events: seq<SessionEvent>)
    ensures Run(s, events + [DisconnectRequested]) == Disconnected
  {
    assert (events + [DisconnectRequested])[..|events|] == events;
  }

  /** The session object. */
  class LgTvRepository {
    var state: ConnectionState
    var socket: Option<Endpoint>
    var connectResult: ConnectResult
    var outbox: seq<Outgoing>
    ghost var events: seq<SessionEvent>

    /** The state is the fold of the history. */
    ghost predicate Valid()
      reads this
    {
      state == Run(Disconnected, events)
    }

    /** A new session is DISCONNECTED and has no socket. */
    constructor ()
      ensures Valid()
      ensures state == Disconnected && socket == None
      ensures connectResult == NotRequested && outbox == [] && events == []
    {
      state := Disconnected;
      socket := None;
      connectResult := NotRequested;
      outbox := [];
      events := [];
    }

    /**
     * `connectToTV`: CONNECTING is set before the socket exists. When the
     * request or socket cannot be created the state becomes ERROR, the call
     * fails at once and the previous socket reference is kept; otherwise the
     * new socket replaces the old reference and the call waits.
     */
    method ConnectToTv(device: TvDevice, setupFails: bool)
      requires Valid()
      modifies this
      ensures Valid()
      ensures events == old(events) + (if setupFails then [ConnectStarted, SetupFailed] else [ConnectStarted])
      ensures state == (if setupFails then Error else Connecting)
      ensures socket == (if setupFails then old(socket) else Some(Endpoint(device.ipAddress, device.port)))
      ensures connectResult == (if setupFails then Failed else Pending)
      ensures outbox == old(outbox)
    {
      state := Connecting;
      events := events + [ConnectStarted];
      if setupFails {
        state := Error;
        events := events + [SetupFailed];
        connectResult := Failed;
      } else {
        socket := Some(Endpoint(device.ipAddress, device.port));
        connectResult := Pending;
      }
    }

    /**
     * The socket opened: CONNECTED, the handshake is sent with id
     * "register_0", then a still-pending connect call succeeds.
     */
    method OnOpen()
      requires Valid()
      modifies this
      ensures Valid()
      ensures events == old(events) + [Opened]
      ensures state == Connected
      ensures outbox == old(outbox) + [Handshake]
      ensures connectResult == (if old(connectResult) == Pending then Succeeded else old(connectResult))
      ensures socket == old(socket)
    {
      state := Connected;
      events := events + [Opened];
      outbox := outbox + [Handshake];
      if connectResult == Pending {
        connectResult := Succeeded;
      }
    }

    /** A text or binary frame arrived. */
    method OnMessage(frame: Incoming)
      requires Valid()
      modifies this
      ensures Valid()
      ensures events == old(events) + [Received(frame)]
      ensures state == Step(old(state), Received(frame))
      ensures frame.BinaryFrame? || frame.message.Malformed? ==> state == old(state)
      ensures socket == old(socket) && outbox == old(outbox) && connectResult == old(connectResult)
    {
      events := events + [Received(frame)];
      match frame {
        case BinaryFrame =>
        case TextFrame(Malformed) =>
        case TextFrame(Message(kind, id, errorCode)) =>
          if kind == "response" {
            if id == RegisterId {
              if errorCode.Some? {
                if errorCode.value == "401" {
                  state := Pairing;
                } else {
                  state := Error;
                }
              } else {
                state := Connected;
              }
            }
          } else if kind == "registered" {
            state := Connected;
          }
      }
    }

    /** The TV is closing the socket: DISCONNECTED; the socket reference is kept. */
    method OnClosing(code: int, reason: string)
      requires Valid()
      modifies this
      ensures Valid()
      ensures events == old(events) + [PeerClosing]
      ensures state == Disconnected
      ensures socket == old(socket) && outbox == old(outbox) && connectResult == old(connectResult)
    {
      state := Disconnected;
      events := events + [PeerClosing];
    }

    /** The socket failed: ERROR, and a still-pending connect call fails. */
    method OnFailure()
      requires Valid()
      modifies this
      ensures Valid()
      ensures events == old(events) + [SocketFailed]
      ensures state == Error
      ensures connectResult == (if old(connectResult) == Pending then Failed else old(connectResult))
      ensures socket == old(socket) && outbox == old(outbox)
    {
      state := Error;
      events := events + [SocketFailed];
      if connectResult == Pending {
        connectResult := Failed;
      }
    }

    /** `disconnect`: close any socket normally, forget it, DISCONNECTED from any state. */
    method Disconnect()
      requires Valid()
      modifies this
      ensures Valid()
      ensures events == old(events) + [DisconnectRequested]
      ensures state == Disconnected && socket == None
      ensures outbox == old(outbox) + (if old(socket).Some? then [Close(1000, "Desconexión manual")] else [])
      ensures connectResult == old(connectResult)
    {
      if socket.Some? {
        outbox := outbox + [Close(1000, "Desconexión manual")];
      }
      socket := None;
      state := Disconnected;
      events := events + [DisconnectRequested];
    }

    /**
     * `sendPairingCode`: re-send the registration with the code as its
     * client key, when there is a socket. Always reports success and never
     * changes the state.
     */
    method SendPairingCode(code: string) returns (ok: bool)
      requires Valid()
      modifies this`outbox
      ensures Valid()
      ensures ok
      ensures outbox == old(outbox) + (if socket.Some? then [Register(RegisterId, Some(code))] else [])
    {
      if socket.Some? {
        outbox := outbox + [Register(RegisterId, Some(code))];
      }
      ok := true;
    }

    /**
     * `sendCommand`: hand the command text to the socket unchanged, when
     * there is a socket. Always reports success and never changes the state.
     */
    method SendCommand(command: string) returns (ok: bool)
      requires Valid()
      modifies this`outbox
      ensures Valid()
      ensures ok
      ensures outbox == old(outbox) + (if socket.Some? then [Raw(command)] else [])
    {
      if socket.Some? {
        outbox := outbox + [Raw(command)];
      }
      ok := true;
    }
  }
}
