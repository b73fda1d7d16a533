/** The adb connection plugin: its poll loop, one wake-up at a time. */
module AdbConnection {
  import opened Bytes
  import opened AdbPackets

  // ------------------------------------------------------------------ the state and what moves it

  /** A debugger connection: what was read from it and what can still be read. */
  datatype Conn = Conn(id: nat, consumed: seq<Byte>, unread: seq<Byte>)

  datatype State = State(
    socket: Option<Conn>,
    control: bool,
    agentLoaded: bool,
    agentListening: bool,
    agentHasSocket: bool,
    sentAgentFds: bool,
    performedHandshake: bool,
    notifiedDdmActive: bool)

  /** A set of file descriptors on its way to the agent, with the message sent along. */
  datatype FdSet = FdSet(conn: nat, requireHandshake: bool)

  /** What the agent's transport tells the plugin. */
  datatype Message = ListenStart | ListenEnd | Accepted | HandshakeComplete | Closing | Unknown

  /** The outcomes of the system calls of one wake-up. */
  datatype Io = Io(peekOk: bool, ioctlOk: bool, recvOk: bool, sendOk: bool, attachOk: bool, reply: Option<Chunk>)

  datatype Event =
    | FromAgent(message: Message, io: Io)
    | FromControl(newFd: Option<nat>, io: Io)
    | ControlHangup
    | FromSocket(io: Io)
    | SocketHangup
    | NewControl
    | Woken

  /** What leaves the plugin in one wake-up. */
  datatype Output = Nothing | Fds(fds: FdSet) | HandshakeReply(to: nat, bytes: seq<Byte>) | Packet(to: nat, bytes: seq<Byte>)

  datatype Result = Result(state: State, out: Output)

  // ------------------------------------------------------------------ the steps, as functions

  function CloseFdsStep(s: State): State {
    s.(socket := None,
       performedHandshake := false,
       notifiedDdmActive := s.notifiedDdmActive && s.agentLoaded)
  }

  function SendFdsStep(s: State, require_: bool, ok: bool): Result {
    if s.socket.None? || !ok then Result(s, Nothing)
    else Result(s.(sentAgentFds := true), Fds(FdSet(s.socket.value.id, require_)))
  }

  function Consume(c: Conn, n: nat): Conn
    requires n <= |c.unread|
  {
    c.(consumed := c.consumed + c.unread[..n], unread := c.unread[n..])
  }

  function HandshakeStep(s: State, io: Io): Result
    requires s.socket.Some?
  {
    var c := s.socket.value;
    if !io.ioctlOk || |c.unread| < HANDSHAKE_LEN || !io.recvOk || c.unread[..HANDSHAKE_LEN] != HANDSHAKE || !io.sendOk then
      Result(CloseFdsStep(s), Nothing)
    else
      Result(s.(socket := Some(Consume(c, HANDSHAKE_LEN)), performedHandshake := true), HandshakeReply(c.id, HANDSHAKE))
  }

  function AttachStep(s: State, io: Io): State {
    s.(agentLoaded := s.agentLoaded || io.attachOk)
  }

  /** A DDM packet the plugin handles without the agent: a whole one, for the DDM command. */
  predicate CanHandle(unread: seq<Byte>) {
    && |unread| >= HEADER_LEN
    && unread[9] == DDM_COMMAND_SET && unread[10] == DDM_COMMAND
    && HEADER_LEN <= DeclaredLength(unread) <= |unread|
  }

  /** Whether a reply fits a packet; its length field has 32 bits. */
  predicate Sendable(reply: Chunk) {
    DDM_HEADER_LEN + |reply.data| < 0x1_0000_0000
  }

  function PacketStep(s: State, io: Io): Result
    requires s.socket.Some? && CanHandle(s.socket.value.unread)
  {
    var c := s.socket.value;
    var packet := c.unread[..DeclaredLength(c.unread)];
    var t := s.(socket := Some(Consume(c, |packet|)));
    if ReadChunk(packet).None? then Result(t, Nothing)
    else
      Result(t.(notifiedDdmActive := true),
             if io.reply.None? || !t.performedHandshake || !Sendable(io.reply.value) then Nothing
             else Packet(c.id, DdmPacket(ReadBe32(packet, 4), Reply, io.reply.value.type_, io.reply.value.data)))
  }

  function DataStep(s: State, io: Io): Result
    requires s.socket.Some?
  {
    var c := s.socket.value;
    if !s.performedHandshake then HandshakeStep(s, io)
    else if !io.peekOk || c.unread == [] then Result(CloseFdsStep(s), Nothing)
    else if |c.unread| < HEADER_LEN || c.unread[9] != DDM_COMMAND_SET || c.unread[10] != DDM_COMMAND || DeclaredLength(c.unread) < HEADER_LEN then
      Result(AttachStep(s, io), Nothing)
    else if !io.ioctlOk then Result(CloseFdsStep(s), Nothing)
    else if |c.unread| < DeclaredLength(c.unread) then Result(AttachStep(s, io), Nothing)
    else if !io.recvOk then Result(CloseFdsStep(s), Nothing)
    else PacketStep(s, io)
  }

  function MessageStep(s: State, m: Message, io: Io): Result {
    match m
    case ListenStart =>
      var t := s.(agentListening := true);
      if t.socket.Some? then SendFdsStep(t, !t.performedHandshake, io.sendOk) else Result(t, Nothing)
    case ListenEnd => Result(s.(agentListening := false), Nothing)
    case HandshakeComplete => Result(s.(performedHandshake := s.performedHandshake || s.agentHasSocket), Nothing)
    case Closing => Result(CloseFdsStep(s).(agentHasSocket := false), Nothing)
    case Accepted => Result(s.(agentHasSocket := true, sentAgentFds := false, performedHandshake := false), Nothing)
    case Unknown => Result(s, Nothing)
  }

  function ControlStep(debuggable: bool, s: State, newFd: Option<nat>, io: Io): Result {
    if !debuggable || newFd.None? then Result(s.(control := false), Nothing)
    else if s.socket.Some? then Result(s, Nothing)
    else
      var t := s.(socket := Some(Conn(newFd.value, [], [])));
      if t.agentLoaded && t.agentListening then SendFdsStep(t, true, io.sendOk) else Result(t, Nothing)
  }

  function SocketStep(s: State, io: Io): Result
    requires s.socket.Some?
  {
    if !s.agentLoaded then DataStep(s, io)
    else if s.agentListening && !s.sentAgentFds then SendFdsStep(s, true, io.sendOk)
    else Result(s, Nothing)
  }

  /** Which of the polled descriptors can be the one that woke the loop up. */
  predicate Polled(s: State, e: Event) {
    match e
    case FromAgent(_, _) => s.agentLoaded
    case FromControl(_, _) => s.control && s.socket.None?
    case ControlHangup => s.control && s.socket.None?
    case FromSocket(_) => !s.agentHasSocket && !s.sentAgentFds && s.socket.Some?
    case SocketHangup => !s.agentHasSocket && !s.sentAgentFds && s.socket.Some?
    case NewControl => !s.control
    case Woken => true
  }

  function Step(debuggable: bool, s: State, e: Event): Result
    requires Polled(s, e)
  {
    match e
    case FromAgent(m, io) => MessageStep(s, m, io)
    case FromControl(newFd, io) => ControlStep(debuggable, s, newFd, io)
    case ControlHangup => Result(s.(control := false), Nothing)
    case FromSocket(io) => SocketStep(s, io)
    case SocketHangup => Result(CloseFdsStep(s), Nothing)
    case NewControl => Result(s.(control := true), Nothing)
    case Woken => Result(s, Nothing)
  }

  /**
    * The loop's own checks for a wake-up: the process must be debuggable unless the control socket
    * woke it, fds are sent only while none are outstanding, a hang-up of the control socket finds
    * no connection with the agent, and data is handled without the agent only before it listens.
    */
  predicate ChecksHold(debuggable: bool, s: State, e: Event) {
    match e
    case FromAgent(m, _) => debuggable && s.agentLoaded && (m == ListenStart && s.socket.Some? ==> !s.sentAgentFds)
    case FromControl(newFd, _) =>
      debuggable && newFd.Some? && s.socket.None? && s.agentLoaded && s.agentListening ==> !s.sentAgentFds
    case ControlHangup => !s.agentHasSocket
    case FromSocket(_) => debuggable && !s.agentHasSocket && (!s.agentLoaded ==> !s.agentListening)
    case SocketHangup => debuggable && !s.agentHasSocket
    case NewControl => true
    case Woken => true
  }

  // ------------------------------------------------------------------ the plugin itself

  const INITIAL := State(None, false, false, false, false, false, false, false)

  class AdbConnectionState {
    /** Whether JDWP is allowed; a process may also be profileable only. */
    const debuggable: bool
    var adbConnectionSocket: Option<Conn>
    var controlCtx: bool
    var agentLoaded: bool
    var agentListening: bool
    var agentHasSocket: bool
    var sentAgentFds: bool
    var performedHandshake: bool
    var notifiedDdmActive: bool
    /** What the last wake-up sent. */
    var out: Output

    function View(): State
      reads this
    {
      State(adbConnectionSocket, controlCtx, agentLoaded, agentListening, agentHasSocket, sentAgentFds, performedHandshake, notifiedDdmActive)
    }

    constructor (debuggable: bool)
      ensures this.debuggable == debuggable && View() == INITIAL && out == Nothing
    {
      this.debuggable := debuggable;
      adbConnectionSocket, controlCtx := None, false;
      agentLoaded, agentListening, agentHasSocket := false, false, false;
      sentAgentFds, performedHandshake, notifiedDdmActive := false, false, false;
      out := Nothing;
    }

    /** The check is the source's: the notification always changes something. */
    method NotifyDdms(active: bool)
      requires notifiedDdmActive != active
      modifies this`notifiedDdmActive
      ensures notifiedDdmActive == active
    {
      notifiedDdmActive := active;
    }

    method CloseFds()
      modifies this
      ensures View() == CloseFdsStep(old(View())) && out == old(out)
    {
      adbConnectionSocket := None;
      performedHandshake := false;
      if !agentLoaded && notifiedDdmActive {
        NotifyDdms(false);
      }
    }

    /** Duplicates and sends the descriptors; a set already on its way must have been taken. */
    method SendAgentFds(requireHandshake: bool, sendOk: bool)
      requires !sentAgentFds && adbConnectionSocket.Some?
      modifies this`sentAgentFds, this`out
      ensures Result(View(), out) == var r := SendFdsStep(old(View()), requireHandshake, sendOk);
                                     Result(r.state, if r.out.Nothing? then old(out) else r.out)
    {
      var fds := FdSet(adbConnectionSocket.value.id, requireHandshake);
      if sendOk {
        sentAgentFds := true;
        out := Fds(fds);
      }
    }

    method PerformHandshake(io: Io)
      requires !performedHandshake && adbConnectionSocket.Some? && out == Nothing
      modifies this
      ensures Result(View(), out) == HandshakeStep(old(View()), io)
    {
      var avail := |adbConnectionSocket.value.unread|;
      if !io.ioctlOk || avail < HANDSHAKE_LEN {
        CloseFds();
        return;
      }
      if !io.recvOk {
        CloseFds();
        return;
      }
      var message := adbConnectionSocket.value.unread[..HANDSHAKE_LEN];
      adbConnectionSocket := Some(Consume(adbConnectionSocket.value, HANDSHAKE_LEN));
      if message != HANDSHAKE {
        CloseFds();
        return;
      }
      if !io.sendOk {
        CloseFds();
        return;
      }
      out := HandshakeReply(adbConnectionSocket.value.id, HANDSHAKE);
      performedHandshake := true;
    }

    method AttachJdwpAgent(io: Io)
      modifies this`agentLoaded
      ensures View() == AttachStep(old(View()), io)
    {
      if !io.attachOk {
        return;
      }
      agentLoaded := true;
    }

    /** `SendDdmPacket` from the poll thread. */
    method SendReply(id: UInt32, reply: Chunk)
      requires adbConnectionSocket.Some? && out == Nothing
      modifies this`out
      ensures out == if !performedHandshake || !Sendable(reply) then Nothing
                     else Packet(adbConnectionSocket.value.id, DdmPacket(id, Reply, reply.type_, reply.data))
    {
      if !performedHandshake || !Sendable(reply) {
        return;
      }
      out := Packet(adbConnectionSocket.value.id, DdmPacket(id, Reply, reply.type_, reply.data));
    }

    method HandleDataWithoutAgent(io: Io)
      requires !agentLoaded && !agentListening && adbConnectionSocket.Some? && out == Nothing
      modifies this
      ensures Result(View(), out) == DataStep(old(View()), io)
    {
      if !performedHandshake {
        PerformHandshake(io);
        return;
      }
      var unread := adbConnectionSocket.value.unread;
      if !io.peekOk || |unread| == 0 {
        CloseFds();
        return;
      } else if |unread| < HEADER_LEN {
        AttachJdwpAgent(io);
        return;
      }
      var fullLen := DeclaredLength(unread);
      var packetId := ReadBe32(unread, 4);
      if unread[9] != DDM_COMMAND_SET || unread[10] != DDM_COMMAND || fullLen < HEADER_LEN {
        AttachJdwpAgent(io);
        return;
      }
      if !io.ioctlOk {
        CloseFds();
        return;
      } else if |unread| < fullLen {
        AttachJdwpAgent(io);
        return;
      }
      if !io.recvOk {
        CloseFds();
        return;
      }
      var packet := unread[..fullLen];
      adbConnectionSocket := Some(Consume(adbConnectionSocket.value, fullLen));
      SameId(unread, fullLen);
      var chunk := ReadChunk(packet);
      if chunk.None? {
        return;
      }
      if !notifiedDdmActive {
        NotifyDdms(true);
      }
      if io.reply.None? {
        return;
      }
      SendReply(packetId, io.reply.value);
    }

    method HandleMessage(m: Message, io: Io)
      requires agentLoaded && out == Nothing
      requires m == ListenStart && adbConnectionSocket.Some? ==> !sentAgentFds
      modifies this
      ensures Result(View(), out) == MessageStep(old(View()), m, io)
    {
      match m
      case ListenStart =>
        agentListening := true;
        if adbConnectionSocket.Some? {
          SendAgentFds(!performedHandshake, io.sendOk);
        }
      case ListenEnd => agentListening := false;
      case HandshakeComplete =>
        if agentHasSocket {
          performedHandshake := true;
        }
      case Closing =>
        CloseFds();
        agentHasSocket := false;
      case Accepted =>
        agentHasSocket := true;
        sentAgentFds := false;
        performedHandshake := false;
      case Unknown =>
    }

    method AcceptConnection(newFd: Option<nat>, io: Io)
      requires controlCtx && out == Nothing
      requires debuggable && newFd.Some? && adbConnectionSocket.None? && agentLoaded && agentListening ==> !sentAgentFds
      modifies this
      ensures Result(View(), out) == ControlStep(debuggable, old(View()), newFd, io)
    {
      if !debuggable {
        controlCtx := false;
        return;
      }
      var maybeSendFds := false;
      if newFd.None? {
        controlCtx := false;
        return;
      } else if adbConnectionSocket.Some? {
        // A second debugger is accepted and dropped.
      } else {
        adbConnectionSocket := Some(Conn(newFd.value, [], []));
        maybeSendFds := true;
      }
      if maybeSendFds && agentLoaded && agentListening {
        SendAgentFds(true, io.sendOk);
      }
    }

    /** One turn of the poll loop. */
    method HandleWakeup(e: Event)
      requires Polled(View(), e) && ChecksHold(debuggable, View(), e)
      modifies this
      ensures Result(View(), out) == Step(debuggable, old(View()), e)
    {
      out := Nothing;
      match e
      case FromAgent(m, io) => HandleMessage(m, io);
      case FromControl(newFd, io) => AcceptConnection(newFd, io);
      case ControlHangup => controlCtx := false;
      case FromSocket(io) =>
        if !agentLoaded {
          HandleDataWithoutAgent(io);
        } else if agentListening && !sentAgentFds {
          SendAgentFds(true, io.sendOk);
        }
      case SocketHangup => CloseFds();
      case NewControl => controlCtx := true;
      case Woken =>
    }
  }

  lemma SameId(unread: seq<Byte>, n: nat)
    requires HEADER_LEN <= n <= |unread|
    ensures ReadBe32(unread[..n], 4) == ReadBe32(unread, 4)
  {
  }
}
