/**
  * What the plugin does with the bytes of a connection before the agent is loaded, and what its
  * flags say of a run, in terms of the bytes themselves.
  */
module AdbReplies {
  import opened Bytes
  import opened AdbPackets
  import opened AdbConnection
  import opened AdbRuns

  // ------------------------------------------------------------------ packets, as bytes

  /** The number that bytes in network order stand for. */
  function Number(s: seq<Byte>): nat {
    if s == [] then 0 else Number(s[..|s| - 1]) * 256 + s[|s| - 1]
  }

  lemma NumberNext(s: seq<Byte>, p: nat, n: nat)
    requires p + n < |s|
    ensures Number(s[p..p + n + 1]) == Number(s[p..p + n]) * 256 + s[p + n]
    ensures Number(s[p..p]) == 0
  {
    assert s[p..p + n + 1][..n] == s[p..p + n];
  }

  lemma NumberOfFour(s: seq<Byte>, p: nat)
    requires p + 4 <= |s|
    ensures ReadBe32(s, p) == Number(s[p..p + 4])
  {
    NumberNext(s, p, 0);
    NumberNext(s, p, 1);
    NumberNext(s, p, 2);
    NumberNext(s, p, 3);
  }

  /** The bytes begin with the header of a command that the plugin may answer: command 1 of set 199. */
  predicate StartsRequest(s: seq<Byte>) {
    |s| >= 11 && s[9] == 199 && s[10] == 1 && Number(s[0..4]) >= 11
  }

  /** All of the packet that the bytes begin with is there. */
  predicate IsThere(s: seq<Byte>)
    requires |s| >= 11
  {
    Number(s[0..4]) <= |s|
  }

  /** Exactly one such packet. */
  predicate IsRequest(s: seq<Byte>) {
    StartsRequest(s) && Number(s[0..4]) == |s|
  }

  /** A packet with a chunk in it: type, length, and at least that many bytes. */
  predicate HasChunk(s: seq<Byte>) {
    |s| >= 19 && Number(s[15..19]) <= |s| - 19
  }

  lemma ChunkIff(p: seq<Byte>)
    requires |p| >= HEADER_LEN
    ensures ReadChunk(p).Some? <==> HasChunk(p)
    ensures HasChunk(p) ==> ReadChunk(p).value.type_ == Number(p[11..15]) && ReadChunk(p).value.data == p[19..19 + Number(p[15..19])]
  {
    hide ReadBe32, Number;
    if |p| >= 19 {
      NumberOfFour(p, 11);
      NumberOfFour(p, 15);
    }
  }

  lemma HandleIff(unread: seq<Byte>)
    ensures CanHandle(unread) <==> StartsRequest(unread) && IsThere(unread)
    ensures |unread| >= 11 ==> DeclaredLength(unread) == Number(unread[0..4])
  {
    hide ReadBe32, Number;
    if |unread| >= 11 { NumberOfFour(unread, 0); }
  }

  /** The packet that is taken is a request; what is left is the rest. */
  lemma TakenIsRequest(unread: seq<Byte>, n: nat)
    requires StartsRequest(unread) && n == Number(unread[0..4]) <= |unread|
    ensures IsRequest(unread[..n]) && unread == unread[..n] + unread[n..]
  {
    hide Number;
    assert unread[..n][0..4] == unread[0..4];
  }

  lemma HandshakeText(i: nat)
    requires i < 14
    ensures |HANDSHAKE| == |"JDWP-Handshake"| == 14 && HANDSHAKE[i] == "JDWP-Handshake"[i] as int
  {
  }

  /** The first fourteen bytes say JDWP-Handshake. */
  predicate SaysHandshake(s: seq<Byte>) {
    |s| >= 14 && forall i | 0 <= i < 14 :: s[i] == "JDWP-Handshake"[i] as int
  }

  lemma HandshakeIff(s: seq<Byte>)
    ensures SaysHandshake(s) <==> |s| >= HANDSHAKE_LEN && s[..HANDSHAKE_LEN] == HANDSHAKE
  {
    hide SaysHandshake;
    SaysIs(s);
    if |s| >= 14 {
      forall i | 0 <= i < 14 ensures HANDSHAKE[i] == "JDWP-Handshake"[i] as int { HandshakeText(i); }
      HandshakeText(0);
      assert s[..14] == HANDSHAKE <==> forall i | 0 <= i < 14 :: s[..14][i] == HANDSHAKE[i];
      assert forall i | 0 <= i < 14 :: s[..14][i] == s[i];
    }
  }

  lemma SaysIs(s: seq<Byte>)
    ensures SaysHandshake(s) <==> |s| >= 14 && forall i | 0 <= i < 14 :: s[i] == "JDWP-Handshake"[i] as int
  {
  }

  // ------------------------------------------------------------------ a reply, as bytes

  /** A reply to a request: one packet with the request's id, the reply flag, no error, and the chunk given. */
  predicate IsReply(p: seq<Byte>, request: seq<Byte>, reply: Chunk) {
    && |p| == 19 + |reply.data| && |request| >= 8
    && Number(p[0..4]) == |p| && p[4..8] == request[4..8]
    && p[8] == 0x80 && p[9] == 0 && p[10] == 0
    && Number(p[11..15]) == reply.type_ && Number(p[15..19]) == |reply.data| && p[19..] == reply.data
  }

  lemma Be32OfRead(s: seq<Byte>, p: nat)
    requires p + 4 <= |s|
    ensures Be32(ReadBe32(s, p)) == s[p..p + 4]
  {
    var a: int, b: int, c: int, d: int := s[p], s[p + 1], s[p + 2], s[p + 3];
    Digits(a, b, c, d);
    assert s[p..p + 4] == [s[p], s[p + 1], s[p + 2], s[p + 3]];
  }

  lemma Digits(a: int, b: int, c: int, d: int)
    requires 0 <= a < 256 && 0 <= b < 256 && 0 <= c < 256 && 0 <= d < 256
    ensures var v := a * 0x100_0000 + b * 0x1_0000 + c * 0x100 + d;
            v / 0x100_0000 == a && v / 0x1_0000 % 0x100 == b && v / 0x100 % 0x100 == c && v % 0x100 == d
  {
    var v := a * 0x100_0000 + b * 0x1_0000 + c * 0x100 + d;
    assert v / 0x100 == a * 0x1_0000 + b * 0x100 + c;
    assert v / 0x1_0000 == a * 0x100 + b;
  }

  lemma NumberOfBe32(v: UInt32)
    ensures Number(Be32(v)) == v
  {
    hide Number;
    Be32RoundTrip(v, [], []);
    assert [] + Be32(v) + [] == Be32(v);
    NumberOfFour(Be32(v), 0);
    assert Be32(v)[0..4] == Be32(v);
  }

  lemma ReplyIs(request: seq<Byte>, reply: Chunk)
    requires |request| >= 11 && Sendable(reply)
    ensures IsReply(DdmPacket(ReadBe32(request, 4), Reply, reply.type_, reply.data), request, reply)
  {
    hide Be32, ReadBe32, Number;
    var id := ReadBe32(request, 4);
    var p := DdmPacket(id, Reply, reply.type_, reply.data);
    Be32OfRead(request, 4);
    NumberOfBe32(|p|);
    NumberOfBe32(reply.type_);
    NumberOfBe32(|reply.data|);
    assert p[0..4] == Be32(|p|) && p[4..8] == Be32(id) && p[8..11] == [0x80, 0, 0];
    assert p[11..15] == Be32(reply.type_) && p[15..19] == Be32(|reply.data|) && p[19..] == reply.data;
    assert p[8] == p[8..11][0] && p[9] == p[8..11][1] && p[10] == p[8..11][2];
  }

  // ------------------------------------------------------------------ what becomes of the data

  /** Data that closes the connection: a failed handshake, an end or error, or an error on the way to a request. */
  predicate DataCloses(s: State, io: Io)
    requires s.socket.Some?
  {
    var u := s.socket.value.unread;
    if !s.performedHandshake then !(SaysHandshake(u) && io.ioctlOk && io.recvOk && io.sendOk)
    else !io.peekOk || u == [] || (StartsRequest(u) && (!io.ioctlOk || (IsThere(u) && !io.recvOk)))
  }

  /** Data the plugin leaves to the agent: no request, or only part of one. */
  predicate ForAgent(s: State, io: Io)
    requires s.socket.Some?
  {
    var u := s.socket.value.unread;
    s.performedHandshake && io.peekOk && u != [] && (StartsRequest(u) ==> io.ioctlOk && !IsThere(u))
  }

  /** Data the plugin handles: one whole request. */
  predicate ForPlugin(s: State, io: Io)
    requires s.socket.Some?
  {
    var u := s.socket.value.unread;
    s.performedHandshake && io.peekOk && io.ioctlOk && io.recvOk && StartsRequest(u) && IsThere(u)
  }

  /** What is read from the connection by a step that keeps it. */
  function Taken(c: Conn, d: Conn): seq<Byte> {
    if |c.consumed| <= |d.consumed| then d.consumed[|c.consumed|..] else []
  }

  /** The step read `bytes`, and only these, from the connection. */
  predicate Reads(c: Conn, d: Conn, bytes: seq<Byte>) {
    d.id == c.id && d.consumed == c.consumed + bytes && c.unread == bytes + d.unread
  }

  /** The reply is sent if there is one, and if its length fits. */
  predicate Answers(io: Io) {
    io.reply.Some? && |io.reply.value.data| < 0x1_0000_0000 - 19
  }

  lemma ConsumeReads(c: Conn, n: nat)
    requires n <= |c.unread|
    ensures Reads(c, Consume(c, n), c.unread[..n])
  {
    assert c.unread == c.unread[..n] + c.unread[n..];
  }

  /** A whole request: it alone is read, and if it has a chunk, listeners learn of it and the reply goes out. */
  lemma PluginAnswers(s: State, io: Io, n: nat)
    requires s.socket.Some? && !s.agentLoaded && ForPlugin(s, io) && n == Number(s.socket.value.unread[0..4])
    ensures n <= |s.socket.value.unread|
    ensures var c, r := s.socket.value, DataStep(s, io); var request := c.unread[..n];
            && IsRequest(request) && r.state.socket.Some? && Reads(c, r.state.socket.value, request)
            && r.state == s.(socket := r.state.socket, notifiedDdmActive := s.notifiedDdmActive || HasChunk(request))
            && (HasChunk(request) && Answers(io) ==> r.out.Packet? && r.out.to == c.id && IsReply(r.out.bytes, request, io.reply.value))
            && (!(HasChunk(request) && Answers(io)) ==> r.out == Nothing)
  {
    hide ReadBe32, Number, DdmPacket, IsReply, ReadChunk;
    var c := s.socket.value;
    HandleIff(c.unread);
    TakenIsRequest(c.unread, n);
    ConsumeReads(c, n);
    ChunkIff(c.unread[..n]);
    if io.reply.Some? && Sendable(io.reply.value) { ReplyIs(c.unread[..n], io.reply.value); }
  }

  lemma DataIs(s: State, io: Io)
    requires s.socket.Some?
    ensures !s.performedHandshake ==> DataStep(s, io) == HandshakeStep(s, io)
    ensures s.performedHandshake && DataCloses(s, io) ==> DataStep(s, io) == Result(CloseFdsStep(s), Nothing)
    ensures ForAgent(s, io) ==> DataStep(s, io) == Result(AttachStep(s, io), Nothing)
    ensures s.performedHandshake ==> DataCloses(s, io) || ForAgent(s, io) || ForPlugin(s, io)
  {
    hide Number, ReadBe32, PacketStep, HandshakeStep;
    HandleIff(s.socket.value.unread);
  }

  lemma HandshakeIs(s: State, io: Io)
    requires s.socket.Some? && !s.performedHandshake
    ensures DataCloses(s, io) ==> HandshakeStep(s, io) == Result(CloseFdsStep(s), Nothing)
    ensures !DataCloses(s, io) ==>
              var c, r := s.socket.value, HandshakeStep(s, io);
              && r.out == HandshakeReply(c.id, c.unread[..14]) && r.state.socket.Some? && Reads(c, r.state.socket.value, c.unread[..14])
              && r.state == s.(socket := r.state.socket, performedHandshake := true)
  {
    var c := s.socket.value;
    hide SaysHandshake;
    HandshakeIff(c.unread);
    HandshakeLength();
    if |c.unread| >= 14 { ConsumeReads(c, 14); }
  }

  // ------------------------------------------------------------------ what a wake-up does

  /** When the agent is loaded: exactly for data that is not the plugin's. */
  lemma LoadsIff(debuggable: bool, s: State, e: Event)
    requires Polled(s, e) && !s.agentLoaded
    ensures Step(debuggable, s, e).state.agentLoaded <==> e.FromSocket? && ForAgent(s, e.io) && e.io.attachOk
  {
    hide DataStep, ForAgent, ForPlugin, DataCloses, Number;
    if e.FromSocket? {
      DataIs(s, e.io);
      Exclusive(s, e.io);
      if !s.performedHandshake {
        HandshakeIs(s, e.io);
      } else if ForPlugin(s, e.io) {
        PluginAnswers(s, e.io, Number(s.socket.value.unread[0..4]));
      }
    }
  }

  lemma Exclusive(s: State, io: Io)
    requires s.socket.Some?
    ensures !(DataCloses(s, io) && ForAgent(s, io)) && !(ForAgent(s, io) && ForPlugin(s, io)) && !(DataCloses(s, io) && ForPlugin(s, io))
    ensures ForAgent(s, io) || ForPlugin(s, io) ==> s.performedHandshake
    ensures ForPlugin(s, io) ==> |s.socket.value.unread| >= 11
  {
    hide Number;
  }

  /** When a connection is closed: it hangs up, the agent closes it, or its data does. */
  lemma ClosesIff(debuggable: bool, s: State, e: Event)
    requires Polled(s, e) && s.socket.Some?
    ensures Step(debuggable, s, e).state.socket.None?
       <==> e.SocketHangup? || (e.FromAgent? && e.message == Closing) || (e.FromSocket? && !s.agentLoaded && DataCloses(s, e.io))
  {
    hide DataStep, ForAgent, ForPlugin, DataCloses, Number;
    if e.FromSocket? && !s.agentLoaded {
      DataIs(s, e.io);
      Exclusive(s, e.io);
      if !s.performedHandshake {
        HandshakeIs(s, e.io);
      } else if ForPlugin(s, e.io) {
        PluginAnswers(s, e.io, Number(s.socket.value.unread[0..4]));
      }
    }
  }

  lemma PacketOnlyFor(debuggable: bool, s: State, e: Event)
    requires Polled(s, e)
    ensures Step(debuggable, s, e).out.Packet? ==>
              && e.FromSocket? && !s.agentLoaded && s.socket.Some? && ForPlugin(s, e.io) && |s.socket.value.unread| >= 11
              && Step(debuggable, s, e) == DataStep(s, e.io)
  {
    hide DataStep, ForAgent, ForPlugin, DataCloses, Number;
    if e.FromSocket? && !s.agentLoaded {
      DataIs(s, e.io);
      Exclusive(s, e.io);
      if !s.performedHandshake { HandshakeIs(s, e.io); }
    }
  }

  // ------------------------------------------------------------------ every run

  /**
    * In every run: a wake-up that sends a packet has read exactly one request, on the connection
    * the packet goes to, and the packet is the reply to it.
    */
  lemma ReplyInEveryRun(debuggable: bool, states: seq<Sys>, actions: seq<Action>, i: nat)
    requires Run(debuggable, states, actions) && i < |actions| && actions[i].Wakeup?
    requires Step(debuggable, states[i].plugin, actions[i].event).out.Packet?
    ensures var s, t, e := states[i].plugin, states[i + 1].plugin, actions[i].event;
            var out := Step(debuggable, s, e).out;
            && e.FromSocket? && s.socket.Some? && t.socket.Some? && out.to == s.socket.value.id && !s.agentLoaded && s.performedHandshake
            && var request := Taken(s.socket.value, t.socket.value);
               && Reads(s.socket.value, t.socket.value, request) && IsRequest(request) && HasChunk(request)
               && Answers(e.io) && IsReply(out.bytes, request, e.io.reply.value)
  {
    var s, e := states[i].plugin, actions[i].event;
    assert Enabled(states[i], actions[i]) && states[i + 1] == Apply(debuggable, states[i], actions[i]);
    hide Run, DataStep, ForPlugin, Number, IsReply, HasChunk, IsRequest;
    PacketOnlyFor(debuggable, s, e);
    var n := Number(s.socket.value.unread[0..4]);
    PluginAnswers(s, e.io, n);
    Exclusive(s, e.io);
    TakenOfReads(s.socket.value, states[i + 1].plugin.socket.value, s.socket.value.unread[..n]);
  }

  lemma TakenOfReads(c: Conn, d: Conn, bytes: seq<Byte>)
    requires Reads(c, d, bytes)
    ensures Taken(c, d) == bytes
  {
  }

  /**
    * In every run: a request at the front of the connection, read without an error, is read alone;
    * with a chunk and a reply to it, the reply goes out.
    */
  lemma RequestInEveryRun(debuggable: bool, states: seq<Sys>, actions: seq<Action>, i: nat, request: seq<Byte>)
    requires Run(debuggable, states, actions) && i < |actions| && actions[i].Wakeup? && actions[i].event.FromSocket?
    requires var s := states[i].plugin; s.socket.Some? && !s.agentLoaded && s.performedHandshake
    requires IsRequest(request) && request <= states[i].plugin.socket.value.unread
    requires var io := actions[i].event.io; io.peekOk && io.ioctlOk && io.recvOk
    ensures var s, t, io := states[i].plugin, states[i + 1].plugin, actions[i].event.io;
            var out := Step(debuggable, s, actions[i].event).out;
            && t.socket.Some? && Reads(s.socket.value, t.socket.value, request)
            && t == s.(socket := t.socket, notifiedDdmActive := s.notifiedDdmActive || HasChunk(request))
            && (out.Packet? <==> HasChunk(request) && Answers(io))
            && (out.Packet? ==> out.to == s.socket.value.id && IsReply(out.bytes, request, io.reply.value))
  {
    var s, e := states[i].plugin, actions[i].event;
    assert Enabled(states[i], actions[i]) && states[i + 1] == Apply(debuggable, states[i], actions[i]);
    var u := s.socket.value.unread;
    RequestInFront(request, u);
    assert ForPlugin(s, e.io);
    hide Run, DataStep, ForPlugin, Number, IsReply, HasChunk, IsRequest;
    PluginAnswers(s, e.io, |request|);
  }

  lemma RequestInFront(request: seq<Byte>, u: seq<Byte>)
    requires IsRequest(request) && request <= u
    ensures StartsRequest(u) && IsThere(u) && Number(u[0..4]) == |request| && u[..|request|] == request
  {
    hide Number;
    assert u[0..4] == request[0..4] && u[9] == request[9] && u[10] == request[10];
  }

  /** In every run the agent is loaded by data that is not the plugin's, and by nothing else. */
  lemma LoadedInEveryRun(debuggable: bool, states: seq<Sys>, actions: seq<Action>, i: nat)
    requires Run(debuggable, states, actions) && i < |actions| && !states[i].plugin.agentLoaded
    ensures states[i + 1].plugin.agentLoaded
       <==> actions[i].Wakeup? && actions[i].event.FromSocket? && states[i].plugin.socket.Some?
            && ForAgent(states[i].plugin, actions[i].event.io) && actions[i].event.io.attachOk
  {
    assert Enabled(states[i], actions[i]) && states[i + 1] == Apply(debuggable, states[i], actions[i]);
    hide Run, Step, ForAgent;
    if actions[i].Wakeup? { LoadsIff(debuggable, states[i].plugin, actions[i].event); }
  }

  // ------------------------------------------------------------------ the control socket

  /** The step loses the control socket: it hung up, or what came from it was refused. */
  predicate LosesControl(debuggable: bool, a: Action) {
    a.Wakeup? && (a.event.ControlHangup? || (a.event.FromControl? && (!debuggable || a.event.newFd.None?)))
  }

  /** It was opened at `j` and not lost before `i`. */
  predicate OpenedAt(debuggable: bool, actions: seq<Action>, j: nat, i: nat)
    requires i <= |actions|
  {
    j < i && actions[j] == Wakeup(NewControl) && forall m | j < m < i :: !LosesControl(debuggable, actions[m])
  }

  lemma EnabledIs(sys: Sys, a: Action)
    requires Enabled(sys, a) && a.Wakeup?
    ensures Polled(sys.plugin, a.event)
  {
  }

  lemma WakeupKeepsControl(debuggable: bool, s: State, e: Event)
    requires Polled(s, e)
    ensures Step(debuggable, s, e).state.control <==> e.NewControl? || (s.control && !LosesControl(debuggable, Wakeup(e)))
  {
    hide DataStep;
    if e.FromSocket? { DataKeepsFlags(s, e.io); }
  }

  lemma ControlStepIs(debuggable: bool, sys: Sys, a: Action)
    requires Enabled(sys, a)
    ensures Apply(debuggable, sys, a).plugin.control
       <==> a == Wakeup(NewControl) || (sys.plugin.control && !LosesControl(debuggable, a))
  {
    hide Step, Enabled;
    if a.Wakeup? {
      EnabledIs(sys, a);
      WakeupKeepsControl(debuggable, sys.plugin, a.event);
    }
  }

  /** In every run the control socket is there exactly if it was opened and not lost since. */
  lemma {:induction false} ControlInEveryRun(debuggable: bool, states: seq<Sys>, actions: seq<Action>, i: nat)
    requires Run(debuggable, states, actions) && i < |states|
    ensures states[i].plugin.control <==> exists j | 0 <= j < i :: OpenedAt(debuggable, actions, j, i)
  {
    hide Apply, Enabled, LosesControl;
    if i > 0 {
      var k := i - 1;
      ControlInEveryRun(debuggable, states, actions, k);
      assert Enabled(states[k], actions[k]) && states[k + 1] == Apply(debuggable, states[k], actions[k]);
      ControlStepIs(debuggable, states[k], actions[k]);
      if states[i].plugin.control {
        if actions[k] == Wakeup(NewControl) {
          assert OpenedAt(debuggable, actions, k, i);
        } else {
          var j :| 0 <= j < k && OpenedAt(debuggable, actions, j, k);
          assert OpenedAt(debuggable, actions, j, i);
        }
      }
      forall j | 0 <= j < i && OpenedAt(debuggable, actions, j, i) ensures states[i].plugin.control {
        if j < k { assert OpenedAt(debuggable, actions, j, k); }
      }
    }
  }

  // ------------------------------------------------------------------ the listeners' notification

  /** The step read a request with a chunk. */
  predicate HandlesChunk(s: State, t: State) {
    && s.socket.Some? && t.socket.Some? && s.performedHandshake && s.socket.value.id == t.socket.value.id
    && IsRequest(Taken(s.socket.value, t.socket.value)) && HasChunk(Taken(s.socket.value, t.socket.value))
  }

  /** The step closed the connection before the agent was loaded. */
  predicate ClosesAlone(s: State, t: State) {
    !s.agentLoaded && s.socket.Some? && t.socket.None?
  }

  /** A chunk was handled at `j`, and the connection was not closed before `i` without the agent. */
  predicate ActiveSince(states: seq<Sys>, j: nat, i: nat)
    requires i < |states|
  {
    j < i && HandlesChunk(states[j].plugin, states[j + 1].plugin) && forall m | j < m < i :: !ClosesAlone(states[m].plugin, states[m + 1].plugin)
  }

  lemma SameTaken(c: Conn, d: Conn)
    requires c.consumed == d.consumed
    ensures !IsRequest(Taken(c, d))
  {
  }

  lemma NotifiedByData(s: State, io: Io)
    requires s.socket.Some? && !s.agentLoaded
    ensures var t := DataStep(s, io).state;
            t.notifiedDdmActive <==> HandlesChunk(s, t) || (s.notifiedDdmActive && !ClosesAlone(s, t))
  {
    hide DataStep, ForAgent, ForPlugin, DataCloses, Number, HasChunk, IsRequest;
    var c := s.socket.value;
    DataIs(s, io);
    Exclusive(s, io);
    if !s.performedHandshake {
      HandshakeIs(s, io);
    } else if ForPlugin(s, io) {
      var n := Number(c.unread[0..4]);
      PluginAnswers(s, io, n);
      TakenOfReads(c, DataStep(s, io).state.socket.value, c.unread[..n]);
    } else if ForAgent(s, io) {
      SameTaken(c, c);
    }
  }

  lemma NotifiedByWakeup(debuggable: bool, s: State, e: Event)
    requires Polled(s, e) && (e.FromSocket? ==> s.agentLoaded)
    ensures var t := Step(debuggable, s, e).state;
            t.notifiedDdmActive <==> s.notifiedDdmActive && !ClosesAlone(s, t)
    ensures var t := Step(debuggable, s, e).state; s.socket.Some? && t.socket.Some? ==> s.socket == t.socket
  {
    hide DataStep, MessageStep, ControlStep, SocketStep;
    match e
    case FromAgent(m, io) => NotifiedByMessage(s, m, io);
    case FromControl(newFd, io) => NotifiedByControl(debuggable, s, newFd, io);
    case FromSocket(io) => NotifiedBySocket(s, io);
    case _ =>
  }

  lemma NotifiedByMessage(s: State, m: Message, io: Io)
    ensures var t := MessageStep(s, m, io).state;
            && (s.agentLoaded ==> t.notifiedDdmActive == s.notifiedDdmActive)
            && (s.socket.Some? && t.socket.Some? ==> s.socket == t.socket)
  {
  }

  lemma NotifiedByControl(debuggable: bool, s: State, newFd: Option<nat>, io: Io)
    ensures var t := ControlStep(debuggable, s, newFd, io).state;
            && t.notifiedDdmActive == s.notifiedDdmActive && (s.socket.Some? ==> t.socket == s.socket)
  {
  }

  lemma NotifiedBySocket(s: State, io: Io)
    requires s.socket.Some? && s.agentLoaded
    ensures var t := SocketStep(s, io).state; t.notifiedDdmActive == s.notifiedDdmActive && t.socket == s.socket
  {
    hide DataStep;
  }

  lemma NotifiedStep(debuggable: bool, sys: Sys, a: Action)
    requires Enabled(sys, a)
    ensures var s, t := sys.plugin, Apply(debuggable, sys, a).plugin;
            t.notifiedDdmActive <==> HandlesChunk(s, t) || (s.notifiedDdmActive && !ClosesAlone(s, t))
  {
    var s, t := sys.plugin, Apply(debuggable, sys, a).plugin;
    hide Enabled, DataStep, IsRequest, HasChunk, Taken;
    if a.Wakeup? {
      EnabledIs(sys, a);
      if a.event.FromSocket? && !s.agentLoaded {
        NotifiedByData(s, a.event.io);
      } else {
        hide Step;
        NotifiedByWakeup(debuggable, s, a.event);
        if s.socket.Some? && t.socket.Some? { SameTaken(s.socket.value, t.socket.value); }
      }
    } else if s.socket.Some? && t.socket.Some? {
      SameTaken(s.socket.value, t.socket.value);
    }
  }

  /**
    * In every run the listeners have been told that DDM is active exactly if a chunk was handled
    * and no connection was closed without the agent since.
    */
  lemma {:induction false} NotifiedInEveryRun(debuggable: bool, states: seq<Sys>, actions: seq<Action>, i: nat)
    requires Run(debuggable, states, actions) && i < |states|
    ensures states[i].plugin.notifiedDdmActive <==> exists j | 0 <= j < i :: ActiveSince(states, j, i)
  {
    hide Apply, Enabled, HandlesChunk, ClosesAlone;
    if i > 0 {
      var k := i - 1;
      NotifiedInEveryRun(debuggable, states, actions, k);
      assert Enabled(states[k], actions[k]) && states[k + 1] == Apply(debuggable, states[k], actions[k]);
      NotifiedStep(debuggable, states[k], actions[k]);
      if states[i].plugin.notifiedDdmActive {
        if HandlesChunk(states[k].plugin, states[k + 1].plugin) {
          assert ActiveSince(states, k, i);
        } else {
          var j :| 0 <= j < k && ActiveSince(states, j, k);
          assert ActiveSince(states, j, i);
        }
      }
      forall j | 0 <= j < i && ActiveSince(states, j, i) ensures states[i].plugin.notifiedDdmActive {
        if j < k { assert ActiveSince(states, j, k); }
      }
    }
  }
}
