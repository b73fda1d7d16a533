/** Runs of the poll loop against the agent: the protocol's invariants. */
module AdbRuns {
  import opened Bytes
  import opened AdbPackets
  import opened AdbConnection

  // ------------------------------------------------------------------ without any assumption on the agent

  /** A run of the poll loop: each wake-up can happen and leads to the next state. */
  ghost predicate PollRun(debuggable: bool, states: seq<State>, events: seq<Event>) {
    && |states| == |events| + 1
    && states[0] == INITIAL
    && forall i | 0 <= i < |events| :: Polled(states[i], events[i]) && states[i + 1] == Step(debuggable, states[i], events[i]).state
  }

  /** Before the agent is loaded it cannot listen, hold the socket or have been sent fds. */
  predicate QuietBeforeLoad(s: State) {
    !s.agentLoaded ==> !s.agentListening && !s.agentHasSocket && !s.sentAgentFds
  }

  lemma StepIsQuiet(debuggable: bool, s: State, e: Event)
    requires Polled(s, e) && QuietBeforeLoad(s)
    ensures QuietBeforeLoad(Step(debuggable, s, e).state)
    ensures s.agentLoaded ==> Step(debuggable, s, e).state.agentLoaded
  {
    hide DataStep;
    if e.FromSocket? { DataKeepsFlags(s, e.io); }
  }

  /** Whatever the agent sends: it is loaded at most once, for good, and is quiet before. */
  lemma {:induction false} LoadedForGood(debuggable: bool, states: seq<State>, events: seq<Event>, i: nat, j: nat)
    requires PollRun(debuggable, states, events) && i <= j < |states|
    ensures QuietBeforeLoad(states[j])
    ensures states[i].agentLoaded ==> states[j].agentLoaded
    decreases j
  {
    hide Step, QuietBeforeLoad;
    if j == 0 {
      InitialQuiet();
    } else {
      LoadedForGood(debuggable, states, events, if i < j then i else 0, j - 1);
      assert states[j - 1 + 1] == Step(debuggable, states[j - 1], events[j - 1]).state;
      StepIsQuiet(debuggable, states[j - 1], events[j - 1]);
    }
  }

  lemma InitialQuiet()
    ensures QuietBeforeLoad(INITIAL)
  {
  }

  // ------------------------------------------------------------------ the agent

  /**
    * Where the agent's transport is in a round. With a connection it may have completed the
    * handshake and may have stopped listening.
    */
  datatype Phase = Idle | Listening | Attached(conn: nat, handshaken: bool, ended: bool)

  /** A message in flight; `conn` is the connection it is about. */
  datatype InFlight = InFlight(message: Message, conn: nat)

  /**
    * The rounds: START; ATTACHED once fds have been taken; HANDSHAKE-COMPLETE and END in any order;
    * CLOSING after END. A connection whose handshake fails is closed while the agent keeps listening.
    */
  function Advance(p: Phase, m: InFlight): Option<Phase> {
    match m.message
    case ListenStart => if p.Idle? then Some(Listening) else None
    case Accepted => if p.Listening? then Some(Attached(m.conn, false, false)) else None
    case HandshakeComplete =>
      if p.Attached? && p.conn == m.conn && !p.handshaken then Some(p.(handshaken := true)) else None
    case ListenEnd => if p.Attached? && p.conn == m.conn && !p.ended then Some(p.(ended := true)) else None
    case Closing =>
      if p.Attached? && p.conn == m.conn && p.ended then Some(Idle)
      else if p.Attached? && p.conn == m.conn && !p.handshaken then Some(Listening)
      else None
    case Unknown => None
  }

  /** The phase after a sequence of messages. */
  function Replay(p: Phase, ms: seq<InFlight>): Option<Phase>
    decreases |ms|
  {
    if ms == [] then Some(p)
    else
      var q := Advance(p, ms[0]);
      if q.None? then None else Replay(q.value, ms[1..])
  }

  lemma {:induction false} ReplayMore(p: Phase, ms: seq<InFlight>, m: InFlight)
    requires Replay(p, ms).Some? && Advance(Replay(p, ms).value, m).Some?
    ensures Replay(p, ms + [m]) == Advance(Replay(p, ms).value, m)
    decreases |ms|
  {
    hide Advance;
    if ms == [] {
      assert ms + [m] == [m] && [m][1..] == [];
      assert Replay(Advance(p, m).value, []) == Some(Advance(p, m).value);
    } else {
      assert (ms + [m])[1..] == ms[1..] + [m] && (ms + [m])[0] == ms[0];
      ReplayMore(Advance(p, ms[0]).value, ms[1..], m);
    }
  }

  // ------------------------------------------------------------------ the plugin and the agent together

  /**
    * `box` holds fds sent and not yet taken, `fifo` the agent's messages not yet handled. `seen` is
    * the agent's phase as far as the plugin has handled its messages, and `failed` records whether
    * a `sendmsg` of fds ever failed.
    */
  datatype Sys = Sys(
    plugin: State,
    box: Option<FdSet>,
    fifo: seq<InFlight>,
    agent: Phase,
    seen: Phase,
    nextConn: nat,
    failed: bool)

  datatype Action =
    | Wakeup(event: Event)
    | PeerSends(bytes: seq<Byte>)
    | AgentStarts
    | AgentTakesFds
    | AgentSays(message: Message)

  const START := Sys(INITIAL, None, [], Idle, Idle, 0, false)

  /** What the plugin handles next, as the event it is. */
  predicate IsNext(sys: Sys, m: Message) {
    sys.fifo != [] && sys.fifo[0].message == m
  }

  predicate Enabled(sys: Sys, a: Action) {
    match a
    case Wakeup(e) =>
      && Polled(sys.plugin, e)
      && (e.FromAgent? ==> IsNext(sys, e.message))
      && (e.FromControl? && e.newFd.Some? ==> e.newFd.value == sys.nextConn)
    case PeerSends(_) => sys.plugin.socket.Some?
    case AgentStarts => sys.plugin.agentLoaded && sys.agent.Idle?
    case AgentTakesFds => sys.agent.Listening? && sys.box.Some?
    case AgentSays(m) => sys.agent.Attached? && m != Accepted && Advance(sys.agent, InFlight(m, sys.agent.conn)).Some?
  }

  /** Whether the event tries to send fds. */
  predicate TriesFds(s: State, e: Event) {
    match e
    case FromAgent(m, _) => m == ListenStart && s.socket.Some?
    case FromControl(newFd, _) => newFd.Some? && s.socket.None? && s.agentLoaded && s.agentListening
    case FromSocket(_) => s.agentLoaded && s.agentListening && !s.sentAgentFds
    case _ => false
  }

  function AfterWakeup(debuggable: bool, sys: Sys, e: Event): Sys
    requires Enabled(sys, Wakeup(e))
  {
    var r := Step(debuggable, sys.plugin, e);
    Sys(r.state,
        if r.out.Fds? then Some(r.out.fds) else sys.box,
        if e.FromAgent? then sys.fifo[1..] else sys.fifo,
        sys.agent,
        if e.FromAgent? && Advance(sys.seen, sys.fifo[0]).Some? then Advance(sys.seen, sys.fifo[0]).value else sys.seen,
        if debuggable && e.FromControl? && e.newFd.Some? then sys.nextConn + 1 else sys.nextConn,
        sys.failed || (debuggable && TriesFds(sys.plugin, e) && !r.out.Fds?))
  }

  function Apply(debuggable: bool, sys: Sys, a: Action): Sys
    requires Enabled(sys, a)
  {
    match a
    case Wakeup(e) => AfterWakeup(debuggable, sys, e)
    case PeerSends(bytes) =>
      sys.(plugin := sys.plugin.(socket := Some(sys.plugin.socket.value.(unread := sys.plugin.socket.value.unread + bytes))))
    case AgentStarts => sys.(agent := Listening, fifo := sys.fifo + [InFlight(ListenStart, 0)])
    case AgentTakesFds =>
      sys.(agent := Attached(sys.box.value.conn, false, false), box := None,
           fifo := sys.fifo + [InFlight(Accepted, sys.box.value.conn)])
    case AgentSays(m) =>
      sys.(agent := Advance(sys.agent, InFlight(m, sys.agent.conn)).value, fifo := sys.fifo + [InFlight(m, sys.agent.conn)])
  }

  // ------------------------------------------------------------------ the invariant

  /** The plugin's flags say what it has seen of the agent. */
  predicate FlagsMatch(sys: Sys) {
    var s := sys.plugin;
    match sys.seen
    case Idle => !s.agentListening && !s.agentHasSocket && !s.sentAgentFds && sys.box.None?
    case Listening =>
      && s.agentListening && !s.agentHasSocket
      && (s.sentAgentFds ==> s.socket.Some?)
      && (!s.sentAgentFds ==> sys.box.None? && sys.fifo == [])
      && (s.sentAgentFds && sys.box.Some? ==> sys.fifo == [] && sys.box.value.conn == s.socket.value.id)
      && (s.sentAgentFds && sys.box.None? ==> sys.fifo != [] && sys.fifo[0] == InFlight(Accepted, s.socket.value.id))
    case Attached(c, handshaken, ended) =>
      && s.agentHasSocket && !s.sentAgentFds && sys.box.None?
      && s.agentListening == !ended && s.performedHandshake == handshaken
      && s.socket.Some? && s.socket.value.id == c
  }

  /** What has been read of the connection, as long as the agent does not hold it. */
  predicate ReadSoFar(s: State) {
    s.socket.Some? && !s.agentHasSocket ==>
      if s.performedHandshake then AtBoundary(s.socket.value.consumed) else s.socket.value.consumed == []
  }

  /** The agent takes fds only when the plugin has handled everything it said before. */
  predicate AcceptedFirst(ms: seq<InFlight>) {
    forall i | 1 <= i < |ms| :: ms[i].message != Accepted
  }

  predicate Inv(debuggable: bool, sys: Sys) {
    && Replay(sys.seen, sys.fifo) == Some(sys.agent)
    && AcceptedFirst(sys.fifo)
    && FlagsMatch(sys)
    && (!sys.plugin.agentLoaded ==> sys.seen.Idle? && sys.fifo == [])
    && (sys.plugin.performedHandshake ==> sys.plugin.socket.Some?)
    && (!debuggable ==> !sys.plugin.agentLoaded && sys.plugin.socket.None?)
    && ReadSoFar(sys.plugin)
    && (!sys.failed && sys.seen.Listening? && sys.plugin.socket.Some? ==> sys.plugin.sentAgentFds)
  }

  lemma InvStarts(debuggable: bool)
    ensures Inv(debuggable, START)
  {
  }

  /** Nothing of the plugin's checks can fail where the invariant holds. */
  lemma InvChecks(debuggable: bool, sys: Sys, e: Event)
    requires Inv(debuggable, sys) && Enabled(sys, Wakeup(e))
    ensures ChecksHold(debuggable, sys.plugin, e)
  {
    hide AtBoundary;
    if e.FromAgent? && e.message == ListenStart {
      assert Advance(sys.seen, sys.fifo[0]).Some?;
    }
  }

  // The wake-ups, kind by kind.

  lemma KeepsMessage(debuggable: bool, sys: Sys, e: Event)
    requires Inv(debuggable, sys) && Enabled(sys, Wakeup(e)) && e.FromAgent?
    ensures Inv(debuggable, AfterWakeup(debuggable, sys, e))
  {
    hide AtBoundary;
    var m, rest := sys.fifo[0], sys.fifo[1..];
    assert Advance(sys.seen, m).Some?;
    assert Replay(Advance(sys.seen, m).value, rest) == Some(sys.agent);
    var sys' := AfterWakeup(debuggable, sys, e);
    assert sys'.seen == Advance(sys.seen, m).value;
    assert AcceptedFirst(rest) && (rest != [] ==> rest[0] == sys.fifo[1]);
    if sys'.seen.Listening? { NothingSince(sys.agent, rest); }
  }

  /** An agent that the plugin has only just seen listen has said nothing since. */
  lemma NothingSince(agent: Phase, ms: seq<InFlight>)
    requires Replay(Listening, ms) == Some(agent) && (ms != [] ==> ms[0].message != Accepted)
    ensures ms == []
  {
  }

  lemma KeepsControl(debuggable: bool, sys: Sys, e: Event)
    requires Inv(debuggable, sys) && Enabled(sys, Wakeup(e)) && (e.FromControl? || e.ControlHangup? || e.NewControl? || e.Woken?)
    ensures Inv(debuggable, AfterWakeup(debuggable, sys, e))
  {
    hide AtBoundary, Replay, AcceptedFirst;
  }

  lemma KeepsHangup(debuggable: bool, sys: Sys)
    requires Inv(debuggable, sys) && Enabled(sys, Wakeup(SocketHangup))
    ensures Inv(debuggable, AfterWakeup(debuggable, sys, SocketHangup))
  {
    hide AtBoundary, Replay, AcceptedFirst;
  }

  lemma KeepsSocketLoaded(debuggable: bool, sys: Sys, io: Io)
    requires Inv(debuggable, sys) && Enabled(sys, Wakeup(FromSocket(io))) && sys.plugin.agentLoaded
    ensures Inv(debuggable, AfterWakeup(debuggable, sys, FromSocket(io)))
  {
    hide AtBoundary, Replay, AcceptedFirst;
  }

  lemma HandshakeKeeps(s: State, io: Io)
    requires s.socket.Some? && !s.agentHasSocket && !s.performedHandshake && ReadSoFar(s)
    ensures var t := HandshakeStep(s, io).state; ReadSoFar(t) && (t.performedHandshake ==> t.socket.Some?)
  {
    var c := s.socket.value;
    BoundaryStart();
    hide AtBoundary;
    if |c.unread| >= HANDSHAKE_LEN && c.unread[..HANDSHAKE_LEN] == HANDSHAKE {
      assert c.consumed + c.unread[..HANDSHAKE_LEN] == HANDSHAKE;
    }
  }

  lemma TakenIsPacket(unread: seq<Byte>)
    requires CanHandle(unread)
    ensures IsPacket(unread[..DeclaredLength(unread)])
  {
    hide ReadBe32;
    var n := DeclaredLength(unread);
    assert unread == unread[..n] + unread[n..];
    SameLength(unread[..n], unread[n..]);
  }

  lemma PacketKeeps(s: State, io: Io)
    requires s.socket.Some? && !s.agentHasSocket && s.performedHandshake && ReadSoFar(s) && CanHandle(s.socket.value.unread)
    ensures var t := PacketStep(s, io).state; ReadSoFar(t) && t.socket.Some? && t.performedHandshake
  {
    hide AtBoundary, ReadChunk, DdmPacket, ReadBe32, CanHandle, IsPacket, DeclaredLength;
    var c := s.socket.value;
    TakenIsPacket(c.unread);
    HandlesAll(c.unread);
    BoundaryKept(c.consumed, c.unread[..DeclaredLength(c.unread)]);
  }

  lemma HandlesAll(unread: seq<Byte>)
    requires CanHandle(unread)
    ensures HEADER_LEN <= DeclaredLength(unread) <= |unread|
  {
  }

  /** Reading without the agent moves from boundary to boundary, or closes the connection. */
  lemma DataKeepsBoundary(s: State, io: Io)
    requires s.socket.Some? && !s.agentHasSocket && ReadSoFar(s)
    ensures ReadSoFar(DataStep(s, io).state)
    ensures DataStep(s, io).state.performedHandshake ==> DataStep(s, io).state.socket.Some?
  {
    hide AtBoundary, HandshakeStep, PacketStep, DeclaredLength;
    if !s.performedHandshake {
      HandshakeKeeps(s, io);
    } else if CanHandle(s.socket.value.unread) {
      PacketKeeps(s, io);
    }
  }

  predicate SameAgentView(s: State, r: Result) {
    && r.state.agentListening == s.agentListening && r.state.agentHasSocket == s.agentHasSocket
    && r.state.sentAgentFds == s.sentAgentFds && (s.agentLoaded ==> r.state.agentLoaded) && r.state.control == s.control
    && !r.out.Fds?
  }

  lemma PacketKeepsFlags(s: State, io: Io)
    requires s.socket.Some? && CanHandle(s.socket.value.unread)
    ensures SameAgentView(s, PacketStep(s, io))
  {
    hide ReadChunk, DdmPacket, ReadBe32, CanHandle, DeclaredLength;
    HandlesAll(s.socket.value.unread);
  }

  lemma HandshakeKeepsFlags(s: State, io: Io)
    requires s.socket.Some?
    ensures SameAgentView(s, HandshakeStep(s, io))
  {
  }

  lemma DataKeepsFlags(s: State, io: Io)
    requires s.socket.Some?
    ensures SameAgentView(s, DataStep(s, io))
  {
    hide PacketStep, HandshakeStep, DeclaredLength;
    HandshakeKeepsFlags(s, io);
    if CanHandle(s.socket.value.unread) { PacketKeepsFlags(s, io); }
  }

  lemma KeepsSocketUnloaded(debuggable: bool, sys: Sys, io: Io)
    requires Inv(debuggable, sys) && Enabled(sys, Wakeup(FromSocket(io))) && !sys.plugin.agentLoaded
    ensures Inv(debuggable, AfterWakeup(debuggable, sys, FromSocket(io)))
  {
    hide AtBoundary, AcceptedFirst, DataStep;
    DataKeepsBoundary(sys.plugin, io);
    DataKeepsFlags(sys.plugin, io);
  }

  lemma KeepsWakeup(debuggable: bool, sys: Sys, e: Event)
    requires Inv(debuggable, sys) && Enabled(sys, Wakeup(e))
    ensures Inv(debuggable, AfterWakeup(debuggable, sys, e))
  {
    hide Inv, AfterWakeup, Enabled;
    match e
    case FromAgent(_, _) => KeepsMessage(debuggable, sys, e);
    case FromSocket(io) =>
      if sys.plugin.agentLoaded {
        KeepsSocketLoaded(debuggable, sys, io);
      } else {
        KeepsSocketUnloaded(debuggable, sys, io);
      }
    case SocketHangup => KeepsHangup(debuggable, sys);
    case _ => KeepsControl(debuggable, sys, e);
  }

  /** The agent saying something more. */
  lemma KeepsAgent(debuggable: bool, sys: Sys, a: Action)
    requires Inv(debuggable, sys) && Enabled(sys, a) && (a.AgentStarts? || a.AgentTakesFds? || a.AgentSays?)
    ensures Inv(debuggable, Apply(debuggable, sys, a))
  {
    hide AtBoundary;
    var sys' := Apply(debuggable, sys, a);
    var m := sys'.fifo[|sys.fifo|];
    assert sys'.fifo == sys.fifo + [m];
    assert Advance(sys.agent, m) == Some(sys'.agent);
    ReplayMore(sys.seen, sys.fifo, m);
    hide Replay, Advance;
    assert AcceptedFirst(sys'.fifo);
  }

  lemma KeepsPeer(debuggable: bool, sys: Sys, bytes: seq<Byte>)
    requires Inv(debuggable, sys) && Enabled(sys, PeerSends(bytes))
    ensures Inv(debuggable, Apply(debuggable, sys, PeerSends(bytes)))
  {
    hide AtBoundary, Replay, AcceptedFirst;
  }

  lemma InvKept(debuggable: bool, sys: Sys, a: Action)
    requires Inv(debuggable, sys) && Enabled(sys, a)
    ensures Inv(debuggable, Apply(debuggable, sys, a))
  {
    hide Inv;
    match a
    case Wakeup(e) => KeepsWakeup(debuggable, sys, e);
    case PeerSends(bytes) => KeepsPeer(debuggable, sys, bytes);
    case _ => KeepsAgent(debuggable, sys, a);
  }

  // ------------------------------------------------------------------ all runs

  ghost predicate Run(debuggable: bool, states: seq<Sys>, actions: seq<Action>) {
    && |states| == |actions| + 1
    && states[0] == START
    && forall i | 0 <= i < |actions| :: Enabled(states[i], actions[i]) && states[i + 1] == Apply(debuggable, states[i], actions[i])
  }

  lemma {:induction false} InvAlways(debuggable: bool, states: seq<Sys>, actions: seq<Action>, i: nat)
    requires Run(debuggable, states, actions) && i < |states|
    ensures Inv(debuggable, states[i])
  {
    hide Inv, Apply, Enabled;
    if i == 0 {
      InvStarts(debuggable);
    } else {
      InvAlways(debuggable, states, actions, i - 1);
      assert states[i - 1 + 1] == Apply(debuggable, states[i - 1], actions[i - 1]);
      InvKept(debuggable, states[i - 1], actions[i - 1]);
    }
  }

  /**
    * In every run: fds on their way, or held by the agent, mean an open socket; a closed socket
    * means no handshake; and at most one set of fds is outstanding.
    */
  lemma FlagsInEveryRun(debuggable: bool, states: seq<Sys>, actions: seq<Action>, i: nat)
    requires Run(debuggable, states, actions) && i < |states|
    ensures var s := states[i].plugin;
            && (s.sentAgentFds || s.agentHasSocket ==> s.socket.Some?)
            && (s.socket.None? ==> !s.performedHandshake)
            && (states[i].box.Some? ==> s.sentAgentFds && states[i].box.value.conn == s.socket.value.id)
            && !(s.sentAgentFds && s.agentHasSocket)
  {
    hide Run, Replay;
    InvAlways(debuggable, states, actions, i);
  }

  /** In every run, no wake-up fails a check, and fds are sent only when none are outstanding. */
  lemma ChecksInEveryRun(debuggable: bool, states: seq<Sys>, actions: seq<Action>, i: nat)
    requires Run(debuggable, states, actions) && i < |actions| && actions[i].Wakeup?
    ensures ChecksHold(debuggable, states[i].plugin, actions[i].event)
    ensures Step(debuggable, states[i].plugin, actions[i].event).out.Fds? ==> states[i].box.None? && !states[i].plugin.sentAgentFds
  {
    InvAlways(debuggable, states, actions, i);
    assert Enabled(states[i], actions[i]);
    InvChecks(debuggable, states[i], actions[i].event);
    FdsOnlyWhenNone(debuggable, states[i], actions[i].event);
  }

  lemma FdsOnlyWhenNone(debuggable: bool, sys: Sys, e: Event)
    requires Inv(debuggable, sys) && Enabled(sys, Wakeup(e)) && ChecksHold(debuggable, sys.plugin, e)
    ensures Step(debuggable, sys.plugin, e).out.Fds? ==> sys.box.None? && !sys.plugin.sentAgentFds
  {
    hide Replay, AtBoundary, AcceptedFirst, DataStep;
    if e.FromSocket? && !sys.plugin.agentLoaded { DataKeepsFlags(sys.plugin, e.io); }
  }

  /**
    * In every run, as long as the agent is not loaded: nothing was read from the connection, or the
    * handshake and then a whole number of packets of their declared lengths.
    */
  lemma ReadInEveryRun(debuggable: bool, states: seq<Sys>, actions: seq<Action>, i: nat)
    requires Run(debuggable, states, actions) && i < |states|
    requires !states[i].plugin.agentLoaded && states[i].plugin.socket.Some?
    ensures var c := states[i].plugin.socket.value;
            if states[i].plugin.performedHandshake then AtBoundary(c.consumed) else c.consumed == []
  {
    hide Run, Replay, AtBoundary;
    InvAlways(debuggable, states, actions, i);
  }

  /** A message the plugin handles as HANDSHAKE-COMPLETE is about the connection it has. */
  lemma HandshakeOfThisConnection(debuggable: bool, states: seq<Sys>, actions: seq<Action>, i: nat)
    requires Run(debuggable, states, actions) && i < |actions|
    requires actions[i].Wakeup? && actions[i].event.FromAgent? && actions[i].event.message == HandshakeComplete
    ensures states[i].plugin.agentHasSocket && states[i].plugin.socket.Some?
    ensures states[i].fifo[0].conn == states[i].plugin.socket.value.id
  {
    InvAlways(debuggable, states, actions, i);
    assert Enabled(states[i], actions[i]);
    assert Advance(states[i].seen, states[i].fifo[0]).Some?;
  }

  // ------------------------------------------------------------------ handing the connection over

  /**
    * In every run, whenever the agent is attached the handshake is done and what was read is the
    * handshake and whole packets, so that what is unread begins with a packet.
    */
  lemma AttachedAtBoundary(debuggable: bool, states: seq<Sys>, actions: seq<Action>, i: nat)
    requires Run(debuggable, states, actions) && i < |actions|
    requires !states[i].plugin.agentLoaded && states[i + 1].plugin.agentLoaded
    ensures var s := states[i + 1].plugin;
            s.socket.Some? && s.performedHandshake && AtBoundary(s.socket.value.consumed)
  {
    InvAlways(debuggable, states, actions, i);
    InvAlways(debuggable, states, actions, i + 1);
    assert Enabled(states[i], actions[i]) && states[i + 1] == Apply(debuggable, states[i], actions[i]);
    LoadingStep(debuggable, states[i], actions[i]);
  }

  lemma LoadingStep(debuggable: bool, sys: Sys, a: Action)
    requires Inv(debuggable, sys) && Enabled(sys, a)
    requires !sys.plugin.agentLoaded && Apply(debuggable, sys, a).plugin.agentLoaded
    ensures var s := Apply(debuggable, sys, a).plugin;
            s.socket.Some? && s.performedHandshake && AtBoundary(s.socket.value.consumed)
  {
    hide Replay, AtBoundary, AcceptedFirst, ReadChunk, DdmPacket;
  }

  /** The message that goes with the fds is right: a handshake is asked for exactly when none was read. */
  predicate HandoverRight(s: State, fds: FdSet) {
    s.socket.Some? && s.socket.value.id == fds.conn &&
    if fds.requireHandshake then s.socket.value.consumed == [] else AtBoundary(s.socket.value.consumed)
  }

  /**
    * In every run, fds go out with the right message except in one case: they are sent because of
    * data on a connection whose handshake the plugin has already done. The agent is then asked to
    * do it again.
    */
  lemma HandoverInEveryRun(debuggable: bool, states: seq<Sys>, actions: seq<Action>, i: nat)
    requires Run(debuggable, states, actions) && i < |actions| && actions[i].Wakeup?
    requires Step(debuggable, states[i].plugin, actions[i].event).out.Fds?
    ensures HandoverRight(states[i + 1].plugin, Step(debuggable, states[i].plugin, actions[i].event).out.fds)
            <==> !(actions[i].event.FromSocket? && states[i].plugin.performedHandshake)
    ensures actions[i].event.FromSocket? ==> states[i].failed
  {
    InvAlways(debuggable, states, actions, i);
    assert Enabled(states[i], actions[i]) && states[i + 1] == Apply(debuggable, states[i], actions[i]);
    HandoverStep(debuggable, states[i], actions[i].event);
  }

  lemma HandoverStep(debuggable: bool, sys: Sys, e: Event)
    requires Inv(debuggable, sys) && Enabled(sys, Wakeup(e)) && Step(debuggable, sys.plugin, e).out.Fds?
    ensures HandoverRight(Step(debuggable, sys.plugin, e).state, Step(debuggable, sys.plugin, e).out.fds)
            <==> !(e.FromSocket? && sys.plugin.performedHandshake)
    ensures e.FromSocket? ==> sys.failed
  {
    NotNothing();
    hide AtBoundary, AcceptedFirst, DataStep;
    if e.FromSocket? && !sys.plugin.agentLoaded { DataKeepsFlags(sys.plugin, e.io); }
    if e.FromAgent? { assert Advance(sys.seen, sys.fifo[0]).Some?; }
  }

  lemma NotNothing()
    ensures !AtBoundary([])
  {
  }

  lemma OneMore(debuggable: bool, states: seq<Sys>, actions: seq<Action>, a: Action)
    requires Run(debuggable, states, actions) && Enabled(states[|actions|], a)
    ensures Run(debuggable, states + [Apply(debuggable, states[|actions|], a)], actions + [a])
  {
    hide Apply, Enabled;
    var ss, as_ := states + [Apply(debuggable, states[|actions|], a)], actions + [a];
    forall i | 0 <= i < |as_| ensures Enabled(ss[i], as_[i]) && ss[i + 1] == Apply(debuggable, ss[i], as_[i]) {
      if i < |actions| { assert ss[i + 1] == states[i + 1]; }
    }
  }

  const FINE := Io(true, true, true, true, true, None)

  /** A packet for the agent: a header alone, of another command set. */
  const OTHER_PACKET: seq<Byte> := [0, 0, 0, 11, 0, 0, 0, 1, 0, 1, 1]

  /** The connection of the run below, with the handshake read and the packet waiting. */
  const WAITING := Conn(0, HANDSHAKE, OTHER_PACKET)

  /** The case happens: one failed `sendmsg`, and data finds the agent listening for a connection already shaken hands with. */
  lemma HandshakeAskedTwice() returns (states: seq<Sys>, actions: seq<Action>)
    ensures Run(true, states, actions) && |actions| > 0
    ensures var last := actions[|actions| - 1];
            var before := states[|actions| - 1];
            && last.Wakeup? && Polled(before.plugin, last.event)
            && Step(true, before.plugin, last.event).out == Fds(FdSet(0, true))
            && before.plugin.performedHandshake
  {
    hide Run;
    var waiting := State(Some(WAITING), true, false, false, false, false, true, false);
    states, actions := Connected();
    states, actions := Do(states, actions, Wakeup(FromSocket(FINE)));
    assert states[|actions|] == Sys(waiting.(agentLoaded := true), None, [], Idle, Idle, 1, false);
    states, actions := Do(states, actions, AgentStarts);
    states, actions := Do(states, actions, Wakeup(FromAgent(ListenStart, FINE.(sendOk := false))));
    assert states[|actions|] == Sys(waiting.(agentLoaded := true, agentListening := true), None, [], Listening, Listening, 1, true);
    states, actions := Do(states, actions, Wakeup(FromSocket(FINE)));
  }

  lemma Do(states: seq<Sys>, actions: seq<Action>, a: Action) returns (ss: seq<Sys>, as_: seq<Action>)
    requires Run(true, states, actions) && Enabled(states[|actions|], a)
    ensures Run(true, ss, as_) && |ss| == |as_| + 1 && |as_| == |actions| + 1 && as_[|actions|] == a
    ensures ss[|actions|] == states[|actions|] && ss[|as_|] == Apply(true, states[|actions|], a)
  {
    hide Apply, Enabled;
    OneMore(true, states, actions, a);
    ss, as_ := states + [Apply(true, states[|actions|], a)], actions + [a];
  }

  /** The run up to the packet that will load the agent. */
  lemma Connected() returns (states: seq<Sys>, actions: seq<Action>)
    ensures Run(true, states, actions) && |states| == |actions| + 1
    ensures states[|actions|] == Sys(State(Some(WAITING), true, false, false, false, false, true, false), None, [], Idle, Idle, 1, false)
  {
    states, actions := [START], [];
    assert Run(true, states, actions);
    hide Run;
    states, actions := Do(states, actions, Wakeup(NewControl));
    states, actions := Do(states, actions, Wakeup(FromControl(Some(0), FINE)));
    states, actions := Do(states, actions, PeerSends(HANDSHAKE));
    HandshakeLength();
    assert [] + HANDSHAKE == HANDSHAKE && HANDSHAKE[..HANDSHAKE_LEN] == HANDSHAKE && HANDSHAKE[HANDSHAKE_LEN..] == [];
    states, actions := Do(states, actions, Wakeup(FromSocket(FINE)));
    states, actions := Do(states, actions, PeerSends(OTHER_PACKET));
    assert [] + OTHER_PACKET == OTHER_PACKET;
  }
}
