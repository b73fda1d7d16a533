/**
  * The poll loop and the write lock together. A wake-up of the poll loop is the steps that its
  * locking and its use of the socket consist of; between them other threads take their own.
  */
module AdbThreads {
  import opened Bytes
  import opened AdbPackets
  import opened AdbConnection
  import A = AdbRuns
  import L = WriteLock

  // ------------------------------------------------------------------ what a wake-up does, step by step

  /** `CloseFds`: the socket under the lock, the flag after it. */
  const CLOSE: seq<L.Action> := [L.CloseLocks, L.CloseResets, L.CloseUnlocks, L.CloseClearsFlag]

  const ACCEPT: seq<L.Action> := [L.AcceptLocks, L.AcceptSets, L.AcceptUnlocks]

  const REFUSE: seq<L.Action> := [L.AcceptLocks, L.AcceptFails, L.AcceptUnlocks]

  const REPLY: seq<L.Action> := [L.ReplyBegins, L.ReplyEnds, L.ReplySetsFlag]

  /** `SendDdmPacket` called by the poll thread, which is publisher 0. */
  const SEND: seq<L.Action> := [L.PublisherLocks(0), L.PublisherChecks(0), L.PublisherBegins(0), L.PublisherEnds(0), L.PublisherUnlocks(0)]

  /** The handshake was read, but the reply could not be sent. */
  predicate ReplyFailed(s: State, io: Io) {
    && !s.agentLoaded && !s.performedHandshake && s.socket.Some?
    && io.ioctlOk && io.recvOk && !io.sendOk
    && |s.socket.value.unread| >= HANDSHAKE_LEN && s.socket.value.unread[..HANDSHAKE_LEN] == HANDSHAKE
  }

  function SocketTodo(s: State, io: Io): seq<L.Action>
    requires s.socket.Some?
  {
    var r := SocketStep(s, io);
    if r.out.HandshakeReply? then REPLY
    else if r.out.Packet? then SEND
    else if r.state.socket.None? then (if ReplyFailed(s, io) then [L.ReplyBegins, L.ReplyFails] + CLOSE else CLOSE)
    else if r.state.agentLoaded && !s.agentLoaded then [L.AgentLoads]
    else []
  }

  /** The steps of a wake-up that have to do with the lock, the socket or the handshake flag. */
  function Todo(debuggable: bool, s: State, e: Event): seq<L.Action>
    requires Polled(s, e)
  {
    match e
    case FromAgent(m, _) =>
      if m == HandshakeComplete && s.agentHasSocket then [L.FlagSet]
      else if m == Closing then CLOSE
      else if m == Accepted then [L.FlagCleared]
      else []
    case FromControl(newFd, _) => if !debuggable then [] else if newFd.None? then REFUSE else ACCEPT
    case FromSocket(io) => SocketTodo(s, io)
    case SocketHangup => CLOSE
    case _ => []
  }

  // ------------------------------------------------------------------ the poll thread alone

  function PlainPoll(p: L.Poll): L.Poll {
    match p
    case CloseLocked(_) => L.CloseLocked(0)
    case CloseReset(_) => L.CloseReset(0)
    case AcceptLocked(_) => L.AcceptLocked(0)
    case AcceptDone(_) => L.AcceptDone(0)
    case _ => p
  }

  function PlainPublisher(p: L.Publisher): L.Publisher {
    if p.Away? then p else p.(took := 0)
  }

  /** The poll thread's view: nobody else there, the lock free, and what was taken from it forgotten. */
  function Own(sys: L.Sys): L.Sys {
    sys.(counter := 1, poll := PlainPoll(sys.poll), agent := L.Quiet, publishers := map[0 := PlainPublisher(L.PublisherAt(sys, 0))])
  }

  predicate IsOwn(a: L.Action) {
    match a
    case PublisherLocks(t) => t == 0
    case PublisherChecks(t) => t == 0
    case PublisherBegins(t) => t == 0
    case PublisherEnds(t) => t == 0
    case PublisherUnlocks(t) => t == 0
    case AgentLocks => false
    case AgentUnlocks => false
    case AgentShakesHands(_) => false
    case _ => true
  }

  /** A step of another thread that uses the lock. */
  predicate IsOther(a: L.Action) {
    !IsOwn(a) && !a.AgentShakesHands?
  }

  function OwnStep(n: L.Sys, a: L.Action): L.Sys
    requires L.Enabled(n, a)
  {
    Own(L.Apply(n, a))
  }

  /** The steps can be taken one after the other, as far as the poll thread itself is concerned. */
  predicate CanDo(n: L.Sys, todo: seq<L.Action>)
    decreases |todo|
  {
    todo == [] || (IsOwn(todo[0]) && L.Enabled(n, todo[0]) && CanDo(OwnStep(n, todo[0]), todo[1..]))
  }

  /** Where they lead. */
  function After(n: L.Sys, todo: seq<L.Action>): L.Sys
    requires CanDo(n, todo)
    decreases |todo|
  {
    if todo == [] then n else After(OwnStep(n, todo[0]), todo[1..])
  }

  lemma DoMore(n: L.Sys, a: L.Action, rest: seq<L.Action>)
    requires IsOwn(a) && L.Enabled(n, a)
    ensures CanDo(n, [a] + rest) == CanDo(OwnStep(n, a), rest)
    ensures CanDo(OwnStep(n, a), rest) ==> After(n, [a] + rest) == After(OwnStep(n, a), rest)
  {
    hide L.Enabled, OwnStep, IsOwn;
    assert ([a] + rest)[1..] == rest;
  }

  lemma DoNothing(n: L.Sys)
    ensures CanDo(n, []) && After(n, []) == n
  {
  }

  predicate IsPacketStep(a: L.Action) {
    a.PublisherLocks? || a.PublisherChecks? || a.PublisherBegins? || a.PublisherEnds? || a.PublisherUnlocks?
  }

  lemma PacketStepAgrees(sys: L.Sys, a: L.Action)
    requires IsPacketStep(a) && IsOwn(a) && L.Enabled(Own(sys), a) && (L.IsLock(a) ==> sys.counter > 0)
    ensures L.Enabled(sys, a) && Own(L.Apply(sys, a)) == OwnStep(Own(sys), a)
  {
  }

  predicate IsLockedStep(a: L.Action) {
    a.CloseLocks? || a.CloseResets? || a.CloseUnlocks? || a.AcceptLocks? || a.AcceptSets? || a.AcceptFails? || a.AcceptUnlocks?
  }

  lemma LockedStepAgrees(sys: L.Sys, a: L.Action)
    requires IsLockedStep(a) && L.Enabled(Own(sys), a) && (L.IsLock(a) ==> sys.counter > 0)
    ensures L.Enabled(sys, a) && Own(L.Apply(sys, a)) == OwnStep(Own(sys), a)
  {
  }

  lemma PollStepAgrees(sys: L.Sys, a: L.Action)
    requires !IsPacketStep(a) && !IsLockedStep(a) && IsOwn(a) && L.Enabled(Own(sys), a)
    ensures L.Enabled(sys, a) && Own(L.Apply(sys, a)) == OwnStep(Own(sys), a)
  {
  }

  /** What the poll thread does, it does whatever the others are doing; only for the lock it waits. */
  lemma OwnAgrees(sys: L.Sys, a: L.Action)
    requires IsOwn(a) && L.Enabled(Own(sys), a) && (L.IsLock(a) ==> sys.counter > 0)
    ensures L.Enabled(sys, a) && Own(L.Apply(sys, a)) == OwnStep(Own(sys), a)
  {
    hide IsOwn, L.Enabled, L.Apply, Own, OwnStep, L.IsLock;
    if IsPacketStep(a) {
      PacketStepAgrees(sys, a);
    } else if IsLockedStep(a) {
      LockedStepAgrees(sys, a);
    } else {
      PollStepAgrees(sys, a);
    }
  }

  /** What others do, the poll thread does not see. */
  lemma OtherUnseen(sys: L.Sys, a: L.Action)
    requires IsOther(a) && L.Enabled(sys, a)
    ensures Own(L.Apply(sys, a)) == Own(sys)
  {
  }

  function Shake(n: L.Sys, c: nat): L.Sys {
    n.(shaken := n.shaken + {c})
  }

  lemma OwnShake(sys: L.Sys, c: nat)
    ensures Own(L.Apply(sys, L.AgentShakesHands(c))) == Shake(Own(sys), c)
  {
  }

  lemma ShakeStep(n: L.Sys, a: L.Action, c: nat)
    requires IsOwn(a) && L.Enabled(n, a)
    ensures L.Enabled(Shake(n, c), a) && OwnStep(Shake(n, c), a) == Shake(OwnStep(n, a), c)
  {
    assert a.ReplyEnds? ==> n.shaken + {c} + {n.poll.conn} == n.shaken + {n.poll.conn} + {c};
  }

  /** One more connection shaken hands with stops no step. */
  lemma {:induction false} ShakeKeeps(n: L.Sys, todo: seq<L.Action>, c: nat)
    requires CanDo(n, todo)
    ensures CanDo(Shake(n, c), todo) && After(Shake(n, c), todo) == Shake(After(n, todo), c)
    decreases |todo|
  {
    hide Shake, OwnStep, L.Enabled, IsOwn;
    if todo != [] {
      ShakeStep(n, todo[0], c);
      ShakeKeeps(OwnStep(n, todo[0]), todo[1..], c);
    }
  }

  lemma StepShaken(n: L.Sys, a: L.Action)
    requires L.Enabled(n, a)
    ensures n.shaken <= OwnStep(n, a).shaken
  {
  }

  lemma {:induction false} ShakenGrows(n: L.Sys, todo: seq<L.Action>)
    requires CanDo(n, todo)
    ensures n.shaken <= After(n, todo).shaken
    decreases |todo|
  {
    hide OwnStep, L.Enabled, IsOwn;
    if todo != [] {
      StepShaken(n, todo[0]);
      ShakenGrows(OwnStep(n, todo[0]), todo[1..]);
    }
  }

  // ------------------------------------------------------------------ the sequences

  /** The poll thread between two wake-ups. */
  predicate Idle(n: L.Sys) {
    n == Own(n) && n.poll == L.Running && n.publishers == map[0 := L.Away]
  }

  lemma CloseRuns(n: L.Sys)
    requires Idle(n)
    ensures CanDo(n, CLOSE) && After(n, CLOSE) == n.(socket := None, performed := false)
  {
    hide CanDo, After;
    var n1 := n.(poll := L.CloseLocked(0));
    var n2 := n.(socket := None, poll := L.CloseReset(0));
    var n3 := n.(socket := None, poll := L.CloseUnlocked);
    var n4 := n.(socket := None, performed := false);
    assert OwnStep(n, L.CloseLocks) == n1 && OwnStep(n1, L.CloseResets) == n2;
    assert OwnStep(n2, L.CloseUnlocks) == n3 && OwnStep(n3, L.CloseClearsFlag) == n4;
    Chain4(n, L.CloseLocks, L.CloseResets, L.CloseUnlocks, L.CloseClearsFlag, n1, n2, n3, n4);
  }

  lemma Chain1(n: L.Sys, a: L.Action, n1: L.Sys)
    requires IsOwn(a) && L.Enabled(n, a) && OwnStep(n, a) == n1
    ensures CanDo(n, [a]) && After(n, [a]) == n1
  {
    hide *;
    assert [a] == [a] + [];
    DoNothing(n1);
    DoMore(n, a, []);
  }

  lemma Chain3(n: L.Sys, a: L.Action, b: L.Action, c: L.Action, n1: L.Sys, n2: L.Sys, n3: L.Sys)
    requires IsOwn(a) && IsOwn(b) && IsOwn(c) && L.Enabled(n, a) && L.Enabled(n1, b) && L.Enabled(n2, c)
    requires OwnStep(n, a) == n1 && OwnStep(n1, b) == n2 && OwnStep(n2, c) == n3
    ensures CanDo(n, [a, b, c]) && After(n, [a, b, c]) == n3
  {
    hide *;
    assert [a, b, c] == [a] + [b, c] && [b, c] == [b] + [c];
    Chain1(n2, c, n3);
    DoMore(n1, b, [c]);
    DoMore(n, a, [b, c]);
  }

  lemma Chain4(n: L.Sys, a: L.Action, b: L.Action, c: L.Action, d: L.Action, n1: L.Sys, n2: L.Sys, n3: L.Sys, n4: L.Sys)
    requires IsOwn(a) && IsOwn(b) && IsOwn(c) && IsOwn(d)
    requires L.Enabled(n, a) && L.Enabled(n1, b) && L.Enabled(n2, c) && L.Enabled(n3, d)
    requires OwnStep(n, a) == n1 && OwnStep(n1, b) == n2 && OwnStep(n2, c) == n3 && OwnStep(n3, d) == n4
    ensures CanDo(n, [a, b, c, d]) && After(n, [a, b, c, d]) == n4
  {
    hide *;
    assert [a, b, c, d] == [a] + [b, c, d];
    Chain3(n1, b, c, d, n2, n3, n4);
    DoMore(n, a, [b, c, d]);
  }

  lemma AcceptRuns(n: L.Sys)
    requires Idle(n) && n.socket.None?
    ensures CanDo(n, ACCEPT) && After(n, ACCEPT) == n.(socket := Some(n.next), next := n.next + 1)
  {
    hide CanDo, After;
    var n1 := n.(poll := L.AcceptLocked(0));
    var n3 := n.(socket := Some(n.next), next := n.next + 1);
    var n2 := n3.(poll := L.AcceptDone(0));
    Chain3(n, L.AcceptLocks, L.AcceptSets, L.AcceptUnlocks, n1, n2, n3);
  }

  lemma RefuseRuns(n: L.Sys)
    requires Idle(n)
    ensures CanDo(n, REFUSE) && After(n, REFUSE) == n
  {
    hide CanDo, After;
    Chain3(n, L.AcceptLocks, L.AcceptFails, L.AcceptUnlocks, n.(poll := L.AcceptLocked(0)), n.(poll := L.AcceptDone(0)), n);
  }

  lemma ReplyRuns(n: L.Sys)
    requires Idle(n) && n.socket.Some? && !n.performed && !n.loaded
    ensures CanDo(n, REPLY) && After(n, REPLY) == n.(performed := true, shaken := n.shaken + {n.socket.value})
  {
    hide CanDo, After;
    var c := n.socket.value;
    var n1 := n.(poll := L.Replying(c));
    var n2 := n.(poll := L.Replied(c), shaken := n.shaken + {c});
    Chain3(n, L.ReplyBegins, L.ReplyEnds, L.ReplySetsFlag, n1, n2, n.(performed := true, shaken := n.shaken + {c}));
  }

  lemma ReplyFailsRuns(n: L.Sys)
    requires Idle(n) && n.socket.Some? && !n.performed && !n.loaded
    ensures CanDo(n, [L.ReplyBegins, L.ReplyFails] + CLOSE)
    ensures After(n, [L.ReplyBegins, L.ReplyFails] + CLOSE) == n.(socket := None, performed := false)
  {
    hide CanDo, After;
    var n1 := n.(poll := L.Replying(n.socket.value));
    assert OwnStep(n, L.ReplyBegins) == n1 && OwnStep(n1, L.ReplyFails) == n;
    CloseRuns(n);
    DoMore(n1, L.ReplyFails, CLOSE);
    DoMore(n, L.ReplyBegins, [L.ReplyFails] + CLOSE);
    assert [L.ReplyBegins, L.ReplyFails] + CLOSE == [L.ReplyBegins] + ([L.ReplyFails] + CLOSE);
  }

  lemma SendBegins(n: L.Sys)
    requires Idle(n) && n.socket.Some? && n.performed
    ensures L.Enabled(n, L.PublisherLocks(0)) && OwnStep(n, L.PublisherLocks(0)) == n.(publishers := map[0 := L.Locked(0)])
    ensures var n1 := n.(publishers := map[0 := L.Locked(0)]);
            L.Enabled(n1, L.PublisherChecks(0)) && OwnStep(n1, L.PublisherChecks(0)) == n.(publishers := map[0 := L.Checked(0, n.socket.value)])
  {
  }

  lemma SendWrites(n: L.Sys)
    requires Idle(n) && n.socket.Some? && n.performed
    ensures var n2, n3 := n.(publishers := map[0 := L.Checked(0, n.socket.value)]), n.(publishers := map[0 := L.Writing(0, n.socket.value)]);
            && L.Enabled(n2, L.PublisherBegins(0)) && OwnStep(n2, L.PublisherBegins(0)) == n3
            && L.Enabled(n3, L.PublisherEnds(0)) && OwnStep(n3, L.PublisherEnds(0)) == n.(publishers := map[0 := L.Finished(0)])
  {
  }

  lemma SendEnds(n: L.Sys)
    requires Idle(n) && n.socket.Some? && n.performed
    ensures var n4 := n.(publishers := map[0 := L.Finished(0)]); L.Enabled(n4, L.PublisherUnlocks(0)) && OwnStep(n4, L.PublisherUnlocks(0)) == n
  {
  }

  lemma SendRuns(n: L.Sys)
    requires Idle(n) && n.socket.Some? && n.performed
    ensures CanDo(n, SEND) && After(n, SEND) == n
  {
    hide CanDo, After, OwnStep, L.Enabled, Idle;
    var c := n.socket.value;
    var n1 := n.(publishers := map[0 := L.Locked(0)]);
    var n2 := n.(publishers := map[0 := L.Checked(0, c)]);
    var n3 := n.(publishers := map[0 := L.Writing(0, c)]);
    var n4 := n.(publishers := map[0 := L.Finished(0)]);
    SendBegins(n);
    SendWrites(n);
    SendEnds(n);
    Chain4(n1, L.PublisherChecks(0), L.PublisherBegins(0), L.PublisherEnds(0), L.PublisherUnlocks(0), n2, n3, n4, n);
    DoMore(n, L.PublisherLocks(0), SEND[1..]);
    assert SEND == [SEND[0]] + SEND[1..];
  }

  lemma LoadRuns(n: L.Sys)
    requires Idle(n) && !n.loaded
    ensures CanDo(n, [L.AgentLoads]) && After(n, [L.AgentLoads]) == n.(loaded := true)
  {
    hide CanDo, After;
    Chain1(n, L.AgentLoads, n.(loaded := true));
  }

  lemma FlagClearedRuns(n: L.Sys)
    requires Idle(n) && n.loaded
    ensures CanDo(n, [L.FlagCleared]) && After(n, [L.FlagCleared]) == n.(performed := false)
  {
    hide CanDo, After;
    Chain1(n, L.FlagCleared, n.(performed := false));
  }

  lemma FlagSetRuns(n: L.Sys)
    requires Idle(n) && n.loaded && n.socket.Some? && n.socket.value in n.shaken
    ensures CanDo(n, [L.FlagSet]) && After(n, [L.FlagSet]) == n.(performed := true)
  {
    hide CanDo, After;
    Chain1(n, L.FlagSet, n.(performed := true));
  }

  // ------------------------------------------------------------------ both machines

  /** The protocol's state after the wake-ups so far, the lock's, and the steps the last wake-up has still to take. */
  datatype Both = Both(adb: A.Sys, lock: L.Sys, todo: seq<L.Action>)

  const START := Both(A.START, L.START, [])

  datatype Move =
    | Wake(event: Event)
    | Outside(action: A.Action)
    | Poll
    | Other(action_: L.Action)

  predicate Enabled(b: Both, m: Move) {
    match m
    case Wake(e) => b.todo == [] && A.Enabled(b.adb, A.Wakeup(e))
    case Outside(a) => !a.Wakeup? && A.Enabled(b.adb, a)
    case Poll => b.todo != [] && L.Enabled(b.lock, b.todo[0])
    case Other(a) => IsOther(a) && L.Enabled(b.lock, a)
  }

  /** The agent completes a handshake when it says so. */
  predicate Shakes(a: A.Action) {
    a == A.AgentSays(HandshakeComplete)
  }

  function Apply(debuggable: bool, b: Both, m: Move): Both
    requires Enabled(b, m)
  {
    match m
    case Wake(e) => b.(adb := A.Apply(debuggable, b.adb, A.Wakeup(e)), todo := Todo(debuggable, b.adb.plugin, e))
    case Outside(a) =>
      Both(A.Apply(debuggable, b.adb, a), if Shakes(a) then L.Apply(b.lock, L.AgentShakesHands(b.adb.agent.conn)) else b.lock, b.todo)
    case Poll => b.(lock := L.Apply(b.lock, b.todo[0]), todo := b.todo[1..])
    case Other(a) => b.(lock := L.Apply(b.lock, a))
  }

  function SocketId(s: State): Option<nat> {
    if s.socket.None? then None else Some(s.socket.value.id)
  }

  /** The lock's machine has reached what the protocol's says. */
  predicate Agrees(adb: A.Sys, n: L.Sys) {
    && Idle(n) && n.socket == SocketId(adb.plugin) && n.performed == adb.plugin.performedHandshake
    && n.loaded == adb.plugin.agentLoaded && n.next == adb.nextConn
  }

  /** Every handshake the agent has reported, and the plugin has not yet heard of, has happened. */
  predicate ReportsTrue(ms: seq<A.InFlight>, shaken: set<nat>) {
    forall i | 0 <= i < |ms| && ms[i].message == HandshakeComplete :: ms[i].conn in shaken
  }

  ghost predicate Linked(debuggable: bool, b: Both) {
    && A.Inv(debuggable, b.adb) && L.OneUnit(b.lock) && L.Coherent(b.lock)
    && ReportsTrue(b.adb.fifo, b.lock.shaken)
    && CanDo(Own(b.lock), b.todo) && Agrees(b.adb, After(Own(b.lock), b.todo))
  }

  lemma LinkedStarts(debuggable: bool)
    ensures Linked(debuggable, START)
  {
    A.InvStarts(debuggable);
    assert forall w: L.Thread :: !L.Inside(L.START, w);
    assert Own(L.START).publishers == map[0 := L.Away];
    DoNothing(Own(L.START));
  }

  // ------------------------------------------------------------------ a wake-up

  lemma PacketSends(s: State, io: Io)
    requires s.socket.Some? && CanHandle(s.socket.value.unread)
    ensures var r := PacketStep(s, io);
            && SocketId(r.state) == SocketId(s) && r.state.performedHandshake == s.performedHandshake && r.state.agentLoaded == s.agentLoaded
            && (r.out.Packet? ==> s.performedHandshake) && !r.out.HandshakeReply?
  {
    hide ReadChunk, DdmPacket, ReadBe32, CanHandle, DeclaredLength;
    A.HandlesAll(s.socket.value.unread);
  }

  lemma HandshakeOutcome(s: State, io: Io)
    requires s.socket.Some? && !s.performedHandshake
    ensures var r := HandshakeStep(s, io);
            && !r.out.Packet? && r.state.agentLoaded == s.agentLoaded
            && (r.out.HandshakeReply? ==> SocketId(r.state) == SocketId(s) && r.state.performedHandshake && r.out.to == s.socket.value.id)
            && (!r.out.HandshakeReply? ==> r.state.socket.None? && !r.state.performedHandshake)
  {
  }

  /** What a wake-up by the socket can change, and what goes out with it. */
  lemma SocketOutcome(s: State, io: Io)
    requires s.socket.Some?
    ensures var r := SocketStep(s, io);
            && (r.out.HandshakeReply? ==> !s.agentLoaded && !s.performedHandshake && r.out.to == s.socket.value.id
                                          && SocketId(r.state) == SocketId(s) && r.state.performedHandshake && !r.state.agentLoaded)
            && (r.out.Packet? ==> s.performedHandshake)
            && (r.state.socket.None? ==> !r.state.performedHandshake && r.state.agentLoaded == s.agentLoaded && !r.out.Packet? && !r.out.HandshakeReply?)
            && (r.state.socket.Some? ==> SocketId(r.state) == SocketId(s))
            && (r.state.socket.Some? && !r.out.HandshakeReply? ==> r.state.performedHandshake == s.performedHandshake)
            && (r.out.Packet? || r.out.HandshakeReply? ==> r.state.agentLoaded == s.agentLoaded)
            && (s.agentLoaded ==> r.state.agentLoaded)
  {
    hide PacketStep, HandshakeStep, DeclaredLength;
    if !s.performedHandshake { HandshakeOutcome(s, io); }
    if CanHandle(s.socket.value.unread) { PacketSends(s, io); }
  }

  /** The connections shaken hands with when the wake-up's steps are done. */
  function Shook(s: State, out: Output, shaken: set<nat>): set<nat> {
    if out.HandshakeReply? then shaken + {out.to} else shaken
  }

  lemma SocketRuns(s: State, io: Io, n: L.Sys)
    requires s.socket.Some? && Idle(n) && n.socket == SocketId(s) && n.performed == s.performedHandshake && n.loaded == s.agentLoaded
    ensures var r := SocketStep(s, io);
            && CanDo(n, SocketTodo(s, io))
            && After(n, SocketTodo(s, io))
               == n.(socket := SocketId(r.state), performed := r.state.performedHandshake, loaded := r.state.agentLoaded,
                     shaken := Shook(s, r.out, n.shaken))
  {
    hide SocketStep, CanDo, After, Idle;
    var r := SocketStep(s, io);
    SocketOutcome(s, io);
    if r.out.HandshakeReply? {
      ReplyRuns(n);
    } else if r.out.Packet? {
      SendRuns(n);
    } else if r.state.socket.None? {
      if ReplyFailed(s, io) {
        ReplyFailsRuns(n);
      } else {
        CloseRuns(n);
      }
    } else if r.state.agentLoaded && !s.agentLoaded {
      LoadRuns(n);
    } else {
      DoNothing(n);
    }
  }

  lemma MessageRuns(debuggable: bool, adb: A.Sys, e: Event, n: L.Sys)
    requires A.Inv(debuggable, adb) && A.Enabled(adb, A.Wakeup(e)) && e.FromAgent? && Agrees(adb, n) && ReportsTrue(adb.fifo, n.shaken)
    ensures var t := Step(debuggable, adb.plugin, e).state;
            && CanDo(n, Todo(debuggable, adb.plugin, e))
            && After(n, Todo(debuggable, adb.plugin, e)) == n.(socket := SocketId(t), performed := t.performedHandshake, loaded := t.agentLoaded)
            && !Step(debuggable, adb.plugin, e).out.HandshakeReply?
  {
    hide CanDo, After, Idle, A.Replay, A.AcceptedFirst, AtBoundary;
    var m := adb.fifo[0];
    AgentSpeaks(debuggable, adb, e);
    if e.message == HandshakeComplete {
      assert m.conn in n.shaken;
      FlagSetRuns(n);
    } else if e.message == Closing {
      CloseRuns(n);
    } else if e.message == Accepted {
      FlagClearedRuns(n);
    } else {
      DoNothing(n);
    }
  }

  lemma AgentSpeaks(debuggable: bool, adb: A.Sys, e: Event)
    requires A.Inv(debuggable, adb) && A.Enabled(adb, A.Wakeup(e)) && e.FromAgent?
    ensures adb.plugin.agentLoaded
    ensures e.message == HandshakeComplete ==>
              adb.plugin.agentHasSocket && adb.plugin.socket.Some? && adb.fifo[0].conn == adb.plugin.socket.value.id
  {
    hide AtBoundary;
    assert A.Advance(adb.seen, adb.fifo[0]).Some?;
  }

  lemma ControlRuns(debuggable: bool, adb: A.Sys, e: Event, n: L.Sys)
    requires A.Enabled(adb, A.Wakeup(e)) && e.FromControl? && Agrees(adb, n)
    ensures var t := Step(debuggable, adb.plugin, e).state;
            && CanDo(n, Todo(debuggable, adb.plugin, e))
            && After(n, Todo(debuggable, adb.plugin, e))
               == n.(socket := SocketId(t), performed := t.performedHandshake, loaded := t.agentLoaded,
                     next := if debuggable && e.newFd.Some? then n.next + 1 else n.next)
            && !Step(debuggable, adb.plugin, e).out.HandshakeReply?
  {
    hide CanDo, After, Idle;
    if !debuggable {
      DoNothing(n);
    } else if e.newFd.None? {
      RefuseRuns(n);
    } else {
      AcceptRuns(n);
    }
  }

  /** The steps of a wake-up can be taken, and lead to what the protocol's step says. */
  lemma WakeRuns(debuggable: bool, adb: A.Sys, e: Event, n: L.Sys)
    requires A.Inv(debuggable, adb) && A.Enabled(adb, A.Wakeup(e)) && Agrees(adb, n) && ReportsTrue(adb.fifo, n.shaken)
    ensures CanDo(n, Todo(debuggable, adb.plugin, e))
    ensures Agrees(A.Apply(debuggable, adb, A.Wakeup(e)), After(n, Todo(debuggable, adb.plugin, e)))
    ensures After(n, Todo(debuggable, adb.plugin, e)).shaken == Shook(adb.plugin, Step(debuggable, adb.plugin, e).out, n.shaken)
  {
    hide CanDo, After, A.Inv, SocketTodo, SocketStep, MessageStep, ControlStep;
    match e
    case FromAgent(_, _) => MessageRuns(debuggable, adb, e, n);
    case FromControl(_, _) => ControlRuns(debuggable, adb, e, n);
    case FromSocket(io) =>
      SocketRuns(adb.plugin, io, n);
    case SocketHangup => CloseRuns(n);
    case _ => DoNothing(n);
  }

  // ------------------------------------------------------------------ the link is kept

  lemma ReportsMore(ms: seq<A.InFlight>, m: A.InFlight, shaken: set<nat>)
    requires ReportsTrue(ms, shaken) && (m.message == HandshakeComplete ==> m.conn in shaken)
    ensures ReportsTrue(ms + [m], shaken)
  {
  }

  lemma ReportsKept(ms: seq<A.InFlight>, shaken: set<nat>, more: set<nat>)
    requires ReportsTrue(ms, shaken) && shaken <= more
    ensures ReportsTrue(ms, more) && (ms != [] ==> ReportsTrue(ms[1..], more))
  {
  }

  lemma FifoAfter(debuggable: bool, adb: A.Sys, a: A.Action)
    requires A.Enabled(adb, a)
    ensures var ms := A.Apply(debuggable, adb, a).fifo;
            && (a.Wakeup? ==> ms == if a.event.FromAgent? then adb.fifo[1..] else adb.fifo)
            && (a.PeerSends? ==> ms == adb.fifo)
            && (a.AgentStarts? ==> ms == adb.fifo + [A.InFlight(ListenStart, 0)])
            && (a.AgentTakesFds? ==> ms == adb.fifo + [A.InFlight(Accepted, adb.box.value.conn)])
            && (a.AgentSays? ==> ms == adb.fifo + [A.InFlight(a.message, adb.agent.conn)])
  {
    hide Step;
  }

  lemma OutsideKeepsPlugin(debuggable: bool, adb: A.Sys, a: A.Action, n: L.Sys)
    requires !a.Wakeup? && A.Enabled(adb, a) && Agrees(adb, n)
    ensures Agrees(A.Apply(debuggable, adb, a), n)
  {
    hide Idle;
  }

  lemma AgreesShaken(adb: A.Sys, n: L.Sys, c: nat)
    requires Agrees(adb, n)
    ensures Agrees(adb, Shake(n, c))
  {
  }

  lemma KeptByWake(debuggable: bool, b: Both, e: Event)
    requires Linked(debuggable, b) && Enabled(b, Wake(e))
    ensures Linked(debuggable, Apply(debuggable, b, Wake(e)))
  {
    hide A.Inv, L.OneUnit, L.Coherent, CanDo, After, Agrees, A.Apply, A.Enabled, Own, ReportsTrue, Todo;
    var n := Own(b.lock);
    DoNothing(n);
    OwnShaken(b.lock);
    A.InvKept(debuggable, b.adb, A.Wakeup(e));
    WakeRuns(debuggable, b.adb, e, n);
    FifoAfter(debuggable, b.adb, A.Wakeup(e));
    ReportsKept(b.adb.fifo, b.lock.shaken, b.lock.shaken);
    if e.FromAgent? { FifoNotEmpty(b.adb, e); }
  }

  lemma FifoNotEmpty(adb: A.Sys, e: Event)
    requires A.Enabled(adb, A.Wakeup(e)) && e.FromAgent?
    ensures adb.fifo != []
  {
  }

  lemma OwnShaken(sys: L.Sys)
    ensures Own(sys).shaken == sys.shaken
  {
  }

  lemma AgentCan(adb: A.Sys, a: A.Action)
    requires A.Enabled(adb, a)
    ensures (a.AgentTakesFds? ==> adb.box.Some?) && (a.AgentSays? ==> adb.agent.Attached?)
  {
  }

  lemma KeptByOutside(debuggable: bool, b: Both, a: A.Action)
    requires Linked(debuggable, b) && Enabled(b, Outside(a))
    ensures Linked(debuggable, Apply(debuggable, b, Outside(a)))
  {
    hide A.Inv, L.OneUnit, L.Coherent, CanDo, After, Agrees, A.Apply, A.Enabled, Own, ReportsTrue, L.Apply;
    var n, adb' := Own(b.lock), A.Apply(debuggable, b.adb, a);
    A.InvKept(debuggable, b.adb, a);
    FifoAfter(debuggable, b.adb, a);
    AgentCan(b.adb, a);
    if Shakes(a) {
      var c := b.adb.agent.conn;
      var lock' := L.Apply(b.lock, L.AgentShakesHands(c));
      L.OneUnitKept(b.lock, L.AgentShakesHands(c));
      L.CoherentKept(b.lock, L.AgentShakesHands(c));
      OwnShake(b.lock, c);
      ShakeKeeps(n, b.todo, c);
      AgreesShaken(b.adb, After(n, b.todo), c);
      OutsideKeepsPlugin(debuggable, b.adb, a, After(Own(lock'), b.todo));
      ShakenByAgent(b.lock, c);
      ReportsKept(b.adb.fifo, b.lock.shaken, lock'.shaken);
      ReportsMore(b.adb.fifo, A.InFlight(HandshakeComplete, c), lock'.shaken);
    } else {
      OutsideKeepsPlugin(debuggable, b.adb, a, After(n, b.todo));
      if a.AgentStarts? {
        ReportsMore(b.adb.fifo, A.InFlight(ListenStart, 0), b.lock.shaken);
      } else if a.AgentTakesFds? {
        ReportsMore(b.adb.fifo, A.InFlight(Accepted, b.adb.box.value.conn), b.lock.shaken);
      } else if a.AgentSays? {
        ReportsMore(b.adb.fifo, A.InFlight(a.message, b.adb.agent.conn), b.lock.shaken);
      }
    }
  }

  lemma ShakenByAgent(sys: L.Sys, c: nat)
    ensures L.Apply(sys, L.AgentShakesHands(c)).shaken == sys.shaken + {c}
  {
  }

  lemma {:induction false} FirstStep(n: L.Sys, todo: seq<L.Action>)
    requires CanDo(n, todo) && todo != []
    ensures IsOwn(todo[0]) && L.Enabled(n, todo[0]) && CanDo(OwnStep(n, todo[0]), todo[1..])
    ensures After(n, todo) == After(OwnStep(n, todo[0]), todo[1..])
  {
    hide IsOwn, L.Enabled, OwnStep;
  }

  lemma LockIsFree(sys: L.Sys, a: L.Action)
    requires L.IsLock(a) && L.Enabled(sys, a)
    ensures sys.counter > 0
  {
  }

  lemma ShakenOnlyGrows(sys: L.Sys, a: L.Action)
    requires L.Enabled(sys, a)
    ensures sys.shaken <= L.Apply(sys, a).shaken
  {
  }

  lemma KeptByPoll(debuggable: bool, b: Both)
    requires Linked(debuggable, b) && Enabled(b, Poll)
    ensures Linked(debuggable, Apply(debuggable, b, Poll))
  {
    hide A.Inv, L.OneUnit, L.Coherent, CanDo, After, Agrees, Own, ReportsTrue, L.Apply, L.Enabled, OwnStep;
    var a := b.todo[0];
    FirstStep(Own(b.lock), b.todo);
    if L.IsLock(a) { LockIsFree(b.lock, a); }
    OwnAgrees(b.lock, a);
    L.OneUnitKept(b.lock, a);
    L.CoherentKept(b.lock, a);
    ShakenOnlyGrows(b.lock, a);
    ReportsKept(b.adb.fifo, b.lock.shaken, L.Apply(b.lock, a).shaken);
  }

  lemma KeptByOther(debuggable: bool, b: Both, a: L.Action)
    requires Linked(debuggable, b) && Enabled(b, Other(a))
    ensures Linked(debuggable, Apply(debuggable, b, Other(a)))
  {
    hide A.Inv, L.OneUnit, L.Coherent, CanDo, After, Agrees, Own, ReportsTrue, L.Apply, L.Enabled, IsOther;
    OtherUnseen(b.lock, a);
    L.OneUnitKept(b.lock, a);
    L.CoherentKept(b.lock, a);
    ShakenOnlyGrows(b.lock, a);
    ReportsKept(b.adb.fifo, b.lock.shaken, L.Apply(b.lock, a).shaken);
  }

  lemma LinkedKept(debuggable: bool, b: Both, m: Move)
    requires Linked(debuggable, b) && Enabled(b, m)
    ensures Linked(debuggable, Apply(debuggable, b, m))
  {
    hide Linked, Enabled, Apply;
    match m
    case Wake(e) => KeptByWake(debuggable, b, e);
    case Outside(a) => KeptByOutside(debuggable, b, a);
    case Poll => KeptByPoll(debuggable, b);
    case Other(a) => KeptByOther(debuggable, b, a);
  }

  // ------------------------------------------------------------------ all runs

  ghost predicate Run(debuggable: bool, states: seq<Both>, moves: seq<Move>) {
    && |states| == |moves| + 1
    && states[0] == START
    && forall i | 0 <= i < |moves| :: Enabled(states[i], moves[i]) && states[i + 1] == Apply(debuggable, states[i], moves[i])
  }

  lemma {:induction false} LinkedAlways(debuggable: bool, states: seq<Both>, moves: seq<Move>, i: nat)
    requires Run(debuggable, states, moves) && i < |states|
    ensures Linked(debuggable, states[i])
  {
    hide Linked, Apply, Enabled;
    if i == 0 {
      LinkedStarts(debuggable);
    } else {
      LinkedAlways(debuggable, states, moves, i - 1);
      assert states[i - 1 + 1] == Apply(debuggable, states[i - 1], moves[i - 1]);
      LinkedKept(debuggable, states[i - 1], moves[i - 1]);
    }
  }

  /**
    * In every run, what the poll thread has to do next it can do, unless it waits for the lock. In
    * particular a handshake reported by the agent is one of the connection the plugin has.
    */
  lemma NeverStuck(debuggable: bool, states: seq<Both>, moves: seq<Move>, i: nat)
    requires Run(debuggable, states, moves) && i < |states| && states[i].todo != []
    ensures var b := states[i]; L.Enabled(b.lock, b.todo[0]) || (L.IsLock(b.todo[0]) && b.lock.counter == 0)
  {
    hide Run, A.Inv, L.OneUnit, L.Coherent, CanDo, After, Agrees, Own, L.Enabled, OwnStep;
    LinkedAlways(debuggable, states, moves, i);
    var b := states[i];
    FirstStep(Own(b.lock), b.todo);
    if !(L.IsLock(b.todo[0]) && b.lock.counter == 0) { OwnAgrees(b.lock, b.todo[0]); }
  }

  /** In every run, between wake-ups, the two machines agree on the socket, the handshake flag and the agent. */
  lemma MachinesAgree(debuggable: bool, states: seq<Both>, moves: seq<Move>, i: nat)
    requires Run(debuggable, states, moves) && i < |states| && states[i].todo == []
    ensures var b := states[i];
            && b.lock.socket == SocketId(b.adb.plugin) && b.lock.performed == b.adb.plugin.performedHandshake
            && b.lock.loaded == b.adb.plugin.agentLoaded
  {
    hide Run, A.Inv, L.OneUnit, L.Coherent, Idle;
    LinkedAlways(debuggable, states, moves, i);
    DoNothing(Own(states[i].lock));
  }

  // ------------------------------------------------------------------ where handshakes come from

  /** Move `j` completed the handshake of connection `c`: the plugin replied to it, or the agent said so. */
  predicate Completes(debuggable: bool, b: Both, m: Move, c: nat)
    requires Enabled(b, m)
  {
    match m
    case Wake(e) => var out := Step(debuggable, b.adb.plugin, e).out; out.HandshakeReply? && out.to == c
    case Outside(a) => Shakes(a) && b.adb.agent.Attached? && b.adb.agent.conn == c
    case Poll => false
    case Other(_) => false
  }

  function Settled(b: Both): set<nat>
    requires CanDo(Own(b.lock), b.todo)
  {
    After(Own(b.lock), b.todo).shaken
  }

  lemma SettledMove(debuggable: bool, b: Both, m: Move, c: nat)
    requires Linked(debuggable, b) && Enabled(b, m) && Linked(debuggable, Apply(debuggable, b, m))
    ensures c in Settled(Apply(debuggable, b, m)) ==> c in Settled(b) || Completes(debuggable, b, m, c)
  {
    hide A.Inv, L.OneUnit, L.Coherent, CanDo, After, Agrees, A.Apply, A.Enabled, Own, ReportsTrue, L.Apply, L.Enabled, Todo, Step, IsOther, OwnStep;
    var n := Own(b.lock);
    match m
    case Wake(e) =>
      DoNothing(n);
      OwnShaken(b.lock);
      WakeRuns(debuggable, b.adb, e, n);
    case Outside(a) =>
      if Shakes(a) {
        AgentCan(b.adb, a);
        OwnShake(b.lock, b.adb.agent.conn);
        ShakeKeeps(n, b.todo, b.adb.agent.conn);
      }
    case Poll =>
      FirstStep(n, b.todo);
      if L.IsLock(b.todo[0]) { LockIsFree(b.lock, b.todo[0]); }
      OwnAgrees(b.lock, b.todo[0]);
    case Other(a) => OtherUnseen(b.lock, a);
  }

  /** In every run, a connection counts as shaken hands with only once a move has completed its handshake. */
  lemma {:induction false} HandshakeHappened(debuggable: bool, states: seq<Both>, moves: seq<Move>, i: nat, c: nat) returns (j: nat)
    requires Run(debuggable, states, moves) && i < |states|
    requires CanDo(Own(states[i].lock), states[i].todo) && c in Settled(states[i])
    ensures j < i && Completes(debuggable, states[j], moves[j], c)
  {
    hide Linked, Apply, Enabled, Completes, CanDo, Settled;
    LinkedAlways(debuggable, states, moves, i);
    if i == 0 {
      NothingSettled();
      assert false;
    } else {
      LinkedAlways(debuggable, states, moves, i - 1);
      CanGoOn(debuggable, states[i - 1]);
      assert Enabled(states[i - 1], moves[i - 1]) && states[i - 1 + 1] == Apply(debuggable, states[i - 1], moves[i - 1]);
      SettledMove(debuggable, states[i - 1], moves[i - 1], c);
      if c in Settled(states[i - 1]) {
        j := HandshakeHappened(debuggable, states, moves, i - 1, c);
      } else {
        j := i - 1;
      }
    }
  }

  lemma CanGoOn(debuggable: bool, b: Both)
    requires Linked(debuggable, b)
    ensures CanDo(Own(b.lock), b.todo)
  {
    hide A.Inv, L.OneUnit, L.Coherent, CanDo, After, Agrees, Own;
  }

  lemma NothingSettled()
    ensures CanDo(Own(START.lock), START.todo) && Settled(START) == {}
  {
    DoNothing(Own(START.lock));
  }

  /**
    * In every run of all the threads, a packet is written to the very connection that was checked,
    * and an earlier move of the protocol completed that connection's handshake.
    */
  lemma PacketAfterHandshake(debuggable: bool, states: seq<Both>, moves: seq<Move>, i: nat, t: nat) returns (j: nat)
    requires Run(debuggable, states, moves) && i < |moves| && moves[i] == Other(L.PublisherBegins(t))
    ensures var conn := L.PublisherAt(states[i].lock, t).conn;
            && states[i].lock.socket == Some(conn) && L.PublisherAt(states[i + 1].lock, t).conn == conn
            && j < i && Completes(debuggable, states[j], moves[j], conn)
  {
    LinkedAlways(debuggable, states, moves, i);
    assert Enabled(states[i], moves[i]) && states[i + 1] == Apply(debuggable, states[i], moves[i]);
    var lock := states[i].lock;
    assert L.PacketUnderWay(L.PublisherAt(lock, t));
    var conn := L.PublisherAt(lock, t).conn;
    OwnShaken(lock);
    ShakenGrows(Own(lock), states[i].todo);
    hide Run, Linked, Completes, After;
    j := HandshakeHappened(debuggable, states, moves, i, conn);
  }
}
