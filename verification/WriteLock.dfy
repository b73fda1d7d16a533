/**
  * The eventfd that guards the adb socket, shared by the poll thread, the agent and any number of
  * threads that publish DDM data. Steps are as small as the threads can interleave.
  */
module WriteLock {
  import opened Bytes

  /** `SendDdmPacket` in a publisher: lock, check, write, unlock. `took` is what the read returned. */
  datatype Publisher =
    | Away
    | Locked(took: nat)
    | Checked(took: nat, conn: nat)
    | Writing(took: nat, conn: nat)
    | Finished(took: nat)

  /** The poll thread, where it touches the socket or the handshake flag. */
  datatype Poll =
    | Running
    | CloseLocked(took: nat)
    | CloseReset(took: nat)
    | CloseUnlocked
    | AcceptLocked(took: nat)
    | AcceptDone(took: nat)
    | Replying(conn: nat)
    | Replied(conn: nat)

  datatype AgentWriter = Quiet | Holding(took: nat)

  /** `shaken` holds the connections whose handshake has been completed, by the plugin or the agent. */
  datatype Sys = Sys(
    counter: nat,
    socket: Option<nat>,
    performed: bool,
    loaded: bool,
    poll: Poll,
    agent: AgentWriter,
    publishers: map<nat, Publisher>,
    shaken: set<nat>,
    next: nat)

  const START := Sys(1, None, false, false, Running, Quiet, map[], {}, 0)

  datatype Action =
    | PublisherLocks(t: nat) | PublisherChecks(t: nat) | PublisherBegins(t: nat) | PublisherEnds(t: nat) | PublisherUnlocks(t: nat)
    | AgentLocks | AgentUnlocks | AgentShakesHands(conn: nat)
    | CloseLocks | CloseResets | CloseUnlocks | CloseClearsFlag
    | AcceptLocks | AcceptSets | AcceptFails | AcceptUnlocks
    | ReplyBegins | ReplyEnds | ReplyFails | ReplySetsFlag
    | AgentLoads | FlagCleared | FlagSet

  function PublisherAt(sys: Sys, t: nat): Publisher {
    if t in sys.publishers then sys.publishers[t] else Away
  }

  predicate Enabled(sys: Sys, a: Action) {
    match a
    case PublisherLocks(t) => PublisherAt(sys, t).Away? && sys.counter > 0
    case PublisherChecks(t) => PublisherAt(sys, t).Locked?
    case PublisherBegins(t) => PublisherAt(sys, t).Checked?
    case PublisherEnds(t) => PublisherAt(sys, t).Writing?
    case PublisherUnlocks(t) => PublisherAt(sys, t).Finished?
    case AgentLocks => sys.loaded && sys.agent.Quiet? && sys.counter > 0
    case AgentUnlocks => sys.agent.Holding?
    case AgentShakesHands(_) => true
    case CloseLocks => sys.poll.Running? && sys.counter > 0
    case CloseResets => sys.poll.CloseLocked?
    case CloseUnlocks => sys.poll.CloseReset?
    case CloseClearsFlag => sys.poll.CloseUnlocked?
    case AcceptLocks => sys.poll.Running? && sys.counter > 0
    case AcceptSets => sys.poll.AcceptLocked?
    case AcceptFails => sys.poll.AcceptLocked?
    case AcceptUnlocks => sys.poll.AcceptDone?
    // `PerformHandshake` runs only without the agent, for a connection not yet shaken hands with.
    case ReplyBegins => sys.poll.Running? && sys.socket.Some? && !sys.performed && !sys.loaded
    case ReplyEnds => sys.poll.Replying?
    case ReplyFails => sys.poll.Replying?
    case ReplySetsFlag => sys.poll.Replied?
    case AgentLoads => sys.poll.Running? && !sys.loaded
    case FlagCleared => sys.poll.Running? && sys.loaded
    // HANDSHAKE-COMPLETE is about the connection the plugin has: `AdbThreads.NeverStuck` shows that this is no assumption.
    case FlagSet => sys.poll.Running? && sys.loaded && sys.socket.Some? && sys.socket.value in sys.shaken
  }

  function SetPublisher(sys: Sys, t: nat, p: Publisher): Sys {
    sys.(publishers := sys.publishers[t := p])
  }

  /** A lock takes the counter's value and leaves zero; an unlock gives back what was taken. */
  function Apply(sys: Sys, a: Action): Sys
    requires Enabled(sys, a)
  {
    match a
    case PublisherLocks(t) => SetPublisher(sys.(counter := 0), t, Locked(sys.counter))
    case PublisherChecks(t) =>
      var took := PublisherAt(sys, t).took;
      SetPublisher(sys, t, if sys.socket.None? || !sys.performed then Finished(took) else Checked(took, sys.socket.value))
    case PublisherBegins(t) =>
      // The write goes to whatever the socket is now.
      SetPublisher(sys, t, Writing(PublisherAt(sys, t).took, if sys.socket.Some? then sys.socket.value else sys.next))
    case PublisherEnds(t) => SetPublisher(sys, t, Finished(PublisherAt(sys, t).took))
    case PublisherUnlocks(t) => SetPublisher(sys.(counter := sys.counter + PublisherAt(sys, t).took), t, Away)
    case AgentLocks => sys.(agent := Holding(sys.counter), counter := 0)
    case AgentUnlocks => sys.(counter := sys.counter + sys.agent.took, agent := Quiet)
    case AgentShakesHands(c) => sys.(shaken := sys.shaken + {c})
    case CloseLocks => sys.(poll := CloseLocked(sys.counter), counter := 0)
    case CloseResets => sys.(socket := None, poll := CloseReset(sys.poll.took))
    case CloseUnlocks => sys.(counter := sys.counter + sys.poll.took, poll := CloseUnlocked)
    case CloseClearsFlag => sys.(performed := false, poll := Running)
    case AcceptLocks => sys.(poll := AcceptLocked(sys.counter), counter := 0)
    case AcceptSets =>
      if sys.socket.Some? then sys.(poll := AcceptDone(sys.poll.took))
      else sys.(socket := Some(sys.next), next := sys.next + 1, poll := AcceptDone(sys.poll.took))
    case AcceptFails => sys.(poll := AcceptDone(sys.poll.took))
    case AcceptUnlocks => sys.(counter := sys.counter + sys.poll.took, poll := Running)
    case ReplyBegins => sys.(poll := Replying(sys.socket.value))
    case ReplyEnds => sys.(poll := Replied(sys.poll.conn), shaken := sys.shaken + {sys.poll.conn})
    case ReplyFails => sys.(poll := Running)
    case ReplySetsFlag => sys.(performed := true, poll := Running)
    case AgentLoads => sys.(loaded := true)
    case FlagCleared => sys.(performed := false)
    case FlagSet => sys.(performed := true)
  }

  // ------------------------------------------------------------------ the lock

  datatype Thread = PollThread | AgentThread | PublisherThread(t: nat)

  function TookPublisher(p: Publisher): nat {
    if p.Away? then 0 else p.took
  }

  /** What a thread has taken from the counter. */
  function Took(sys: Sys, w: Thread): nat {
    match w
    case PollThread =>
      if sys.poll.CloseLocked? || sys.poll.CloseReset? || sys.poll.AcceptLocked? || sys.poll.AcceptDone? then sys.poll.took else 0
    case AgentThread => if sys.agent.Holding? then sys.agent.took else 0
    case PublisherThread(t) => TookPublisher(PublisherAt(sys, t))
  }

  /** Threads between a lock and its unlock. */
  predicate Inside(sys: Sys, w: Thread) {
    match w
    case PollThread => sys.poll.CloseLocked? || sys.poll.CloseReset? || sys.poll.AcceptLocked? || sys.poll.AcceptDone?
    case AgentThread => sys.agent.Holding?
    case PublisherThread(t) => !PublisherAt(sys, t).Away?
  }

  /** One unit in all: in the counter, or with the one thread that is inside. */
  ghost predicate OneUnit(sys: Sys) {
    && sys.counter <= 1
    && (forall w: Thread :: Inside(sys, w) ==> Took(sys, w) == 1 && sys.counter == 0)
    && (forall v: Thread, w: Thread :: Inside(sys, v) && Inside(sys, w) ==> v == w)
    && (sys.counter == 0 ==> exists w: Thread :: Inside(sys, w))
  }

  /** Who acts in a step, if it is a thread that may use the lock. */
  function Actor(a: Action): Thread {
    match a
    case PublisherLocks(t) => PublisherThread(t)
    case PublisherChecks(t) => PublisherThread(t)
    case PublisherBegins(t) => PublisherThread(t)
    case PublisherEnds(t) => PublisherThread(t)
    case PublisherUnlocks(t) => PublisherThread(t)
    case AgentLocks => AgentThread
    case AgentUnlocks => AgentThread
    case AgentShakesHands(_) => AgentThread
    case _ => PollThread
  }

  predicate IsLock(a: Action) {
    a.PublisherLocks? || a.AgentLocks? || a.CloseLocks? || a.AcceptLocks?
  }

  predicate IsUnlock(a: Action) {
    a.PublisherUnlocks? || a.AgentUnlocks? || a.CloseUnlocks? || a.AcceptUnlocks?
  }

  /** A step leaves every other thread where it was. */
  lemma OthersStay(sys: Sys, a: Action, w: Thread)
    requires Enabled(sys, a) && w != Actor(a)
    ensures Inside(Apply(sys, a), w) == Inside(sys, w) && Took(Apply(sys, a), w) == Took(sys, w)
  {
  }

  /** How the acting thread moves. */
  lemma ActorMoves(sys: Sys, a: Action)
    requires Enabled(sys, a)
    ensures var sys', w := Apply(sys, a), Actor(a);
            && (IsLock(a) ==> !Inside(sys, w) && Inside(sys', w) && sys.counter > 0 && sys'.counter == 0 && Took(sys', w) == sys.counter)
            && (IsUnlock(a) ==> Inside(sys, w) && !Inside(sys', w) && sys'.counter == sys.counter + Took(sys, w))
            && (!IsLock(a) && !IsUnlock(a) ==>
                  Inside(sys', w) == Inside(sys, w) && Took(sys', w) == Took(sys, w) && sys'.counter == sys.counter)
  {
  }

  lemma OneUnitKept(sys: Sys, a: Action)
    requires Enabled(sys, a) && OneUnit(sys)
    ensures OneUnit(Apply(sys, a))
  {
    hide Apply, Enabled, Inside, Took, Actor;
    var sys', me := Apply(sys, a), Actor(a);
    ActorMoves(sys, a);
    forall w: Thread | w != me ensures Inside(sys', w) == Inside(sys, w) && Took(sys', w) == Took(sys, w) { OthersStay(sys, a, w); }
    if IsLock(a) {
      assert Inside(sys', me);
    } else if !IsUnlock(a) && sys.counter == 0 {
      var w: Thread :| Inside(sys, w);
      assert Inside(sys', w);
    }
  }

  // ------------------------------------------------------------------ the socket

  predicate PacketUnderWay(p: Publisher) {
    p.Checked? || p.Writing?
  }

  /** What the socket, the flag and the publishers have to do with each other. */
  ghost predicate Coherent(sys: Sys) {
    && (sys.performed && sys.socket.Some? ==> sys.socket.value in sys.shaken)
    && (sys.socket.None? && !sys.poll.CloseReset? && !sys.poll.CloseUnlocked? ==> !sys.performed)
    && (sys.poll.CloseReset? || sys.poll.CloseUnlocked? ==> sys.socket.None?)
    && (sys.poll.Replying? || sys.poll.Replied? ==> sys.socket == Some(sys.poll.conn) && !sys.performed && !sys.loaded)
    && (sys.poll.Replied? ==> sys.poll.conn in sys.shaken)
    && (forall t: nat :: PacketUnderWay(PublisherAt(sys, t)) ==>
          && sys.socket == Some(PublisherAt(sys, t).conn) && PublisherAt(sys, t).conn in sys.shaken
          && (!sys.loaded ==> sys.performed))
  }

  lemma CoherentKept(sys: Sys, a: Action)
    requires Enabled(sys, a) && OneUnit(sys) && Coherent(sys)
    ensures Coherent(Apply(sys, a))
  {
    var sys' := Apply(sys, a);
    forall t: nat | PacketUnderWay(PublisherAt(sys', t))
      ensures sys'.socket == Some(PublisherAt(sys', t).conn) && PublisherAt(sys', t).conn in sys'.shaken
      ensures !sys'.loaded ==> sys'.performed
    {
      PacketKept(sys, a, t);
    }
  }

  lemma PacketKept(sys: Sys, a: Action, t: nat)
    requires Enabled(sys, a) && OneUnit(sys) && Coherent(sys) && PacketUnderWay(PublisherAt(Apply(sys, a), t))
    ensures var sys' := Apply(sys, a);
            && sys'.socket == Some(PublisherAt(sys', t).conn) && PublisherAt(sys', t).conn in sys'.shaken
            && (!sys'.loaded ==> sys'.performed)
  {
    assert Inside(sys, PublisherThread(t)) && Inside(sys, PollThread) ==> PublisherThread(t) == PollThread;
    assert PacketUnderWay(PublisherAt(sys, t)) ==> sys.socket == Some(PublisherAt(sys, t).conn);
  }

  // ------------------------------------------------------------------ all runs

  ghost predicate Run(states: seq<Sys>, actions: seq<Action>) {
    && |states| == |actions| + 1
    && states[0] == START
    && forall i | 0 <= i < |actions| :: Enabled(states[i], actions[i]) && states[i + 1] == Apply(states[i], actions[i])
  }

  lemma {:induction false} Always(states: seq<Sys>, actions: seq<Action>, i: nat)
    requires Run(states, actions) && i < |states|
    ensures OneUnit(states[i]) && Coherent(states[i])
  {
    if i > 0 {
      hide Apply, Enabled, OneUnit, Coherent;
      Always(states, actions, i - 1);
      assert states[i - 1 + 1] == Apply(states[i - 1], actions[i - 1]);
      OneUnitKept(states[i - 1], actions[i - 1]);
      CoherentKept(states[i - 1], actions[i - 1]);
    }
  }

  /** The threads inside the lock. */
  ghost function Holders(sys: Sys): set<Thread> {
    (set t | t in sys.publishers && Inside(sys, PublisherThread(t)) :: PublisherThread(t))
    + (if Inside(sys, PollThread) then {PollThread} else {})
    + (if Inside(sys, AgentThread) then {AgentThread} else {})
  }

  lemma HoldersAre(sys: Sys, w: Thread)
    ensures w in Holders(sys) <==> Inside(sys, w)
  {
  }

  /** In every run, the counter and the number of holders add up to one. */
  lemma CounterPlusHolders(states: seq<Sys>, actions: seq<Action>, i: nat)
    requires Run(states, actions) && i < |states|
    ensures states[i].counter + |Holders(states[i])| == 1
  {
    hide Run, Holders, Inside, Took;
    var sys := states[i];
    Always(states, actions, i);
    forall w: Thread ensures w in Holders(sys) <==> Inside(sys, w) { HoldersAre(sys, w); }
    if sys.counter == 0 {
      var w: Thread :| Inside(sys, w);
      assert Holders(sys) == {w};
    } else {
      assert Holders(sys) == {};
    }
  }

  /**
    * In every run, a packet is written to the very connection that was checked, whose own handshake
    * is complete.
    */
  lemma PacketsGoToCheckedConnection(states: seq<Sys>, actions: seq<Action>, i: nat, t: nat)
    requires Run(states, actions) && i < |actions| && actions[i] == PublisherBegins(t)
    ensures var conn := PublisherAt(states[i], t).conn;
            states[i].socket == Some(conn) && PublisherAt(states[i + 1], t).conn == conn && conn in states[i].shaken
  {
    Always(states, actions, i);
    assert Enabled(states[i], actions[i]) && states[i + 1] == Apply(states[i], actions[i]);
    assert PacketUnderWay(PublisherAt(states[i], t));
  }

  /** In every run, no packet is under way while the plugin writes its handshake reply, which it does without the lock. */
  lemma ReplyNeverInterleaved(states: seq<Sys>, actions: seq<Action>, i: nat, t: nat)
    requires Run(states, actions) && i < |states| && states[i].poll.Replying?
    ensures !PublisherAt(states[i], t).Writing?
  {
    Always(states, actions, i);
    assert !PacketUnderWay(PublisherAt(states[i], t));
  }
}
