/** The parts of a TCP connection that run on the event loop, as values: socket, timers, state, and their join. */
module Lifecycle {
  import opened Types
  import opened RwPackets

  // ---------------------------------------------------------------------
  // What the event loop still has to run for one connection

  datatype Task =
    | ConnectWait
    | HeaderRead
    | PayloadRead
    | PacketWrite
    | LoginWait
    | HeartbeatWait
    | ClosedPost
    | LoginStoppedPost
    | HeartbeatStoppedPost

  /** How many tasks of each kind are outstanding. */
  datatype Tasks = Tasks(
    connectWaits: nat, headerReads: nat, payloadReads: nat, writes: nat, loginWaits: nat, heartbeatWaits: nat,
    closedPosts: nat, loginStoppedPosts: nat, heartbeatStoppedPosts: nat)
  {
    function Has(t: Task): nat {
      match t
      case ConnectWait => connectWaits
      case HeaderRead => headerReads
      case PayloadRead => payloadReads
      case PacketWrite => writes
      case LoginWait => loginWaits
      case HeartbeatWait => heartbeatWaits
      case ClosedPost => closedPosts
      case LoginStoppedPost => loginStoppedPosts
      case HeartbeatStoppedPost => heartbeatStoppedPosts
    }

    function Set(t: Task, n: nat): Tasks {
      match t
      case ConnectWait => this.(connectWaits := n)
      case HeaderRead => this.(headerReads := n)
      case PayloadRead => this.(payloadReads := n)
      case PacketWrite => this.(writes := n)
      case LoginWait => this.(loginWaits := n)
      case HeartbeatWait => this.(heartbeatWaits := n)
      case ClosedPost => this.(closedPosts := n)
      case LoginStoppedPost => this.(loginStoppedPosts := n)
      case HeartbeatStoppedPost => this.(heartbeatStoppedPosts := n)
    }

    function Add(started: Option<Task>): Tasks {
      match started case None => this case Some(t) => Set(t, Has(t) + 1)
    }

    function Take(t: Task): Tasks
      requires Has(t) > 0
    {
      Set(t, Has(t) - 1)
    }
  }

  const NO_TASKS := Tasks(0, 0, 0, 0, 0, 0, 0, 0, 0)

  /** A new value, and the task started on the way, if any. */
  datatype Effect<+T> = Effect(value: T, started: Option<Task>)

  // ---------------------------------------------------------------------
  // Connection state

  datatype State = Connecting | Connected | LoggedIn | Disconnecting | Disconnected

  datatype ConnState = ConnState(state: State, reason: DisconnectReason) {
    predicate IsClosing() { state == Disconnecting || state == Disconnected }

    function InitiateDisconnect(pending: DisconnectReason): ConnState {
      if IsClosing() then this else ConnState(Disconnecting, pending)
    }

    function Disconnect(observed: DisconnectReason): ConnState {
      if state == Disconnected then this
      else ConnState(Disconnected, if reason == NoReason then observed else reason)
    }
  }

  /** What ends a connection from outside, at either end. */
  predicate FromOutside(r: DisconnectReason) {
    r in {UserInitiated, PeerClosed, ConnectFailure, TransportError, LoginTimeout, HeartbeatTimeout, ProtocolViolation,
          UnmanagedAbort}
  }

  /** Nothing happened to the state, or something from outside ended the connection. */
  predicate DropsAtMost(s: ConnState, t: ConnState) {
    || t == s
    || (s.state != Disconnected && t.state == Disconnected
        && if s.reason == NoReason then FromOutside(t.reason) else t.reason == s.reason)
  }

  // ---------------------------------------------------------------------
  // Timers

  datatype LoginTimer = LoginTimer(started: bool, waitPending: bool, stoppedSignaled: bool) {
    function Start(): Effect<LoginTimer> {
      if started then Effect(this, None)
      else Effect(this.(started := true, waitPending := true), Some(LoginWait))
    }

    function Stop(): Effect<LoginTimer> {
      if !started then Effect(this, None) else this.(started := false).MaybeSignalStopped()
    }

    function MaybeSignalStopped(): Effect<LoginTimer> {
      if !started && !stoppedSignaled && !waitPending
      then Effect(this.(stoppedSignaled := true), Some(LoginStoppedPost))
      else Effect(this, None)
    }
  }

  datatype TickAction = SendNothing | SendHeartbeat | ReceiveTimeout

  datatype HeartbeatTimer = HeartbeatTimer(
    timeout: nat, noReceive: nat, receiveCount: nat, sendCount: nat,
    started: bool, waitPending: bool, stoppedSignaled: bool)
  {
    function Start(): Effect<HeartbeatTimer> {
      if started then Effect(this, None) else this.(started := true).Schedule()
    }

    function Schedule(): Effect<HeartbeatTimer> {
      Effect(this.(waitPending := true), Some(HeartbeatWait))
    }

    function Stop(): Effect<HeartbeatTimer> {
      if !started then Effect(this, None) else this.(started := false).MaybeSignalStopped()
    }

    function MaybeSignalStopped(): Effect<HeartbeatTimer> {
      if !started && !stoppedSignaled && !waitPending
      then Effect(this.(stoppedSignaled := true), Some(HeartbeatStoppedPost))
      else Effect(this, None)
    }

    /** What one expiry of a running timer does to its counters. */
    function Tick(): HeartbeatTimer {
      if receiveCount == 0 then
        var h := this.(noReceive := noReceive + HEARTBEAT_PERIOD);
        if h.noReceive >= timeout then h else h.(sendCount := 0)
      else
        this.(noReceive := 0, receiveCount := 0, sendCount := 0)
    }

    /** And what it asks its owner to do. */
    function TickAction(): TickAction {
      if receiveCount == 0 && noReceive + HEARTBEAT_PERIOD >= timeout then ReceiveTimeout
      else if sendCount == 0 then SendHeartbeat
      else SendNothing
    }
  }

  // ---------------------------------------------------------------------
  // Socket

  datatype Socket = Socket(
    queue: seq<Packet>, limit: nat, wasFull: bool,
    connectPending: bool, readPending: bool, writePending: bool,
    closing: bool, closedSignaled: bool)
  {
    predicate IsIdle() { !connectPending && !readPending && !writePending }

    function MaybeSignalClosed(): Effect<Socket> {
      if closing && !closedSignaled && IsIdle()
      then Effect(this.(closedSignaled := true), Some(ClosedPost))
      else Effect(this, None)
    }

    function Close(): Effect<Socket> { this.(closing := true).MaybeSignalClosed() }

    function AsyncConnect(): Effect<Socket> {
      if closing then Effect(this, None)
      else Effect(this.(connectPending := true), Some(ConnectWait))
    }

    function AsyncRead(): Effect<Socket> {
      if closing then Effect(this, None)
      else Effect(this.(readPending := true), Some(HeaderRead))
    }

    function ReadPayload(): Effect<Socket> { Effect(this.(readPending := true), Some(PayloadRead)) }

    function WriteFront(): Effect<Socket> { Effect(this.(writePending := true), Some(PacketWrite)) }

    function AsyncWriteError(): WriteError {
      if closing then WriteDisconnected else if |queue| == limit then BufferFull else NoWriteError
    }

    function AsyncWrite(p: Packet): Effect<Socket> {
      if closing then Effect(this, None)
      else if |queue| == limit then Effect(this.(wasFull := true), None)
      else if queue == [] then this.(queue := [p]).WriteFront()
      else Effect(this.(queue := queue + [p]), None)
    }

    /** After a successful write: the packet leaves the queue and the next one, if any, is written. */
    function PopFront(): Effect<Socket>
      requires queue != []
    {
      var s := this.(queue := queue[1..]);
      if s.queue != [] then s.WriteFront()
      else Effect(s.(wasFull := false), None)
    }

    /** Whether that write drained a queue that had refused a packet. */
    predicate SignalsBufferEmpty() { |queue| == 1 && wasFull }
  }

  datatype ReadFailure = ReadAborted | EndOfStream | ReadFailed

  datatype WriteOutcome = WriteAborted | WriteFailed | Written

  // ---------------------------------------------------------------------
  // The connection: a three-way join of socket, login timer and heartbeat timer

  /** `causes` lists every reason passed to the connection state, `reported` every reason on_closed was called with. */
  datatype Conn = Conn(
    socket: Socket, state: ConnState, login: LoginTimer, heartbeat: HeartbeatTimer,
    socketClosed: bool, loginStopped: bool, heartbeatStopped: bool,
    tasks: Tasks, causes: seq<DisconnectReason>, reported: seq<DisconnectReason>)
  {
    function WithSocket(e: Effect<Socket>): Conn { this.(socket := e.value, tasks := tasks.Add(e.started)) }

    function WithLogin(e: Effect<LoginTimer>): Conn { this.(login := e.value, tasks := tasks.Add(e.started)) }

    function WithHeartbeat(e: Effect<HeartbeatTimer>): Conn {
      this.(heartbeat := e.value, tasks := tasks.Add(e.started))
    }

    /** The event loop takes a task out to run it. */
    function Taken(t: Task): Conn
      requires tasks.Has(t) > 0
    {
      this.(tasks := tasks.Take(t))
    }

    predicate AllStopped() { socketClosed && loginStopped && heartbeatStopped }

    function MaybeSignalClosed(): Conn {
      if AllStopped() then this.(reported := reported + [state.reason]) else this
    }

    function Disconnect(reason: DisconnectReason): Conn {
      var c := this.(state := state.Disconnect(reason), causes := causes + [reason]);
      if state.state == Disconnected then c else c.StopAll()
    }

    function StopAll(): Conn {
      var c := WithSocket(socket.Close());
      var d := c.WithLogin(c.login.Stop());
      d.WithHeartbeat(d.heartbeat.Stop())
    }

    function AsyncWrite(p: Packet): Conn { WithSocket(socket.AsyncWrite(p)) }

    // The completions both ends share

    /** The wait of the login timer ends, with an error if `failed`. */
    function LoginWaitDone(failed: bool): Conn
      requires tasks.loginWaits > 0
    {
      var c := Taken(LoginWait).(login := login.(waitPending := false));
      var d := if !login.started then c else c.Disconnect(if failed then TransportError else LoginTimeout);
      d.WithLogin(d.login.MaybeSignalStopped())
    }

    function HeartbeatWaitDone(failed: bool, heartbeatPacket: Packet): Conn
      requires tasks.heartbeatWaits > 0
    {
      var c := Taken(HeartbeatWait).(heartbeat := heartbeat.(waitPending := false));
      var d :=
        if !heartbeat.started then c
        else if failed then c.Disconnect(TransportError)
        else c.Ticked(heartbeatPacket);
      d.WithHeartbeat(d.heartbeat.MaybeSignalStopped())
    }

    /** A running heartbeat timer expires. */
    function Ticked(heartbeatPacket: Packet): Conn {
      var ticked := this.(heartbeat := heartbeat.Tick());
      match heartbeat.TickAction()
      case ReceiveTimeout => ticked.Disconnect(HeartbeatTimeout)
      case SendHeartbeat => ticked.AsyncWrite(heartbeatPacket).Rescheduled()
      case SendNothing => ticked.Rescheduled()
    }

    function Rescheduled(): Conn { WithHeartbeat(heartbeat.Schedule()) }

    // Reads and writes

    /** A read completes: its flag is cleared before the handler runs. */
    function ReadTaken(t: Task): Conn
      requires tasks.Has(t) > 0
    {
      Taken(t).(socket := socket.(readPending := false))
    }

    /** The last statement of every socket completion. */
    function SocketDone(): Conn { WithSocket(socket.MaybeSignalClosed()) }

    function ReadError(e: ReadFailure): Conn {
      Disconnect(match e
                 case ReadAborted => UnmanagedAbort
                 case EndOfStream => PeerClosed
                 case ReadFailed => TransportError)
    }

    /** A write completes; `graceful` says whether write_success finishes a pending disconnect. */
    function WriteDone(outcome: WriteOutcome, graceful: bool): Conn
      requires tasks.writes > 0 && socket.queue != []
    {
      var c := Taken(PacketWrite).(socket := socket.(writePending := false));
      var d := match outcome
        case WriteAborted => c
        case WriteFailed => c.Disconnect(TransportError)
        case Written =>
          var e := if graceful && state.state == Disconnecting then c.Disconnect(UnmanagedAbort) else c;
          e.WithSocket(e.socket.PopFront());
      d.SocketDone()
    }

    // The posted callbacks

    function ClosedRuns(): Conn
      requires tasks.closedPosts > 0
    {
      Taken(ClosedPost).(socketClosed := true).MaybeSignalClosed()
    }

    function LoginStoppedRuns(): Conn
      requires tasks.loginStoppedPosts > 0
    {
      Taken(LoginStoppedPost).(loginStopped := true).MaybeSignalClosed()
    }

    function HeartbeatStoppedRuns(): Conn
      requires tasks.heartbeatStoppedPosts > 0
    {
      Taken(HeartbeatStoppedPost).(heartbeatStopped := true).MaybeSignalClosed()
    }
  }

  // ---------------------------------------------------------------------
  // What holds at every point inside a callback

  function Count(b: bool): nat { if b then 1 else 0 }

  predicate TasksAgree(c: Conn) {
    && c.tasks.connectWaits == Count(c.socket.connectPending)
    && c.tasks.headerReads + c.tasks.payloadReads == Count(c.socket.readPending)
    && c.tasks.writes == Count(c.socket.writePending)
    && c.tasks.loginWaits == Count(c.login.waitPending)
    && c.tasks.heartbeatWaits == Count(c.heartbeat.waitPending)
    && c.tasks.closedPosts == Count(c.socket.closedSignaled && !c.socketClosed)
    && c.tasks.loginStoppedPosts == Count(c.login.stoppedSignaled && !c.loginStopped)
    && c.tasks.heartbeatStoppedPosts == Count(c.heartbeat.stoppedSignaled && !c.heartbeatStopped)
  }

  predicate SocketSound(c: Conn) {
    && (c.socket.closedSignaled ==> c.socket.closing && c.socket.IsIdle())
    && (c.socketClosed ==> c.socket.closedSignaled)
    && (c.socket.writePending ==> c.socket.queue != [])
  }

  predicate TimersSound(c: Conn) {
    && (c.login.stoppedSignaled || c.loginStopped ==> !c.login.started && !c.login.waitPending)
    && (c.heartbeat.stoppedSignaled || c.heartbeatStopped ==> !c.heartbeat.started && !c.heartbeat.waitPending)
  }

  predicate Core(c: Conn) { TasksAgree(c) && SocketSound(c) && TimersSound(c) && c.reported == [] }

  /** What holds besides between callbacks: nothing that could be signalled is left unsignalled. */
  predicate SocketSettled(c: Conn) { c.socket.closing && c.socket.IsIdle() ==> c.socket.closedSignaled }

  predicate LoginSettled(c: Conn) {
    && (c.login.started ==> c.login.waitPending)
    && (!c.loginStopped && !c.login.waitPending ==> c.login.stoppedSignaled)
  }

  predicate HeartbeatSettled(c: Conn) {
    && (c.heartbeat.started ==> c.heartbeat.waitPending)
    && (!c.heartbeatStopped && !c.heartbeat.waitPending ==> c.heartbeat.stoppedSignaled)
  }

  predicate PartsSettled(c: Conn) { SocketSettled(c) && LoginSettled(c) && HeartbeatSettled(c) }

  predicate Settled(c: Conn) { PartsSettled(c) && !c.AllStopped() }

  /** Once on_closed has run, exactly once, nothing is left that could refer to the connection. */
  predicate Gone(c: Conn) { |c.reported| == 1 && c.tasks == NO_TASKS }

  predicate LoginFresh(c: Conn) { c.loginStopped && c.login == LoginTimer(false, false, false) }

  predicate HeartbeatFresh(c: Conn) {
    c.heartbeatStopped && !c.heartbeat.started && !c.heartbeat.waitPending && !c.heartbeat.stoppedSignaled
  }

  // ---------------------------------------------------------------------
  // What each operation keeps

  lemma CloseKeepsCore(c: Conn)
    requires Core(c)
    ensures var d := c.WithSocket(c.socket.Close());
            Core(d) && SocketSettled(d) && d.socket.closing
  {
  }

  lemma StopLoginKeepsCore(c: Conn)
    requires Core(c)
    ensures Core(c.WithLogin(c.login.Stop()))
  {
  }

  lemma StopHeartbeatKeepsCore(c: Conn)
    requires Core(c)
    ensures Core(c.WithHeartbeat(c.heartbeat.Stop()))
  {
  }

  lemma StopAllKeepsCore(c: Conn)
    requires Core(c)
    ensures Core(c.StopAll())
    ensures SocketSettled(c.StopAll()) && c.StopAll().socket.closing
    ensures !c.StopAll().login.started && !c.StopAll().heartbeat.started
  {
    CloseKeepsCore(c);
    var d := c.WithSocket(c.socket.Close());
    StopLoginKeepsCore(d);
    StopHeartbeatKeepsCore(d.WithLogin(d.login.Stop()));
  }

  lemma DisconnectKeepsCore(c: Conn, reason: DisconnectReason)
    requires Core(c)
    ensures Core(c.Disconnect(reason))
  {
    if c.state.state != Disconnected {
      StopAllKeepsCore(c.(state := c.state.Disconnect(reason), causes := c.causes + [reason]));
    }
  }

  /** Signalling at the end of a socket completion settles the socket. */
  lemma SignalClosedSettles(c: Conn)
    requires Core(c)
    ensures var d := c.WithSocket(c.socket.MaybeSignalClosed()); Core(d) && SocketSettled(d)
  {
  }

  lemma SignalLoginSettles(c: Conn)
    requires Core(c) && !c.login.started && !c.loginStopped
    ensures var d := c.WithLogin(c.login.MaybeSignalStopped()); Core(d) && LoginSettled(d)
  {
  }

  lemma SignalHeartbeatSettles(c: Conn)
    requires Core(c) && (c.heartbeat.started ==> c.heartbeat.waitPending) && !c.heartbeatStopped
    ensures var d := c.WithHeartbeat(c.heartbeat.MaybeSignalStopped()); Core(d) && HeartbeatSettled(d)
  {
  }

  predicate JoinResult(c: Conn, d: Conn) {
    if c.AllStopped() then Gone(d) && d.reported == [c.state.reason] else d == c && Core(d) && Settled(d)
  }

  /** The join reports only when all three parts have stopped, and then nothing is outstanding. */
  lemma JoinFindsNothing(c: Conn)
    requires Core(c) && PartsSettled(c)
    ensures JoinResult(c, c.MaybeSignalClosed())
  {
    if c.AllStopped() {
      assert c.tasks == NO_TASKS;
    }
  }

  // The three posted callbacks.

  lemma ClosedRunsKeeps(c: Conn)
    requires Core(c) && PartsSettled(c) && c.tasks.closedPosts > 0
    ensures JoinResult(c.Taken(ClosedPost).(socketClosed := true), c.ClosedRuns())
  {
    JoinFindsNothing(c.Taken(ClosedPost).(socketClosed := true));
  }

  lemma LoginStoppedRunsKeeps(c: Conn)
    requires Core(c) && PartsSettled(c) && c.tasks.loginStoppedPosts > 0
    ensures JoinResult(c.Taken(LoginStoppedPost).(loginStopped := true), c.LoginStoppedRuns())
  {
    JoinFindsNothing(c.Taken(LoginStoppedPost).(loginStopped := true));
  }

  lemma HeartbeatStoppedRunsKeeps(c: Conn)
    requires Core(c) && PartsSettled(c) && c.tasks.heartbeatStoppedPosts > 0
    ensures JoinResult(c.Taken(HeartbeatStoppedPost).(heartbeatStopped := true), c.HeartbeatStoppedRuns())
  {
    JoinFindsNothing(c.Taken(HeartbeatStoppedPost).(heartbeatStopped := true));
  }

  /** A running timer belongs to a connection that is not yet disconnected. */
  predicate TimersOpen(c: Conn) { c.login.started || c.heartbeat.started ==> c.state.state != Disconnected }

  predicate Alive(c: Conn) { Core(c) && Settled(c) && TimersOpen(c) }

  lemma DisconnectStopsTimers(c: Conn, reason: DisconnectReason)
    requires Core(c) && TimersOpen(c)
    ensures var d := c.Disconnect(reason);
            Core(d) && TimersOpen(d) && !d.login.started && !d.heartbeat.started
  {
    DisconnectKeepsCore(c, reason);
    if c.state.state != Disconnected {
      StopAllKeepsCore(c.(state := c.state.Disconnect(reason), causes := c.causes + [reason]));
    }
  }

  /** Disconnecting between or inside callbacks leaves each part settled that was, and the socket settled anyway. */
  lemma DisconnectKeepsSettled(c: Conn, reason: DisconnectReason)
    requires Core(c) && TimersOpen(c)
    ensures var d := c.Disconnect(reason);
            && (c.state.state != Disconnected || SocketSettled(c) ==> SocketSettled(d))
            && (LoginSettled(c) ==> LoginSettled(d))
            && (HeartbeatSettled(c) ==> HeartbeatSettled(d))
            && d.AllStopped() == c.AllStopped()
  {
  }

  lemma LoginWaitKeeps(c: Conn, failed: bool)
    requires Alive(c) && c.tasks.loginWaits > 0
    ensures Alive(c.LoginWaitDone(failed))
  {
    var d := c.Taken(LoginWait).(login := c.login.(waitPending := false));
    assert Core(d);
    if c.login.started {
      var reason := if failed then TransportError else LoginTimeout;
      DisconnectStopsTimers(d, reason);
      DisconnectKeepsSettled(d, reason);
      SignalLoginSettles(d.Disconnect(reason));
    } else {
      SignalLoginSettles(d);
    }
  }

  lemma HeartbeatWaitKeeps(c: Conn, failed: bool, heartbeatPacket: Packet)
    requires Alive(c) && c.tasks.heartbeatWaits > 0
    ensures Alive(c.HeartbeatWaitDone(failed, heartbeatPacket))
  {
    var d := c.Taken(HeartbeatWait).(heartbeat := c.heartbeat.(waitPending := false));
    assert Core(d) && TimersOpen(d);
    if !c.heartbeat.started {
      SignalHeartbeatSettles(d);
    } else if failed {
      HeartbeatStops(d, TransportError);
    } else {
      TickKeeps(d, heartbeatPacket);
    }
  }

  lemma TickKeeps(c: Conn, heartbeatPacket: Packet)
    requires Core(c) && TimersOpen(c) && SocketSettled(c) && LoginSettled(c)
    requires c.heartbeat.started && !c.heartbeat.waitPending && !c.heartbeatStopped
    ensures var d := c.Ticked(heartbeatPacket);
            Alive(d.WithHeartbeat(d.heartbeat.MaybeSignalStopped()))
  {
    var ticked := c.(heartbeat := c.heartbeat.Tick());
    assert Core(ticked);
    match c.heartbeat.TickAction()
    case ReceiveTimeout =>
      HeartbeatStops(ticked, HeartbeatTimeout);
    case SendHeartbeat =>
      AsyncWriteKeeps(ticked, heartbeatPacket);
      RescheduleSettles(ticked.AsyncWrite(heartbeatPacket));
    case SendNothing =>
      RescheduleSettles(ticked);
  }

  lemma HeartbeatStops(c: Conn, reason: DisconnectReason)
    requires Core(c) && TimersOpen(c) && SocketSettled(c) && LoginSettled(c)
    requires c.heartbeat.started && !c.heartbeat.waitPending && !c.heartbeatStopped
    ensures var d := c.Disconnect(reason);
            Alive(d.WithHeartbeat(d.heartbeat.MaybeSignalStopped()))
  {
    DisconnectStopsTimers(c, reason);
    DisconnectKeepsSettled(c, reason);
    SignalHeartbeatSettles(c.Disconnect(reason));
  }

  lemma AsyncWriteKeeps(c: Conn, p: Packet)
    requires Core(c)
    ensures var d := c.AsyncWrite(p);
            && Core(d) && (SocketSettled(c) ==> SocketSettled(d))
            && d == c.(socket := d.socket, tasks := d.tasks)
  {
    if !c.socket.closing && |c.socket.queue| != c.socket.limit {
      if c.socket.queue == [] {
        QueuedKeepsCore(c, [p], true);
      } else {
        QueuedKeepsCore(c, c.socket.queue + [p], false);
      }
    }
  }

  lemma QueuedKeepsCore(c: Conn, queue: seq<Packet>, write: bool)
    requires Core(c) && !c.socket.closing && queue != [] && (write ==> c.socket.queue == [])
    ensures var s := c.socket.(queue := queue);
            var d := c.WithSocket(if write then s.WriteFront() else Effect(s, None));
            Core(d) && SocketSettled(d)
  {
  }

  lemma RescheduleSettles(c: Conn)
    requires Core(c) && TimersOpen(c) && SocketSettled(c) && LoginSettled(c)
    requires c.heartbeat.started && !c.heartbeat.waitPending
    ensures var d := c.Rescheduled();
            Alive(d.WithHeartbeat(d.heartbeat.MaybeSignalStopped()))
  {
  }

  // ---------------------------------------------------------------------
  // Socket completions

  /** The connection without the settling of its socket, which the end of the completion restores. */
  predicate InSocketCallback(c: Conn) {
    Core(c) && TimersOpen(c) && LoginSettled(c) && HeartbeatSettled(c) && !c.AllStopped()
  }

  lemma ReadTakenKeeps(c: Conn, t: Task)
    requires Alive(c) && t in {HeaderRead, PayloadRead} && c.tasks.Has(t) > 0
    ensures var d := c.ReadTaken(t);
            InSocketCallback(d) && !d.socket.readPending && !d.socket.closedSignaled
  {
  }

  lemma SocketDoneKeeps(c: Conn)
    requires InSocketCallback(c)
    ensures Alive(c.SocketDone())
  {
    SignalClosedSettles(c);
  }

  lemma DisconnectInCallback(c: Conn, reason: DisconnectReason)
    requires InSocketCallback(c)
    ensures InSocketCallback(c.Disconnect(reason))
  {
    DisconnectStopsTimers(c, reason);
    DisconnectKeepsSettled(c, reason);
  }

  /** Popping the written packet starts the next write, unless the socket has already been signalled closed. */
  lemma PopFrontInCallback(c: Conn)
    requires InSocketCallback(c) && !c.socket.writePending && c.socket.queue != []
    requires c.socket.closedSignaled ==> |c.socket.queue| == 1
    ensures InSocketCallback(c.WithSocket(c.socket.PopFront()))
  {
  }

  lemma WriteTakenKeeps(c: Conn)
    requires Alive(c) && c.tasks.writes > 0
    ensures var d := c.Taken(PacketWrite).(socket := c.socket.(writePending := false));
            InSocketCallback(d) && !d.socket.closedSignaled && d.socket.queue == c.socket.queue != []
  {
  }

  lemma WriteDoneKeeps(c: Conn, outcome: WriteOutcome, graceful: bool)
    requires Alive(c) && c.tasks.writes > 0
    requires graceful && outcome == Written && c.state.state == Disconnecting ==> |c.socket.queue| == 1
    ensures Alive(c.WriteDone(outcome, graceful))
  {
    WriteTakenKeeps(c);
    var d := c.Taken(PacketWrite).(socket := c.socket.(writePending := false));
    match outcome
    case WriteAborted =>
      SocketDoneKeeps(d);
    case WriteFailed =>
      DisconnectInCallback(d, TransportError);
      SocketDoneKeeps(d.Disconnect(TransportError));
    case Written =>
      var e := if graceful && c.state.state == Disconnecting then d.Disconnect(UnmanagedAbort) else d;
      DisconnectInCallback(d, UnmanagedAbort);
      PopFrontInCallback(e);
      SocketDoneKeeps(e.WithSocket(e.socket.PopFront()));
  }

  // ---------------------------------------------------------------------
  // The measure of a teardown

  /** What a closing connection can still run: the connect, queued writes, read phases, waits, signals and posts. */
  function Measure(c: Conn): nat {
    (if c.tasks.writes > 0 then |c.socket.queue| else 0) + 4 * c.tasks.connectWaits + 2 * c.tasks.headerReads
    + c.tasks.payloadReads
    + c.tasks.loginWaits + c.tasks.heartbeatWaits
    + 2 * (Count(!c.socket.closedSignaled)
           + Count(!c.login.stoppedSignaled && !c.loginStopped)
           + Count(!c.heartbeat.stoppedSignaled && !c.heartbeatStopped))
    + c.tasks.closedPosts + c.tasks.loginStoppedPosts + c.tasks.heartbeatStoppedPosts
  }

  lemma CloseLowers(c: Conn)
    ensures Measure(c.WithSocket(c.socket.Close())) <= Measure(c)
  {
  }

  lemma StopLoginLowers(c: Conn)
    requires TimersSound(c)
    ensures Measure(c.WithLogin(c.login.Stop())) <= Measure(c)
  {
  }

  lemma StopHeartbeatLowers(c: Conn)
    requires TimersSound(c)
    ensures Measure(c.WithHeartbeat(c.heartbeat.Stop())) <= Measure(c)
  {
  }

  /** Disconnecting signals what has already stopped, and arms nothing. */
  lemma DisconnectLowers(c: Conn, r: DisconnectReason)
    requires TimersSound(c)
    ensures Measure(c.Disconnect(r)) <= Measure(c)
    ensures c.Disconnect(r).tasks.writes == c.tasks.writes && c.Disconnect(r).socket.queue == c.socket.queue
    ensures c.socket.closing ==> c.Disconnect(r).socket.closing
  {
    if c.state.state != Disconnected {
      var d := c.(state := c.state.Disconnect(r), causes := c.causes + [r]);
      CloseLowers(d);
      var e := d.WithSocket(d.socket.Close());
      StopLoginLowers(e);
      StopHeartbeatLowers(e.WithLogin(e.login.Stop()));
    }
  }

  lemma SocketDoneLowers(c: Conn)
    ensures Measure(c.SocketDone()) <= Measure(c)
    ensures c.SocketDone().socket.closing == c.socket.closing
  {
  }

  lemma ReadTakenLowers(c: Conn, t: Task)
    requires t in {HeaderRead, PayloadRead} && c.tasks.Has(t) > 0
    ensures Measure(c.ReadTaken(t)) + (if t == HeaderRead then 2 else 1) == Measure(c)
    ensures c.ReadTaken(t).socket.closing == c.socket.closing && TimersSound(c.ReadTaken(t)) == TimersSound(c)
  {
  }

  lemma ReadPayloadRaises(c: Conn)
    ensures var d := c.WithSocket(c.socket.ReadPayload());
            Measure(d) == Measure(c) + 1 && d.socket.closing == c.socket.closing
  {
  }

  lemma ReadErrorLowers(c: Conn, e: ReadFailure)
    requires TimersSound(c)
    ensures Measure(c.ReadError(e)) <= Measure(c) && (c.socket.closing ==> c.ReadError(e).socket.closing)
  {
    DisconnectLowers(c, match e
                        case ReadAborted => UnmanagedAbort
                        case EndOfStream => PeerClosed
                        case ReadFailed => TransportError);
  }

  lemma PopFrontLowers(c: Conn)
    requires c.socket.queue != [] && c.tasks.writes == 0
    ensures Measure(c.WithSocket(c.socket.PopFront())) < Measure(c) + |c.socket.queue|
    ensures c.WithSocket(c.socket.PopFront()).socket.closing == c.socket.closing
  {
    PopFrontLooks(c);
  }

  lemma PopFrontLooks(c: Conn)
    requires c.socket.queue != [] && c.tasks.writes == 0
    ensures var d, rest := c.WithSocket(c.socket.PopFront()), c.socket.queue[1..];
            d == c.(socket := c.socket.(queue := rest, writePending := c.socket.writePending || rest != [],
                                        wasFull := rest != [] && c.socket.wasFull),
                    tasks := c.tasks.(writes := Count(rest != [])))
  {
    assert c.tasks == c.tasks.(writes := 0);
  }

  lemma WriteLowers(c: Conn, o: WriteOutcome, graceful: bool)
    requires Alive(c) && c.tasks.writes > 0
    ensures Measure(c.WriteDone(o, graceful)) < Measure(c)
    ensures c.socket.closing ==> c.WriteDone(o, graceful).socket.closing
  {
    var d := c.Taken(PacketWrite).(socket := c.socket.(writePending := false));
    assert d.tasks.writes == 0 && Measure(d) + |d.socket.queue| == Measure(c);
    DisconnectLowers(d, TransportError);
    DisconnectLowers(d, UnmanagedAbort);
    match o
    case WriteAborted => SocketDoneLowers(d);
    case WriteFailed => SocketDoneLowers(d.Disconnect(TransportError));
    case Written =>
      var e := if graceful && c.state.state == Disconnecting then d.Disconnect(UnmanagedAbort) else d;
      PopFrontLowers(e);
      SocketDoneLowers(e.WithSocket(e.socket.PopFront()));
  }

  lemma LoginWaitLowers(c: Conn, failed: bool)
    requires Alive(c) && c.tasks.loginWaits > 0
    ensures Measure(c.LoginWaitDone(failed)) < Measure(c)
  {
    var d := c.Taken(LoginWait).(login := c.login.(waitPending := false));
    DisconnectLowers(d, if failed then TransportError else LoginTimeout);
  }

  // ---------------------------------------------------------------------
  // What the completions both ends share do to the state

  lemma DisconnectState(c: Conn, r: DisconnectReason)
    ensures c.Disconnect(r).state == c.state.Disconnect(r) && c.Disconnect(r).reported == c.reported
  {
  }

  lemma DisconnectDrops(c: Conn, r: DisconnectReason)
    requires FromOutside(r)
    ensures DropsAtMost(c.state, c.Disconnect(r).state) && c.Disconnect(r).reported == c.reported
  {
  }

  lemma WriteDrops(c: Conn, o: WriteOutcome, graceful: bool)
    requires c.tasks.writes > 0 && c.socket.queue != []
    ensures var d := c.WriteDone(o, graceful); DropsAtMost(c.state, d.state) && d.reported == c.reported
  {
    var d := c.Taken(PacketWrite).(socket := c.socket.(writePending := false));
    DisconnectDrops(d, TransportError);
    DisconnectDrops(d, UnmanagedAbort);
  }

  lemma LoginWaitDrops(c: Conn, failed: bool)
    requires c.tasks.loginWaits > 0
    ensures DropsAtMost(c.state, c.LoginWaitDone(failed).state) && c.LoginWaitDone(failed).reported == c.reported
  {
    var d := c.Taken(LoginWait).(login := c.login.(waitPending := false));
    DisconnectDrops(d, if failed then TransportError else LoginTimeout);
  }

  lemma TickDrops(c: Conn, p: Packet)
    ensures var d := c.Ticked(p); DropsAtMost(c.state, d.state) && d.reported == c.reported
  {
    DisconnectDrops(c.(heartbeat := c.heartbeat.Tick()), HeartbeatTimeout);
  }

  lemma HeartbeatWaitDrops(c: Conn, failed: bool, p: Packet)
    requires c.tasks.heartbeatWaits > 0
    ensures var d := c.HeartbeatWaitDone(failed, p); DropsAtMost(c.state, d.state) && d.reported == c.reported
  {
    var d := c.Taken(HeartbeatWait).(heartbeat := c.heartbeat.(waitPending := false));
    DisconnectDrops(d, TransportError);
    TickDrops(d, p);
  }
}
