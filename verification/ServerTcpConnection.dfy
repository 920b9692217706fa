/** The server's TCP connection as an object: every callback does to its fields what ServerLifecycle says. */
module ServerTcpConnection {
  import opened Types
  import opened RwPackets
  import opened LogicalPackets
  import opened LoopObjects
  import opened CommonEvents
  import E = ServerEvents
  import L = Lifecycle
  import S = ServerLifecycle

  class TcpConnection {
    const loop: EventLoop
    const socket: Socket
    const state: ConnectionState
    const loginTimer: LoginTimer
    const heartbeatTimer: HeartbeatTimer
    var socketClosed: bool
    var loginTimerStopped: bool
    var heartbeatTimerStopped: bool
    /** Every reason passed to the connection state, and every reason on_closed was called with. */
    ghost var causes: seq<DisconnectReason>
    ghost var reported: seq<DisconnectReason>

    ghost predicate Valid() { socket.loop == loop && loginTimer.loop == loop && heartbeatTimer.loop == loop }

    ghost function State(): L.Conn
      reads this, socket, state, loginTimer, heartbeatTimer, loop
    {
      L.Conn(socket.Value(), state.Value(), loginTimer.Value(), heartbeatTimer.Value(), socketClosed, loginTimerStopped,
             heartbeatTimerStopped, loop.tasks, causes, reported)
    }

    constructor (writePacketsLimit: nat)
      ensures Valid() && State() == S.Accepted([], writePacketsLimit)
      ensures fresh(socket) && fresh(state) && fresh(loginTimer) && fresh(heartbeatTimer) && fresh(loop)
    {
      var l := new EventLoop();
      loop := l;
      socket := new Socket(l, writePacketsLimit);
      state := new ConnectionState(L.Connected);
      loginTimer := new LoginTimer(l);
      heartbeatTimer := new HeartbeatTimer(l, CLIENT_HEARTBEAT_TIMEOUT);
      socketClosed, loginTimerStopped, heartbeatTimerStopped := false, false, true;
      causes, reported := [], [];
      new;
      loginTimer.Start();
      socket.AsyncRead();
    }

    // -------------------------------------------------------------------
    // Teardown

    method Disconnect(reason: DisconnectReason)
      requires Valid()
      modifies this, socket, state, loginTimer, heartbeatTimer, loop
      ensures State() == old(State()).Disconnect(reason)
    {
      var stateChanged := state.Disconnect(reason);
      causes := causes + [reason];
      if !stateChanged {
        return;
      }
      StopAll();
    }

    method StopAll()
      requires Valid()
      modifies this, socket, loginTimer, heartbeatTimer, loop
      ensures State() == old(State()).StopAll()
    {
      socket.Close();
      loginTimer.Stop();
      heartbeatTimer.Stop();
    }

    method PrepareGracefulDisconnect(reason: DisconnectReason)
      modifies this`causes, state
      ensures State()
           == old(State()).(state := old(State()).state.InitiateDisconnect(reason), causes := old(causes) + [reason])
    {
      var _ := state.InitiateDisconnect(reason);
      causes := causes + [reason];
    }

    method MaybeSignalClosed()
      modifies this`reported
      ensures State() == old(State()).MaybeSignalClosed()
    {
      if !socketClosed || !loginTimerStopped || !heartbeatTimerStopped {
        return;
      }
      reported := reported + [state.reason];
    }

    method OnClosedPost()
      requires loop.tasks.closedPosts > 0
      modifies this, loop
      ensures State() == old(State()).ClosedRuns()
    {
      loop.Take(L.ClosedPost);
      socketClosed := true;
      MaybeSignalClosed();
    }

    method OnLoginStoppedPost()
      requires loop.tasks.loginStoppedPosts > 0
      modifies this, loop
      ensures State() == old(State()).LoginStoppedRuns()
    {
      loop.Take(L.LoginStoppedPost);
      loginTimerStopped := true;
      MaybeSignalClosed();
    }

    method OnHeartbeatStoppedPost()
      requires loop.tasks.heartbeatStoppedPosts > 0
      modifies this, loop
      ensures State() == old(State()).HeartbeatStoppedRuns()
    {
      loop.Take(L.HeartbeatStoppedPost);
      heartbeatTimerStopped := true;
      MaybeSignalClosed();
    }

    // -------------------------------------------------------------------
    // Timers

    method OnLoginWait(failed: bool)
      requires Valid() && loop.tasks.loginWaits > 0
      modifies this, socket, state, loginTimer, heartbeatTimer, loop
      ensures State() == old(State()).LoginWaitDone(failed)
    {
      TakeLoginWait();
      if loginTimer.started {
        if failed {
          Disconnect(TransportError);
        } else {
          Disconnect(LoginTimeout);
        }
      }
      loginTimer.MaybeSignalStopped();
    }

    method TakeLoginWait()
      requires loop.tasks.loginWaits > 0
      modifies loginTimer, loop
      ensures State() == old(State()).Taken(L.LoginWait).(login := old(State()).login.(waitPending := false))
    {
      loop.Take(L.LoginWait);
      loginTimer.waitPending := false;
    }

    method OnHeartbeatWait(failed: bool)
      requires Valid() && loop.tasks.heartbeatWaits > 0
      modifies this, socket, state, loginTimer, heartbeatTimer, loop
      ensures State() == old(State()).HeartbeatWaitDone(failed, S.SERVER_HEARTBEAT)
    {
      TakeHeartbeatWait();
      if heartbeatTimer.started {
        if failed {
          Disconnect(TransportError);
        } else {
          OnTick();
        }
      }
      heartbeatTimer.MaybeSignalStopped();
    }

    method TakeHeartbeatWait()
      requires loop.tasks.heartbeatWaits > 0
      modifies heartbeatTimer, loop
      ensures State()
           == old(State()).Taken(L.HeartbeatWait).(heartbeat := old(State()).heartbeat.(waitPending := false))
    {
      loop.Take(L.HeartbeatWait);
      heartbeatTimer.waitPending := false;
    }

    method OnTick()
      requires Valid() && heartbeatTimer.started
      modifies this, socket, state, loginTimer, heartbeatTimer, loop
      ensures State() == old(State()).Ticked(S.SERVER_HEARTBEAT)
    {
      var action := heartbeatTimer.Tick();
      match action
      case ReceiveTimeout =>
        Disconnect(HeartbeatTimeout);
      case SendHeartbeat =>
        var _ := socket.AsyncWrite(S.SERVER_HEARTBEAT);
        heartbeatTimer.Schedule();
      case SendNothing =>
        heartbeatTimer.Schedule();
    }

    // -------------------------------------------------------------------
    // Reads

    method TakeRead(t: L.Task)
      requires loop.tasks.Has(t) > 0
      modifies socket, loop
      ensures State() == old(State()).ReadTaken(t)
    {
      loop.Take(t);
      socket.readPending := false;
    }

    /** The last thing every socket completion does. */
    method EndSocketCompletion()
      requires Valid()
      modifies socket, loop
      ensures State() == old(State()).SocketDone()
    {
      socket.MaybeSignalClosed();
    }

    method OnHeader(header: S.HeaderOutcome)
      requires Valid() && loop.tasks.headerReads > 0
      modifies this, socket, state, loginTimer, heartbeatTimer, loop
      ensures State() == S.HeaderDone(old(State()), header)
    {
      TakeRead(L.HeaderRead);
      match header {
        case HeaderError(e) => OnReadFailure(e);
        case BadHeader => Disconnect(ProtocolViolation);
        case NoPayload(t) => OnRead(Packet(t, []), S.Verdict(false, Packet(t, [])));
        case HasPayload => socket.ReadPayload();
      }
      EndSocketCompletion();
    }

    method OnPayload(payload: S.PayloadOutcome, verdict: S.Verdict)
      requires Valid() && loop.tasks.payloadReads > 0
      modifies this, socket, state, loginTimer, heartbeatTimer, loop
      ensures State() == S.PayloadDone(old(State()), payload, verdict)
    {
      TakeRead(L.PayloadRead);
      match payload {
        case PayloadError(e) => OnReadFailure(e);
        case GotPacket(p) => OnRead(p, verdict);
      }
      EndSocketCompletion();
    }

    method OnReadFailure(e: L.ReadFailure)
      requires Valid()
      modifies this, socket, state, loginTimer, heartbeatTimer, loop
      ensures State() == old(State()).ReadError(e)
    {
      match e
      case ReadAborted => Disconnect(UnmanagedAbort);
      case EndOfStream => Disconnect(PeerClosed);
      case ReadFailed => Disconnect(TransportError);
    }

    /** A packet has been read; the acceptor's answer to a login request is `verdict`. */
    method OnRead(packet: Packet, verdict: S.Verdict)
      requires Valid()
      modifies this, socket, state, loginTimer, heartbeatTimer, loop
      ensures State() == S.ReadSuccess(old(State()), packet, verdict)
    {
      if state.IsClosing() {
        return;
      }
      var error := ProcessPacket(packet, verdict);
      if error != NoPacketError {
        Disconnect(ProtocolViolation);
      }
      if state.IsClosing() {
        return;
      }
      socket.AsyncRead();
    }

    method ProcessPacket(packet: Packet, verdict: S.Verdict) returns (error: PacketError)
      requires Valid()
      modifies this, socket, state, loginTimer, heartbeatTimer, loop
      ensures error == S.PacketErrorOf(old(State()), packet)
      ensures State() == if error == NoPacketError then S.Processed(old(State()), packet, verdict) else old(State())
    {
      var size := |packet.payload|;
      if packet.packetType == S.DEBUG {
        return NoPacketError;
      }
      if packet.packetType == S.LOGIN_REQUEST {
        if size != LOGIN_REQUEST_SIZE {
          return IncorrectLength;
        }
        if state.state != L.Connected {
          return UnexpectedSequence;
        }
        ProcessLoginRequest(verdict);
        return NoPacketError;
      }
      if packet.packetType == S.UNSEQUENCED_DATA {
        if state.state != L.LoggedIn {
          return UnexpectedSequence;
        }
      } else if packet.packetType == S.CLIENT_HEARTBEAT || packet.packetType == S.LOGOUT_REQUEST {
        if size != 0 {
          return IncorrectLength;
        }
        if state.state != L.LoggedIn {
          return UnexpectedSequence;
        }
      } else {
        return InvalidMessageType;
      }
      if packet.packetType == S.LOGOUT_REQUEST {
        Disconnect(LogoutRequested);
      } else {
        heartbeatTimer.receiveCount := heartbeatTimer.receiveCount + 1;
      }
      error := NoPacketError;
    }

    method ProcessLoginRequest(verdict: S.Verdict)
      requires Valid()
      modifies this, socket, state, loginTimer, heartbeatTimer, loop
      ensures State() == if verdict.accepted then S.LoginAcceptedBy(old(State()), verdict.reply)
                         else S.LoginRejectedBy(old(State()), verdict.reply)
    {
      loginTimer.Stop();
      if verdict.accepted {
        state.SetState(L.LoggedIn);
        heartbeatTimerStopped := false;
        heartbeatTimer.Start();
      } else {
        PrepareGracefulDisconnect(AccessDenied);
      }
      // A refused write is ignored.
      var _ := socket.AsyncWrite(verdict.reply);
    }

    // -------------------------------------------------------------------
    // Writes

    /** A write ends; write_success runs before the packet leaves the queue. */
    method OnWrite(write: L.WriteOutcome) returns (drained: bool)
      requires Valid() && loop.tasks.writes > 0 && socket.writePackets != []
      modifies this, socket, state, loginTimer, heartbeatTimer, loop
      ensures State() == old(State()).WriteDone(write, true)
      ensures drained == (write == L.Written && old(socket.Value()).SignalsBufferEmpty())
    {
      TakeWrite();
      drained := false;
      match write {
        case WriteAborted =>
        case WriteFailed => Disconnect(TransportError);
        case Written =>
          OnWriteSuccess();
          drained := socket.PopFront();
      }
      EndSocketCompletion();
    }

    method TakeWrite()
      requires loop.tasks.writes > 0
      modifies socket, loop
      ensures State() == old(State()).Taken(L.PacketWrite).(socket := old(State()).socket.(writePending := false))
    {
      loop.Take(L.PacketWrite);
      socket.writePending := false;
    }

    /** The packet written ends a graceful disconnect. */
    method OnWriteSuccess()
      requires Valid()
      modifies this, socket, state, loginTimer, heartbeatTimer, loop
      ensures State()
           == if old(state.state) == L.Disconnecting then old(State()).Disconnect(UnmanagedAbort) else old(State())
      ensures socket.writePackets == old(socket.writePackets)
      ensures socket.writeBufferWasFull == old(socket.writeBufferWasFull)
    {
      if state.state == L.Disconnecting {
        Disconnect(UnmanagedAbort);
      }
    }

    method SendPacket(packet: Packet) returns (error: WriteError)
      requires Valid()
      modifies this, socket, heartbeatTimer, loop
      ensures State() == S.SendPacket(old(State()), packet)
      ensures error == if old(state.state) != L.LoggedIn then NotLoggedIn else old(socket.Value()).AsyncWriteError()
    {
      if state.state != L.LoggedIn {
        return NotLoggedIn;
      }
      error := socket.AsyncWrite(packet);
      if packet.packetType == S.SEQUENCED_DATA && error == NoWriteError {
        heartbeatTimer.sendCount := heartbeatTimer.sendCount + 1;
      }
    }

    method SendDebugPacket(text: seq<Byte>) returns (error: WriteError)
      requires Valid()
      modifies socket, loop
      ensures State() == S.SendDebug(old(State()), text)
      ensures error == if old(state.state) == L.Connecting || old(state.IsClosing()) then WriteDisconnected
                       else old(socket.Value()).AsyncWriteError()
    {
      if state.state == L.Connecting || state.IsClosing() {
        return WriteDisconnected;
      }
      error := socket.AsyncWrite(Packet(S.DEBUG, text));
    }

    // -------------------------------------------------------------------
    // Any event

    method Dispatch(event: S.Event)
      requires Valid() && S.Enabled(State(), event)
      modifies this, socket, state, loginTimer, heartbeatTimer, loop
      ensures State() == S.Step(old(State()), event)
    {
      match event {
        case HeaderEvent(header) => OnHeader(header);
        case PayloadEvent(payload, verdict) => OnPayload(payload, verdict);
        case WriteEvent(write) => var _ := OnWrite(write);
        case LoginWaitEvent(failed) => OnLoginWait(failed);
        case HeartbeatWaitEvent(failed) => OnHeartbeatWait(failed);
        case ClosedEvent => OnClosedPost();
        case LoginStoppedEvent => OnLoginStoppedPost();
        case HeartbeatStoppedEvent => OnHeartbeatStoppedPost();
        case CloseCall => Disconnect(UserInitiated);
        case SupersedeCall => Disconnect(Superseded);
        case SendCall(packet) => var _ := SendPacket(packet);
        case SendDebugCall(text) => var _ := SendDebugPacket(text);
      }
    }

    /** Whatever the event loop or a caller does, the object takes the step of ServerLifecycle and stays sound. */
    method Handle(event: S.Event, ghost banner: seq<Byte>, ghost limit: nat)
      requires Valid() && S.Enabled(State(), event) && S.Sound(State(), banner, limit)
      modifies this, socket, state, loginTimer, heartbeatTimer, loop
      ensures State() == S.Step(old(State()), event) && S.Sound(State(), banner, limit)
      ensures causes == old(causes) + AsList(E.CauseOf(old(State()), event))
      ensures socket.Value().queue == old(E.QueueAfter(State(), event))
      ensures old(E.Attentive(State())) ==> E.Attentive(State())
    {
      ghost var c := State();
      Dispatch(event);
      S.StepKeepsSound(c, event, banner, limit);
      E.StepDoes(c, event);
      if E.Attentive(c) {
        E.StepKeepsAttentive(c, event, banner, limit);
      }
    }

    /**
     * A whole run of the object: whatever happens, it reports itself closed at most once, for the first cause, and once
     * it is closing no run holds more completions than its measure. If no reject is queued behind another packet,
     * nothing is outstanding when it reports.
     */
    method Run(events: seq<S.Event>, ghost cs: seq<L.Conn>, ghost banner: seq<Byte>, ghost limit: nat)
      requires Valid() && S.IsRun(cs, events) && cs[0] == State() == S.Accepted(banner, limit)
      modifies this, socket, state, loginTimer, heartbeatTimer, loop
      ensures State() == cs[|events|] && S.ReportedOnce(State()) && E.Watched(State())
      ensures forall k, r | E.FirstCause(cs, events, k, r) :: state.reason == r && (reported == [] || reported == [r])
      ensures S.RejectsAlone(cs) ==> S.ClosedOnce(State())
      ensures limit >= 1 ==> !S.Stuck(State())
      ensures forall m | 0 <= m <= |events| && S.Draining(cs[m]) ::
                S.Completions(events[m..]) + L.Measure(State()) <= L.Measure(cs[m])
    {
      S.RunKeepsSound(cs, events, 0, banner, limit);
      var i := 0;
      while i < |events|
        invariant 0 <= i <= |events| && State() == cs[i] && S.Sound(State(), banner, limit)
      {
        assert S.IsStep(cs[i], events[i], cs[i + 1]);
        Handle(events[i], banner, limit);
        i := i + 1;
      }
      S.RunTheorems(cs, events, banner, limit);
      E.RunLaws(cs, events, banner, limit);
    }
  }
}
