/** A client's TCP connection as an object: every callback does to its fields what ClientLifecycle says. */
module ClientTcpConnection {
  import opened Types
  import opened RwPackets
  import opened LogicalPackets
  import opened LoopObjects
  import opened CommonEvents
  import E = ClientEvents
  import L = Lifecycle
  import C = ClientLifecycle

  class TcpConnection {
    const loop: EventLoop
    const socket: Socket
    const state: ConnectionState
    const loginTimer: LoginTimer
    const heartbeatTimer: HeartbeatTimer
    var socketClosed: bool
    var loginTimerStopped: bool
    var heartbeatTimerStopped: bool
    /** Every reason passed to the connection state, and every reason on_closed was called with. */
    ghost var causes: seq<DisconnectReason>
    ghost var reported: seq<DisconnectReason>

    ghost predicate Valid() { socket.loop == loop && loginTimer.loop == loop && heartbeatTimer.loop == loop }

    ghost function State(): L.Conn
      reads this, socket, state, loginTimer, heartbeatTimer, loop
    {
      L.Conn(socket.Value(), state.Value(), loginTimer.Value(), heartbeatTimer.Value(), socketClosed, loginTimerStopped,
             heartbeatTimerStopped, loop.tasks, causes, reported)
    }

    /** The socket is opened, which may fail at once, and then connects. */
    constructor (writePacketsLimit: nat, openFails: bool)
      ensures Valid() && State() == C.Opened(writePacketsLimit, openFails)
      ensures fresh(socket) && fresh(state) && fresh(loginTimer) && fresh(heartbeatTimer) && fresh(loop)
    {
      var l := new EventLoop();
      loop := l;
      socket := new Socket(l, writePacketsLimit);
      state := new ConnectionState(L.Connecting);
      loginTimer := new LoginTimer(l);
      heartbeatTimer := new HeartbeatTimer(l, SERVER_HEARTBEAT_TIMEOUT);
      socketClosed, loginTimerStopped, heartbeatTimerStopped := false, true, true;
      causes, reported := [], [];
      new;
      if openFails {
        Disconnect(ConnectFailure);
      } else {
        socket.AsyncConnect();
      }
    }

    // -------------------------------------------------------------------
    // Teardown

    method Disconnect(reason: DisconnectReason)
      requires Valid()
      modifies this, socket, state, loginTimer, heartbeatTimer, loop
      ensures State() == old(State()).Disconnect(reason)
    {
      var stateChanged := state.Disconnect(reason);
      causes := causes + [reason];
      if !stateChanged {
        return;
      }
      StopAll();
    }

    method StopAll()
      requires Valid()
      modifies this, socket, loginTimer, heartbeatTimer, loop
      ensures State() == old(State()).StopAll()
    {
      socket.Close();
      loginTimer.Stop();
      heartbeatTimer.Stop();
    }

    method MaybeSignalClosed()
      modifies this`reported
      ensures State() == old(State()).MaybeSignalClosed()
    {
      if !socketClosed || !loginTimerStopped || !heartbeatTimerStopped {
        return;
      }
      reported := reported + [state.reason];
    }

    method OnClosedPost()
      requires loop.tasks.closedPosts > 0
      modifies this, loop
      ensures State() == old(State()).ClosedRuns()
    {
      loop.Take(L.ClosedPost);
      socketClosed := true;
      MaybeSignalClosed();
    }

    method OnLoginStoppedPost()
      requires loop.tasks.loginStoppedPosts > 0
      modifies this, loop
      ensures State() == old(State()).LoginStoppedRuns()
    {
      loop.Take(L.LoginStoppedPost);
      loginTimerStopped := true;
      MaybeSignalClosed();
    }

    method OnHeartbeatStoppedPost()
      requires loop.tasks.heartbeatStoppedPosts > 0
      modifies this, loop
      ensures State() == old(State()).HeartbeatStoppedRuns()
    {
      loop.Take(L.HeartbeatStoppedPost);
      heartbeatTimerStopped := true;
      MaybeSignalClosed();
    }

    // -------------------------------------------------------------------
    // Timers

    method OnLoginWait(failed: bool)
      requires Valid() && loop.tasks.loginWaits > 0
      modifies this, socket, state, loginTimer, heartbeatTimer, loop
      ensures State() == old(State()).LoginWaitDone(failed)
    {
      TakeLoginWait();
      if loginTimer.started {
        if failed {
          Disconnect(TransportError);
        } else {
          Disconnect(LoginTimeout);
        }
      }
      loginTimer.MaybeSignalStopped();
    }

    method TakeLoginWait()
      requires loop.tasks.loginWaits > 0
      modifies loginTimer, loop
      ensures State() == old(State()).Taken(L.LoginWait).(login := old(State()).login.(waitPending := false))
    {
      loop.Take(L.LoginWait);
      loginTimer.waitPending := false;
    }

    method OnHeartbeatWait(failed: bool)
      requires Valid() && loop.tasks.heartbeatWaits > 0
      modifies this, socket, state, loginTimer, heartbeatTimer, loop
      ensures State() == old(State()).HeartbeatWaitDone(failed, C.CLIENT_HEARTBEAT)
    {
      TakeHeartbeatWait();
      if heartbeatTimer.started {
        if failed {
          Disconnect(TransportError);
        } else {
          OnTick();
        }
      }
      heartbeatTimer.MaybeSignalStopped();
    }

    method TakeHeartbeatWait()
      requires loop.tasks.heartbeatWaits > 0
      modifies heartbeatTimer, loop
      ensures State()
           == old(State()).Taken(L.HeartbeatWait).(heartbeat := old(State()).heartbeat.(waitPending := false))
    {
      loop.Take(L.HeartbeatWait);
      heartbeatTimer.waitPending := false;
    }

    method OnTick()
      requires Valid() && heartbeatTimer.started
      modifies this, socket, state, loginTimer, heartbeatTimer, loop
      ensures State() == old(State()).Ticked(C.CLIENT_HEARTBEAT)
    {
      var action := heartbeatTimer.Tick();
      match action
      case ReceiveTimeout =>
        Disconnect(HeartbeatTimeout);
      case SendHeartbeat =>
        var _ := socket.AsyncWrite(C.CLIENT_HEARTBEAT);
        heartbeatTimer.Schedule();
      case SendNothing =>
        heartbeatTimer.Schedule();
    }

    // -------------------------------------------------------------------
    // Connecting

    method OnConnect(connect: C.ConnectOutcome)
      requires Valid() && loop.tasks.connectWaits > 0
      modifies this, socket, state, loginTimer, heartbeatTimer, loop
      ensures State() == C.ConnectDone(old(State()), connect)
    {
      TakeConnect();
      match connect {
        case ConnectAborted =>
        case ConnectFailed => Disconnect(ConnectFailure);
        case ConnectSucceeded(request) => OnConnectSuccess(request);
      }
      EndSocketCompletion();
    }

    method TakeConnect()
      requires loop.tasks.connectWaits > 0
      modifies socket, loop
      ensures State() == C.ConnectTaken(old(State()))
    {
      loop.Take(L.ConnectWait);
      socket.connectPending := false;
    }

    /** Whatever happened since the connect began, the state becomes connected. */
    method OnConnectSuccess(request: Packet)
      requires Valid()
      modifies this, socket, state, loginTimer, heartbeatTimer, loop
      ensures State() == C.ConnectSuccess(old(State()), request)
    {
      state.SetState(L.Connected);
      loginTimerStopped := false;
      loginTimer.Start();
      socket.AsyncRead();
      // A refused write is ignored.
      var _ := socket.AsyncWrite(request);
    }

    // -------------------------------------------------------------------
    // Reads

    method TakeRead(t: L.Task)
      requires loop.tasks.Has(t) > 0
      modifies socket, loop
      ensures State() == old(State()).ReadTaken(t)
    {
      loop.Take(t);
      socket.readPending := false;
    }

    /** The last thing every socket completion does. */
    method EndSocketCompletion()
      requires Valid()
      modifies socket, loop
      ensures State() == old(State()).SocketDone()
    {
      socket.MaybeSignalClosed();
    }

    method OnHeader(header: C.HeaderOutcome, owner: C.Owner)
      requires Valid() && loop.tasks.headerReads > 0
      modifies this, socket, state, loginTimer, heartbeatTimer, loop
      ensures State() == C.HeaderDone(old(State()), header, owner)
    {
      TakeRead(L.HeaderRead);
      match header {
        case HeaderError(e) => OnReadFailure(e);
        case BadHeader => Disconnect(ProtocolViolation);
        case NoPayload(t) => OnRead(Packet(t, []), owner);
        case HasPayload => socket.ReadPayload();
      }
      EndSocketCompletion();
    }

    method OnPayload(payload: C.PayloadOutcome, owner: C.Owner)
      requires Valid() && loop.tasks.payloadReads > 0
      modifies this, socket, state, loginTimer, heartbeatTimer, loop
      ensures State() == C.PayloadDone(old(State()), payload, owner)
    {
      TakeRead(L.PayloadRead);
      match payload {
        case PayloadError(e) => OnReadFailure(e);
        case GotPacket(p) => OnRead(p, owner);
      }
      EndSocketCompletion();
    }

    method OnReadFailure(e: L.ReadFailure)
      requires Valid()
      modifies this, socket, state, loginTimer, heartbeatTimer, loop
      ensures State() == old(State()).ReadError(e)
    {
      match e
      case ReadAborted => Disconnect(UnmanagedAbort);
      case EndOfStream => Disconnect(PeerClosed);
      case ReadFailed => Disconnect(TransportError);
    }

    /** A packet has been read; `owner` is what the owning connection knows and answers. */
    method OnRead(packet: Packet, owner: C.Owner)
      requires Valid()
      modifies this, socket, state, loginTimer, heartbeatTimer, loop
      ensures State() == C.ReadSuccess(old(State()), packet, owner)
    {
      if state.IsClosing() {
        return;
      }
      var error := ProcessPacket(packet, owner);
      if error != NoPacketError {
        Disconnect(ProtocolViolation);
      }
      if state.IsClosing() {
        return;
      }
      socket.AsyncRead();
    }

    method ProcessPacket(packet: Packet, owner: C.Owner) returns (error: PacketError)
      requires Valid()
      modifies this, socket, state, loginTimer, heartbeatTimer, loop
      ensures error == C.PacketErrorOf(old(State()), packet, owner)
      ensures State() == if error == NoPacketError then C.Processed(old(State()), packet, owner) else old(State())
    {
      var size := |packet.payload|;
      if packet.packetType == C.DEBUG {
        return NoPacketError;
      }
      if packet.packetType == C.LOGIN_ACCEPTED {
        if size != LOGIN_ACCEPTED_SIZE {
          return IncorrectLength;
        }
        if state.state != L.Connected {
          return UnexpectedSequence;
        }
        if ReadLoginAccepted(FRESH_LOGIN_ACCEPTED, packet.payload).nextSequenceNumber == 0 {
          return InvalidFieldValue;
        }
        ProcessLoginAccepted(owner.loginVerdict);
        return NoPacketError;
      }
      if packet.packetType == C.LOGIN_REJECTED {
        if size != 1 {
          return IncorrectLength;
        }
        if state.state != L.Connected {
          return UnexpectedSequence;
        }
        loginTimer.Stop();
        Disconnect(AccessDenied);
        return NoPacketError;
      }
      if packet.packetType == C.SEQUENCED_DATA {
        if state.state != L.LoggedIn {
          return UnexpectedSequence;
        }
        if owner.hasSessionEnded {
          return UnexpectedSequence;
        }
      } else if packet.packetType == C.SERVER_HEARTBEAT || packet.packetType == C.END_OF_SESSION {
        if size != 0 {
          return IncorrectLength;
        }
        if state.state != L.LoggedIn {
          return UnexpectedSequence;
        }
      } else {
        return InvalidMessageType;
      }
      heartbeatTimer.receiveCount := heartbeatTimer.receiveCount + 1;
      error := NoPacketError;
    }

    /** The owning connection's verdict on the login decides whether the heartbeats start. */
    method ProcessLoginAccepted(verdict: DisconnectReason)
      requires Valid()
      modifies this, socket, state, loginTimer, heartbeatTimer, loop
      ensures State() == C.LoginAcceptedBy(old(State()), verdict)
    {
      loginTimer.Stop();
      state.SetState(L.LoggedIn);
      if verdict == NoReason {
        heartbeatTimerStopped := false;
        heartbeatTimer.Start();
      } else {
        Disconnect(verdict);
      }
    }

    // -------------------------------------------------------------------
    // Writes

    method OnWrite(write: L.WriteOutcome) returns (drained: bool)
      requires Valid() && loop.tasks.writes > 0 && socket.writePackets != []
      modifies this, socket, state, loginTimer, heartbeatTimer, loop
      ensures State() == old(State()).WriteDone(write, false)
      ensures drained == (write == L.Written && old(socket.Value()).SignalsBufferEmpty())
    {
      TakeWrite();
      drained := false;
      match write {
        case WriteAborted =>
        case WriteFailed => Disconnect(TransportError);
        case Written =>
          drained := socket.PopFront();
      }
      EndSocketCompletion();
    }

    method TakeWrite()
      requires loop.tasks.writes > 0
      modifies socket, loop
      ensures State() == old(State()).Taken(L.PacketWrite).(socket := old(State()).socket.(writePending := false))
    {
      loop.Take(L.PacketWrite);
      socket.writePending := false;
    }

    method SendPacket(packet: Packet) returns (error: WriteError)
      requires Valid()
      modifies this, socket, heartbeatTimer, loop
      ensures State() == C.SendPacket(old(State()), packet)
      ensures error == if old(state.state) != L.LoggedIn then NotLoggedIn else old(socket.Value()).AsyncWriteError()
    {
      if state.state != L.LoggedIn {
        return NotLoggedIn;
      }
      error := socket.AsyncWrite(packet);
      if packet.packetType == C.UNSEQUENCED_DATA && error == NoWriteError {
        heartbeatTimer.sendCount := heartbeatTimer.sendCount + 1;
      }
    }

    method SendDebugPacket(text: seq<Byte>) returns (error: WriteError)
      requires Valid()
      modifies socket, loop
      ensures State() == C.SendDebug(old(State()), text)
      ensures error == if old(state.state) == L.Connecting || old(state.IsClosing()) then WriteDisconnected
                       else old(socket.Value()).AsyncWriteError()
    {
      if state.state == L.Connecting || state.IsClosing() {
        return WriteDisconnected;
      }
      error := socket.AsyncWrite(Packet(C.DEBUG, text));
    }

    // -------------------------------------------------------------------
    // Any event

    method Dispatch(event: C.Event)
      requires Valid() && C.Enabled(State(), event)
      modifies this, socket, state, loginTimer, heartbeatTimer, loop
      ensures State() == C.Step(old(State()), event)
    {
      match event {
        case ConnectEvent(connect) => OnConnect(connect);
        case HeaderEvent(header, owner) => OnHeader(header, owner);
        case PayloadEvent(payload, owner) => OnPayload(payload, owner);
        case WriteEvent(write) => var _ := OnWrite(write);
        case LoginWaitEvent(failed) => OnLoginWait(failed);
        case HeartbeatWaitEvent(failed) => OnHeartbeatWait(failed);
        case ClosedEvent => OnClosedPost();
        case LoginStoppedEvent => OnLoginStoppedPost();
        case HeartbeatStoppedEvent => OnHeartbeatStoppedPost();
        case CloseCall => Disconnect(UserInitiated);
        case SendCall(packet) => var _ := SendPacket(packet);
        case SendDebugCall(text) => var _ := SendDebugPacket(text);
      }
    }

    /** Whatever the event loop or a caller does, the object takes ClientLifecycle's step and keeps the invariant. */
    method Handle(event: C.Event)
      requires Valid() && C.Enabled(State(), event) && C.Inv(State())
      modifies this, socket, state, loginTimer, heartbeatTimer, loop
      ensures State() == C.Step(old(State()), event)
      ensures C.Inv(State())
      ensures causes == old(causes) + AsList(E.CauseOf(old(State()), event))
      ensures socket.Value().queue == old(E.QueueAfter(State(), event))
      ensures old(E.Attentive(State())) ==> E.Attentive(State())
    {
      ghost var c := State();
      Dispatch(event);
      C.StepKeepsInv(c, event);
      E.StepDoes(c, event);
      if E.Attentive(c) {
        E.StepKeepsAttentive(c, event);
      }
    }

    /**
     * A whole run of the object: it reports itself closed at most once, for the first cause, with nothing outstanding;
     * once its socket is closing no run holds more completions than its measure, and with nothing left to run it has
     * reported.
     */
    method Run(events: seq<C.Event>, ghost cs: seq<L.Conn>, ghost limit: nat, ghost openFails: bool)
      requires Valid() && C.IsRun(cs, events) && cs[0] == State() == C.Opened(limit, openFails)
      modifies this, socket, state, loginTimer, heartbeatTimer, loop
      ensures State() == cs[|events|] && C.ClosedOnce(State()) && E.Watched(State())
      ensures !openFails ==>
                forall k, r | E.FirstCause(cs, events, k, r) :: state.reason == r && (reported == [] || reported == [r])
      ensures State().socket.closing && loop.tasks == L.NO_TASKS ==> State().reported != []
      ensures forall m | 0 <= m <= |events| && cs[m].socket.closing ::
                C.Completions(events[m..]) + L.Measure(State()) <= L.Measure(cs[m])
    {
      C.OpenedInv(limit, openFails);
      var i := 0;
      while i < |events|
        invariant 0 <= i <= |events| && State() == cs[i] && C.Inv(State())
      {
        assert C.IsStep(cs[i], events[i], cs[i + 1]);
        Handle(events[i]);
        i := i + 1;
      }
      C.RunTheorems(cs, events, limit, openFails);
      E.RunLaws(cs, events, limit, openFails);
    }
  }
}
