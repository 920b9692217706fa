/** One TCP connection of a client, over whole runs of the event loop. */
module ClientLifecycle {
  import opened Types
  import opened RwPackets
  import opened LogicalPackets
  import opened Lifecycle

  const DEBUG: Byte := 43
  const LOGIN_ACCEPTED: Byte := 65
  const LOGIN_REJECTED: Byte := 74
  const SEQUENCED_DATA: Byte := 83
  const SERVER_HEARTBEAT: Byte := 72
  const END_OF_SESSION: Byte := 90
  const UNSEQUENCED_DATA: Byte := 85
  const CLIENT_HEARTBEAT := Packet(82, [])

  datatype ConnectOutcome = ConnectAborted | ConnectFailed | ConnectSucceeded(request: Packet)

  datatype HeaderOutcome = HeaderError(e: ReadFailure) | BadHeader | NoPayload(packetType: Byte) | HasPayload

  datatype PayloadOutcome = PayloadError(e: ReadFailure) | GotPacket(packet: Packet)

  /** What the owning connection knows or answers while a packet is processed. */
  datatype Owner = Owner(hasSessionEnded: bool, loginVerdict: DisconnectReason)

  datatype Event =
    | ConnectEvent(connect: ConnectOutcome)
    | HeaderEvent(header: HeaderOutcome, headerOwner: Owner)
    | PayloadEvent(payload: PayloadOutcome, owner: Owner)
    | WriteEvent(write: WriteOutcome)
    | LoginWaitEvent(failed: bool)
    | HeartbeatWaitEvent(failed: bool)
    | ClosedEvent
    | LoginStoppedEvent
    | HeartbeatStoppedEvent
    | CloseCall
    | SendCall(packet: Packet)
    | SendDebugCall(text: seq<Byte>)

  // ---------------------------------------------------------------------
  // The handlers

  function ConnectSuccess(c: Conn, request: Packet): Conn {
    var d := c.(state := c.state.(state := Connected), loginStopped := false);
    var e := d.WithLogin(d.login.Start());
    e.WithSocket(e.socket.AsyncRead()).AsyncWrite(request)
  }

  function ConnectTaken(c: Conn): Conn
    requires c.tasks.connectWaits > 0
  {
    c.Taken(ConnectWait).(socket := c.socket.(connectPending := false))
  }

  function ConnectDone(c: Conn, o: ConnectOutcome): Conn
    requires c.tasks.connectWaits > 0
  {
    var d := ConnectTaken(c);
    var e := match o
      case ConnectAborted => d
      case ConnectFailed => d.Disconnect(ConnectFailure)
      case ConnectSucceeded(request) => ConnectSuccess(d, request);
    e.SocketDone()
  }

  function PacketErrorOf(c: Conn, p: Packet, owner: Owner): PacketError {
    if p.packetType == DEBUG then NoPacketError
    else if p.packetType == LOGIN_ACCEPTED then
      if |p.payload| != LOGIN_ACCEPTED_SIZE then IncorrectLength
      else if c.state.state != Connected then UnexpectedSequence
      else if ReadLoginAccepted(FRESH_LOGIN_ACCEPTED, p.payload).nextSequenceNumber == 0 then InvalidFieldValue
      else NoPacketError
    else if p.packetType == LOGIN_REJECTED then
      if |p.payload| != 1 then IncorrectLength
      else if c.state.state != Connected then UnexpectedSequence
      else NoPacketError
    else if p.packetType == SEQUENCED_DATA then
      if c.state.state != LoggedIn || owner.hasSessionEnded then UnexpectedSequence else NoPacketError
    else if p.packetType == SERVER_HEARTBEAT || p.packetType == END_OF_SESSION then
      if |p.payload| != 0 then IncorrectLength
      else if c.state.state != LoggedIn then UnexpectedSequence
      else NoPacketError
    else InvalidMessageType
  }

  function LoginAcceptedBy(c: Conn, verdict: DisconnectReason): Conn {
    var d := c.WithLogin(c.login.Stop());
    var e := d.(state := d.state.(state := LoggedIn));
    if verdict == NoReason then e.(heartbeatStopped := false).WithHeartbeat(e.heartbeat.Start())
    else e.Disconnect(verdict)
  }

  function Processed(c: Conn, p: Packet, owner: Owner): Conn {
    if PacketErrorOf(c, p, owner) != NoPacketError then c.Disconnect(ProtocolViolation)
    else if p.packetType == DEBUG then c
    else if p.packetType == LOGIN_ACCEPTED then LoginAcceptedBy(c, owner.loginVerdict)
    else if p.packetType == LOGIN_REJECTED then c.WithLogin(c.login.Stop()).Disconnect(AccessDenied)
    else c.(heartbeat := c.heartbeat.(receiveCount := c.heartbeat.receiveCount + 1))
  }

  function ReadSuccess(c: Conn, p: Packet, owner: Owner): Conn {
    if c.state.IsClosing() then c
    else
      var d := Processed(c, p, owner);
      if d.state.IsClosing() then d else d.WithSocket(d.socket.AsyncRead())
  }

  function HeaderDone(c: Conn, h: HeaderOutcome, owner: Owner): Conn
    requires c.tasks.headerReads > 0
  {
    var d := c.ReadTaken(HeaderRead);
    var e := match h
      case HeaderError(f) => d.ReadError(f)
      case BadHeader => d.Disconnect(ProtocolViolation)
      case NoPayload(t) => ReadSuccess(d, Packet(t, []), owner)
      case HasPayload => d.WithSocket(d.socket.ReadPayload());
    e.SocketDone()
  }

  function PayloadDone(c: Conn, o: PayloadOutcome, owner: Owner): Conn
    requires c.tasks.payloadReads > 0
  {
    var d := c.ReadTaken(PayloadRead);
    var e := match o
      case PayloadError(f) => d.ReadError(f)
      case GotPacket(p) => ReadSuccess(d, p, owner);
    e.SocketDone()
  }

  function SendPacket(c: Conn, p: Packet): Conn {
    if c.state.state != LoggedIn then c
    else
      var d := c.AsyncWrite(p);
      if p.packetType == UNSEQUENCED_DATA && c.socket.AsyncWriteError() == NoWriteError
      then d.(heartbeat := d.heartbeat.(sendCount := d.heartbeat.sendCount + 1)) else d
  }

  function SendDebug(c: Conn, text: seq<Byte>): Conn {
    if c.state.state == Connecting || c.state.IsClosing() then c else c.AsyncWrite(Packet(DEBUG, text))
  }

  /** Constructing: the socket is opened, which may fail at once, and then connects. */
  function Opened(limit: nat, openFails: bool): Conn {
    var c := Conn(Socket([], limit, false, false, false, false, false, false), ConnState(Connecting, NoReason),
                  LoginTimer(false, false, false),
                  HeartbeatTimer(SERVER_HEARTBEAT_TIMEOUT, 0, 0, 0, false, false, false),
                  false, true, true, NO_TASKS, [], []);
    if openFails then c.Disconnect(ConnectFailure) else c.WithSocket(c.socket.AsyncConnect())
  }

  // ---------------------------------------------------------------------
  // Runs

  /**
   * The environment runs any outstanding task, or calls the connection while it lives. A connect ends as aborted only
   * on a socket that was closed, but it may also succeed on one.
   */
  predicate Enabled(c: Conn, e: Event) {
    match e
    case ConnectEvent(o) => c.tasks.connectWaits > 0 && (o == ConnectAborted ==> c.socket.closing)
    case HeaderEvent(_, _) => c.tasks.headerReads > 0
    case PayloadEvent(_, _) => c.tasks.payloadReads > 0
    case WriteEvent(_) => c.tasks.writes > 0 && c.socket.queue != []
    case LoginWaitEvent(_) => c.tasks.loginWaits > 0
    case HeartbeatWaitEvent(_) => c.tasks.heartbeatWaits > 0
    case ClosedEvent => c.tasks.closedPosts > 0
    case LoginStoppedEvent => c.tasks.loginStoppedPosts > 0
    case HeartbeatStoppedEvent => c.tasks.heartbeatStoppedPosts > 0
    case _ => c.reported == []
  }

  function Step(c: Conn, e: Event): Conn
    requires Enabled(c, e)
  {
    match e
    case ConnectEvent(o) => ConnectDone(c, o)
    case HeaderEvent(h, owner) => HeaderDone(c, h, owner)
    case PayloadEvent(o, owner) => PayloadDone(c, o, owner)
    case WriteEvent(o) => c.WriteDone(o, false)
    case LoginWaitEvent(failed) => c.LoginWaitDone(failed)
    case HeartbeatWaitEvent(failed) => c.HeartbeatWaitDone(failed, CLIENT_HEARTBEAT)
    case ClosedEvent => c.ClosedRuns()
    case LoginStoppedEvent => c.LoginStoppedRuns()
    case HeartbeatStoppedEvent => c.HeartbeatStoppedRuns()
    case CloseCall => c.Disconnect(UserInitiated)
    case SendCall(p) => SendPacket(c, p)
    case SendDebugCall(text) => SendDebug(c, text)
  }

  predicate IsStep(c: Conn, e: Event, d: Conn) { Enabled(c, e) && d == Step(c, e) }

  ghost predicate IsRun(cs: seq<Conn>, es: seq<Event>) {
    |cs| == |es| + 1 && forall i | 0 <= i < |es| :: IsStep(cs[i], es[i], cs[i + 1])
  }

  // ---------------------------------------------------------------------
  // The invariant

  predicate Phase(c: Conn) {
    && c.state.state != Disconnecting
    && (c.state.state == Disconnected ==> c.socket.closing)
    && (c.state.state == LoggedIn ==> !c.socket.closing && !c.login.started)
    && (c.state.state == Connecting || c.state.state == Connected ==> HeartbeatFresh(c))
    && (c.state.state == Connected ==> c.login.started)
    && (c.state.state == Connecting ==> !c.socket.closing)
  }

  /** Until the connect completes nothing else has started; and it may complete after the socket was closed. */
  predicate ConnectFirst(c: Conn) {
    && (c.socket.connectPending ==> LoginFresh(c) && HeartbeatFresh(c) && Unused(c)
                                    && c.state.state in {Connecting, Disconnected})
    && (c.socket.closing && c.state.state == Connected ==> Unused(c))
  }

  predicate Unused(c: Conn) { !c.socket.readPending && !c.socket.writePending }

  predicate Reasons(c: Conn) {
    && c.state.reason == (if c.causes == [] then NoReason else c.causes[0])
    && (c.socket.closing <==> c.causes != [])
    && (c.causes != [] ==> c.causes[0] != NoReason)
  }

  predicate Logic(c: Conn) { Phase(c) && ConnectFirst(c) && Reasons(c) }

  predicate Inv(c: Conn) {
    if c.reported != [] then Gone(c) && c.reported == [c.state.reason] && Reasons(c) && c.causes != []
    else Alive(c) && Logic(c) && (c.state.state == Connecting ==> c.socket.connectPending)
  }

  lemma OpenedInv(limit: nat, openFails: bool)
    ensures Inv(Opened(limit, openFails))
  {
  }

  // ---------------------------------------------------------------------
  // Every event keeps it

  predicate InCallback(c: Conn) { InSocketCallback(c) && Logic(c) }

  lemma DisconnectLogic(c: Conn, r: DisconnectReason)
    requires Logic(c) && r != NoReason
    ensures Logic(c.Disconnect(r)) && c.Disconnect(r).state.state == Disconnected
    ensures c.Disconnect(r).socket.readPending == c.socket.readPending
  {
  }

  lemma DisconnectCallback(c: Conn, r: DisconnectReason)
    requires InCallback(c) && r != NoReason
    ensures InCallback(c.Disconnect(r)) && c.Disconnect(r).state.state == Disconnected
    ensures c.Disconnect(r).socket.readPending == c.socket.readPending
  {
    DisconnectLogic(c, r);
    DisconnectInCallback(c, r);
  }

  lemma DisconnectCallKeeps(c: Conn, r: DisconnectReason)
    requires Alive(c) && Logic(c) && r != NoReason
    ensures Inv(c.Disconnect(r))
  {
    DisconnectLogic(c, r);
    DisconnectStopsTimers(c, r);
    DisconnectKeepsSettled(c, r);
  }

  lemma SocketDoneInv(c: Conn)
    requires InCallback(c) && c.state.state != Connecting
    ensures Inv(c.SocketDone())
  {
  }

  lemma ConnectTakenKeeps(c: Conn)
    requires Alive(c) && Logic(c) && c.tasks.connectWaits > 0
    ensures var d := ConnectTaken(c);
            && InCallback(d) && LoginFresh(d) && HeartbeatFresh(d) && Unused(d)
            && !d.socket.connectPending && !d.socket.closedSignaled && d.state.state in {Connecting, Disconnected}
  {
  }

  lemma ConnectSuccessKeeps(c: Conn, request: Packet)
    requires InCallback(c) && LoginFresh(c) && HeartbeatFresh(c) && Unused(c)
    requires !c.socket.connectPending && !c.socket.closedSignaled
    ensures InCallback(ConnectSuccess(c, request)) && ConnectSuccess(c, request).state.state == Connected
  {
  }

  lemma ConnectKeeps(c: Conn, o: ConnectOutcome)
    requires Alive(c) && Logic(c) && c.tasks.connectWaits > 0
    requires o == ConnectAborted ==> c.socket.closing
    ensures Inv(ConnectDone(c, o))
  {
    ConnectTakenKeeps(c);
    var d := ConnectTaken(c);
    match o
    case ConnectAborted => SocketDoneInv(d);
    case ConnectFailed =>
      DisconnectCallback(d, ConnectFailure);
      SocketDoneInv(d.Disconnect(ConnectFailure));
    case ConnectSucceeded(request) =>
      ConnectSuccessKeeps(d, request);
      SocketDoneInv(ConnectSuccess(d, request));
  }

  lemma StopLoginKeeps(c: Conn)
    requires InCallback(c) && c.state.state == Connected
    ensures var d := c.WithLogin(c.login.Stop());
            InSocketCallback(d) && !d.login.started && d == c.(login := d.login)
  {
  }

  lemma LoginAcceptedKeeps(c: Conn, verdict: DisconnectReason)
    requires InCallback(c) && c.state.state == Connected && !c.socket.closing && !c.socket.connectPending
    ensures var d := LoginAcceptedBy(c, verdict);
            InCallback(d) && d.state.state != Connecting && d.socket.readPending == c.socket.readPending
  {
    StopLoginKeeps(c);
    var d := c.WithLogin(c.login.Stop());
    var e := d.(state := d.state.(state := LoggedIn));
    assert InCallback(e);
    if verdict != NoReason {
      DisconnectCallback(e, verdict);
    }
  }

  lemma LoginRejectedKeeps(c: Conn)
    requires InCallback(c) && c.state.state == Connected && !c.socket.closing && !c.socket.connectPending
    ensures var d := c.WithLogin(c.login.Stop()).Disconnect(AccessDenied);
            InCallback(d) && d.state.state != Connecting && d.socket.readPending == c.socket.readPending
  {
  }

  lemma ProcessedKeeps(c: Conn, p: Packet, owner: Owner)
    requires InCallback(c) && !c.state.IsClosing() && !c.socket.closing && !c.socket.connectPending
    requires c.state.state != Connecting
    ensures var d := Processed(c, p, owner);
            InCallback(d) && d.state.state != Connecting && d.socket.readPending == c.socket.readPending
  {
    if PacketErrorOf(c, p, owner) != NoPacketError {
      DisconnectCallback(c, ProtocolViolation);
    } else if p.packetType == LOGIN_ACCEPTED {
      LoginAcceptedKeeps(c, owner.loginVerdict);
    } else if p.packetType == LOGIN_REJECTED {
      LoginRejectedKeeps(c);
    }
  }

  lemma ReadSuccessKeeps(c: Conn, p: Packet, owner: Owner)
    requires InCallback(c) && c.state.state != Connecting && !c.socket.connectPending && !c.socket.readPending
    requires c.socket.closing ==> c.state.state == Disconnected
    ensures InCallback(ReadSuccess(c, p, owner)) && ReadSuccess(c, p, owner).state.state != Connecting
  {
    if !c.state.IsClosing() {
      ProcessedKeeps(c, p, owner);
      var d := Processed(c, p, owner);
      if !d.state.IsClosing() {
        ReadAgainKeeps(d);
      }
    }
  }

  lemma ReadAgainKeeps(c: Conn)
    requires InCallback(c) && !c.state.IsClosing() && c.state.state != Connecting && !c.socket.readPending
    ensures InCallback(c.WithSocket(c.socket.AsyncRead()))
  {
  }

  lemma ReadTakenIn(c: Conn, t: Task)
    requires Alive(c) && Logic(c) && t in {HeaderRead, PayloadRead} && c.tasks.Has(t) > 0
    requires c.state.state == Connecting ==> c.socket.connectPending
    ensures var d := c.ReadTaken(t);
            && InCallback(d) && !d.socket.readPending && !d.socket.connectPending && !d.socket.closedSignaled
            && d.state.state != Connecting && (d.socket.closing ==> d.state.state == Disconnected)
  {
  }

  lemma ReadErrorIn(c: Conn, e: ReadFailure)
    requires InCallback(c)
    ensures InCallback(c.ReadError(e)) && c.ReadError(e).state.state == Disconnected
  {
    DisconnectCallback(c, match e
                          case ReadAborted => UnmanagedAbort
                          case EndOfStream => PeerClosed
                          case ReadFailed => TransportError);
  }

  lemma HeaderKeeps(c: Conn, h: HeaderOutcome, owner: Owner)
    requires Inv(c) && c.reported == [] && c.tasks.headerReads > 0
    ensures Inv(HeaderDone(c, h, owner))
  {
    ReadTakenIn(c, HeaderRead);
    var d := c.ReadTaken(HeaderRead);
    match h
    case HeaderError(f) =>
      ReadErrorIn(d, f);
      SocketDoneInv(d.ReadError(f));
    case BadHeader =>
      DisconnectCallback(d, ProtocolViolation);
      SocketDoneInv(d.Disconnect(ProtocolViolation));
    case NoPayload(t) =>
      ReadSuccessKeeps(d, Packet(t, []), owner);
      SocketDoneInv(ReadSuccess(d, Packet(t, []), owner));
    case HasPayload =>
      SocketDoneInv(d.WithSocket(d.socket.ReadPayload()));
  }

  lemma PayloadKeeps(c: Conn, o: PayloadOutcome, owner: Owner)
    requires Inv(c) && c.reported == [] && c.tasks.payloadReads > 0
    ensures Inv(PayloadDone(c, o, owner))
  {
    ReadTakenIn(c, PayloadRead);
    var d := c.ReadTaken(PayloadRead);
    match o
    case PayloadError(f) =>
      ReadErrorIn(d, f);
      SocketDoneInv(d.ReadError(f));
    case GotPacket(p) =>
      ReadSuccessKeeps(d, p, owner);
      SocketDoneInv(ReadSuccess(d, p, owner));
  }

  lemma WriteKeeps(c: Conn, o: WriteOutcome)
    requires Inv(c) && c.reported == [] && c.tasks.writes > 0
    ensures Inv(c.WriteDone(o, false))
  {
    WriteDoneKeeps(c, o, false);
    var d := c.Taken(PacketWrite).(socket := c.socket.(writePending := false));
    if o == WriteFailed {
      DisconnectLogic(d, TransportError);
    }
  }

  lemma LoginWaitInv(c: Conn, failed: bool)
    requires Inv(c) && c.reported == [] && c.tasks.loginWaits > 0
    ensures Inv(c.LoginWaitDone(failed))
  {
    LoginWaitKeeps(c, failed);
    var d := c.Taken(LoginWait).(login := c.login.(waitPending := false));
    if c.login.started {
      DisconnectLogic(d, if failed then TransportError else LoginTimeout);
    }
  }

  lemma AsyncWriteLogic(c: Conn, p: Packet)
    requires Logic(c) && c.state.state in {Connected, LoggedIn}
    ensures Logic(c.AsyncWrite(p)) && c.AsyncWrite(p).state == c.state
  {
  }

  lemma TickedLogic(c: Conn, p: Packet)
    requires Logic(c) && c.state.state == LoggedIn
    ensures Logic(c.Ticked(p)) && c.Ticked(p).state.state != Connecting
  {
    var ticked := c.(heartbeat := c.heartbeat.Tick());
    assert Logic(ticked);
    match c.heartbeat.TickAction()
    case ReceiveTimeout => DisconnectLogic(ticked, HeartbeatTimeout);
    case SendHeartbeat => AsyncWriteLogic(ticked, p);
    case SendNothing =>
  }

  lemma HeartbeatWaitInv(c: Conn, failed: bool)
    requires Inv(c) && c.reported == [] && c.tasks.heartbeatWaits > 0
    ensures Inv(c.HeartbeatWaitDone(failed, CLIENT_HEARTBEAT))
  {
    HeartbeatWaitKeeps(c, failed, CLIENT_HEARTBEAT);
    var d := c.Taken(HeartbeatWait).(heartbeat := c.heartbeat.(waitPending := false));
    assert Logic(d) && d.state.state != Connecting;
    if c.heartbeat.started {
      if failed {
        DisconnectLogic(d, TransportError);
      } else {
        TickedLogic(d, CLIENT_HEARTBEAT);
      }
    }
  }

  lemma SendKeeps(c: Conn, p: Packet)
    requires Inv(c) && c.reported == [] && c.state.state in {Connected, LoggedIn}
    ensures Inv(c.AsyncWrite(p))
  {
    AsyncWriteKeeps(c, p);
    AsyncWriteLogic(c, p);
  }

  lemma PostsKeep(c: Conn, e: Event)
    requires Inv(c) && c.reported == [] && Enabled(c, e)
    requires e in {ClosedEvent, LoginStoppedEvent, HeartbeatStoppedEvent}
    ensures Inv(Step(c, e))
  {
    match e
    case ClosedEvent => ClosedRunsKeeps(c);
    case LoginStoppedEvent => LoginStoppedRunsKeeps(c);
    case HeartbeatStoppedEvent => HeartbeatStoppedRunsKeeps(c);
  }

  lemma StepKeepsInv(c: Conn, e: Event)
    requires Inv(c) && Enabled(c, e)
    ensures Inv(Step(c, e))
  {
    match e
    case ConnectEvent(o) => ConnectKeeps(c, o);
    case HeaderEvent(h, owner) => HeaderKeeps(c, h, owner);
    case PayloadEvent(o, owner) => PayloadKeeps(c, o, owner);
    case WriteEvent(o) => WriteKeeps(c, o);
    case LoginWaitEvent(failed) => LoginWaitInv(c, failed);
    case HeartbeatWaitEvent(failed) => HeartbeatWaitInv(c, failed);
    case CloseCall => DisconnectCallKeeps(c, UserInitiated);
    case SendCall(p) =>
      if c.state.state == LoggedIn {
        SendKeeps(c, p);
      }
    case SendDebugCall(text) =>
      if c.state.state != Connecting && !c.state.IsClosing() {
        SendKeeps(c, Packet(DEBUG, text));
      }
    case _ => PostsKeep(c, e);
  }

  // ---------------------------------------------------------------------
  // Theorems over whole runs

  lemma {:induction false} RunKeepsInv(cs: seq<Conn>, es: seq<Event>, n: nat)
    requires IsRun(cs, es) && n <= |es| && Inv(cs[0])
    ensures Inv(cs[n])
  {
    if n == 0 {
    } else {
      RunKeepsInv(cs, es, n - 1);
      assert IsStep(cs[n - 1], es[n - 1], cs[n]);
      StepKeepsInv(cs[n - 1], es[n - 1]);
    }
  }

  /** on_closed runs at most once, with nothing outstanding, and reports the first cause recorded. */
  predicate ClosedOnce(c: Conn) {
    c.reported != [] ==> Gone(c) && c.causes != [] && c.reported == [c.causes[0]] && c.causes[0] != NoReason
  }

  /** In every run, whatever the queue limit and however late the connect completes. */
  lemma TeardownSafe(cs: seq<Conn>, es: seq<Event>, limit: nat, openFails: bool)
    requires IsRun(cs, es) && cs[0] == Opened(limit, openFails)
    ensures ClosedOnce(cs[|es|])
  {
    OpenedInv(limit, openFails);
    RunKeepsInv(cs, es, |es|);
  }

  predicate IsCompletion(e: Event) { !(e.CloseCall? || e.SendCall? || e.SendDebugCall?) }

  lemma ConnectLowers(c: Conn, o: ConnectOutcome)
    requires Inv(c) && c.reported == [] && c.socket.closing && c.tasks.connectWaits > 0
    ensures Measure(ConnectDone(c, o)) < Measure(c) && ConnectDone(c, o).socket.closing
  {
  }

  /** On a closed socket, a connect that still succeeds arms only the login timer. */
  lemma LateConnect(c: Conn, request: Packet)
    requires c.socket.closing && LoginFresh(c)
    ensures Measure(ConnectSuccess(c, request)) == Measure(c) + 3 && ConnectSuccess(c, request).socket.closing
  {
  }

  lemma ReadLowers(c: Conn, e: Event)
    requires Inv(c) && c.reported == [] && c.socket.closing && Enabled(c, e) && (e.HeaderEvent? || e.PayloadEvent?)
    ensures Measure(Step(c, e)) < Measure(c) && Step(c, e).socket.closing
  {
    var t := if e.HeaderEvent? then HeaderRead else PayloadRead;
    var d := c.ReadTaken(t);
    ReadTakenIn(c, t);
    ReadTakenLowers(c, t);
    var f := match e
      case HeaderEvent(h, _) => (
        match h
        case HeaderError(f) => d.ReadError(f)
        case BadHeader => d.Disconnect(ProtocolViolation)
        case NoPayload(_) => d
        case HasPayload => d.WithSocket(d.socket.ReadPayload()))
      case PayloadEvent(o, _) => (match o case PayloadError(f) => d.ReadError(f) case GotPacket(_) => d);
    ReadPayloadRaises(d);
    DisconnectLowers(d, ProtocolViolation);
    forall f: ReadFailure {
      ReadErrorLowers(d, f);
    }
    SocketDoneLowers(f);
  }

  lemma TimersStayClosing(c: Conn, failed: bool)
    requires c.socket.closing
    ensures c.tasks.loginWaits > 0 ==> c.LoginWaitDone(failed).socket.closing
    ensures c.tasks.heartbeatWaits > 0 && !c.heartbeat.started ==>
              c.HeartbeatWaitDone(failed, CLIENT_HEARTBEAT).socket.closing
  {
  }

  lemma HeartbeatWaitLowers(c: Conn, failed: bool)
    requires Inv(c) && c.reported == [] && c.socket.closing && c.tasks.heartbeatWaits > 0
    ensures Measure(c.HeartbeatWaitDone(failed, CLIENT_HEARTBEAT)) < Measure(c) && !c.heartbeat.started
  {
  }

  lemma PostsLower(c: Conn, e: Event)
    requires Enabled(c, e) && (e.ClosedEvent? || e.LoginStoppedEvent? || e.HeartbeatStoppedEvent?)
    ensures Measure(Step(c, e)) < Measure(c) && Step(c, e).socket == c.socket
  {
  }

  /** Each completion of a closing connection lowers the measure, and no call raises it. */
  lemma StepLowers(c: Conn, e: Event)
    requires Inv(c) && c.reported == [] && c.socket.closing && Enabled(c, e)
    ensures if IsCompletion(e) then Measure(Step(c, e)) < Measure(c) else Measure(Step(c, e)) <= Measure(c)
    ensures Step(c, e).socket.closing
  {
    match e
    case ConnectEvent(o) => ConnectLowers(c, o);
    case HeaderEvent(_, _) => ReadLowers(c, e);
    case PayloadEvent(_, _) => ReadLowers(c, e);
    case WriteEvent(o) =>
      WriteLowers(c, o, false);
    case LoginWaitEvent(failed) =>
      LoginWaitLowers(c, failed);
      TimersStayClosing(c, failed);
    case HeartbeatWaitEvent(failed) =>
      HeartbeatWaitLowers(c, failed);
      TimersStayClosing(c, failed);
    case CloseCall => DisconnectLowers(c, UserInitiated);
    case SendCall(_) =>
    case SendDebugCall(_) =>
    case _ => PostsLower(c, e);
  }

  function Completions(es: seq<Event>): nat {
    if es == [] then 0 else Completions(es[..|es| - 1]) + Count(IsCompletion(es[|es| - 1]))
  }

  /** From a closing connection, no run holds more completions than the measure. */
  lemma {:induction false} TeardownTerminates(cs: seq<Conn>, es: seq<Event>)
    requires IsRun(cs, es) && Inv(cs[0]) && cs[0].socket.closing
    ensures Completions(es) + Measure(cs[|es|]) <= Measure(cs[0]) && cs[|es|].socket.closing
    decreases |es|
  {
    var n := |es|;
    if n == 0 {
    } else {
      assert IsRun(cs[..n], es[..n - 1]) by {
        assert forall i | 0 <= i < n - 1 :: IsStep(cs[i], es[i], cs[i + 1]);
      }
      TeardownTerminates(cs[..n], es[..n - 1]);
      assert IsStep(cs[n - 1], es[n - 1], cs[n]);
      RunKeepsInv(cs, es, n - 1);
      assert cs[n - 1].reported == [];
      StepLowers(cs[n - 1], es[n - 1]);
    }
  }

  /** And a closing connection with nothing left to run has been reported closed. */
  lemma TeardownFinishes(cs: seq<Conn>, es: seq<Event>, limit: nat, openFails: bool)
    requires IsRun(cs, es) && cs[0] == Opened(limit, openFails)
    requires cs[|es|].socket.closing && cs[|es|].tasks == NO_TASKS
    ensures cs[|es|].causes != [] && cs[|es|].reported == [cs[|es|].causes[0]]
  {
    OpenedInv(limit, openFails);
    RunKeepsInv(cs, es, |es|);
  }

  lemma RunSuffix(cs: seq<Conn>, es: seq<Event>, m: nat)
    requires IsRun(cs, es) && m <= |es|
    ensures IsRun(cs[m..], es[m..])
  {
    forall i | 0 <= i < |es| - m ensures IsStep(cs[m..][i], es[m..][i], cs[m..][i + 1]) {
      assert IsStep(cs[m + i], es[m + i], cs[m + i + 1]);
    }
  }

  lemma ClosingBound(cs: seq<Conn>, es: seq<Event>, m: nat)
    requires IsRun(cs, es) && Inv(cs[0]) && m <= |es| && cs[m].socket.closing
    ensures Completions(es[m..]) + Measure(cs[|es|]) <= Measure(cs[m])
  {
    RunKeepsInv(cs, es, m);
    RunSuffix(cs, es, m);
    TeardownTerminates(cs[m..], es[m..]);
  }

  /** What holds at the end of any run, together. */
  lemma RunTheorems(cs: seq<Conn>, es: seq<Event>, limit: nat, openFails: bool)
    requires IsRun(cs, es) && cs[0] == Opened(limit, openFails)
    ensures ClosedOnce(cs[|es|])
    ensures cs[|es|].socket.closing && cs[|es|].tasks == NO_TASKS ==> cs[|es|].reported != []
    ensures forall m | 0 <= m <= |es| && cs[m].socket.closing ::
              Completions(es[m..]) + Measure(cs[|es|]) <= Measure(cs[m])
  {
    TeardownSafe(cs, es, limit, openFails);
    if cs[|es|].socket.closing && cs[|es|].tasks == NO_TASKS {
      TeardownFinishes(cs, es, limit, openFails);
    }
    OpenedInv(limit, openFails);
    forall m | 0 <= m <= |es| && cs[m].socket.closing
      ensures Completions(es[m..]) + Measure(cs[|es|]) <= Measure(cs[m])
    {
      ClosingBound(cs, es, m);
    }
  }

  // ---------------------------------------------------------------------
  // How the state moves

  /** The moves a link's client end makes in Session: connected once, logged in once, closed with the first cause. */
  predicate Moves(s: ConnState, t: ConnState) {
    || t == s
    || (s.state == Connecting && t == s.(state := Connected))
    || (s.state == Connected && t == s.(state := LoggedIn))
    || (s.state != Disconnected && t.state == Disconnected && t.reason != NoReason
        && (s.reason != NoReason ==> t.reason == s.reason))
  }

  /** A connect succeeds although its connection has been disconnected. */
  predicate LateSuccess(c: Conn, e: Event) {
    e.ConnectEvent? && e.connect.ConnectSucceeded? && c.state.state == Disconnected
  }

  /** The packet an event brings to a connection that still processes packets, and what its owner says to it. */
  function PacketRead(c: Conn, e: Event): Option<(Packet, Owner)> {
    if c.state.IsClosing() then None
    else
      match e
      case HeaderEvent(NoPayload(t), owner) => Some((Packet(t, []), owner))
      case PayloadEvent(GotPacket(p), owner) => Some((p, owner))
      case _ => None
  }

  /** The state after a packet. */
  function StateAfter(c: Conn, p: Packet, owner: Owner): ConnState {
    if PacketErrorOf(c, p, owner) != NoPacketError then c.state.Disconnect(ProtocolViolation)
    else if p.packetType == LOGIN_ACCEPTED then
      if owner.loginVerdict == NoReason then c.state.(state := LoggedIn)
      else c.state.(state := LoggedIn).Disconnect(owner.loginVerdict)
    else if p.packetType == LOGIN_REJECTED then c.state.Disconnect(AccessDenied)
    else c.state
  }

  lemma LoginState(c: Conn, verdict: DisconnectReason)
    ensures LoginAcceptedBy(c, verdict).reported == c.reported
    ensures LoginAcceptedBy(c, verdict).state
         == if verdict == NoReason then c.state.(state := LoggedIn) else c.state.(state := LoggedIn).Disconnect(verdict)
  {
    var d := c.WithLogin(c.login.Stop());
    DisconnectState(d.(state := d.state.(state := LoggedIn)), verdict);
  }

  lemma ProcessedState(c: Conn, p: Packet, owner: Owner)
    ensures var d := Processed(c, p, owner); d.state == StateAfter(c, p, owner) && d.reported == c.reported
  {
    LoginState(c, owner.loginVerdict);
  }

  lemma ReadState(c: Conn, p: Packet, owner: Owner)
    requires !c.state.IsClosing()
    ensures var d := ReadSuccess(c, p, owner); d.state == StateAfter(c, p, owner) && d.reported == c.reported
  {
    ProcessedState(c, p, owner);
  }

  /** A packet read moves the state by what it is and what the owner says. */
  lemma ReadMoves(c: Conn, e: Event)
    requires Enabled(c, e) && PacketRead(c, e).Some?
    ensures var (p, owner) := PacketRead(c, e).value;
            Step(c, e).state == StateAfter(c, p, owner) && Step(c, e).reported == c.reported
  {
    match e
    case HeaderEvent(h, owner) => ReadState(c.ReadTaken(HeaderRead), Packet(h.packetType, []), owner);
    case PayloadEvent(o, owner) => ReadState(c.ReadTaken(PayloadRead), o.packet, owner);
  }

  lemma HeaderDrops(c: Conn, h: HeaderOutcome, owner: Owner)
    requires c.tasks.headerReads > 0 && PacketRead(c, HeaderEvent(h, owner)).None?
    ensures DropsAtMost(c.state, HeaderDone(c, h, owner).state) && HeaderDone(c, h, owner).reported == c.reported
  {
  }

  lemma PayloadDrops(c: Conn, o: PayloadOutcome, owner: Owner)
    requires c.tasks.payloadReads > 0 && PacketRead(c, PayloadEvent(o, owner)).None?
    ensures DropsAtMost(c.state, PayloadDone(c, o, owner).state) && PayloadDone(c, o, owner).reported == c.reported
  {
  }

  lemma ConnectMoves(c: Conn, o: ConnectOutcome)
    requires c.tasks.connectWaits > 0
    ensures var d := ConnectDone(c, o);
            && d.reported == c.reported
            && if o.ConnectSucceeded? then d.state == c.state.(state := Connected) else DropsAtMost(c.state, d.state)
  {
  }

  predicate IsPost(e: Event) { e.ClosedEvent? || e.LoginStoppedEvent? || e.HeartbeatStoppedEvent? }

  /** Every other event drops the connection at most; one that reports it leaves the state alone. */
  lemma OtherDrops(c: Conn, e: Event)
    requires Enabled(c, e) && PacketRead(c, e).None? && !(e.ConnectEvent? && e.connect.ConnectSucceeded?)
    ensures DropsAtMost(c.state, Step(c, e).state)
    ensures Step(c, e).reported != c.reported ==> Step(c, e).state == c.state && IsPost(e)
  {
    match e
    case ConnectEvent(o) => ConnectMoves(c, o);
    case HeaderEvent(h, owner) => HeaderDrops(c, h, owner);
    case PayloadEvent(o, owner) => PayloadDrops(c, o, owner);
    case WriteEvent(o) => WriteDrops(c, o, false);
    case LoginWaitEvent(failed) => LoginWaitDrops(c, failed);
    case HeartbeatWaitEvent(failed) => HeartbeatWaitDrops(c, failed, CLIENT_HEARTBEAT);
    case CloseCall => DisconnectDrops(c, UserInitiated);
    case _ =>
  }

  lemma PostReports(c: Conn, e: Event)
    requires Inv(c) && c.reported == [] && Enabled(c, e) && IsPost(e) && Step(c, e).AllStopped()
    ensures c.state.state == Disconnected
  {
  }

  /** Only a disconnected connection is reported closed. */
  lemma ReportedIsDisconnected(c: Conn, e: Event)
    requires Inv(c) && c.reported == [] && Enabled(c, e) && Step(c, e).reported != []
    requires PacketRead(c, e).None? && !(e.ConnectEvent? && e.connect.ConnectSucceeded?)
    ensures c.state.state == Disconnected
  {
    OtherDrops(c, e);
    PostReports(c, e);
  }

  lemma OpenHasNoReason(c: Conn)
    requires Inv(c) && !c.state.IsClosing()
    ensures c.state.reason == NoReason || c.tasks.headerReads == c.tasks.payloadReads == 0
  {
  }

  lemma ConnectWaitStates(c: Conn)
    requires Inv(c) && c.tasks.connectWaits > 0
    ensures c.state == ConnState(Connecting, NoReason) || c.state.state == Disconnected
  {
  }

  /** Every event moves the state so, except exactly a connect that succeeds too late. */
  lemma StepMoves(c: Conn, e: Event)
    requires Inv(c) && Enabled(c, e)
    ensures Moves(c.state, Step(c, e).state) <==> !LateSuccess(c, e)
  {
    if PacketRead(c, e).Some? {
      OpenHasNoReason(c);
      ReadMoves(c, e);
    } else if e.ConnectEvent? && e.connect.ConnectSucceeded? {
      ConnectWaitStates(c);
      ConnectMoves(c, e.connect);
    } else {
      OtherDrops(c, e);
    }
  }

  function Stage(s: State): nat {
    match s
    case Connecting => 0
    case Connected => 1
    case LoggedIn => 2
    case Disconnecting => 3
    case Disconnected => 4
  }

  lemma RunStepForward(cs: seq<Conn>, es: seq<Event>, i: nat)
    requires IsRun(cs, es) && Inv(cs[0]) && i < |es| && !LateSuccess(cs[i], es[i])
    ensures Stage(cs[i].state.state) <= Stage(cs[i + 1].state.state)
  {
    RunKeepsInv(cs, es, i);
    assert IsStep(cs[i], es[i], cs[i + 1]);
    StepMoves(cs[i], es[i]);
  }

  lemma {:induction false} NeverFalls(stages: seq<nat>, m: nat, n: nat)
    requires m <= n < |stages| && forall i | 0 <= i < |stages| - 1 :: stages[i] <= stages[i + 1]
    ensures stages[m] <= stages[n]
    decreases n
  {
    if m == n {
    } else {
      NeverFalls(stages, m, n - 1);
    }
  }

  function Stages(cs: seq<Conn>): (r: seq<nat>)
    ensures |r| == |cs| && forall i | 0 <= i < |r| :: r[i] == Stage(cs[i].state.state)
  {
    seq(|cs|, i requires 0 <= i < |cs| => Stage(cs[i].state.state))
  }

  /** Over any run without such a connect the state only moves forward. */
  lemma StateMovesForward(cs: seq<Conn>, es: seq<Event>, m: nat, n: nat)
    requires IsRun(cs, es) && Inv(cs[0]) && m <= n <= |es|
    requires forall i | 0 <= i < |es| :: !LateSuccess(cs[i], es[i])
    ensures Stage(cs[m].state.state) <= Stage(cs[n].state.state)
  {
    var stages := Stages(cs);
    forall i | 0 <= i < |stages| - 1 ensures stages[i] <= stages[i + 1] {
      RunStepForward(cs, es, i);
    }
    NeverFalls(stages, m, n);
  }

  // ---------------------------------------------------------------------
  // Room for the login request

  /** While the connect is still to complete nothing happens to the socket. */
  lemma ConnectingStep(c: Conn, e: Event)
    requires Inv(c) && c.state.state == Connecting && Enabled(c, e) && Step(c, e).state.state == Connecting
    ensures Step(c, e).socket == c.socket
  {
    assert c.socket.connectPending;
    match e
    case SendCall(_) =>
    case SendDebugCall(_) =>
    case ConnectEvent(_) =>
    case CloseCall =>
    case _ =>
  }

  lemma BeforeConnecting(c: Conn, e: Event)
    requires Inv(c) && Enabled(c, e) && Step(c, e).state.state == Connecting
    ensures c.state.state == Connecting
  {
    if !LateSuccess(c, e) {
      StepMoves(c, e);
    }
  }

  lemma {:induction false} SocketUntouched(cs: seq<Conn>, es: seq<Event>, n: nat)
    requires IsRun(cs, es) && n <= |es| && Inv(cs[0]) && cs[n].state.state == Connecting
    ensures cs[n].socket == cs[0].socket
  {
    if n == 0 {
    } else {
      RunKeepsInv(cs, es, n - 1);
      assert IsStep(cs[n - 1], es[n - 1], cs[n]);
      BeforeConnecting(cs[n - 1], es[n - 1]);
      ConnectingStep(cs[n - 1], es[n - 1]);
      SocketUntouched(cs, es, n - 1);
    }
  }

  ghost predicate RequestAlwaysFits(limit: nat) {
    forall cs: seq<Conn>, es: seq<Event> ::
      IsRun(cs, es) && cs[0] == Opened(limit, false) && cs[|es|].state.state == Connecting ==>
        cs[|es|].socket.AsyncWriteError() == NoWriteError
  }

  /** A connect that succeeds in time finds room for the login request in every run exactly when the limit is not 0. */
  lemma RequestFitsExactly(limit: nat)
    ensures RequestAlwaysFits(limit) <==> limit >= 1
  {
    var first := Opened(limit, false);
    assert first.socket == Socket([], limit, false, true, false, false, false, false);
    if limit >= 1 {
      OpenedInv(limit, false);
      forall cs: seq<Conn>, es: seq<Event> | IsRun(cs, es) && cs[0] == first && cs[|es|].state.state == Connecting
        ensures cs[|es|].socket.AsyncWriteError() == NoWriteError
      {
        SocketUntouched(cs, es, |es|);
      }
    } else {
      var cs, es: seq<Event> := [first], [];
      assert IsRun(cs, es) && cs[|es|].socket.AsyncWriteError() == BufferFull;
    }
  }
}
