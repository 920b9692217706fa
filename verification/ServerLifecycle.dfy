/** One accepted connection on the server, over whole runs of the event loop. */
module ServerLifecycle {
  import opened Types
  import opened RwPackets
  import opened LogicalPackets
  import opened Lifecycle

  // Packet types, as characters.
  const DEBUG: Byte := 43
  const LOGIN_REQUEST: Byte := 76
  const UNSEQUENCED_DATA: Byte := 85
  const CLIENT_HEARTBEAT: Byte := 82
  const LOGOUT_REQUEST: Byte := 79
  const SEQUENCED_DATA: Byte := 83
  const SERVER_HEARTBEAT := Packet(72, [])
  const END_OF_SESSION := Packet(90, [])

  /** What the acceptor answers to a login request, with the packet that says so. */
  datatype Verdict = Verdict(accepted: bool, reply: Packet)

  datatype HeaderOutcome = HeaderError(e: ReadFailure) | BadHeader | NoPayload(packetType: Byte) | HasPayload

  datatype PayloadOutcome = PayloadError(e: ReadFailure) | GotPacket(packet: Packet)

  /** A completion or posted callback that the event loop runs, or a call from outside. */
  datatype Event =
    | HeaderEvent(header: HeaderOutcome)
    | PayloadEvent(payload: PayloadOutcome, verdict: Verdict)
    | WriteEvent(write: WriteOutcome)
    | LoginWaitEvent(failed: bool)
    | HeartbeatWaitEvent(failed: bool)
    | ClosedEvent
    | LoginStoppedEvent
    | HeartbeatStoppedEvent
    | CloseCall
    | SupersedeCall
    | SendCall(packet: Packet)
    | SendDebugCall(text: seq<Byte>)

  // ---------------------------------------------------------------------
  // The handlers

  function PacketErrorOf(c: Conn, p: Packet): PacketError {
    if p.packetType == DEBUG then NoPacketError
    else if p.packetType == LOGIN_REQUEST then
      if |p.payload| != LOGIN_REQUEST_SIZE then IncorrectLength
      else if c.state.state != Connected then UnexpectedSequence
      else NoPacketError
    else if p.packetType == UNSEQUENCED_DATA then
      if c.state.state != LoggedIn then UnexpectedSequence else NoPacketError
    else if p.packetType == CLIENT_HEARTBEAT || p.packetType == LOGOUT_REQUEST then
      if |p.payload| != 0 then IncorrectLength
      else if c.state.state != LoggedIn then UnexpectedSequence
      else NoPacketError
    else InvalidMessageType
  }

  function LoginAcceptedBy(c: Conn, reply: Packet): Conn {
    var d := c.WithLogin(c.login.Stop());
    var e := d.(state := d.state.(state := LoggedIn), heartbeatStopped := false);
    e.WithHeartbeat(e.heartbeat.Start()).AsyncWrite(reply)
  }

  function LoginRejectedBy(c: Conn, reply: Packet): Conn {
    var d := c.WithLogin(c.login.Stop());
    d.(state := d.state.InitiateDisconnect(AccessDenied), causes := d.causes + [AccessDenied]).AsyncWrite(reply)
  }

  function CountReceive(c: Conn): Conn {
    c.(heartbeat := c.heartbeat.(receiveCount := c.heartbeat.receiveCount + 1))
  }

  function Processed(c: Conn, p: Packet, v: Verdict): Conn {
    if PacketErrorOf(c, p) != NoPacketError then c.Disconnect(ProtocolViolation)
    else if p.packetType == DEBUG then c
    else if p.packetType == LOGIN_REQUEST then
      if v.accepted then LoginAcceptedBy(c, v.reply) else LoginRejectedBy(c, v.reply)
    else if p.packetType == LOGOUT_REQUEST then c.Disconnect(LogoutRequested)
    else CountReceive(c)
  }

  function ReadSuccess(c: Conn, p: Packet, v: Verdict): Conn {
    if c.state.IsClosing() then c
    else
      var d := Processed(c, p, v);
      if d.state.IsClosing() then d else d.WithSocket(d.socket.AsyncRead())
  }

  function HeaderDone(c: Conn, h: HeaderOutcome): Conn
    requires c.tasks.headerReads > 0
  {
    var d := c.ReadTaken(HeaderRead);
    var e := match h
      case HeaderError(f) => d.ReadError(f)
      case BadHeader => d.Disconnect(ProtocolViolation)
      case NoPayload(t) => ReadSuccess(d, Packet(t, []), Verdict(false, Packet(t, [])))
      case HasPayload => d.WithSocket(d.socket.ReadPayload());
    e.SocketDone()
  }

  function PayloadDone(c: Conn, o: PayloadOutcome, v: Verdict): Conn
    requires c.tasks.payloadReads > 0
  {
    var d := c.ReadTaken(PayloadRead);
    var e := match o
      case PayloadError(f) => d.ReadError(f)
      case GotPacket(p) => ReadSuccess(d, p, v);
    e.SocketDone()
  }

  function SendPacket(c: Conn, p: Packet): Conn {
    if c.state.state != LoggedIn then c
    else
      var d := c.AsyncWrite(p);
      if p.packetType == SEQUENCED_DATA && c.socket.AsyncWriteError() == NoWriteError
      then d.(heartbeat := d.heartbeat.(sendCount := d.heartbeat.sendCount + 1)) else d
  }

  function SendDebug(c: Conn, text: seq<Byte>): Conn {
    if c.state.state == Connecting || c.state.IsClosing() then c else c.AsyncWrite(Packet(DEBUG, text))
  }

  /** Accepting: the login timer and the first read start; a banner, if any, is the first packet queued. */
  function Accepted(banner: seq<Byte>, limit: nat): Conn {
    var c := Conn(Socket([], limit, false, false, false, false, false, false), ConnState(Connected, NoReason),
                  LoginTimer(false, false, false),
                  HeartbeatTimer(CLIENT_HEARTBEAT_TIMEOUT, 0, 0, 0, false, false, false),
                  false, false, true, NO_TASKS, [], []);
    var d := c.WithLogin(c.login.Start());
    var e := d.WithSocket(d.socket.AsyncRead());
    if banner == [] then e else SendDebug(e, banner)
  }

  // ---------------------------------------------------------------------
  // Runs

  /**
   * What the environment may do next: run a task that is outstanding, or call the connection while it lives.
   * A write ends as aborted only on a socket that was closed. After the banner, debug text comes from a port,
   * which reaches a connection only once it has logged in.
   */
  predicate Enabled(c: Conn, e: Event) {
    match e
    case HeaderEvent(_) => c.tasks.headerReads > 0
    case PayloadEvent(_, _) => c.tasks.payloadReads > 0
    case WriteEvent(o) => c.tasks.writes > 0 && c.socket.queue != [] && (o == WriteAborted ==> c.socket.closing)
    case LoginWaitEvent(_) => c.tasks.loginWaits > 0
    case HeartbeatWaitEvent(_) => c.tasks.heartbeatWaits > 0
    case ClosedEvent => c.tasks.closedPosts > 0
    case LoginStoppedEvent => c.tasks.loginStoppedPosts > 0
    case HeartbeatStoppedEvent => c.tasks.heartbeatStoppedPosts > 0
    case SendDebugCall(_) => c.reported == [] && c.state.state != Connected
    case _ => c.reported == []
  }

  function Step(c: Conn, e: Event): Conn
    requires Enabled(c, e)
  {
    match e
    case HeaderEvent(h) => HeaderDone(c, h)
    case PayloadEvent(o, v) => PayloadDone(c, o, v)
    case WriteEvent(o) => c.WriteDone(o, true)
    case LoginWaitEvent(failed) => c.LoginWaitDone(failed)
    case HeartbeatWaitEvent(failed) => c.HeartbeatWaitDone(failed, SERVER_HEARTBEAT)
    case ClosedEvent => c.ClosedRuns()
    case LoginStoppedEvent => c.LoginStoppedRuns()
    case HeartbeatStoppedEvent => c.HeartbeatStoppedRuns()
    case CloseCall => c.Disconnect(UserInitiated)
    case SupersedeCall => c.Disconnect(Superseded)
    case SendCall(p) => SendPacket(c, p)
    case SendDebugCall(text) => SendDebug(c, text)
  }

  /** `cs` are the states of a run, `es` the events between them. */
  ghost predicate IsRun(cs: seq<Conn>, es: seq<Event>) {
    |cs| == |es| + 1 && forall i | 0 <= i < |es| :: IsStep(cs[i], es[i], cs[i + 1])
  }

  predicate IsStep(c: Conn, e: Event, d: Conn) { Enabled(c, e) && d == Step(c, e) }

  // ---------------------------------------------------------------------
  // The invariant

  /** With a banner and room for a second packet, a reject can be queued behind the banner. */
  predicate RejectCanQueue(banner: seq<Byte>, limit: nat) { banner != [] && limit >= 2 }

  predicate Queue(c: Conn, banner: seq<Byte>, limit: nat) {
    && c.socket.limit == limit && |c.socket.queue| <= limit
    && (!c.socket.closing ==> (c.socket.writePending <==> c.socket.queue != []))
    && (c.state.state == Connected ==> |c.socket.queue| <= if banner == [] then 0 else 1)
    && (c.state.state == Disconnecting ==>
          && (limit >= 1 ==> c.socket.queue != [])
          && (!RejectCanQueue(banner, limit) ==> |c.socket.queue| <= 1))
  }

  /** A packet has been written, with another behind it, when a rejected login is to close the connection. */
  predicate Overlaps(c: Conn, e: Event) {
    e == WriteEvent(Written) && c.state.state == Disconnecting && |c.socket.queue| >= 2
  }

  predicate Phase(c: Conn) {
    && c.state.state != Connecting && !c.socket.connectPending
    && (c.socket.closing <==> c.state.state == Disconnected)
    && (c.state.state == Connected ==> HeartbeatFresh(c) && c.login.started)
    && (c.state.state == LoggedIn ==> !c.login.started)
    && (c.state.state == Disconnecting ==> !c.socket.readPending && !c.login.started && HeartbeatFresh(c))
  }

  predicate Reasons(c: Conn) {
    && c.state.reason == (if c.causes == [] then NoReason else c.causes[0])
    && (c.state.IsClosing() <==> c.causes != [])
    && (c.causes != [] ==> c.causes[0] != NoReason)
    && (c.state.state == Disconnecting ==> c.causes[0] == AccessDenied)
  }

  predicate Logic(c: Conn, banner: seq<Byte>, limit: nat) { Phase(c) && Queue(c, banner, limit) && Reasons(c) }

  predicate Signalled(c: Conn) { c.socket.closing && c.socket.closedSignaled }

  predicate Inv(c: Conn, banner: seq<Byte>, limit: nat) {
    if c.reported != []
    then Gone(c) && c.reported == [c.state.reason] && Reasons(c) && c.state.state == Disconnected
         && Signalled(c) && !c.socket.writePending
    else Alive(c) && Logic(c, banner, limit)
  }

  function StartState(banner: seq<Byte>, limit: nat, queued: bool): Conn {
    Conn(Socket(if queued then [Packet(DEBUG, banner)] else [], limit, banner != [] && limit == 0,
                false, true, queued, false, false),
         ConnState(Connected, NoReason), LoginTimer(true, true, false),
         HeartbeatTimer(CLIENT_HEARTBEAT_TIMEOUT, 0, 0, 0, false, false, false), false, false, true,
         NO_TASKS.(headerReads := 1, writes := Count(queued), loginWaits := 1), [], [])
  }

  /** An accepted connection is reading and waiting for the login, with the banner queued if there is room for one. */
  lemma AcceptedLooks(banner: seq<Byte>, limit: nat)
    ensures Accepted(banner, limit) == StartState(banner, limit, banner != [] && limit >= 1)
  {
  }

  lemma StartInv(banner: seq<Byte>, limit: nat, queued: bool)
    requires queued == (banner != [] && limit >= 1)
    ensures Inv(StartState(banner, limit, queued), banner, limit)
  {
  }

  lemma AcceptedInv(banner: seq<Byte>, limit: nat)
    ensures Inv(Accepted(banner, limit), banner, limit)
    ensures !Accepted(banner, limit).socket.closedSignaled
  {
    AcceptedLooks(banner, limit);
    StartInv(banner, limit, banner != [] && limit >= 1);
  }

  // ---------------------------------------------------------------------
  // Every event keeps it

  /** Inside a read completion, before the socket is settled. */
  predicate Reading(c: Conn, banner: seq<Byte>, limit: nat) {
    InSocketCallback(c) && Logic(c, banner, limit) && !c.socket.readPending
  }

  lemma DisconnectLogic(c: Conn, r: DisconnectReason, banner: seq<Byte>, limit: nat)
    requires Logic(c, banner, limit) && r != NoReason
    ensures Logic(c.Disconnect(r), banner, limit)
    ensures c.Disconnect(r).state.state == Disconnected
    ensures c.Disconnect(r).socket.readPending == c.socket.readPending
  {
  }

  lemma DisconnectReading(c: Conn, r: DisconnectReason, banner: seq<Byte>, limit: nat)
    requires Reading(c, banner, limit) && r != NoReason
    ensures Reading(c.Disconnect(r), banner, limit)
  {
    DisconnectLogic(c, r, banner, limit);
    DisconnectInCallback(c, r);
  }

  lemma DisconnectCallKeeps(c: Conn, r: DisconnectReason, banner: seq<Byte>, limit: nat)
    requires Alive(c) && Logic(c, banner, limit) && r != NoReason
    ensures Inv(c.Disconnect(r), banner, limit)
  {
    DisconnectLogic(c, r, banner, limit);
    DisconnectStopsTimers(c, r);
    DisconnectKeepsSettled(c, r);
  }

  lemma SocketDoneInv(c: Conn, banner: seq<Byte>, limit: nat)
    requires InSocketCallback(c) && Logic(c, banner, limit)
    ensures Inv(c.SocketDone(), banner, limit)
  {
  }

  lemma LoginAcceptedReading(c: Conn, reply: Packet, banner: seq<Byte>, limit: nat)
    requires Reading(c, banner, limit) && c.state.state == Connected
    ensures Reading(LoginAcceptedBy(c, reply), banner, limit)
  {
  }

  lemma LoginRejectedReading(c: Conn, reply: Packet, banner: seq<Byte>, limit: nat)
    requires Reading(c, banner, limit) && c.state.state == Connected
    ensures Reading(LoginRejectedBy(c, reply), banner, limit)
  {
  }

  lemma ProcessedReading(c: Conn, p: Packet, v: Verdict, banner: seq<Byte>, limit: nat)
    requires Reading(c, banner, limit) && !c.state.IsClosing()
    ensures Reading(Processed(c, p, v), banner, limit)
  {
    if PacketErrorOf(c, p) != NoPacketError {
      DisconnectReading(c, ProtocolViolation, banner, limit);
    } else if p.packetType == LOGIN_REQUEST {
      if v.accepted {
        LoginAcceptedReading(c, v.reply, banner, limit);
      } else {
        LoginRejectedReading(c, v.reply, banner, limit);
      }
    } else if p.packetType == LOGOUT_REQUEST {
      DisconnectReading(c, LogoutRequested, banner, limit);
    }
  }

  lemma ReadSuccessKeeps(c: Conn, p: Packet, v: Verdict, banner: seq<Byte>, limit: nat)
    requires Reading(c, banner, limit)
    ensures InSocketCallback(ReadSuccess(c, p, v)) && Logic(ReadSuccess(c, p, v), banner, limit)
  {
    if !c.state.IsClosing() {
      ProcessedReading(c, p, v, banner, limit);
    }
  }

  lemma ReadTakenReading(c: Conn, t: Task, banner: seq<Byte>, limit: nat)
    requires Alive(c) && Logic(c, banner, limit) && t in {HeaderRead, PayloadRead} && c.tasks.Has(t) > 0
    ensures Reading(c.ReadTaken(t), banner, limit)
    ensures !c.ReadTaken(t).socket.closedSignaled && c.ReadTaken(t).state.state != Disconnecting
  {
    ReadTakenKeeps(c, t);
  }

  lemma ReadErrorReading(c: Conn, e: ReadFailure, banner: seq<Byte>, limit: nat)
    requires Reading(c, banner, limit)
    ensures Reading(c.ReadError(e), banner, limit)
  {
    DisconnectReading(c, match e
                         case ReadAborted => UnmanagedAbort
                         case EndOfStream => PeerClosed
                         case ReadFailed => TransportError, banner, limit);
  }

  lemma HeaderKeeps(c: Conn, h: HeaderOutcome, banner: seq<Byte>, limit: nat)
    requires Alive(c) && Logic(c, banner, limit) && c.tasks.headerReads > 0
    ensures Inv(HeaderDone(c, h), banner, limit)
  {
    ReadTakenReading(c, HeaderRead, banner, limit);
    var d := c.ReadTaken(HeaderRead);
    match h
    case HeaderError(f) =>
      ReadErrorReading(d, f, banner, limit);
      SocketDoneInv(d.ReadError(f), banner, limit);
    case BadHeader =>
      DisconnectReading(d, ProtocolViolation, banner, limit);
      SocketDoneInv(d.Disconnect(ProtocolViolation), banner, limit);
    case NoPayload(t) =>
      var v := Verdict(false, Packet(t, []));
      ReadSuccessKeeps(d, Packet(t, []), v, banner, limit);
      SocketDoneInv(ReadSuccess(d, Packet(t, []), v), banner, limit);
    case HasPayload =>
      SocketDoneInv(d.WithSocket(d.socket.ReadPayload()), banner, limit);
  }

  lemma PayloadKeeps(c: Conn, o: PayloadOutcome, v: Verdict, banner: seq<Byte>, limit: nat)
    requires Alive(c) && Logic(c, banner, limit) && c.tasks.payloadReads > 0
    ensures Inv(PayloadDone(c, o, v), banner, limit)
  {
    ReadTakenReading(c, PayloadRead, banner, limit);
    var d := c.ReadTaken(PayloadRead);
    match o
    case PayloadError(f) =>
      ReadErrorReading(d, f, banner, limit);
      SocketDoneInv(d.ReadError(f), banner, limit);
    case GotPacket(p) =>
      ReadSuccessKeeps(d, p, v, banner, limit);
      SocketDoneInv(ReadSuccess(d, p, v), banner, limit);
  }

  lemma PopFrontLogic(c: Conn, banner: seq<Byte>, limit: nat)
    requires Phase(c) && Reasons(c) && c.socket.queue != [] && c.state.state != Disconnecting
    requires Queue(c.(socket := c.socket.(writePending := true)), banner, limit)
    requires !c.socket.writePending
    ensures Logic(c.WithSocket(c.socket.PopFront()).SocketDone(), banner, limit)
  {
  }

  lemma WriteKeeps(c: Conn, o: WriteOutcome, banner: seq<Byte>, limit: nat)
    requires Alive(c) && Logic(c, banner, limit) && Enabled(c, WriteEvent(o)) && !Overlaps(c, WriteEvent(o))
    ensures Inv(c.WriteDone(o, true), banner, limit)
  {
    WriteDoneKeeps(c, o, true);
    if o == Written {
      WrittenLogic(c, banner, limit);
    } else if o == WriteFailed {
      WriteFailedLogic(c, banner, limit);
    }
  }

  lemma WriteFailedLogic(c: Conn, banner: seq<Byte>, limit: nat)
    requires Logic(c, banner, limit) && c.tasks.writes > 0 && c.socket.queue != []
    ensures Logic(c.WriteDone(WriteFailed, true), banner, limit)
  {
  }

  lemma WrittenLogic(c: Conn, banner: seq<Byte>, limit: nat)
    requires Logic(c, banner, limit) && c.tasks.writes > 0 && c.socket.queue != [] && c.socket.writePending
    ensures Logic(c.WriteDone(Written, true), banner, limit)
  {
    var d := c.Taken(PacketWrite).(socket := c.socket.(writePending := false));
    var e := if c.state.state == Disconnecting then d.Disconnect(UnmanagedAbort) else d;
    PopFrontLogic(e, banner, limit);
  }

  lemma LoginWaitInv(c: Conn, failed: bool, banner: seq<Byte>, limit: nat)
    requires Alive(c) && Logic(c, banner, limit) && c.tasks.loginWaits > 0
    ensures Inv(c.LoginWaitDone(failed), banner, limit)
  {
    LoginWaitKeeps(c, failed);
    var d := c.Taken(LoginWait).(login := c.login.(waitPending := false));
    if c.login.started {
      var r := if failed then TransportError else LoginTimeout;
      DisconnectLogic(d, r, banner, limit);
    }
  }

  lemma TickedLogic(c: Conn, p: Packet, banner: seq<Byte>, limit: nat)
    requires Logic(c, banner, limit) && c.state.state == LoggedIn
    ensures Logic(c.Ticked(p), banner, limit)
  {
    var ticked := c.(heartbeat := c.heartbeat.Tick());
    assert Logic(ticked, banner, limit);
    match c.heartbeat.TickAction()
    case ReceiveTimeout => DisconnectLogic(ticked, HeartbeatTimeout, banner, limit);
    case SendHeartbeat => AsyncWriteLogic(ticked, p, banner, limit);
    case SendNothing =>
  }

  lemma AsyncWriteLogic(c: Conn, p: Packet, banner: seq<Byte>, limit: nat)
    requires Logic(c, banner, limit) && c.state.state == LoggedIn
    ensures Logic(c.AsyncWrite(p).Rescheduled(), banner, limit)
  {
  }

  lemma HeartbeatWaitInv(c: Conn, failed: bool, banner: seq<Byte>, limit: nat)
    requires Alive(c) && Logic(c, banner, limit) && c.tasks.heartbeatWaits > 0
    ensures Inv(c.HeartbeatWaitDone(failed, SERVER_HEARTBEAT), banner, limit)
  {
    HeartbeatWaitKeeps(c, failed, SERVER_HEARTBEAT);
    var d := c.Taken(HeartbeatWait).(heartbeat := c.heartbeat.(waitPending := false));
    assert Logic(d, banner, limit);
    if c.heartbeat.started {
      if failed {
        DisconnectLogic(d, TransportError, banner, limit);
      } else {
        TickedLogic(d, SERVER_HEARTBEAT, banner, limit);
      }
    }
  }

  lemma SendKeeps(c: Conn, p: Packet, banner: seq<Byte>, limit: nat)
    requires Alive(c) && Logic(c, banner, limit) && !c.state.IsClosing() && c.state.state != Connected
    ensures Inv(c.AsyncWrite(p), banner, limit)
  {
  }

  lemma PostsKeep(c: Conn, e: Event, banner: seq<Byte>, limit: nat)
    requires Alive(c) && Logic(c, banner, limit) && Enabled(c, e)
    requires e in {ClosedEvent, LoginStoppedEvent, HeartbeatStoppedEvent}
    ensures Inv(Step(c, e), banner, limit)
  {
    match e
    case ClosedEvent => ClosedRunsKeeps(c);
    case LoginStoppedEvent => LoginStoppedRunsKeeps(c);
    case HeartbeatStoppedEvent => HeartbeatStoppedRunsKeeps(c);
  }

  lemma StepKeepsInv(c: Conn, e: Event, banner: seq<Byte>, limit: nat)
    requires Inv(c, banner, limit) && Enabled(c, e) && !Overlaps(c, e)
    ensures Inv(Step(c, e), banner, limit)
  {
    match e
    case HeaderEvent(h) => HeaderKeeps(c, h, banner, limit);
    case PayloadEvent(o, v) => PayloadKeeps(c, o, v, banner, limit);
    case WriteEvent(o) => WriteKeeps(c, o, banner, limit);
    case LoginWaitEvent(failed) => LoginWaitInv(c, failed, banner, limit);
    case HeartbeatWaitEvent(failed) => HeartbeatWaitInv(c, failed, banner, limit);
    case CloseCall => DisconnectCallKeeps(c, UserInitiated, banner, limit);
    case SupersedeCall => DisconnectCallKeeps(c, Superseded, banner, limit);
    case SendCall(p) =>
      if c.state.state == LoggedIn {
        SendKeeps(c, p, banner, limit);
      }
    case SendDebugCall(text) =>
      if !c.state.IsClosing() {
        SendKeeps(c, Packet(DEBUG, text), banner, limit);
      }
    case _ => PostsKeep(c, e, banner, limit);
  }

  /** And such an event is exactly what breaks it: the socket is signalled closed, and then starts the next write. */
  lemma StepKeepsInvExactly(c: Conn, e: Event, banner: seq<Byte>, limit: nat)
    requires Inv(c, banner, limit) && Enabled(c, e)
    ensures Inv(Step(c, e), banner, limit) <==> !Overlaps(c, e)
  {
    if Overlaps(c, e) {
      OverlapLooks(c);
    } else {
      StepKeepsInv(c, e, banner, limit);
    }
  }

  /** What such an event leaves: all of a graceful close, and the next write besides. */
  lemma OverlapLooks(c: Conn)
    requires Alive(c) && Phase(c) && c.tasks.writes > 0 && Overlaps(c, WriteEvent(Written))
    ensures var d := c.WriteDone(Written, true);
            && d.socket.closedSignaled && d.socket.writePending && d.socket.queue == c.socket.queue[1..]
            && d.tasks.writes == 1 && d.reported == []
            && Quieted(d) == Quieted(c.(socket := c.socket.(queue := [c.socket.queue[0]])).WriteDone(Written, true))
  {
  }

  // ---------------------------------------------------------------------
  // What holds in every run, whatever is queued

  /** The connection without the writes that outlive its socket's closed signal. */
  function Quieted(c: Conn): Conn {
    if c.socket.closedSignaled
    then c.(socket := c.socket.(queue := [], wasFull := false, writePending := false), tasks := c.tasks.(writes := 0))
    else c
  }

  predicate Trailing(c: Conn) {
    c.tasks.writes == Count(c.socket.writePending) && (c.socket.writePending ==> c.socket.queue != [])
  }

  predicate Sound(c: Conn, banner: seq<Byte>, limit: nat) {
    Inv(Quieted(c), banner, limit) && (c.socket.closedSignaled ==> Trailing(c))
  }

  lemma InvIsSound(c: Conn, banner: seq<Byte>, limit: nat)
    requires Inv(c, banner, limit)
    ensures Sound(c, banner, limit)
  {
  }

  lemma OverlapSound(c: Conn, banner: seq<Byte>, limit: nat)
    requires Inv(c, banner, limit) && c.tasks.writes > 0 && Overlaps(c, WriteEvent(Written))
    ensures Sound(c.WriteDone(Written, true), banner, limit)
  {
    var alone := c.(socket := c.socket.(queue := [c.socket.queue[0]]));
    OverlapLooks(c);
    StepKeepsInv(alone, WriteEvent(Written), banner, limit);
    InvIsSound(alone.WriteDone(Written, true), banner, limit);
  }

  lemma SignalledIsClosed(c: Conn, banner: seq<Byte>, limit: nat)
    requires Sound(c, banner, limit) && c.socket.closedSignaled
    ensures c.socket.closing && c.state.state == Disconnected && c.causes != []
    ensures c.tasks.headerReads == 0 && c.tasks.payloadReads == 0
    ensures (c.tasks.loginWaits > 0 ==> !c.login.started) && (c.tasks.heartbeatWaits > 0 ==> !c.heartbeat.started)
  {
  }

  /** The write queue after the front packet is gone. */
  function AfterFront(c: Conn): Conn
    requires c.socket.queue != []
  {
    var rest := c.socket.queue[1..];
    c.(socket := c.socket.(queue := rest, writePending := rest != [], wasFull := rest != [] && c.socket.wasFull),
       tasks := c.tasks.(writes := Count(rest != [])))
  }

  predicate LastWrites(c: Conn) {
    && Signalled(c) && c.state.state == Disconnected
    && c.tasks.writes == 1 && c.socket.writePending && c.socket.queue != []
  }

  lemma WrittenOfSignalled(c: Conn)
    requires LastWrites(c)
    ensures c.WriteDone(Written, true) == AfterFront(c)
  {
    assert c.tasks.(writes := 0).(writes := 1) == c.tasks;
  }

  lemma FailedOfSignalled(c: Conn, o: WriteOutcome)
    requires LastWrites(c) && o != Written
    ensures c.WriteDone(o, true)
         == c.(socket := c.socket.(writePending := false), tasks := c.tasks.(writes := 0),
               causes := if o == WriteFailed then c.causes + [TransportError] else c.causes)
  {
  }

  lemma WriteOfSignalled(c: Conn, o: WriteOutcome)
    requires LastWrites(c)
    ensures var d := c.WriteDone(o, true);
            && d.socket.closedSignaled && Trailing(d)
            && Quieted(d) == Quieted(c).(causes := if o == WriteFailed then c.causes + [TransportError] else c.causes)
  {
    if o == Written {
      WrittenOfSignalled(c);
    } else {
      FailedOfSignalled(c, o);
    }
  }

  lemma MoreCauses(c: Conn, r: DisconnectReason, banner: seq<Byte>, limit: nat)
    requires Inv(c, banner, limit) && c.causes != []
    ensures Inv(c.(causes := c.causes + [r]), banner, limit)
  {
  }

  /** Once the socket has been signalled closed, a write that ends changes nothing but the writes. */
  lemma TrailingWrite(c: Conn, o: WriteOutcome, banner: seq<Byte>, limit: nat)
    requires Sound(c, banner, limit) && c.socket.closedSignaled && c.tasks.writes > 0
    ensures Sound(c.WriteDone(o, true), banner, limit) && c.WriteDone(o, true).socket.closedSignaled
  {
    SignalledIsClosed(c, banner, limit);
    WriteOfSignalled(c, o);
    MoreCauses(Quieted(c), TransportError, banner, limit);
  }

  /** Event e does the same to a connection and to what is left of it without its writes. */
  predicate Passes(c: Conn, e: Event)
    requires Enabled(c, e)
  {
    var d := Step(c, e);
    && Enabled(Quieted(c), e) && Step(Quieted(c), e) == Quieted(d)
    && d.socket.closedSignaled && d.socket.queue == c.socket.queue && d.socket.writePending == c.socket.writePending
    && d.tasks.writes == c.tasks.writes
  }

  lemma WaitsPass(c: Conn, e: Event)
    requires Signalled(c) && Enabled(c, e) && (e.LoginWaitEvent? || e.HeartbeatWaitEvent?)
    requires (c.tasks.loginWaits > 0 ==> !c.login.started) && (c.tasks.heartbeatWaits > 0 ==> !c.heartbeat.started)
    ensures Passes(c, e)
  {
  }

  lemma PostsPass(c: Conn, e: Event)
    requires Signalled(c) && Enabled(c, e) && (e.ClosedEvent? || e.LoginStoppedEvent? || e.HeartbeatStoppedEvent?)
    ensures Passes(c, e)
  {
  }

  lemma CallsPass(c: Conn, e: Event)
    requires Signalled(c) && c.state.state == Disconnected && Enabled(c, e)
    requires e.CloseCall? || e.SupersedeCall? || e.SendCall? || e.SendDebugCall?
    ensures Passes(c, e)
  {
  }

  /** Once the socket has been signalled closed, the writes and everything else go on without each other. */
  lemma SignalledStep(c: Conn, e: Event, banner: seq<Byte>, limit: nat)
    requires Sound(c, banner, limit) && c.socket.closedSignaled && Enabled(c, e) && !e.WriteEvent?
    ensures Passes(c, e)
  {
    SignalledIsClosed(c, banner, limit);
    if e.LoginWaitEvent? || e.HeartbeatWaitEvent? {
      WaitsPass(c, e);
    } else if e.ClosedEvent? || e.LoginStoppedEvent? || e.HeartbeatStoppedEvent? {
      PostsPass(c, e);
    } else {
      CallsPass(c, e);
    }
  }

  lemma UnsignalledKeepsSound(c: Conn, e: Event, banner: seq<Byte>, limit: nat)
    requires Inv(c, banner, limit) && !c.socket.closedSignaled && Enabled(c, e)
    ensures Sound(Step(c, e), banner, limit)
  {
    if Overlaps(c, e) {
      OverlapSound(c, banner, limit);
    } else {
      StepKeepsInv(c, e, banner, limit);
      InvIsSound(Step(c, e), banner, limit);
    }
  }

  /** In every configuration every event keeps the connection sound. */
  lemma StepKeepsSound(c: Conn, e: Event, banner: seq<Byte>, limit: nat)
    requires Sound(c, banner, limit) && Enabled(c, e)
    ensures Sound(Step(c, e), banner, limit)
  {
    if !c.socket.closedSignaled {
      UnsignalledKeepsSound(c, e, banner, limit);
    } else if e.WriteEvent? {
      TrailingWrite(c, e.write, banner, limit);
    } else {
      SignalledStep(c, e, banner, limit);
      StepKeepsInv(Quieted(c), e, banner, limit);
    }
  }

  // ---------------------------------------------------------------------
  // Theorems over whole runs

  lemma {:induction false} RunKeepsSound(cs: seq<Conn>, es: seq<Event>, n: nat, banner: seq<Byte>, limit: nat)
    requires IsRun(cs, es) && n <= |es| && cs[0] == Accepted(banner, limit)
    ensures Sound(cs[n], banner, limit)
  {
    if n == 0 {
      AcceptedInv(banner, limit);
    } else {
      RunKeepsSound(cs, es, n - 1, banner, limit);
      assert IsStep(cs[n - 1], es[n - 1], cs[n]);
      StepKeepsSound(cs[n - 1], es[n - 1], banner, limit);
    }
  }

  /** on_closed runs at most once, for the first cause, and leaves nothing outstanding but writes. */
  predicate ReportedOnce(c: Conn) {
    c.reported != [] ==>
      && c.causes != [] && c.reported == [c.causes[0]] && c.causes[0] != NoReason
      && c.tasks == NO_TASKS.(writes := c.tasks.writes)
  }

  lemma SoundReports(c: Conn, banner: seq<Byte>, limit: nat)
    requires Sound(c, banner, limit)
    ensures ReportedOnce(c)
  {
  }

  lemma SoundStates(c: Conn, banner: seq<Byte>, limit: nat)
    requires Sound(c, banner, limit)
    ensures c.state.state != Connecting && (c.reported != [] ==> c.state.state == Disconnected)
  {
  }

  /** In every run of every configuration. */
  lemma ClosedAtMostOnce(cs: seq<Conn>, es: seq<Event>, banner: seq<Byte>, limit: nat)
    requires IsRun(cs, es) && cs[0] == Accepted(banner, limit)
    ensures ReportedOnce(cs[|es|])
  {
    RunKeepsSound(cs, es, |es|, banner, limit);
    SoundReports(cs[|es|], banner, limit);
  }

  lemma {:induction false} RunKeepsInv(cs: seq<Conn>, es: seq<Event>, n: nat, banner: seq<Byte>, limit: nat)
    requires IsRun(cs, es) && n <= |es| && Inv(cs[0], banner, limit)
    requires forall i | 0 <= i < n :: !Overlaps(cs[i], es[i])
    ensures Inv(cs[n], banner, limit)
  {
    if n == 0 {
    } else {
      RunKeepsInv(cs, es, n - 1, banner, limit);
      assert IsStep(cs[n - 1], es[n - 1], cs[n]);
      StepKeepsInv(cs[n - 1], es[n - 1], banner, limit);
    }
  }

  /** on_closed runs at most once, with nothing outstanding, and reports the first cause recorded. */
  predicate ClosedOnce(c: Conn) {
    c.reported != [] ==> Gone(c) && c.causes != [] && c.reported == [c.causes[0]] && c.causes[0] != NoReason
  }

  /** Whenever a rejected login waits for its reject to be written, nothing else is queued. */
  predicate RejectsAlone(cs: seq<Conn>) {
    forall i | 0 <= i < |cs| && cs[i].state.state == Disconnecting :: |cs[i].socket.queue| <= 1
  }

  /** Teardown is safe in any run in which each reject is alone in the queue, whatever the banner and the limit. */
  lemma TeardownSafeInRun(cs: seq<Conn>, es: seq<Event>, banner: seq<Byte>, limit: nat)
    requires IsRun(cs, es) && cs[0] == Accepted(banner, limit) && RejectsAlone(cs)
    ensures ClosedOnce(cs[|es|])
  {
    AcceptedInv(banner, limit);
    RunKeepsInv(cs, es, |es|, banner, limit);
  }

  ghost predicate AllRunsCloseOnce(banner: seq<Byte>, limit: nat) {
    forall cs: seq<Conn>, es: seq<Event> ::
      IsRun(cs, es) && cs[0] == Accepted(banner, limit) ==> ClosedOnce(cs[|es|])
  }

  // The run in which a reject queued behind the banner is still being written when the connection is reported closed.

  function QueuedBehind(banner: seq<Byte>, limit: nat, reject: Packet): Conn {
    Conn(Socket([Packet(DEBUG, banner), reject], limit, false, false, false, true, false, false),
         ConnState(Disconnecting, AccessDenied), LoginTimer(false, true, false),
         HeartbeatTimer(CLIENT_HEARTBEAT_TIMEOUT, 0, 0, 0, false, false, false), false, false, true,
         NO_TASKS.(writes := 1, loginWaits := 1), [AccessDenied], [])
  }

  lemma HeaderArrives(banner: seq<Byte>, limit: nat) returns (c: Conn)
    requires RejectCanQueue(banner, limit)
    ensures IsStep(Accepted(banner, limit), HeaderEvent(HasPayload), c)
    ensures c == Accepted(banner, limit).(tasks := NO_TASKS.(payloadReads := 1, writes := 1, loginWaits := 1))
  {
    c := Step(Accepted(banner, limit), HeaderEvent(HasPayload));
  }

  lemma RejectQueues(banner: seq<Byte>, limit: nat, request: Packet, reject: Packet)
    requires RejectCanQueue(banner, limit)
    requires request.packetType == LOGIN_REQUEST && |request.payload| == LOGIN_REQUEST_SIZE
    ensures IsStep(Accepted(banner, limit).(tasks := NO_TASKS.(payloadReads := 1, writes := 1, loginWaits := 1)),
                   PayloadEvent(GotPacket(request), Verdict(false, reject)), QueuedBehind(banner, limit, reject))
  {
  }

  function StoppedBehind(banner: seq<Byte>, limit: nat, reject: Packet): Conn {
    QueuedBehind(banner, limit, reject).(
      login := LoginTimer(false, false, true), tasks := NO_TASKS.(writes := 1, loginStoppedPosts := 1))
  }

  lemma LoginTimerStops(banner: seq<Byte>, limit: nat, reject: Packet)
    ensures IsStep(QueuedBehind(banner, limit, reject), LoginWaitEvent(true), StoppedBehind(banner, limit, reject))
  {
  }

  function SignalledBehind(banner: seq<Byte>, limit: nat, reject: Packet): Conn {
    StoppedBehind(banner, limit, reject).(
      socket := Socket([reject], limit, false, false, false, true, true, true),
      state := ConnState(Disconnected, AccessDenied), causes := [AccessDenied, UnmanagedAbort],
      tasks := NO_TASKS.(writes := 1, loginStoppedPosts := 1, closedPosts := 1))
  }

  lemma BannerWritten(banner: seq<Byte>, limit: nat, reject: Packet)
    ensures IsStep(StoppedBehind(banner, limit, reject), WriteEvent(Written), SignalledBehind(banner, limit, reject))
  {
    var c := StoppedBehind(banner, limit, reject);
    var d := c.(socket := c.socket.(writePending := false), tasks := NO_TASKS.(loginStoppedPosts := 1));
    var e := SignalledBehind(banner, limit, reject);
    DisconnectBehind(banner, limit, reject);
    PopBehind(banner, limit, reject);
    assert c.WriteDone(Written, true) == e.SocketDone();
  }

  lemma DisconnectBehind(banner: seq<Byte>, limit: nat, reject: Packet)
    ensures var c := StoppedBehind(banner, limit, reject);
            var e := SignalledBehind(banner, limit, reject);
            c.(socket := c.socket.(writePending := false), tasks := NO_TASKS.(loginStoppedPosts := 1))
              .Disconnect(UnmanagedAbort)
            == e.(socket := e.socket.(queue := c.socket.queue, writePending := false), tasks := e.tasks.(writes := 0))
  {
  }

  lemma PopBehind(banner: seq<Byte>, limit: nat, reject: Packet)
    ensures var e := SignalledBehind(banner, limit, reject);
            var d := e.(socket := e.socket.(queue := [Packet(DEBUG, banner), reject], writePending := false),
                        tasks := e.tasks.(writes := 0));
            d.WithSocket(d.socket.PopFront()) == e
  {
  }

  lemma PostsRun(banner: seq<Byte>, limit: nat, reject: Packet) returns (c: Conn, end: Conn)
    ensures IsStep(SignalledBehind(banner, limit, reject), LoginStoppedEvent, c)
    ensures IsStep(c, ClosedEvent, end)
    ensures end.reported == [AccessDenied] && end.tasks == NO_TASKS.(writes := 1)
  {
    c := Step(SignalledBehind(banner, limit, reject), LoginStoppedEvent);
    end := Step(c, ClosedEvent);
  }

  lemma RejectBehindBannerBreaks(banner: seq<Byte>, limit: nat, request: Packet, reject: Packet)
    returns (cs: seq<Conn>, es: seq<Event>)
    requires RejectCanQueue(banner, limit)
    requires request.packetType == LOGIN_REQUEST && |request.payload| == LOGIN_REQUEST_SIZE
    ensures IsRun(cs, es) && cs[0] == Accepted(banner, limit)
    ensures cs[|es|].reported == [AccessDenied] && cs[|es|].tasks == NO_TASKS.(writes := 1)
  {
    var c1 := HeaderArrives(banner, limit);
    RejectQueues(banner, limit, request, reject);
    LoginTimerStops(banner, limit, reject);
    BannerWritten(banner, limit, reject);
    var c5, c6 := PostsRun(banner, limit, reject);
    cs, es := [Accepted(banner, limit)], [];
    cs, es := RunExtended(cs, es, HeaderEvent(HasPayload), c1);
    cs, es := RunExtended(cs, es, PayloadEvent(GotPacket(request), Verdict(false, reject)),
                          QueuedBehind(banner, limit, reject));
    cs, es := RunExtended(cs, es, LoginWaitEvent(true), StoppedBehind(banner, limit, reject));
    cs, es := RunExtended(cs, es, WriteEvent(Written), SignalledBehind(banner, limit, reject));
    cs, es := RunExtended(cs, es, LoginStoppedEvent, c5);
    cs, es := RunExtended(cs, es, ClosedEvent, c6);
  }

  lemma RunExtended(cs: seq<Conn>, es: seq<Event>, e: Event, c: Conn) returns (ds: seq<Conn>, fs: seq<Event>)
    requires IsRun(cs, es) && IsStep(cs[|es|], e, c)
    ensures IsRun(ds, fs) && |fs| == |es| + 1 && ds[0] == cs[0] && ds[|fs|] == c
  {
    ds, fs := cs + [c], es + [e];
    forall i | 0 <= i < |fs| ensures IsStep(ds[i], fs[i], ds[i + 1]) {
      if i < |es| {
        assert IsStep(cs[i], es[i], cs[i + 1]);
      }
    }
  }

  lemma {:induction false} NeverOverlaps(cs: seq<Conn>, es: seq<Event>, n: nat, banner: seq<Byte>, limit: nat)
    requires IsRun(cs, es) && n <= |es| && Inv(cs[0], banner, limit) && !RejectCanQueue(banner, limit)
    ensures forall i | 0 <= i < n :: !Overlaps(cs[i], es[i])
  {
    if n == 0 {
    } else {
      NeverOverlaps(cs, es, n - 1, banner, limit);
      RunKeepsInv(cs, es, n - 1, banner, limit);
      assert IsStep(cs[n - 1], es[n - 1], cs[n]);
    }
  }

  /** All runs are safe exactly when no reject can be queued behind a banner. */
  lemma TeardownSafe(banner: seq<Byte>, limit: nat)
    ensures AllRunsCloseOnce(banner, limit) <==> !RejectCanQueue(banner, limit)
  {
    if RejectCanQueue(banner, limit) {
      var request := Packet(LOGIN_REQUEST, seq(LOGIN_REQUEST_SIZE, _ => 32));
      var cs, es := RejectBehindBannerBreaks(banner, limit, request, request);
      assert !ClosedOnce(cs[|es|]);
    } else {
      AcceptedInv(banner, limit);
      forall cs: seq<Conn>, es: seq<Event> | IsRun(cs, es) && cs[0] == Accepted(banner, limit)
        ensures ClosedOnce(cs[|es|])
      {
        NeverOverlaps(cs, es, |es|, banner, limit);
        RunKeepsInv(cs, es, |es|, banner, limit);
      }
    }
  }

  // A rejected login reports why, although the last call passes another reason.

  lemma DisconnectKeepsCauses(c: Conn, r: DisconnectReason)
    ensures c.Disconnect(r).causes == c.causes + [r]
  {
  }

  lemma LoginKeepsCauses(c: Conn, reply: Packet)
    ensures LoginAcceptedBy(c, reply).causes == c.causes
    ensures LoginRejectedBy(c, reply).causes == c.causes + [AccessDenied]
  {
  }

  lemma ProcessedKeepsCauses(c: Conn, p: Packet, v: Verdict)
    ensures c.causes <= Processed(c, p, v).causes
  {
    LoginKeepsCauses(c, v.reply);
    DisconnectKeepsCauses(c, ProtocolViolation);
    DisconnectKeepsCauses(c, LogoutRequested);
    var causes := Processed(c, p, v).causes;
    assert causes == c.causes || |causes| == |c.causes| + 1;
  }

  lemma ReadKeepsCauses(c: Conn, p: Packet, v: Verdict)
    ensures c.causes <= ReadSuccess(c, p, v).causes
  {
    ProcessedKeepsCauses(c, p, v);
    var d := Processed(c, p, v);
    assert d.WithSocket(d.socket.AsyncRead()).causes == d.causes;
  }

  lemma HeaderKeepsCauses(c: Conn, h: HeaderOutcome)
    requires c.tasks.headerReads > 0
    ensures c.causes <= HeaderDone(c, h).causes
  {
    if h.NoPayload? {
      ReadKeepsCauses(c.ReadTaken(HeaderRead), Packet(h.packetType, []), Verdict(false, Packet(h.packetType, [])));
    }
  }

  lemma PayloadKeepsCauses(c: Conn, o: PayloadOutcome, v: Verdict)
    requires c.tasks.payloadReads > 0
    ensures c.causes <= PayloadDone(c, o, v).causes
  {
    if o.GotPacket? {
      ReadKeepsCauses(c.ReadTaken(PayloadRead), o.packet, v);
    }
  }

  lemma TickKeepsCauses(c: Conn)
    ensures c.causes <= c.Ticked(SERVER_HEARTBEAT).causes
  {
  }

  lemma WaitsKeepCauses(c: Conn, failed: bool)
    ensures c.tasks.loginWaits > 0 ==> c.causes <= c.LoginWaitDone(failed).causes
    ensures c.tasks.heartbeatWaits > 0 ==> c.causes <= c.HeartbeatWaitDone(failed, SERVER_HEARTBEAT).causes
  {
    if c.tasks.heartbeatWaits > 0 {
      TickKeepsCauses(c.Taken(HeartbeatWait).(heartbeat := c.heartbeat.(waitPending := false)));
    }
  }

  lemma StepKeepsCauses(c: Conn, e: Event)
    requires Enabled(c, e)
    ensures c.causes <= Step(c, e).causes
  {
    match e
    case HeaderEvent(h) => HeaderKeepsCauses(c, h);
    case PayloadEvent(o, v) => PayloadKeepsCauses(c, o, v);
    case LoginWaitEvent(failed) => WaitsKeepCauses(c, failed);
    case HeartbeatWaitEvent(failed) => WaitsKeepCauses(c, failed);
    case _ =>
  }

  lemma {:induction false} RunKeepsCauses(cs: seq<Conn>, es: seq<Event>, m: nat, n: nat)
    requires IsRun(cs, es) && m <= n <= |es|
    ensures cs[m].causes <= cs[n].causes
    decreases n
  {
    if m == n {
    } else {
      RunKeepsCauses(cs, es, m, n - 1);
      assert IsStep(cs[n - 1], es[n - 1], cs[n]);
      StepKeepsCauses(cs[n - 1], es[n - 1]);
    }
  }

  /** In every run, a connection that was ever disconnecting is reported closed, if it is, as denied access. */
  lemma RejectedReportsIt(cs: seq<Conn>, es: seq<Event>, m: nat, banner: seq<Byte>, limit: nat)
    requires IsRun(cs, es) && m <= |es| && cs[0] == Accepted(banner, limit) && cs[m].state.state == Disconnecting
    ensures cs[|es|].reported == [] || cs[|es|].reported == [AccessDenied]
  {
    RunKeepsSound(cs, es, m, banner, limit);
    DisconnectingIsDenied(cs[m], banner, limit);
    RunKeepsCauses(cs, es, m, |es|);
    ClosedAtMostOnce(cs, es, banner, limit);
  }

  lemma DisconnectingIsDenied(c: Conn, banner: seq<Byte>, limit: nat)
    requires Sound(c, banner, limit) && c.state.state == Disconnecting
    ensures c.causes != [] && c.causes[0] == AccessDenied
  {
  }

  // ---------------------------------------------------------------------
  // Room for the login reply

  ghost predicate ReplyAlwaysFits(banner: seq<Byte>, limit: nat) {
    forall cs: seq<Conn>, es: seq<Event> ::
      IsRun(cs, es) && cs[0] == Accepted(banner, limit) && cs[|es|].state.state == Connected ==>
        cs[|es|].socket.AsyncWriteError() == NoWriteError
  }

  lemma ConnectedHasRoom(c: Conn, banner: seq<Byte>, limit: nat)
    requires Sound(c, banner, limit) && c.state.state == Connected && limit >= (if banner == [] then 1 else 2)
    ensures c.socket.AsyncWriteError() == NoWriteError
  {
  }

  /** A login reply is never refused in any run exactly when the limit leaves room for it besides the banner. */
  lemma ReplyFitsExactly(banner: seq<Byte>, limit: nat)
    ensures ReplyAlwaysFits(banner, limit) <==> limit >= if banner == [] then 1 else 2
  {
    if limit >= if banner == [] then 1 else 2 {
      forall cs: seq<Conn>, es: seq<Event>
        | IsRun(cs, es) && cs[0] == Accepted(banner, limit) && cs[|es|].state.state == Connected
        ensures cs[|es|].socket.AsyncWriteError() == NoWriteError
      {
        RunKeepsSound(cs, es, |es|, banner, limit);
        ConnectedHasRoom(cs[|es|], banner, limit);
      }
    } else {
      AcceptedLooks(banner, limit);
      var cs, es: seq<Event> := [Accepted(banner, limit)], [];
      assert IsRun(cs, es) && cs[|es|].socket.AsyncWriteError() == BufferFull;
    }
  }

  // The state only moves forward, in every configuration.

  predicate NotBefore(s: State, t: State) {
    s == t || t == Disconnected || (s == Connected && t in {LoggedIn, Disconnecting})
  }

  /** The packet an event brings to a connection that still processes packets. */
  function PacketRead(c: Conn, e: Event): Option<Packet> {
    if c.state.IsClosing() then None
    else
      match e
      case HeaderEvent(NoPayload(t)) => Some(Packet(t, []))
      case PayloadEvent(GotPacket(p), _) => Some(p)
      case _ => None
  }

  predicate Accepts(e: Event) { e.PayloadEvent? && e.verdict.accepted }

  /** The state after a packet. */
  function StateAfter(c: Conn, p: Packet, accepted: bool): ConnState {
    if PacketErrorOf(c, p) != NoPacketError then c.state.Disconnect(ProtocolViolation)
    else if p.packetType == LOGIN_REQUEST then
      if accepted then c.state.(state := LoggedIn) else c.state.InitiateDisconnect(AccessDenied)
    else if p.packetType == LOGOUT_REQUEST then c.state.Disconnect(LogoutRequested)
    else c.state
  }

  lemma LoginState(c: Conn, reply: Packet)
    ensures LoginAcceptedBy(c, reply).state == c.state.(state := LoggedIn)
    ensures LoginRejectedBy(c, reply).state == c.state.InitiateDisconnect(AccessDenied)
    ensures LoginAcceptedBy(c, reply).reported == LoginRejectedBy(c, reply).reported == c.reported
  {
  }

  lemma ProcessedState(c: Conn, p: Packet, v: Verdict)
    ensures var d := Processed(c, p, v); d.state == StateAfter(c, p, v.accepted) && d.reported == c.reported
  {
    LoginState(c, v.reply);
  }

  lemma ReadState(c: Conn, p: Packet, v: Verdict)
    requires !c.state.IsClosing()
    ensures var d := ReadSuccess(c, p, v); d.state == StateAfter(c, p, v.accepted) && d.reported == c.reported
  {
    ProcessedState(c, p, v);
  }

  /** A packet read moves the state by what it is. */
  lemma ReadMoves(c: Conn, e: Event)
    requires Enabled(c, e) && PacketRead(c, e).Some?
    ensures Step(c, e).state == StateAfter(c, PacketRead(c, e).value, Accepts(e)) && Step(c, e).reported == c.reported
  {
    match e
    case HeaderEvent(h) =>
      ReadState(c.ReadTaken(HeaderRead), Packet(h.packetType, []), Verdict(false, Packet(h.packetType, [])));
    case PayloadEvent(o, v) => ReadState(c.ReadTaken(PayloadRead), o.packet, v);
  }

  lemma HeaderDrops(c: Conn, h: HeaderOutcome)
    requires c.tasks.headerReads > 0 && PacketRead(c, HeaderEvent(h)).None?
    ensures DropsAtMost(c.state, HeaderDone(c, h).state) && HeaderDone(c, h).reported == c.reported
  {
  }

  lemma PayloadDrops(c: Conn, o: PayloadOutcome, v: Verdict)
    requires c.tasks.payloadReads > 0 && PacketRead(c, PayloadEvent(o, v)).None?
    ensures DropsAtMost(c.state, PayloadDone(c, o, v).state) && PayloadDone(c, o, v).reported == c.reported
  {
  }

  /** Every other event, of this connection alone, drops it at most; one that reports it leaves the state alone. */
  lemma OtherDrops(c: Conn, e: Event)
    requires Enabled(c, e) && PacketRead(c, e).None? && !e.SupersedeCall?
    ensures DropsAtMost(c.state, Step(c, e).state)
    ensures Step(c, e).reported != c.reported ==> Step(c, e).state == c.state
  {
    match e
    case HeaderEvent(h) => HeaderDrops(c, h);
    case PayloadEvent(o, v) => PayloadDrops(c, o, v);
    case WriteEvent(o) => WriteDrops(c, o, true);
    case LoginWaitEvent(failed) => LoginWaitDrops(c, failed);
    case HeartbeatWaitEvent(failed) => HeartbeatWaitDrops(c, failed, SERVER_HEARTBEAT);
    case CloseCall => DisconnectDrops(c, UserInitiated);
    case _ =>
  }

  lemma StepMovesForward(c: Conn, e: Event)
    requires Enabled(c, e)
    ensures NotBefore(c.state.state, Step(c, e).state.state)
  {
    if PacketRead(c, e).Some? {
      ReadMoves(c, e);
    } else if e.SupersedeCall? {
    } else {
      OtherDrops(c, e);
    }
  }

  lemma {:induction false} StateMovesForward(cs: seq<Conn>, es: seq<Event>, m: nat, n: nat)
    requires IsRun(cs, es) && m <= n <= |es|
    ensures NotBefore(cs[m].state.state, cs[n].state.state)
    decreases n
  {
    if m == n {
    } else {
      StateMovesForward(cs, es, m, n - 1);
      assert IsStep(cs[n - 1], es[n - 1], cs[n]);
      StepMovesForward(cs[n - 1], es[n - 1]);
    }
  }

  // ---------------------------------------------------------------------
  // Teardown terminates

  predicate IsCompletion(e: Event) {
    !(e.CloseCall? || e.SupersedeCall? || e.SendCall? || e.SendDebugCall?)
  }

  predicate Draining(c: Conn) { c.state.IsClosing() }

  lemma ReadLowers(c: Conn, e: Event)
    requires Alive(c) && Phase(c) && Draining(c) && Enabled(c, e) && (e.HeaderEvent? || e.PayloadEvent?)
    ensures Measure(Step(c, e)) < Measure(c)
  {
    var t := if e.HeaderEvent? then HeaderRead else PayloadRead;
    var d := c.ReadTaken(t);
    ReadTakenLowers(c, t);
    var f := match e
      case HeaderEvent(h) => (
        match h
        case HeaderError(f) => d.ReadError(f)
        case BadHeader => d.Disconnect(ProtocolViolation)
        case NoPayload(_) => d
        case HasPayload => d.WithSocket(d.socket.ReadPayload()))
      case PayloadEvent(o, _) => (match o case PayloadError(f) => d.ReadError(f) case GotPacket(_) => d);
    ReadPayloadRaises(d);
    DisconnectLowers(d, ProtocolViolation);
    forall f: ReadFailure {
      ReadErrorLowers(d, f);
    }
    SocketDoneLowers(f);
  }

  lemma HeartbeatWaitLowers(c: Conn, failed: bool)
    requires Alive(c) && Phase(c) && Draining(c) && c.tasks.heartbeatWaits > 0
    ensures Measure(c.HeartbeatWaitDone(failed, SERVER_HEARTBEAT)) < Measure(c)
  {
  }

  lemma PostsLower(c: Conn, e: Event)
    requires Enabled(c, e) && (e.ClosedEvent? || e.LoginStoppedEvent? || e.HeartbeatStoppedEvent?)
    ensures Measure(Step(c, e)) < Measure(c)
  {
  }

  /** Each completion of a draining connection lowers the measure, and no call raises it. */
  lemma StepLowers(c: Conn, e: Event)
    requires Alive(c) && Phase(c) && Draining(c) && Enabled(c, e)
    ensures if IsCompletion(e) then Measure(Step(c, e)) < Measure(c) else Measure(Step(c, e)) <= Measure(c)
  {
    match e
    case HeaderEvent(_) => ReadLowers(c, e);
    case PayloadEvent(_, _) => ReadLowers(c, e);
    case WriteEvent(o) => WriteLowers(c, o, true);
    case LoginWaitEvent(failed) => LoginWaitLowers(c, failed);
    case HeartbeatWaitEvent(failed) => HeartbeatWaitLowers(c, failed);
    case CloseCall => DisconnectLowers(c, UserInitiated);
    case SupersedeCall => DisconnectLowers(c, Superseded);
    case SendCall(_) =>
    case SendDebugCall(_) =>
    case _ => PostsLower(c, e);
  }

  function Completions(es: seq<Event>): nat {
    if es == [] then 0 else Completions(es[..|es| - 1]) + Count(IsCompletion(es[|es| - 1]))
  }

  lemma RunPrefix(cs: seq<Conn>, es: seq<Event>)
    requires IsRun(cs, es) && es != []
    ensures IsRun(cs[..|es|], es[..|es| - 1])
  {
    assert forall i | 0 <= i < |es| - 1 :: IsStep(cs[i], es[i], cs[i + 1]);
  }

  /** Of a connection signalled closed, the rest and the trailing writes are measured apart. */
  lemma MeasureApart(c: Conn)
    requires c.socket.closedSignaled
    ensures Measure(c) == Measure(Quieted(c)) + if c.tasks.writes > 0 then |c.socket.queue| else 0
  {
  }

  lemma TrailingWriteLowers(c: Conn, o: WriteOutcome)
    requires LastWrites(c)
    ensures Measure(c.WriteDone(o, true)) < Measure(c)
  {
    if o == Written {
      WrittenOfSignalled(c);
    } else {
      FailedOfSignalled(c, o);
    }
  }

  lemma SignalledLowers(c: Conn, e: Event, banner: seq<Byte>, limit: nat)
    requires Sound(c, banner, limit) && c.socket.closedSignaled && Enabled(c, e)
    ensures Measure(Step(c, e)) <= Measure(c) && (IsCompletion(e) ==> Measure(Step(c, e)) < Measure(c))
  {
    SignalledIsClosed(c, banner, limit);
    if e.WriteEvent? {
      TrailingWriteLowers(c, e.write);
    } else {
      SignalledStep(c, e, banner, limit);
      MeasureApart(c);
      MeasureApart(Step(c, e));
      if c.reported == [] {
        StepLowers(Quieted(c), e);
      } else {
        NothingLeftToRun(Quieted(c), e);
      }
    }
  }

  lemma SoundLowers(c: Conn, e: Event, banner: seq<Byte>, limit: nat)
    requires Sound(c, banner, limit) && Draining(c) && Enabled(c, e)
    ensures Measure(Step(c, e)) <= Measure(c) && (IsCompletion(e) ==> Measure(Step(c, e)) < Measure(c))
  {
    if c.socket.closedSignaled {
      SignalledLowers(c, e, banner, limit);
    } else {
      StepLowers(c, e);
    }
  }

  /** From a draining connection, no run of any configuration holds more completions than the measure. */
  lemma {:induction false} DrainingTerminates(cs: seq<Conn>, es: seq<Event>, banner: seq<Byte>, limit: nat)
    requires IsRun(cs, es) && Sound(cs[0], banner, limit) && Draining(cs[0])
    ensures Completions(es) + Measure(cs[|es|]) <= Measure(cs[0])
    ensures Sound(cs[|es|], banner, limit) && Draining(cs[|es|])
    decreases |es|
  {
    var n := |es|;
    if n == 0 {
    } else {
      RunPrefix(cs, es);
      DrainingTerminates(cs[..n], es[..n - 1], banner, limit);
      assert IsStep(cs[n - 1], es[n - 1], cs[n]);
      SoundLowers(cs[n - 1], es[n - 1], banner, limit);
      StepKeepsSound(cs[n - 1], es[n - 1], banner, limit);
      StepMovesForward(cs[n - 1], es[n - 1]);
    }
  }

  lemma NothingLeftToRun(c: Conn, e: Event)
    requires Gone(c)
    ensures !Enabled(c, e)
  {
  }

  /** Nothing is left to run, and yet the connection was never reported closed. */
  predicate Stuck(c: Conn) { Draining(c) && c.tasks == NO_TASKS && c.reported == [] }

  ghost predicate NoRunGetsStuck(banner: seq<Byte>, limit: nat) {
    forall cs: seq<Conn>, es: seq<Event> ::
      IsRun(cs, es) && cs[0] == Accepted(banner, limit) ==> !Stuck(cs[|es|])
  }

  lemma DrainingHasTask(c: Conn, banner: seq<Byte>, limit: nat)
    requires Inv(c, banner, limit) && limit >= 1
    ensures !Stuck(c)
    ensures c.reported == [] && c.state.state == Disconnecting ==> c.tasks.writes == 1
  {
  }

  // The run in which a reject finds no room in the queue.

  function NoRoom(banner: seq<Byte>, headerReads: nat, payloadReads: nat): Conn {
    Conn(Socket([], 0, banner != [], false, true, false, false, false), ConnState(Connected, NoReason),
         LoginTimer(true, true, false), HeartbeatTimer(CLIENT_HEARTBEAT_TIMEOUT, 0, 0, 0, false, false, false),
         false, false, true,
         NO_TASKS.(headerReads := headerReads, payloadReads := payloadReads, loginWaits := 1), [], [])
  }

  function RejectRefused(banner: seq<Byte>): Conn {
    NoRoom(banner, 0, 0).(
      socket := Socket([], 0, true, false, false, false, false, false), state := ConnState(Disconnecting, AccessDenied),
      login := LoginTimer(false, true, false), causes := [AccessDenied])
  }

  lemma NoRoomForReject(banner: seq<Byte>, request: Packet)
    requires request.packetType == LOGIN_REQUEST && |request.payload| == LOGIN_REQUEST_SIZE
    ensures IsStep(NoRoom(banner, 0, 1), PayloadEvent(GotPacket(request), Verdict(false, request)),
                   RejectRefused(banner))
  {
    var c := NoRoom(banner, 0, 0).(socket := Socket([], 0, banner != [], false, false, false, false, false));
    assert NoRoom(banner, 0, 1).ReadTaken(PayloadRead) == c;
    assert LoginRejectedBy(c, request) == RejectRefused(banner);
  }

  lemma NoRoomHeader(banner: seq<Byte>)
    ensures IsStep(NoRoom(banner, 1, 0), HeaderEvent(HasPayload), NoRoom(banner, 0, 1))
  {
    HasPayloadStep(NoRoom(banner, 1, 0));
    PayloadRequested(banner);
  }

  lemma HasPayloadStep(c: Conn)
    requires c.tasks.headerReads > 0
    ensures var d := c.ReadTaken(HeaderRead);
            Step(c, HeaderEvent(HasPayload)) == d.WithSocket(d.socket.ReadPayload()).SocketDone()
  {
  }

  lemma PayloadRequested(banner: seq<Byte>)
    ensures var d := NoRoom(banner, 1, 0).ReadTaken(HeaderRead);
            d.WithSocket(d.socket.ReadPayload()).SocketDone() == NoRoom(banner, 0, 1)
  {
    var d := NoRoom(banner, 1, 0).ReadTaken(HeaderRead);
    assert d.WithSocket(d.socket.ReadPayload()) == NoRoom(banner, 0, 1);
  }

  lemma NothingElseRuns(banner: seq<Byte>) returns (c: Conn, d: Conn)
    ensures IsStep(RejectRefused(banner), LoginWaitEvent(true), c)
    ensures IsStep(c, LoginStoppedEvent, d) && Stuck(d)
  {
    c := RejectRefused(banner).(login := LoginTimer(false, false, true), tasks := NO_TASKS.(loginStoppedPosts := 1));
    d := c.(loginStopped := true, tasks := NO_TASKS);
  }

  lemma NoRoomToFinish(banner: seq<Byte>, request: Packet) returns (cs: seq<Conn>, es: seq<Event>)
    requires request.packetType == LOGIN_REQUEST && |request.payload| == LOGIN_REQUEST_SIZE
    ensures IsRun(cs, es) && cs[0] == Accepted(banner, 0) && Stuck(cs[|es|])
  {
    AcceptedLooks(banner, 0);
    NoRoomHeader(banner);
    NoRoomForReject(banner, request);
    var c3, c4 := NothingElseRuns(banner);
    cs, es := [Accepted(banner, 0)], [];
    cs, es := RunExtended(cs, es, HeaderEvent(HasPayload), NoRoom(banner, 0, 1));
    cs, es := RunExtended(cs, es, PayloadEvent(GotPacket(request), Verdict(false, request)), RejectRefused(banner));
    cs, es := RunExtended(cs, es, LoginWaitEvent(true), c3);
    cs, es := RunExtended(cs, es, LoginStoppedEvent, c4);
  }

  /** A disconnect, or a rejected login, always finishes exactly when the queue has room for a packet. */
  lemma TeardownFinishes(banner: seq<Byte>, limit: nat)
    ensures NoRunGetsStuck(banner, limit) <==> limit >= 1
  {
    if limit == 0 {
      var cs, es := NoRoomToFinish(banner, Packet(LOGIN_REQUEST, seq(LOGIN_REQUEST_SIZE, _ => 32)));
    } else {
      forall cs: seq<Conn>, es: seq<Event> | IsRun(cs, es) && cs[0] == Accepted(banner, limit)
        ensures !Stuck(cs[|es|])
      {
        RunKeepsSound(cs, es, |es|, banner, limit);
        DrainingHasTask(Quieted(cs[|es|]), banner, limit);
      }
    }
  }

  lemma RunSuffix(cs: seq<Conn>, es: seq<Event>, m: nat)
    requires IsRun(cs, es) && m <= |es|
    ensures IsRun(cs[m..], es[m..])
  {
    forall i | 0 <= i < |es| - m ensures IsStep(cs[m..][i], es[m..][i], cs[m..][i + 1]) {
      assert IsStep(cs[m + i], es[m + i], cs[m + i + 1]);
    }
  }

  lemma DrainingBound(cs: seq<Conn>, es: seq<Event>, m: nat, banner: seq<Byte>, limit: nat)
    requires IsRun(cs, es) && cs[0] == Accepted(banner, limit) && m <= |es| && Draining(cs[m])
    ensures Completions(es[m..]) + Measure(cs[|es|]) <= Measure(cs[m])
  {
    RunKeepsSound(cs, es, m, banner, limit);
    RunSuffix(cs, es, m);
    DrainingTerminates(cs[m..], es[m..], banner, limit);
  }

  /** What holds at the end of any run, together. */
  lemma RunTheorems(cs: seq<Conn>, es: seq<Event>, banner: seq<Byte>, limit: nat)
    requires IsRun(cs, es) && cs[0] == Accepted(banner, limit)
    ensures ReportedOnce(cs[|es|])
    ensures RejectsAlone(cs) ==> ClosedOnce(cs[|es|])
    ensures limit >= 1 ==> !Stuck(cs[|es|])
    ensures forall m | 0 <= m <= |es| && Draining(cs[m]) ::
              Completions(es[m..]) + Measure(cs[|es|]) <= Measure(cs[m])
  {
    ClosedAtMostOnce(cs, es, banner, limit);
    if RejectsAlone(cs) {
      TeardownSafeInRun(cs, es, banner, limit);
    }
    TeardownFinishes(banner, limit);
    forall m | 0 <= m <= |es| && Draining(cs[m])
      ensures Completions(es[m..]) + Measure(cs[|es|]) <= Measure(cs[m])
    {
      DrainingBound(cs, es, m, banner, limit);
    }
  }
}
