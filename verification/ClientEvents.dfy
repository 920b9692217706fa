/** What each event does to a client's TCP connection, read off from the outside, and what that comes to over runs. */
module ClientEvents {
  import opened Types
  import opened RwPackets
  import opened LogicalPackets
  import opened Lifecycle
  import opened CommonEvents
  import opened ClientLifecycle
  import H = Heartbeats

  // ---------------------------------------------------------------------
  // The packets a state allows

  /** A login reply is for a connection yet to log in, debug text for any, and the rest for one logged in. */
  predicate Expected(s: State, sessionEnded: bool, p: Packet) {
    || p.packetType == DEBUG
    || (s == Connected && p.packetType == LOGIN_ACCEPTED && |p.payload| == LOGIN_ACCEPTED_SIZE
        && ReadLoginAccepted(FRESH_LOGIN_ACCEPTED, p.payload).nextSequenceNumber > 0)
    || (s == Connected && p.packetType == LOGIN_REJECTED && |p.payload| == 1)
    || (s == LoggedIn && p.packetType == SEQUENCED_DATA && !sessionEnded)
    || (s == LoggedIn && p.packetType in {SERVER_HEARTBEAT, END_OF_SESSION} && p.payload == [])
  }

  lemma OnlyExpected(c: Conn, p: Packet, owner: Owner)
    ensures PacketErrorOf(c, p, owner) == NoPacketError <==> Expected(c.state.state, owner.hasSessionEnded, p)
  {
  }

  // ---------------------------------------------------------------------
  // Why an event disconnects

  function PacketCause(c: Conn, p: Packet, owner: Owner): Option<DisconnectReason> {
    if c.state.IsClosing() then None
    else if !Expected(c.state.state, owner.hasSessionEnded, p) then Some(ProtocolViolation)
    else if p.packetType == LOGIN_ACCEPTED && owner.loginVerdict != NoReason then Some(owner.loginVerdict)
    else if p.packetType == LOGIN_REJECTED then Some(AccessDenied)
    else None
  }

  /** The cause an event gives the connection, if it gives one. */
  function CauseOf(c: Conn, e: Event): Option<DisconnectReason> {
    match e
    case ConnectEvent(ConnectFailed) => Some(ConnectFailure)
    case HeaderEvent(HeaderError(f), _) => Some(ReadCause(f))
    case HeaderEvent(BadHeader, _) => Some(ProtocolViolation)
    case HeaderEvent(NoPayload(t), owner) => PacketCause(c, Packet(t, []), owner)
    case HeaderEvent(HasPayload, _) => None
    case PayloadEvent(PayloadError(f), _) => Some(ReadCause(f))
    case PayloadEvent(GotPacket(p), owner) => PacketCause(c, p, owner)
    case WriteEvent(o) => if o == WriteFailed then Some(TransportError) else None
    case LoginWaitEvent(failed) =>
      if !c.login.started then None else Some(if failed then TransportError else LoginTimeout)
    case HeartbeatWaitEvent(failed) =>
      if !c.heartbeat.started then None
      else if failed then Some(TransportError)
      else if Silent(c) then Some(HeartbeatTimeout)
      else None
    case CloseCall => Some(UserInitiated)
    case _ => None
  }

  // ---------------------------------------------------------------------
  // What an event hands to the socket

  predicate Connects(e: Event) { e.ConnectEvent? && e.connect.ConnectSucceeded? }

  /** The packet an event hands over to be written. */
  function Handed(c: Conn, e: Event): Option<Packet> {
    match e
    case ConnectEvent(ConnectSucceeded(request)) => Some(request)
    case HeartbeatWaitEvent(failed) =>
      if c.heartbeat.started && !failed && Paces(c) then Some(CLIENT_HEARTBEAT) else None
    case SendCall(p) => if c.state.state == LoggedIn then Some(p) else None
    case SendDebugCall(text) => if c.state.state in {Connected, LoggedIn} then Some(Packet(DEBUG, text)) else None
    case _ => None
  }

  /** What is queued is written in order, and what there is no room for is dropped. */
  function QueueAfter(c: Conn, e: Event): seq<Packet>
    requires Enabled(c, e)
  {
    (if e == WriteEvent(Written) then c.socket.queue[1..] else c.socket.queue)
    + match Handed(c, e) case Some(p) => WithRoom(c, p) case None => []
  }

  // ---------------------------------------------------------------------
  // What the heartbeat timer counts

  const HEARD := {SEQUENCED_DATA, SERVER_HEARTBEAT, END_OF_SESSION}

  /** Messages, heartbeats and the end of session are heard; debug text and the rest are not. */
  function Hears(c: Conn, e: Event): nat {
    match PacketRead(c, e)
    case Some((p, owner)) =>
      if Expected(c.state.state, owner.hasSessionEnded, p) && p.packetType in HEARD then 1 else 0
    case None => 0
  }

  /** Data that the queue takes counts as sent. */
  function Sends(c: Conn, e: Event): nat {
    match e
    case SendCall(p) =>
      if c.state.state == LoggedIn && p.packetType == UNSEQUENCED_DATA && c.socket.AsyncWriteError() == NoWriteError
      then 1 else 0
    case _ => 0
  }

  predicate Ticks(e: Event) { e == HeartbeatWaitEvent(false) }

  /** The heartbeat timer of a connection that is and stays logged in. */
  function TimerAfter(c: Conn, e: Event): HeartbeatTimer {
    if Ticks(e) then c.heartbeat.Tick()
    else c.heartbeat.(receiveCount := c.heartbeat.receiveCount + Hears(c, e),
                      sendCount := c.heartbeat.sendCount + Sends(c, e))
  }

  // ---------------------------------------------------------------------
  // Together: what an event does

  predicate Does(c: Conn, e: Event, d: Conn)
    requires Enabled(c, e)
  {
    && d.causes == c.causes + AsList(CauseOf(c, e))
    && d.socket.queue == QueueAfter(c, e)
    && Times(c, e, d)
    && (IsOpen(d) && !c.socket.closing && (c.socket.readPending || Connects(e)) ==> d.socket.readPending)
    && (d.socket.connectPending ==> c.socket.connectPending)
  }

  /** What it does to the heartbeat timer: nothing until the login, which starts it. */
  predicate Times(c: Conn, e: Event, d: Conn) {
    && (c.state.state == d.state.state == LoggedIn
        && (e.HeartbeatWaitEvent? ==> c.heartbeat.started && c.heartbeat.waitPending) ==>
          d.heartbeat == TimerAfter(c, e))
    && (c.state.state != LoggedIn && d.state.state == LoggedIn ==>
          c.state.state == Connected && d.heartbeat == c.heartbeat.Start().value)
    && (c.state.state != LoggedIn && d.state.state != LoggedIn && !c.heartbeat.started && !e.HeartbeatWaitEvent? ==>
          d.heartbeat == c.heartbeat)
  }

  /** What a packet read does, once it is taken off the socket. */
  predicate PacketDoes(c: Conn, p: Packet, owner: Owner, d: Conn) {
    && d.causes == c.causes + AsList(PacketCause(c, p, owner))
    && d.socket.queue == c.socket.queue
    && (IsOpen(d) ==> d.socket.closing == c.socket.closing)
    && (d.socket.connectPending ==> c.socket.connectPending)
    && (c.state.state == d.state.state == LoggedIn ==>
          d.heartbeat == if Expected(LoggedIn, owner.hasSessionEnded, p) && p.packetType in HEARD
                         then c.heartbeat.(receiveCount := c.heartbeat.receiveCount + 1) else c.heartbeat)
    && (c.state.state != LoggedIn && d.state.state == LoggedIn ==>
          c.state.state == Connected && d.heartbeat == c.heartbeat.Start().value)
    && (c.state.state != LoggedIn && d.state.state != LoggedIn && !c.heartbeat.started ==> d.heartbeat == c.heartbeat)
  }

  lemma LoginDoes(c: Conn, verdict: DisconnectReason)
    ensures var d := LoginAcceptedBy(c, verdict);
            && d.causes == c.causes + (if verdict == NoReason then [] else [verdict])
            && d.socket.queue == c.socket.queue && (d.socket.connectPending ==> c.socket.connectPending)
            && if verdict == NoReason
               then d.socket.closing == c.socket.closing && d.heartbeat == c.heartbeat.Start().value
                    && d.state.state == LoggedIn
               else d.state.state == Disconnected && Untimed(c, d)
  {
    var d := c.WithLogin(c.login.Stop());
    DisconnectGives(d.(state := d.state.(state := LoggedIn)), verdict);
  }

  lemma RejectDoes(c: Conn)
    ensures var d := c.WithLogin(c.login.Stop()).Disconnect(AccessDenied);
            && d.causes == c.causes + [AccessDenied] && d.socket.queue == c.socket.queue
            && d.state.state == Disconnected && Untimed(c, d)
  {
    DisconnectGives(c.WithLogin(c.login.Stop()), AccessDenied);
  }

  lemma ProcessedDoes(c: Conn, p: Packet, owner: Owner)
    requires !c.state.IsClosing()
    ensures PacketDoes(c, p, owner, Processed(c, p, owner))
  {
    OnlyExpected(c, p, owner);
    if PacketErrorOf(c, p, owner) != NoPacketError {
      DisconnectGives(c, ProtocolViolation);
    } else if p.packetType == LOGIN_ACCEPTED {
      LoginDoes(c, owner.loginVerdict);
    } else if p.packetType == LOGIN_REJECTED {
      RejectDoes(c);
    }
  }

  lemma ReadDoes(c: Conn, p: Packet, owner: Owner)
    ensures var d := ReadSuccess(c, p, owner);
            PacketDoes(c, p, owner, d) && (!c.socket.closing && IsOpen(d) ==> d.socket.readPending)
  {
    if !c.state.IsClosing() {
      ProcessedDoes(c, p, owner);
      ReadOnGives(Processed(c, p, owner));
    }
  }

  /** The same, for the outcome of a packet read and settled. */
  lemma PacketIsDone(c: Conn, p: Packet, owner: Owner)
    ensures var d := ReadSuccess(c, p, owner).SocketDone();
            PacketDoes(c, p, owner, d) && (!c.socket.closing && IsOpen(d) ==> d.socket.readPending)
  {
    ReadDoes(c, p, owner);
    SocketDoneGives(ReadSuccess(c, p, owner));
  }

  lemma ConnectSuccessDoes(c: Conn, request: Packet)
    ensures var d := ConnectSuccess(c, request);
            && d.causes == c.causes && d.socket.queue == c.socket.queue + WithRoom(c, request)
            && d.heartbeat == c.heartbeat && d.state.state == Connected && Untimed(c, d)
            && (!c.socket.closing ==> d.socket.readPending)
  {
    var d := c.(state := c.state.(state := Connected), loginStopped := false);
    var e := d.WithLogin(d.login.Start());
    ReadOnGives(e);
    AsyncWriteGives(e.WithSocket(e.socket.AsyncRead()), request);
  }

  lemma ConnectDoes(c: Conn, o: ConnectOutcome)
    requires Enabled(c, ConnectEvent(o)) && c.state.state != LoggedIn
    ensures Does(c, ConnectEvent(o), ConnectDone(c, o))
  {
    var d := ConnectTaken(c);
    match o
    case ConnectAborted => SocketDoneGives(d);
    case ConnectFailed =>
      DisconnectGives(d, ConnectFailure);
      SocketDoneGives(d.Disconnect(ConnectFailure));
    case ConnectSucceeded(request) =>
      ConnectSuccessDoes(d, request);
      SocketDoneGives(ConnectSuccess(d, request));
  }

  lemma HeaderDoes(c: Conn, h: HeaderOutcome, owner: Owner)
    requires c.tasks.headerReads > 0
    ensures Does(c, HeaderEvent(h, owner), HeaderDone(c, h, owner))
  {
    var d := c.ReadTaken(HeaderRead);
    match h
    case HeaderError(f) =>
      ReadErrorGives(d, f);
      SocketDoneGives(d.ReadError(f));
    case BadHeader =>
      DisconnectGives(d, ProtocolViolation);
      SocketDoneGives(d.Disconnect(ProtocolViolation));
    case NoPayload(t) =>
      PacketIsDone(d, Packet(t, []), owner);
    case HasPayload =>
      SocketDoneGives(d.WithSocket(d.socket.ReadPayload()));
  }

  lemma PayloadDoes(c: Conn, o: PayloadOutcome, owner: Owner)
    requires c.tasks.payloadReads > 0
    ensures Does(c, PayloadEvent(o, owner), PayloadDone(c, o, owner))
  {
    var d := c.ReadTaken(PayloadRead);
    match o
    case PayloadError(f) =>
      ReadErrorGives(d, f);
      SocketDoneGives(d.ReadError(f));
    case GotPacket(p) =>
      PacketIsDone(d, p, owner);
  }

  lemma SendDoes(c: Conn, p: Packet)
    requires c.reported == []
    ensures Does(c, SendCall(p), SendPacket(c, p))
  {
    AsyncWriteGives(c, p);
    if c.state.state == LoggedIn {
      var d := c.AsyncWrite(p);
      assert Sends(c, SendCall(p)) == 0 ==> SendPacket(c, p) == d;
    }
  }

  lemma SendDebugDoes(c: Conn, text: seq<Byte>)
    requires Enabled(c, SendDebugCall(text)) && c.state.state != Disconnecting
    ensures Does(c, SendDebugCall(text), SendDebug(c, text))
  {
    AsyncWriteGives(c, Packet(DEBUG, text));
  }

  lemma WriteDoes(c: Conn, o: WriteOutcome)
    requires Enabled(c, WriteEvent(o))
    ensures Does(c, WriteEvent(o), c.WriteDone(o, false))
  {
    WriteGives(c, o, false);
  }

  lemma LoginWaitDoes(c: Conn, failed: bool)
    requires c.tasks.loginWaits > 0
    ensures Does(c, LoginWaitEvent(failed), c.LoginWaitDone(failed))
  {
    LoginWaitGives(c, failed);
  }

  lemma HeartbeatWaitDoes(c: Conn, failed: bool)
    requires c.tasks.heartbeatWaits > 0
    ensures Does(c, HeartbeatWaitEvent(failed), c.HeartbeatWaitDone(failed, CLIENT_HEARTBEAT))
  {
    HeartbeatWaitGives(c, failed, CLIENT_HEARTBEAT);
  }

  lemma CloseDoes(c: Conn)
    requires c.reported == []
    ensures Does(c, CloseCall, c.Disconnect(UserInitiated))
  {
    DisconnectGives(c, UserInitiated);
  }

  lemma PostDoes(c: Conn, e: Event)
    requires Enabled(c, e) && IsPost(e)
    ensures Does(c, e, Step(c, e))
  {
  }

  lemma ConnectWaitIsEarly(c: Conn)
    requires Inv(c) && c.tasks.connectWaits > 0
    ensures c.state.state != LoggedIn
  {
  }

  lemma StepDoes(c: Conn, e: Event)
    requires Inv(c) && Enabled(c, e)
    ensures Does(c, e, Step(c, e))
  {
    match e
    case ConnectEvent(o) =>
      ConnectWaitIsEarly(c);
      ConnectDoes(c, o);
    case HeaderEvent(h, owner) => HeaderDoes(c, h, owner);
    case PayloadEvent(o, owner) => PayloadDoes(c, o, owner);
    case WriteEvent(o) => WriteDoes(c, o);
    case LoginWaitEvent(failed) => LoginWaitDoes(c, failed);
    case HeartbeatWaitEvent(failed) => HeartbeatWaitDoes(c, failed);
    case CloseCall => CloseDoes(c);
    case SendCall(p) => SendDoes(c, p);
    case SendDebugCall(text) => SendDebugDoes(c, text);
    case ClosedEvent => PostDoes(c, e);
    case LoginStoppedEvent => PostDoes(c, e);
    case HeartbeatStoppedEvent => PostDoes(c, e);
  }

  // ---------------------------------------------------------------------
  // Over runs: the cause reported

  /** Event k is the first that gives the connection a cause, and gives it r. */
  predicate FirstCause(cs: seq<Conn>, es: seq<Event>, k: nat, r: DisconnectReason)
    requires |cs| == |es| + 1
  {
    k < |es| && CauseOf(cs[k], es[k]) == Some(r) && forall j | 0 <= j < k :: CauseOf(cs[j], es[j]) == None
  }

  lemma RunStepCauses(cs: seq<Conn>, es: seq<Event>, i: nat)
    requires IsRun(cs, es) && i < |es| && Inv(cs[0])
    ensures cs[i + 1].causes == cs[i].causes + AsList(CauseOf(cs[i], es[i]))
  {
    RunKeepsInv(cs, es, i);
    assert IsStep(cs[i], es[i], cs[i + 1]);
    StepDoes(cs[i], es[i]);
  }

  lemma {:induction false} NoCauseYet(cs: seq<Conn>, es: seq<Event>, n: nat)
    requires IsRun(cs, es) && n <= |es| && Inv(cs[0]) && cs[0].causes == []
    requires forall j | 0 <= j < n :: CauseOf(cs[j], es[j]) == None
    ensures cs[n].causes == []
  {
    if n == 0 {
    } else {
      NoCauseYet(cs, es, n - 1);
      RunStepCauses(cs, es, n - 1);
    }
  }

  lemma {:induction false} KeepsFirstCause(cs: seq<Conn>, es: seq<Event>, m: nat, n: nat)
    requires IsRun(cs, es) && m <= n <= |es| && Inv(cs[0]) && cs[m].causes != []
    ensures cs[n].causes != [] && cs[n].causes[0] == cs[m].causes[0]
    decreases n
  {
    if m == n {
    } else {
      KeepsFirstCause(cs, es, m, n - 1);
      RunStepCauses(cs, es, n - 1);
    }
  }

  lemma InvReasons(c: Conn)
    requires Inv(c)
    ensures Reasons(c) && (c.reported != [] ==> c.reported == [c.state.reason] && c.causes != [])
  {
  }

  lemma OpenedHasNoCause(limit: nat)
    ensures Opened(limit, false).causes == [] && Inv(Opened(limit, false))
  {
    OpenedInv(limit, false);
  }

  /** A connection keeps the first cause that an event gives it, and reports that if any. */
  lemma ReportsFirstCause(cs: seq<Conn>, es: seq<Event>, k: nat, r: DisconnectReason, limit: nat)
    requires IsRun(cs, es) && cs[0] == Opened(limit, false) && FirstCause(cs, es, k, r)
    ensures cs[|es|].socket.closing && cs[|es|].state.reason == r
    ensures cs[|es|].reported == [] || cs[|es|].reported == [r]
  {
    OpenedHasNoCause(limit);
    NoCauseYet(cs, es, k);
    RunStepCauses(cs, es, k);
    KeepsFirstCause(cs, es, k + 1, |es|);
    RunKeepsInv(cs, es, |es|);
    InvReasons(cs[|es|]);
  }

  lemma FailedOpenLooks(limit: nat)
    ensures Opened(limit, true).causes == [ConnectFailure] && Inv(Opened(limit, true))
  {
    OpenedInv(limit, true);
  }

  /** A connection whose socket could not be opened is reported, if at all, as a connect failure, whatever follows. */
  lemma FailedOpenReports(cs: seq<Conn>, es: seq<Event>, limit: nat)
    requires IsRun(cs, es) && cs[0] == Opened(limit, true)
    ensures cs[|es|].state.reason == ConnectFailure
    ensures cs[|es|].reported == [] || cs[|es|].reported == [ConnectFailure]
  {
    FailedOpenLooks(limit);
    KeepsFirstCause(cs, es, 0, |es|);
    RunKeepsInv(cs, es, |es|);
    InvReasons(cs[|es|]);
  }

  /** A login that times out while nothing else has gone wrong is the first cause. */
  lemma LoginWaitIsFirst(cs: seq<Conn>, es: seq<Event>, k: nat, limit: nat)
    requires IsRun(cs, es) && cs[0] == Opened(limit, false) && k < |es|
    requires es[k] == LoginWaitEvent(false) && cs[k].state == ConnState(Connected, NoReason)
    ensures FirstCause(cs, es, k, LoginTimeout)
  {
    OpenedHasNoCause(limit);
    RunKeepsInv(cs, es, k);
    InvReasons(cs[k]);
    assert IsStep(cs[k], es[k], cs[k + 1]);
    WaitingForLogin(cs[k]);
    forall j | 0 <= j < k ensures CauseOf(cs[j], es[j]) == None {
      if CauseOf(cs[j], es[j]) != None {
        RunStepCauses(cs, es, j);
        KeepsFirstCause(cs, es, j + 1, k);
      }
    }
  }

  lemma WaitingForLogin(c: Conn)
    requires Inv(c) && c.reported == [] && c.state.state == Connected
    ensures c.login.started
  {
  }

  lemma NoCauseNoReport(cs: seq<Conn>, es: seq<Event>, limit: nat)
    requires IsRun(cs, es) && cs[0] == Opened(limit, false)
    requires forall j | 0 <= j < |es| :: CauseOf(cs[j], es[j]) == None
    ensures !cs[|es|].socket.closing && cs[|es|].state.reason == NoReason && cs[|es|].reported == []
  {
    OpenedHasNoCause(limit);
    NoCauseYet(cs, es, |es|);
    RunKeepsInv(cs, es, |es|);
    InvReasons(cs[|es|]);
  }

  // ---------------------------------------------------------------------
  // Over runs: an open connection is always read from and timed

  /**
   * A connection waits for the connect, then for the login, then for the heartbeat, and once connected all along for a
   * packet; one that came up after its socket was closed waits for the login alone.
   */
  predicate Watched(c: Conn) {
    && (c.state.state == Connecting ==> c.tasks.connectWaits == 1)
    && (c.state.state == Connected ==> c.login.started && c.tasks.loginWaits == 1)
    && (c.state.state == LoggedIn ==> c.heartbeat.started && c.tasks.heartbeatWaits == 1)
    && (IsOpen(c) && !c.socket.closing ==> c.tasks.headerReads + c.tasks.payloadReads == 1)
  }

  const UNSTARTED := HeartbeatTimer(SERVER_HEARTBEAT_TIMEOUT, 0, 0, 0, false, false, false)

  predicate Attentive(c: Conn) {
    && (H.MayLogIn(c) ==> c.heartbeat == UNSTARTED)
    && (c.state.state == LoggedIn ==> c.heartbeat.started)
    && (IsOpen(c) && !c.socket.closing ==> c.socket.readPending)
    && (c.reported != [] ==> c.state.state == Disconnected)
  }

  /** What the invariant says of tasks and timers. */
  lemma InvLooks(c: Conn)
    requires Inv(c) && c.reported == []
    ensures c.tasks.connectWaits == Count(c.socket.connectPending)
    ensures c.tasks.heartbeatWaits == Count(c.heartbeat.waitPending)
    ensures c.heartbeat.started ==> c.heartbeat.waitPending
    ensures c.tasks.headerReads + c.tasks.payloadReads == Count(c.socket.readPending)
    ensures c.state.state == Connected ==> c.login.started && c.tasks.loginWaits == 1
    ensures c.state.state == Connecting ==> c.socket.connectPending && !c.socket.closing
    ensures c.state.state == LoggedIn ==> !c.socket.closing && !c.socket.connectPending
  {
  }

  lemma GoneRunsNothing(c: Conn, e: Event)
    requires Inv(c) && c.reported != []
    ensures !Enabled(c, e)
  {
  }

  /** Nobody connects who was not about to, and only an open connection stays open. */
  lemma StepOrder(c: Conn, e: Event)
    requires Inv(c) && Enabled(c, e)
    ensures var d := Step(c, e);
            && (H.MayLogIn(d) ==> H.MayLogIn(c)) && (c.socket.closing ==> d.socket.closing)
            && (IsOpen(d) ==> IsOpen(c) || Connects(e))
  {
    StepDoes(c, e);
    StepKeepsInv(c, e);
    InvReasons(c);
    InvReasons(Step(c, e));
    if LateSuccess(c, e) {
      ConnectWaitIsPending(c);
    } else {
      StepMoves(c, e);
    }
  }

  lemma ConnectWaitIsPending(c: Conn)
    requires Inv(c) && c.tasks.connectWaits > 0
    ensures c.socket.connectPending
  {
  }

  lemma ReportsDisconnected(c: Conn, e: Event)
    requires Inv(c) && c.reported == [] && Enabled(c, e) && Step(c, e).reported != []
    ensures Step(c, e).state.state == Disconnected
  {
    if PacketRead(c, e).Some? {
      ReadMoves(c, e);
    } else if Connects(e) {
      ConnectMoves(c, e.connect);
    } else {
      OtherDrops(c, e);
      ReportedIsDisconnected(c, e);
    }
  }

  lemma StepKeepsAttentive(c: Conn, e: Event)
    requires Inv(c) && Attentive(c) && Enabled(c, e)
    ensures Attentive(Step(c, e))
  {
    if c.reported != [] {
      GoneRunsNothing(c, e);
    } else {
      StepDoes(c, e);
      StepOrder(c, e);
      InvLooks(c);
      if Step(c, e).reported != [] {
        ReportsDisconnected(c, e);
      }
    }
  }

  lemma OpenedState(limit: nat, openFails: bool)
    ensures Opened(limit, openFails).state.state in {Connecting, Disconnected}
  {
  }

  lemma OpenedIsAttentive(limit: nat, openFails: bool)
    ensures Attentive(Opened(limit, openFails))
  {
  }

  lemma RunStepAttentive(cs: seq<Conn>, es: seq<Event>, i: nat)
    requires IsRun(cs, es) && i < |es| && Inv(cs[i]) && Attentive(cs[i])
    ensures Attentive(cs[i + 1])
  {
    assert IsStep(cs[i], es[i], cs[i + 1]);
    StepKeepsAttentive(cs[i], es[i]);
  }

  lemma {:induction false} RunKeepsAttentive(cs: seq<Conn>, es: seq<Event>, n: nat, limit: nat, openFails: bool)
    requires IsRun(cs, es) && n <= |es| && cs[0] == Opened(limit, openFails)
    ensures Inv(cs[n]) && Attentive(cs[n])
  {
    if n == 0 {
      OpenedInv(limit, openFails);
      OpenedIsAttentive(limit, openFails);
    } else {
      OpenedInv(limit, openFails);
      RunKeepsAttentive(cs, es, n - 1, limit, openFails);
      RunStepAttentive(cs, es, n - 1);
      RunKeepsInv(cs, es, n);
    }
  }

  /** In every run, for every limit. */
  lemma AlwaysWatched(cs: seq<Conn>, es: seq<Event>, n: nat, limit: nat, openFails: bool)
    requires IsRun(cs, es) && n <= |es| && cs[0] == Opened(limit, openFails)
    ensures Watched(cs[n])
  {
    RunKeepsAttentive(cs, es, n, limit, openFails);
    if cs[n].reported == [] {
      InvLooks(cs[n]);
    }
  }

  // ---------------------------------------------------------------------
  // Over runs: the laws of Heartbeats

  /** What one event means to the heartbeats of a connection; nothing before it is logged in. */
  function SignalOf(c: Conn, e: Event): H.Signal {
    if c.state.state != LoggedIn then H.NoSignal
    else if Ticks(e) then H.TickSignal
    else H.CountSignal(Hears(c, e), Sends(c, e))
  }

  function Signals(cs: seq<Conn>, es: seq<Event>): (r: seq<H.Signal>)
    requires |cs| == |es| + 1
    ensures |r| == |es|
  {
    seq(|es|, i requires 0 <= i < |es| => SignalOf(cs[i], es[i]))
  }

  /** The heartbeats of a run's first n events. */
  function BeatAt(cs: seq<Conn>, es: seq<Event>, n: nat): H.Beat
    requires |cs| == |es| + 1 && n <= |es|
  {
    H.BeatOf(Signals(cs, es)[..n])
  }

  lemma OpenGoesOn(c: Conn, e: Event, d: Conn)
    requires Enabled(c, e) && Does(c, e, d) && Attentive(c) && (H.MayLogIn(d) ==> H.MayLogIn(c))
    requires c.state.state == LoggedIn ==> !c.socket.connectPending && c.heartbeat.waitPending
    requires Ticks(e) && c.heartbeat.started && d.state.state == LoggedIn ==> !Silent(c)
    ensures H.GoesOn(SERVER_HEARTBEAT_TIMEOUT, c, SignalOf(c, e), d)
  {
  }

  /** A tick that completes the timeout ends the connection. */
  lemma StaysUnsilent(c: Conn, e: Event)
    requires Inv(c) && c.heartbeat.started && Enabled(c, e) && Ticks(e) && Step(c, e).state.state == LoggedIn
    ensures !Silent(c)
  {
    HeartbeatWaitGives(c, false, CLIENT_HEARTBEAT);
    StepKeepsInv(c, e);
    LoggedInHasNoCause(Step(c, e));
  }

  lemma LoggedInHasNoCause(c: Conn)
    requires Inv(c) && c.state.state == LoggedIn && c.reported == []
    ensures c.causes == []
  {
  }

  lemma TimerGoesOn(c: Conn, e: Event)
    requires Inv(c) && Attentive(c) && Enabled(c, e)
    ensures H.GoesOn(SERVER_HEARTBEAT_TIMEOUT, c, SignalOf(c, e), Step(c, e))
  {
    if c.reported != [] {
      GoneRunsNothing(c, e);
    } else {
      StepDoes(c, e);
      StepOrder(c, e);
      InvLooks(c);
      if Ticks(e) && c.heartbeat.started && Step(c, e).state.state == LoggedIn {
        StaysUnsilent(c, e);
      }
      OpenGoesOn(c, e, Step(c, e));
    }
  }

  lemma RunStepBeats(cs: seq<Conn>, es: seq<Event>, i: nat, limit: nat, openFails: bool)
    requires IsRun(cs, es) && i < |es| && cs[0] == Opened(limit, openFails)
    requires H.Beats(SERVER_HEARTBEAT_TIMEOUT, cs[i], H.BeatOf(Signals(cs, es)[..i]))
    ensures H.Beats(SERVER_HEARTBEAT_TIMEOUT, cs[i + 1], H.BeatOf(Signals(cs, es)[..i + 1]))
  {
    RunKeepsAttentive(cs, es, i, limit, openFails);
    assert IsStep(cs[i], es[i], cs[i + 1]);
    TimerGoesOn(cs[i], es[i]);
    H.BeatExtends(SERVER_HEARTBEAT_TIMEOUT, cs[i], cs[i + 1], Signals(cs, es), i);
  }

  lemma StartBeats(limit: nat, openFails: bool)
    ensures H.Beats(SERVER_HEARTBEAT_TIMEOUT, Opened(limit, openFails), H.FIRST_BEAT)
  {
    OpenedState(limit, openFails);
  }

  /** In every run the heartbeat timer is the one Heartbeats describes, fed with what the connection hears and sends. */
  lemma RunBeats(cs: seq<Conn>, es: seq<Event>, n: nat, limit: nat, openFails: bool)
    requires IsRun(cs, es) && n <= |es| && cs[0] == Opened(limit, openFails)
    ensures H.Beats(SERVER_HEARTBEAT_TIMEOUT, cs[n], BeatAt(cs, es, n))
  {
    var xs := Signals(cs, es);
    var beats := seq(|cs|, i requires 0 <= i < |cs| => H.Beats(SERVER_HEARTBEAT_TIMEOUT, cs[i], H.BeatOf(xs[..i])));
    StartBeats(limit, openFails);
    forall i | 0 <= i < |beats| - 1 && beats[i] ensures beats[i + 1] {
      RunStepBeats(cs, es, i, limit, openFails);
    }
    HoldsThroughout(beats, n);
  }

  /** What a tick does. */
  lemma TickDoes(c: Conn, e: Event)
    requires Inv(c) && c.reported == [] && c.state.state == LoggedIn && c.heartbeat.started && Enabled(c, e) && Ticks(e)
    ensures if Silent(c) then Step(c, e).state == ConnState(Disconnected, HeartbeatTimeout)
            else Step(c, e).state == c.state
                 && Step(c, e).socket.queue == c.socket.queue + if Paces(c) then WithRoom(c, CLIENT_HEARTBEAT) else []
  {
    HeartbeatWaitGives(c, false, CLIENT_HEARTBEAT);
    LoggedInHasNoCause(c);
    StepKeepsInv(c, e);
    InvReasons(Step(c, e));
    InvReasons(c);
    if !Silent(c) && Step(c, e).state.state == Disconnected {
      DisconnectedHasCause(Step(c, e));
    }
  }

  lemma DisconnectedHasCause(c: Conn)
    requires Inv(c) && c.state.state == Disconnected
    ensures c.causes != []
  {
  }

  /**
   * A tick of a logged-in connection, in every run: it is dropped for the silence exactly when nothing was heard in the
   * last five intervals, and otherwise a heartbeat is queued, room permitting, exactly when nothing was sent in the
   * last.
   */
  lemma TickLaw(cs: seq<Conn>, es: seq<Event>, n: nat, limit: nat, openFails: bool)
    requires IsRun(cs, es) && n < |es| && cs[0] == Opened(limit, openFails)
    requires cs[n].state.state == LoggedIn && Ticks(es[n])
    ensures var b := BeatAt(cs, es, n);
            if H.SilentTail(b.done + [b.open], 5)
            then cs[n + 1].state == ConnState(Disconnected, HeartbeatTimeout)
            else cs[n + 1].state == cs[n].state
                 && cs[n + 1].socket.queue
                    == cs[n].socket.queue + if b.open.sends == 0 then WithRoom(cs[n], CLIENT_HEARTBEAT) else []
  {
    RunKeepsAttentive(cs, es, n, limit, openFails);
    RunBeats(cs, es, n, limit, openFails);
    assert IsStep(cs[n], es[n], cs[n + 1]);
    H.TickAsks(SERVER_HEARTBEAT_TIMEOUT, cs[n], BeatAt(cs, es, n));
    TickDoes(cs[n], es[n]);
  }

  /** What holds at the end of any run, together. */
  lemma RunLaws(cs: seq<Conn>, es: seq<Event>, limit: nat, openFails: bool)
    requires IsRun(cs, es) && cs[0] == Opened(limit, openFails)
    ensures Watched(cs[|es|])
    ensures !openFails ==>
              forall k, r | FirstCause(cs, es, k, r) ::
                cs[|es|].state.reason == r && (cs[|es|].reported == [] || cs[|es|].reported == [r])
  {
    AlwaysWatched(cs, es, |es|, limit, openFails);
    if !openFails {
      forall k, r | FirstCause(cs, es, k, r)
        ensures cs[|es|].state.reason == r && (cs[|es|].reported == [] || cs[|es|].reported == [r])
      {
        ReportsFirstCause(cs, es, k, r, limit);
      }
    }
  }
}
