/** What each event does to an accepted connection, read off from the outside, and what that comes to over runs. */
module ServerEvents {
  import opened Types
  import opened RwPackets
  import opened LogicalPackets
  import opened Lifecycle
  import opened CommonEvents
  import opened ServerLifecycle
  import H = Heartbeats

  // ---------------------------------------------------------------------
  // The packets a state allows

  /** A login request is for a connection yet to log in, debug text for any, and the rest for one logged in. */
  predicate Expected(s: State, p: Packet) {
    || p.packetType == DEBUG
    || (s == Connected && p.packetType == LOGIN_REQUEST && |p.payload| == LOGIN_REQUEST_SIZE)
    || (s == LoggedIn && p.packetType == UNSEQUENCED_DATA)
    || (s == LoggedIn && p.packetType in {CLIENT_HEARTBEAT, LOGOUT_REQUEST} && p.payload == [])
  }

  lemma OnlyExpected(c: Conn, p: Packet)
    ensures PacketErrorOf(c, p) == NoPacketError <==> Expected(c.state.state, p)
  {
  }

  // ---------------------------------------------------------------------
  // Why an event disconnects

  function PacketCause(c: Conn, p: Packet, accepted: bool): Option<DisconnectReason> {
    if c.state.IsClosing() then None
    else if !Expected(c.state.state, p) then Some(ProtocolViolation)
    else if p.packetType == LOGIN_REQUEST && !accepted then Some(AccessDenied)
    else if p.packetType == LOGOUT_REQUEST then Some(LogoutRequested)
    else None
  }

  /** The cause an event gives the connection, if it gives one. */
  function CauseOf(c: Conn, e: Event): Option<DisconnectReason> {
    match e
    case HeaderEvent(HeaderError(f)) => Some(ReadCause(f))
    case HeaderEvent(BadHeader) => Some(ProtocolViolation)
    case HeaderEvent(NoPayload(t)) => PacketCause(c, Packet(t, []), false)
    case HeaderEvent(HasPayload) => None
    case PayloadEvent(PayloadError(f), _) => Some(ReadCause(f))
    case PayloadEvent(GotPacket(p), v) => PacketCause(c, p, v.accepted)
    case WriteEvent(WriteAborted) => None
    case WriteEvent(WriteFailed) => Some(TransportError)
    case WriteEvent(Written) => if c.state.state == Disconnecting then Some(UnmanagedAbort) else None
    case LoginWaitEvent(failed) =>
      if !c.login.started then None else Some(if failed then TransportError else LoginTimeout)
    case HeartbeatWaitEvent(failed) =>
      if !c.heartbeat.started then None
      else if failed then Some(TransportError)
      else if Silent(c) then Some(HeartbeatTimeout)
      else None
    case CloseCall => Some(UserInitiated)
    case SupersedeCall => Some(Superseded)
    case _ => None
  }

  // ---------------------------------------------------------------------
  // What an event hands to the socket

  predicate LogsIn(c: Conn, p: Packet) {
    !c.state.IsClosing() && Expected(c.state.state, p) && p.packetType == LOGIN_REQUEST
  }

  /** The packet an event hands over to be written. */
  function Handed(c: Conn, e: Event): Option<Packet> {
    match e
    case PayloadEvent(GotPacket(p), v) => if LogsIn(c, p) then Some(v.reply) else None
    case HeartbeatWaitEvent(failed) =>
      if c.heartbeat.started && !failed && Paces(c) then Some(SERVER_HEARTBEAT) else None
    case SendCall(p) => if c.state.state == LoggedIn then Some(p) else None
    case SendDebugCall(text) => if c.state.state in {Connected, LoggedIn} then Some(Packet(DEBUG, text)) else None
    case _ => None
  }

  /** What is queued is written in order, and what there is no room for is dropped. */
  function QueueAfter(c: Conn, e: Event): seq<Packet>
    requires Enabled(c, e)
  {
    (if e == WriteEvent(Written) then c.socket.queue[1..] else c.socket.queue)
    + match Handed(c, e) case Some(p) => WithRoom(c, p) case None => []
  }

  // ---------------------------------------------------------------------
  // What the heartbeat timer counts

  /** Data and heartbeats are heard; debug text and the rest are not. */
  function Hears(c: Conn, e: Event): nat {
    match PacketRead(c, e)
    case Some(p) => if Expected(c.state.state, p) && p.packetType in {UNSEQUENCED_DATA, CLIENT_HEARTBEAT} then 1 else 0
    case None => 0
  }

  /** Data that the queue takes counts as sent. */
  function Sends(c: Conn, e: Event): nat {
    match e
    case SendCall(p) =>
      if c.state.state == LoggedIn && p.packetType == SEQUENCED_DATA && c.socket.AsyncWriteError() == NoWriteError
      then 1 else 0
    case _ => 0
  }

  predicate Ticks(e: Event) { e == HeartbeatWaitEvent(false) }

  /** The heartbeat timer of a connection that is and stays logged in. */
  function TimerAfter(c: Conn, e: Event): HeartbeatTimer {
    if Ticks(e) then c.heartbeat.Tick()
    else c.heartbeat.(receiveCount := c.heartbeat.receiveCount + Hears(c, e),
                      sendCount := c.heartbeat.sendCount + Sends(c, e))
  }

  // ---------------------------------------------------------------------
  // Together: what an event does

  predicate Does(c: Conn, e: Event, d: Conn)
    requires Enabled(c, e)
  {
    && d.causes == c.causes + AsList(CauseOf(c, e))
    && d.socket.queue == QueueAfter(c, e)
    && (StaysOpen(c, d) && (e.HeartbeatWaitEvent? ==> c.heartbeat.started && c.heartbeat.waitPending) ==>
          d.heartbeat == TimerAfter(c, e))
    && (c.state.state == Connected && d.state.state == LoggedIn ==> d.heartbeat == c.heartbeat.Start().value)
    && (IsOpen(d) && c.socket.readPending && !c.socket.closing ==> d.socket.readPending)
    && (d.socket.connectPending ==> c.socket.connectPending)
  }

  /** What a packet read does, once it is taken off the socket. */
  predicate PacketDoes(c: Conn, p: Packet, v: Verdict, d: Conn) {
    && d.causes == c.causes + AsList(PacketCause(c, p, v.accepted))
    && (IsOpen(d) ==> d.socket.closing == c.socket.closing)
    && d.socket.queue
       == c.socket.queue + (if LogsIn(c, p) then WithRoom(c, v.reply) else [])
    && (StaysOpen(c, d) ==>
          d.heartbeat == if Expected(c.state.state, p) && p.packetType in {UNSEQUENCED_DATA, CLIENT_HEARTBEAT}
                         then c.heartbeat.(receiveCount := c.heartbeat.receiveCount + 1) else c.heartbeat)
    && (c.state.state == Connected && d.state.state == LoggedIn ==> d.heartbeat == c.heartbeat.Start().value)
    && (d.socket.connectPending ==> c.socket.connectPending)
  }

  lemma LoginDoes(c: Conn, reply: Packet)
    ensures var d := LoginAcceptedBy(c, reply);
            && d.causes == c.causes && d.socket.queue == c.socket.queue + WithRoom(c, reply)
            && d.socket.closing == c.socket.closing && d.heartbeat == c.heartbeat.Start().value
            && d.socket.connectPending == c.socket.connectPending
    ensures var d := LoginRejectedBy(c, reply);
            && d.causes == c.causes + [AccessDenied] && d.socket.queue == c.socket.queue + WithRoom(c, reply)
            && d.socket.connectPending == c.socket.connectPending
  {
  }

  lemma ProcessedDoes(c: Conn, p: Packet, v: Verdict)
    requires !c.state.IsClosing()
    ensures PacketDoes(c, p, v, Processed(c, p, v))
  {
    OnlyExpected(c, p);
    if PacketErrorOf(c, p) != NoPacketError {
      DisconnectGives(c, ProtocolViolation);
    } else if p.packetType == LOGIN_REQUEST {
      LoginDoes(c, v.reply);
    } else if p.packetType == LOGOUT_REQUEST {
      DisconnectGives(c, LogoutRequested);
    }
  }

  lemma ReadDoes(c: Conn, p: Packet, v: Verdict)
    ensures var d := ReadSuccess(c, p, v);
            PacketDoes(c, p, v, d) && (!c.socket.closing && IsOpen(d) ==> d.socket.readPending)
  {
    if !c.state.IsClosing() {
      ProcessedDoes(c, p, v);
      ReadOnGives(Processed(c, p, v));
    }
  }

  /** The same, for the outcome of a packet read and settled. */
  lemma PacketIsDone(c: Conn, p: Packet, v: Verdict)
    ensures var d := ReadSuccess(c, p, v).SocketDone();
            PacketDoes(c, p, v, d) && (!c.socket.closing && IsOpen(d) ==> d.socket.readPending)
  {
    ReadDoes(c, p, v);
    SocketDoneGives(ReadSuccess(c, p, v));
  }

  lemma HeaderDoes(c: Conn, h: HeaderOutcome)
    requires c.tasks.headerReads > 0
    ensures Does(c, HeaderEvent(h), HeaderDone(c, h))
  {
    var d := c.ReadTaken(HeaderRead);
    match h
    case HeaderError(f) =>
      ReadErrorGives(d, f);
      SocketDoneGives(d.ReadError(f));
    case BadHeader =>
      DisconnectGives(d, ProtocolViolation);
      SocketDoneGives(d.Disconnect(ProtocolViolation));
    case NoPayload(t) =>
      var p := Packet(t, []);
      PacketIsDone(d, p, Verdict(false, p));
    case HasPayload =>
      SocketDoneGives(d.WithSocket(d.socket.ReadPayload()));
  }

  lemma PayloadDoes(c: Conn, o: PayloadOutcome, v: Verdict)
    requires c.tasks.payloadReads > 0
    ensures Does(c, PayloadEvent(o, v), PayloadDone(c, o, v))
  {
    var d := c.ReadTaken(PayloadRead);
    match o
    case PayloadError(f) =>
      ReadErrorGives(d, f);
      SocketDoneGives(d.ReadError(f));
    case GotPacket(p) =>
      PacketIsDone(d, p, v);
  }

  lemma SendDoes(c: Conn, p: Packet)
    requires c.reported == []
    ensures Does(c, SendCall(p), SendPacket(c, p))
  {
    AsyncWriteGives(c, p);
    if c.state.state == LoggedIn {
      var d := c.AsyncWrite(p);
      assert Sends(c, SendCall(p)) == 0 ==> SendPacket(c, p) == d;
    }
  }

  lemma SendDebugDoes(c: Conn, text: seq<Byte>)
    requires Enabled(c, SendDebugCall(text))
    ensures Does(c, SendDebugCall(text), SendDebug(c, text))
  {
    AsyncWriteGives(c, Packet(DEBUG, text));
  }

  lemma WriteDoes(c: Conn, o: WriteOutcome)
    requires Enabled(c, WriteEvent(o))
    ensures Does(c, WriteEvent(o), c.WriteDone(o, true))
  {
    WriteGives(c, o, true);
  }

  lemma LoginWaitDoes(c: Conn, failed: bool)
    requires c.tasks.loginWaits > 0
    ensures Does(c, LoginWaitEvent(failed), c.LoginWaitDone(failed))
  {
    LoginWaitGives(c, failed);
  }

  lemma HeartbeatWaitDoes(c: Conn, failed: bool)
    requires c.tasks.heartbeatWaits > 0
    ensures Does(c, HeartbeatWaitEvent(failed), c.HeartbeatWaitDone(failed, SERVER_HEARTBEAT))
  {
    HeartbeatWaitGives(c, failed, SERVER_HEARTBEAT);
  }

  lemma DisconnectCallDoes(c: Conn, e: Event)
    requires Enabled(c, e) && (e.CloseCall? || e.SupersedeCall?)
    ensures Does(c, e, Step(c, e))
  {
    DisconnectGives(c, if e.CloseCall? then UserInitiated else Superseded);
  }

  lemma PostDoes(c: Conn, e: Event)
    requires Enabled(c, e) && (e.ClosedEvent? || e.LoginStoppedEvent? || e.HeartbeatStoppedEvent?)
    ensures Does(c, e, Step(c, e))
  {
  }

  lemma StepDoes(c: Conn, e: Event)
    requires Enabled(c, e)
    ensures Does(c, e, Step(c, e))
  {
    match e
    case HeaderEvent(h) => HeaderDoes(c, h);
    case PayloadEvent(o, v) => PayloadDoes(c, o, v);
    case WriteEvent(o) => WriteDoes(c, o);
    case LoginWaitEvent(failed) => LoginWaitDoes(c, failed);
    case HeartbeatWaitEvent(failed) => HeartbeatWaitDoes(c, failed);
    case CloseCall => DisconnectCallDoes(c, e);
    case SupersedeCall => DisconnectCallDoes(c, e);
    case SendCall(p) => SendDoes(c, p);
    case SendDebugCall(text) => SendDebugDoes(c, text);
    case ClosedEvent => PostDoes(c, e);
    case LoginStoppedEvent => PostDoes(c, e);
    case HeartbeatStoppedEvent => PostDoes(c, e);
  }

  // ---------------------------------------------------------------------
  // Over runs: the cause reported

  predicate FromAccept(cs: seq<Conn>, es: seq<Event>, banner: seq<Byte>, limit: nat) {
    |cs| == |es| + 1 && cs[0] == Accepted(banner, limit)
  }

  /** Event k is the first that gives the connection a cause, and gives it r. */
  predicate FirstCause(cs: seq<Conn>, es: seq<Event>, k: nat, r: DisconnectReason)
    requires |cs| == |es| + 1
  {
    k < |es| && CauseOf(cs[k], es[k]) == Some(r) && forall j | 0 <= j < k :: CauseOf(cs[j], es[j]) == None
  }

  lemma RunStepDoes(cs: seq<Conn>, es: seq<Event>, i: nat)
    requires IsRun(cs, es) && i < |es|
    ensures Enabled(cs[i], es[i]) && cs[i + 1] == Step(cs[i], es[i]) && Does(cs[i], es[i], cs[i + 1])
  {
    assert IsStep(cs[i], es[i], cs[i + 1]);
    StepDoes(cs[i], es[i]);
  }

  lemma RunStepCauses(cs: seq<Conn>, es: seq<Event>, i: nat)
    requires IsRun(cs, es) && i < |es|
    ensures cs[i + 1].causes == cs[i].causes + AsList(CauseOf(cs[i], es[i]))
  {
    RunStepDoes(cs, es, i);
  }

  lemma {:induction false} NoCauseYet(cs: seq<Conn>, es: seq<Event>, n: nat)
    requires IsRun(cs, es) && n <= |es| && cs[0].causes == [] && forall j | 0 <= j < n :: CauseOf(cs[j], es[j]) == None
    ensures cs[n].causes == []
  {
    if n == 0 {
    } else {
      NoCauseYet(cs, es, n - 1);
      RunStepCauses(cs, es, n - 1);
    }
  }

  lemma AcceptedHasNoCause(banner: seq<Byte>, limit: nat)
    ensures Accepted(banner, limit).causes == []
  {
    AcceptedLooks(banner, limit);
  }

  lemma SoundReasons(c: Conn, banner: seq<Byte>, limit: nat)
    requires Sound(c, banner, limit)
    ensures Reasons(c) && (c.reported != [] ==> c.reported == [c.state.reason])
  {
  }

  /** A connection is closing exactly if some event gave it a cause; it keeps the first, and reports that if any. */
  lemma ReportsFirstCause(cs: seq<Conn>, es: seq<Event>, k: nat, r: DisconnectReason, banner: seq<Byte>, limit: nat)
    requires IsRun(cs, es) && FromAccept(cs, es, banner, limit) && FirstCause(cs, es, k, r)
    ensures cs[|es|].state.IsClosing() && cs[|es|].state.reason == r
    ensures cs[|es|].reported == [] || cs[|es|].reported == [r]
  {
    AcceptedHasNoCause(banner, limit);
    NoCauseYet(cs, es, k);
    RunStepCauses(cs, es, k);
    RunKeepsCauses(cs, es, k + 1, |es|);
    RunKeepsSound(cs, es, |es|, banner, limit);
    SoundReasons(cs[|es|], banner, limit);
  }

  lemma NoCauseNoReport(cs: seq<Conn>, es: seq<Event>, banner: seq<Byte>, limit: nat)
    requires IsRun(cs, es) && FromAccept(cs, es, banner, limit)
    requires forall j | 0 <= j < |es| :: CauseOf(cs[j], es[j]) == None
    ensures !cs[|es|].state.IsClosing() && cs[|es|].state.reason == NoReason && cs[|es|].reported == []
  {
    AcceptedHasNoCause(banner, limit);
    NoCauseYet(cs, es, |es|);
    RunKeepsSound(cs, es, |es|, banner, limit);
    SoundReasons(cs[|es|], banner, limit);
    SoundStates(cs[|es|], banner, limit);
  }

  // ---------------------------------------------------------------------
  // Over runs: an open connection is always read from and timed

  /** Until it logs in a connection waits for the login, from then on for the heartbeat, and all along for a packet. */
  predicate Watched(c: Conn) {
    && (c.state.state == Connected ==> c.login.started && c.tasks.loginWaits == 1)
    && (c.state.state == LoggedIn ==> c.heartbeat.started && c.tasks.heartbeatWaits == 1)
    && (IsOpen(c) ==> c.tasks.headerReads + c.tasks.payloadReads == 1)
  }

  const UNSTARTED := HeartbeatTimer(CLIENT_HEARTBEAT_TIMEOUT, 0, 0, 0, false, false, false)

  predicate Attentive(c: Conn) {
    && (c.state.state == Connected ==> c.heartbeat == UNSTARTED)
    && (c.state.state == LoggedIn ==> c.heartbeat.started)
    && (IsOpen(c) ==> c.socket.readPending) && !c.socket.connectPending
  }

  lemma OpenLooks(c: Conn, banner: seq<Byte>, limit: nat)
    requires Sound(c, banner, limit) && IsOpen(c)
    ensures !c.socket.closing && c.tasks.heartbeatWaits == Count(c.heartbeat.waitPending)
    ensures c.heartbeat.started ==> c.heartbeat.waitPending
    ensures c.tasks.headerReads + c.tasks.payloadReads == Count(c.socket.readPending)
    ensures c.state.state == Connected ==> c.login.started && c.tasks.loginWaits == 1
  {
  }

  lemma StepKeepsAttentive(c: Conn, e: Event, banner: seq<Byte>, limit: nat)
    requires Sound(c, banner, limit) && Attentive(c) && Enabled(c, e)
    ensures Attentive(Step(c, e))
  {
    StepDoes(c, e);
    StepMovesForward(c, e);
    if IsOpen(c) {
      OpenLooks(c, banner, limit);
    } else {
      SoundStates(c, banner, limit);
    }
  }

  lemma AcceptedIsAttentive(banner: seq<Byte>, limit: nat)
    ensures Attentive(Accepted(banner, limit))
  {
    AcceptedLooks(banner, limit);
  }

  lemma RunStepAttentive(cs: seq<Conn>, es: seq<Event>, i: nat, banner: seq<Byte>, limit: nat)
    requires IsRun(cs, es) && i < |es| && Sound(cs[i], banner, limit) && Attentive(cs[i])
    ensures Attentive(cs[i + 1])
  {
    assert IsStep(cs[i], es[i], cs[i + 1]);
    StepKeepsAttentive(cs[i], es[i], banner, limit);
  }

  lemma {:induction false} RunKeepsAttentive(cs: seq<Conn>, es: seq<Event>, n: nat, banner: seq<Byte>, limit: nat)
    requires IsRun(cs, es) && n <= |es| && cs[0] == Accepted(banner, limit)
    ensures Attentive(cs[n])
  {
    if n == 0 {
      AcceptedIsAttentive(banner, limit);
    } else {
      RunKeepsAttentive(cs, es, n - 1, banner, limit);
      RunKeepsSound(cs, es, n - 1, banner, limit);
      RunStepAttentive(cs, es, n - 1, banner, limit);
    }
  }

  /** In every run of every configuration. */
  lemma AlwaysWatched(cs: seq<Conn>, es: seq<Event>, n: nat, banner: seq<Byte>, limit: nat)
    requires IsRun(cs, es) && n <= |es| && cs[0] == Accepted(banner, limit)
    ensures Watched(cs[n])
  {
    RunKeepsAttentive(cs, es, n, banner, limit);
    RunKeepsSound(cs, es, n, banner, limit);
    if IsOpen(cs[n]) {
      OpenLooks(cs[n], banner, limit);
    }
  }

  // ---------------------------------------------------------------------
  // Over runs: the laws of Heartbeats

  /** What one event means to the heartbeats of a connection; nothing before it is logged in. */
  function SignalOf(c: Conn, e: Event): H.Signal {
    if c.state.state != LoggedIn then H.NoSignal
    else if Ticks(e) then H.TickSignal
    else H.CountSignal(Hears(c, e), Sends(c, e))
  }

  function Signals(cs: seq<Conn>, es: seq<Event>): (r: seq<H.Signal>)
    requires |cs| == |es| + 1
    ensures |r| == |es|
  {
    seq(|es|, i requires 0 <= i < |es| => SignalOf(cs[i], es[i]))
  }

  /** The heartbeats of a run's first n events. */
  function BeatAt(cs: seq<Conn>, es: seq<Event>, n: nat): H.Beat
    requires |cs| == |es| + 1 && n <= |es|
  {
    H.BeatOf(Signals(cs, es)[..n])
  }

  lemma OpenGoesOn(c: Conn, e: Event, d: Conn)
    requires Enabled(c, e) && Does(c, e, d) && Attentive(c) && IsOpen(c) && IsOpen(d) && !d.socket.connectPending
    requires NotBefore(c.state.state, d.state.state) && (Ticks(e) && c.heartbeat.started ==> !Silent(c))
    requires c.heartbeat.started ==> c.heartbeat.waitPending
    ensures H.GoesOn(CLIENT_HEARTBEAT_TIMEOUT, c, SignalOf(c, e), d)
  {
  }

  lemma TimerGoesOn(c: Conn, e: Event, banner: seq<Byte>, limit: nat)
    requires Sound(c, banner, limit) && Attentive(c) && Enabled(c, e)
    ensures H.GoesOn(CLIENT_HEARTBEAT_TIMEOUT, c, SignalOf(c, e), Step(c, e))
  {
    StepMovesForward(c, e);
    SoundStates(c, banner, limit);
    StepKeepsAttentive(c, e, banner, limit);
    if IsOpen(Step(c, e)) {
      OpenTimerGoesOn(c, e, banner, limit);
    }
  }

  lemma OpenTimerGoesOn(c: Conn, e: Event, banner: seq<Byte>, limit: nat)
    requires Sound(c, banner, limit) && Attentive(c) && Enabled(c, e) && IsOpen(c) && IsOpen(Step(c, e))
    ensures H.GoesOn(CLIENT_HEARTBEAT_TIMEOUT, c, SignalOf(c, e), Step(c, e))
  {
    StepMovesForward(c, e);
    StepDoes(c, e);
    OpenLooks(c, banner, limit);
    if Ticks(e) && c.heartbeat.started {
      StaysUnsilent(c, e, banner, limit);
    }
    OpenGoesOn(c, e, Step(c, e));
  }

  /** A tick that completes the timeout ends the connection. */
  lemma StaysUnsilent(c: Conn, e: Event, banner: seq<Byte>, limit: nat)
    requires Sound(c, banner, limit) && c.heartbeat.started && Enabled(c, e) && Ticks(e) && IsOpen(Step(c, e))
    ensures !Silent(c)
  {
    StepDoes(c, e);
    StepKeepsSound(c, e, banner, limit);
    SoundReasons(Step(c, e), banner, limit);
  }

  lemma RunStepBeats(cs: seq<Conn>, es: seq<Event>, i: nat, banner: seq<Byte>, limit: nat)
    requires IsRun(cs, es) && i < |es| && cs[0] == Accepted(banner, limit)
    requires H.Beats(CLIENT_HEARTBEAT_TIMEOUT, cs[i], H.BeatOf(Signals(cs, es)[..i]))
    ensures H.Beats(CLIENT_HEARTBEAT_TIMEOUT, cs[i + 1], H.BeatOf(Signals(cs, es)[..i + 1]))
  {
    RunKeepsAttentive(cs, es, i, banner, limit);
    RunKeepsSound(cs, es, i, banner, limit);
    assert IsStep(cs[i], es[i], cs[i + 1]);
    TimerGoesOn(cs[i], es[i], banner, limit);
    H.BeatExtends(CLIENT_HEARTBEAT_TIMEOUT, cs[i], cs[i + 1], Signals(cs, es), i);
  }

  lemma StartBeats(banner: seq<Byte>, limit: nat)
    ensures H.Beats(CLIENT_HEARTBEAT_TIMEOUT, Accepted(banner, limit), H.FIRST_BEAT)
  {
    AcceptedLooks(banner, limit);
  }

  /** In every run the heartbeat timer is the one Heartbeats describes, fed with what the connection hears and sends. */
  lemma RunBeats(cs: seq<Conn>, es: seq<Event>, n: nat, banner: seq<Byte>, limit: nat)
    requires IsRun(cs, es) && n <= |es| && cs[0] == Accepted(banner, limit)
    ensures H.Beats(CLIENT_HEARTBEAT_TIMEOUT, cs[n], BeatAt(cs, es, n))
  {
    var xs := Signals(cs, es);
    var beats := seq(|cs|, i requires 0 <= i < |cs| => H.Beats(CLIENT_HEARTBEAT_TIMEOUT, cs[i], H.BeatOf(xs[..i])));
    StartBeats(banner, limit);
    forall i | 0 <= i < |beats| - 1 && beats[i] ensures beats[i + 1] {
      RunStepBeats(cs, es, i, banner, limit);
    }
    HoldsThroughout(beats, n);
  }

  /** What a tick does. */
  lemma TickDoes(c: Conn, e: Event, banner: seq<Byte>, limit: nat)
    requires Sound(c, banner, limit) && c.state.state == LoggedIn && c.heartbeat.started && Enabled(c, e) && Ticks(e)
    ensures if Silent(c) then Step(c, e).state == ConnState(Disconnected, HeartbeatTimeout)
            else Step(c, e).state == c.state
                 && Step(c, e).socket.queue == c.socket.queue + if Paces(c) then WithRoom(c, SERVER_HEARTBEAT) else []
  {
    HeartbeatWaitGives(c, false, SERVER_HEARTBEAT);
    SoundReasons(c, banner, limit);
    StepKeepsSound(c, e, banner, limit);
    SoundReasons(Step(c, e), banner, limit);
    StepMovesForward(c, e);
  }

  /**
   * A tick of a logged-in connection, in every run: it is dropped for the silence exactly when nothing was heard in the
   * last fifteen intervals, and otherwise a heartbeat is queued, room permitting, exactly when nothing was sent in the
   * last.
   */
  lemma TickLaw(cs: seq<Conn>, es: seq<Event>, n: nat, banner: seq<Byte>, limit: nat)
    requires IsRun(cs, es) && n < |es| && cs[0] == Accepted(banner, limit)
    requires cs[n].state.state == LoggedIn && Ticks(es[n])
    ensures var b := BeatAt(cs, es, n);
            if H.SilentTail(b.done + [b.open], 15)
            then cs[n + 1].state == ConnState(Disconnected, HeartbeatTimeout)
            else cs[n + 1].state == cs[n].state
                 && cs[n + 1].socket.queue
                    == cs[n].socket.queue + if b.open.sends == 0 then WithRoom(cs[n], SERVER_HEARTBEAT) else []
  {
    RunKeepsAttentive(cs, es, n, banner, limit);
    RunKeepsSound(cs, es, n, banner, limit);
    RunBeats(cs, es, n, banner, limit);
    assert IsStep(cs[n], es[n], cs[n + 1]);
    H.TickAsks(CLIENT_HEARTBEAT_TIMEOUT, cs[n], BeatAt(cs, es, n));
    TickDoes(cs[n], es[n], banner, limit);
  }

  /** What holds at the end of any run, together. */
  lemma RunLaws(cs: seq<Conn>, es: seq<Event>, banner: seq<Byte>, limit: nat)
    requires IsRun(cs, es) && cs[0] == Accepted(banner, limit)
    ensures Watched(cs[|es|])
    ensures forall k, r | FirstCause(cs, es, k, r) ::
              cs[|es|].state.reason == r && (cs[|es|].reported == [] || cs[|es|].reported == [r])
  {
    AlwaysWatched(cs, es, |es|, banner, limit);
    forall k, r | FirstCause(cs, es, k, r)
      ensures cs[|es|].state.reason == r && (cs[|es|].reported == [] || cs[|es|].reported == [r])
    {
      ReportsFirstCause(cs, es, k, r, banner, limit);
    }
  }
}
