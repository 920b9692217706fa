/** The two ends of a TCP connection, each on its event loop, as the two ends of a link of the session. */
module Refinement {
  import opened Types
  import opened Packing
  import opened LogicalPackets
  import opened RwPackets
  import opened Lifecycle
  import opened Session
  import C = ClientSession
  import CL = ClientLifecycle
  import SL = ServerLifecycle
  import S = ServerSession
  import CE = ClientEvents

  // ---------------------------------------------------------------------
  // The client's end

  /** The packet has the layout of its type. */
  predicate ForClient(p: Packet) {
    || p.packetType == CL.DEBUG || p.packetType == CL.SEQUENCED_DATA
    || (p.packetType == CL.LOGIN_ACCEPTED && |p.payload| == LOGIN_ACCEPTED_SIZE)
    || (p.packetType == CL.LOGIN_REJECTED && |p.payload| == 1)
    || ((p.packetType == CL.SERVER_HEARTBEAT || p.packetType == CL.END_OF_SESSION) && p.payload == [])
  }

  /** What a packet is in a stream; the number a message was given does not travel. */
  predicate Carries(d: Down, p: Packet) {
    match d
    case AcceptedDown(r) => p.packetType == CL.LOGIN_ACCEPTED && |p.payload| == LOGIN_ACCEPTED_SIZE
                            && r == ReadLoginAccepted(FRESH_LOGIN_ACCEPTED, p.payload)
    case RejectedDown => p.packetType == CL.LOGIN_REJECTED
    case DataDown(data, _) => p.packetType == CL.SEQUENCED_DATA && p.payload == data
    case EndDown => p.packetType == CL.END_OF_SESSION
    case HeartbeatDown => p.packetType == CL.SERVER_HEARTBEAT
    case DebugDown => p.packetType == CL.DEBUG
  }

  /** What the connection that owns link c knows and answers while packet p is processed. */
  function OwnerOf(s: System, c: C.Cid, p: Packet): CL.Owner
    requires Wired(s) && c < |s.links|
  {
    var conn := s.conns[s.links[c].owner];
    CL.Owner(conn.hasSessionEnded,
             if p.packetType == CL.LOGIN_ACCEPTED && |p.payload| == LOGIN_ACCEPTED_SIZE
             then
               C.LoginVerdict(conn, ClientOf(s, s.links[c].owner), ReadLoginAccepted(FRESH_LOGIN_ACCEPTED, p.payload))
             else NoReason)
  }

  /** `tcp` is the client's end of link c, and has not been reported closed. */
  predicate IsClientEnd(s: System, c: C.Cid, tcp: Conn) {
    && Wired(s) && c < |s.links| && s.conns[s.links[c].owner].tcp == Some(c)
    && s.links[c].state == tcp.state && tcp.reported == []
  }

  /** A packet that is read is the next one on the link, and its owner answers as the link's connection does. */
  predicate ClientReads(s: System, c: C.Cid, tcp: Conn, e: CL.Event)
    requires Wired(s) && c < |s.links|
  {
    match CL.PacketRead(tcp, e)
    case None => true
    case Some((p, owner)) =>
      && owner == OwnerOf(s, c, p)
      && (ForClient(p) ==> s.links[c].down != [] && Carries(s.links[c].down[0], p))
  }

  function ClientStep(c: C.Cid, tcp: Conn, e: CL.Event): Option<Step>
    requires CL.Enabled(tcp, e)
  {
    match CL.PacketRead(tcp, e)
    case Some((p, _)) => Some(if ForClient(p) then ToClient(c) else ClientDrop(c, ProtocolViolation))
    case None =>
      if e.ConnectEvent? && e.connect.ConnectSucceeded?
      then Some(ConnectOk(c, tcp.socket.AsyncWriteError() == NoWriteError))
      else QuietStep(c, tcp, CL.Step(tcp, e))
  }

  function QuietStep(c: C.Cid, tcp: Conn, next: Conn): Option<Step> {
    if next.reported != [] then Some(ClientClosed(c))
    else if next.state == tcp.state then None
    else Some(ClientDrop(c, next.state.reason))
  }

  /** Link c's client end is in t as it is in s, but for its state. */
  predicate ClientEndAs(s: System, t: System, c: C.Cid, state: ConnState)
    requires c < |s.links| && s.links[c].owner < |s.conns|
  {
    var i := s.links[c].owner;
    && c < |t.links| && t.links[c].state == state && t.links[c].owner == i
    && |t.conns| == |s.conns| && t.conns[i].tcp == s.conns[i].tcp
  }

  lemma StepKeepsWired(s: System, step: Step, initial: seq<nat>)
    requires Inv(s, initial) && Enabled(s, step)
    ensures Wired(Apply(s, step))
  {
    StepKeeps(s, step, initial);
  }

  lemma KeptIsEnd(s: System, c: C.Cid, step: Step, next: Conn, initial: seq<nat>)
    requires Inv(s, initial) && c < |s.links| && s.conns[s.links[c].owner].tcp == Some(c) && Enabled(s, step)
    requires ClientEndAs(s, Apply(s, step), c, next.state) && next.reported == []
    ensures IsClientEnd(Apply(s, step), c, next)
  {
    StepKeepsWired(s, step, initial);
  }

  /** A new link's client end is a TCP connection just opened. */
  lemma OpenedIsClientEnd(s: System, step: Step, limit: nat, initial: seq<nat>)
    requires Inv(s, initial) && Enabled(s, step) && (step.Connect? || step.TimerFires?)
    ensures IsClientEnd(Apply(s, step), |s.links|, CL.Opened(limit, false)) && CL.Inv(CL.Opened(limit, false))
  {
    StepKeepsWired(s, step, initial);
    CL.OpenedInv(limit, false);
    assert WiredConn(s, step.i, s.conns[step.i]);
  }

  lemma PacketAtClient(s: System, c: C.Cid, tcp: Conn, p: Packet)
    requires IsClientEnd(s, c, tcp) && tcp.state.state in {Connected, LoggedIn} && tcp.state.reason == NoReason
    requires ForClient(p) && s.links[c].down != [] && Carries(s.links[c].down[0], p)
    ensures ClientEndAs(s, Delivered(s, c), c, CL.StateAfter(tcp, p, OwnerOf(s, c, p)))
  {
  }

  lemma DropAtClient(s: System, c: C.Cid, reason: DisconnectReason)
    requires Wired(s) && c < |s.links| && Open(s.links[c]) && FromOutside(reason)
    ensures Enabled(s, ClientDrop(c, reason))
    ensures ClientEndAs(s, Apply(s, ClientDrop(c, reason)), c, s.links[c].state.Disconnect(reason))
  {
  }

  lemma ReadingStates(tcp: Conn, e: CL.Event)
    requires CL.Inv(tcp) && tcp.reported == [] && CL.Enabled(tcp, e) && CL.PacketRead(tcp, e).Some?
    ensures tcp.state.state in {Connected, LoggedIn} && tcp.state.reason == NoReason
  {
  }

  /** What the step an event comes to, if any, does to the session. */
  predicate ClientFollows(s: System, c: C.Cid, step: Option<Step>, next: Conn) {
    match step
    case None => IsClientEnd(s, c, next)
    case Some(t) =>
      && Wired(s) && Enabled(s, t)
      && if next.reported == [] then IsClientEnd(Apply(s, t), c, next) else t == ClientClosed(c)
  }

  lemma ClientReadFollows(s: System, c: C.Cid, tcp: Conn, p: Packet, next: Conn, initial: seq<nat>)
    requires Inv(s, initial) && IsClientEnd(s, c, tcp) && tcp.state.state in {Connected, LoggedIn}
    requires tcp.state.reason == NoReason && (ForClient(p) ==> s.links[c].down != [] && Carries(s.links[c].down[0], p))
    requires next.state == CL.StateAfter(tcp, p, OwnerOf(s, c, p)) && next.reported == []
    ensures ClientFollows(s, c, Some(if ForClient(p) then ToClient(c) else ClientDrop(c, ProtocolViolation)), next)
  {
    if ForClient(p) {
      PacketAtClient(s, c, tcp, p);
      KeptIsEnd(s, c, ToClient(c), next, initial);
    } else {
      ClientDisconnectFollows(s, c, tcp, ProtocolViolation, next, initial);
    }
  }

  lemma ClientConnectFollows(s: System, c: C.Cid, tcp: Conn, room: bool, next: Conn, initial: seq<nat>)
    requires Inv(s, initial) && IsClientEnd(s, c, tcp) && tcp.state.state == Connecting
    requires next.state == tcp.state.(state := Connected) && next.reported == []
    ensures ClientFollows(s, c, Some(ConnectOk(c, room)), next)
  {
    KeptIsEnd(s, c, ConnectOk(c, room), next, initial);
  }

  lemma ClientDisconnectFollows(s: System, c: C.Cid, tcp: Conn, reason: DisconnectReason, next: Conn, initial: seq<nat>)
    requires Inv(s, initial) && IsClientEnd(s, c, tcp) && !tcp.state.IsClosing() && FromOutside(reason)
    requires next.state == tcp.state.Disconnect(reason) && next.reported == []
    ensures ClientFollows(s, c, Some(ClientDrop(c, reason)), next)
  {
    DropAtClient(s, c, reason);
    KeptIsEnd(s, c, ClientDrop(c, reason), next, initial);
  }

  lemma DropIsDisconnect(state: ConnState, next: ConnState)
    requires DropsAtMost(state, next) && next != state && (!state.IsClosing() ==> state.reason == NoReason)
    requires state.state != Disconnecting
    ensures !state.IsClosing() && FromOutside(next.reason) && next == state.Disconnect(next.reason)
  {
  }

  lemma ClientDropFollows(s: System, c: C.Cid, tcp: Conn, next: Conn, initial: seq<nat>)
    requires Inv(s, initial) && IsClientEnd(s, c, tcp) && DropsAtMost(tcp.state, next.state)
    requires next.reported != [] ==> next.state == tcp.state && tcp.state.state == Disconnected
    requires tcp.state.state != Disconnected ==> tcp.state.state != Disconnecting && tcp.state.reason == NoReason
    ensures ClientFollows(s, c, QuietStep(c, tcp, next), next)
  {
    if next.reported != [] {
      assert Enabled(s, ClientClosed(c));
    } else if next.state != tcp.state {
      DropIsDisconnect(tcp.state, next.state);
      ClientDisconnectFollows(s, c, tcp, next.state.reason, next, initial);
      assert QuietStep(c, tcp, next) == Some(ClientDrop(c, next.state.reason));
    }
  }

  lemma EndsWithoutReason(s: System, c: C.Cid, tcp: Conn, initial: seq<nat>)
    requires Inv(s, initial) && IsClientEnd(s, c, tcp)
    ensures tcp.state.state != Disconnected ==> tcp.state.state != Disconnecting && tcp.state.reason == NoReason
  {
    assert LinkInv(s, c);
  }

  lemma ClientOtherFollows(s: System, c: C.Cid, tcp: Conn, e: CL.Event, initial: seq<nat>)
    requires Inv(s, initial) && IsClientEnd(s, c, tcp) && CL.Inv(tcp) && CL.Enabled(tcp, e)
    requires CL.PacketRead(tcp, e).None? && !(e.ConnectEvent? && e.connect.ConnectSucceeded?)
    ensures ClientFollows(s, c, QuietStep(c, tcp, CL.Step(tcp, e)), CL.Step(tcp, e))
  {
    EndsWithoutReason(s, c, tcp, initial);
    CL.OtherDrops(tcp, e);
    if CL.Step(tcp, e).reported != [] {
      CL.ReportedIsDisconnected(tcp, e);
    }
    ClientDropFollows(s, c, tcp, CL.Step(tcp, e), initial);
  }

  /**
   * Each event of a client's TCP connection is a step of the session, or nothing to it. The exception is a connect that
   * succeeds on a connection already disconnected.
   */
  lemma ClientRefines(s: System, c: C.Cid, tcp: Conn, e: CL.Event, initial: seq<nat>)
    requires Inv(s, initial) && IsClientEnd(s, c, tcp) && CL.Inv(tcp)
    requires CL.Enabled(tcp, e) && ClientReads(s, c, tcp, e) && !CL.LateSuccess(tcp, e)
    ensures ClientFollows(s, c, ClientStep(c, tcp, e), CL.Step(tcp, e))
  {
    if CL.PacketRead(tcp, e).Some? {
      ReadingStates(tcp, e);
      CL.ReadMoves(tcp, e);
      ClientReadFollows(s, c, tcp, CL.PacketRead(tcp, e).value.0, CL.Step(tcp, e), initial);
    } else if e.ConnectEvent? && e.connect.ConnectSucceeded? {
      CL.ConnectWaitStates(tcp);
      CL.ConnectMoves(tcp, e.connect);
      ClientConnectFollows(s, c, tcp, tcp.socket.AsyncWriteError() == NoWriteError, CL.Step(tcp, e), initial);
    } else {
      ClientOtherFollows(s, c, tcp, e, initial);
    }
  }

  /** The steps that are link c's own at its client's end. */
  predicate OfClientEnd(step: Step, c: C.Cid) {
    match step
    case ConnectOk(d, _) => d == c
    case ToClient(d) => d == c
    case ClientDrop(d, _) => d == c
    case ClientClosed(d) => d == c
    case _ => false
  }

  lemma DeliveredElsewhere(s: System, d: C.Cid, c: C.Cid)
    requires Wired(s) && Enabled(s, ToClient(d)) && c < |s.links| && d != c
    ensures ClientEndAs(s, Delivered(s, d), c, s.links[c].state)
  {
  }

  lemma ProcessedElsewhere(s: System, d: C.Cid, room: bool, c: C.Cid)
    requires Wired(s) && Enabled(s, ToServer(d, room)) && c < |s.links|
    ensures ClientEndAs(s, Processed(s, d, room), c, s.links[c].state)
  {
  }

  lemma SentElsewhere(s: System, step: Step, c: C.Cid)
    requires Wired(s) && Enabled(s, step) && (step.SendMessage? || step.EndSession?) && c < |s.links|
    ensures ClientEndAs(s, Apply(s, step), c, s.links[c].state)
  {
  }

  lemma ElsewhereKept(s: System, step: Step, c: C.Cid)
    requires Wired(s) && c < |s.links| && s.conns[s.links[c].owner].tcp == Some(c) && Enabled(s, step)
    requires !OfClientEnd(step, c)
    ensures ClientEndAs(s, Apply(s, step), c, s.links[c].state)
  {
    assert WiredLink(s, c, s.links[c]) && WiredConn(s, s.links[c].owner, s.conns[s.links[c].owner]);
    match step
    case ToClient(d) => DeliveredElsewhere(s, d, c);
    case ToServer(d, room) => ProcessedElsewhere(s, d, room, c);
    case SendMessage(_, _, _, _) => SentElsewhere(s, step, c);
    case EndSession(_, _, _) => SentElsewhere(s, step, c);
    case _ =>
  }

  /** No other step touches it. */
  lemma OthersLeaveClient(s: System, c: C.Cid, tcp: Conn, step: Step, initial: seq<nat>)
    requires Inv(s, initial) && IsClientEnd(s, c, tcp) && Enabled(s, step) && !OfClientEnd(step, c)
    ensures IsClientEnd(Apply(s, step), c, tcp)
  {
    ElsewhereKept(s, step, c);
    KeptIsEnd(s, c, step, tcp, initial);
  }

  // ---------------------------------------------------------------------
  // The server's end

  /** What a packet with the layout of its type is in a stream. */
  function ForServer(p: Packet): Option<Up> {
    if p.packetType == SL.DEBUG then Some(DebugUp)
    else if p.packetType == SL.UNSEQUENCED_DATA then Some(OtherUp)
    else if p.packetType == SL.LOGIN_REQUEST && |p.payload| == LOGIN_REQUEST_SIZE
    then Some(RequestUp(ReadLoginRequest(FRESH_LOGIN_REQUEST, p.payload)))
    else if p.packetType == SL.CLIENT_HEARTBEAT && p.payload == [] then Some(OtherUp)
    else if p.packetType == SL.LOGOUT_REQUEST && p.payload == [] then Some(LogoutUp)
    else None
  }

  function AcceptorOf(s: System, c: C.Cid): S.Acceptor
    requires Wired(s) && c < |s.links|
  {
    s.acceptors[s.links[c].endpoint]
  }

  /** `tcp` is the server's end of link c, and has not been reported closed. */
  predicate IsServerEnd(s: System, c: C.Cid, tcp: Conn) {
    Wired(s) && Serves(s, c) && AcceptorOf(s, c).connections[c].state == tcp.state && tcp.reported == []
  }

  /** A packet that is read is the next one on the link, and a login request gets the acceptor's answer. */
  predicate ServerHears(s: System, c: C.Cid, p: Packet, accepted: bool)
    requires Wired(s) && c < |s.links|
  {
    ForServer(p).Some? ==>
      && s.links[c].up != [] && s.links[c].up[0] == ForServer(p).value
      && (ForServer(p).value.RequestUp? ==>
            accepted == S.Answer(AcceptorOf(s, c), ForServer(p).value.request).LoginOk?)
  }

  predicate ServerReads(s: System, c: C.Cid, tcp: Conn, e: SL.Event)
    requires Wired(s) && c < |s.links|
  {
    match SL.PacketRead(tcp, e)
    case None => true
    case Some(p) => ServerHears(s, c, p, SL.Accepts(e))
  }

  function ServerStep(c: C.Cid, tcp: Conn, e: SL.Event): Option<Step>
    requires SL.Enabled(tcp, e)
  {
    match SL.PacketRead(tcp, e)
    case Some(p) =>
      Some(if ForServer(p).Some? then ToServer(c, tcp.socket.AsyncWriteError() == NoWriteError)
           else ServerDrop(c, ProtocolViolation))
    case None => OtherStep(c, tcp, SL.Step(tcp, e))
  }

  function OtherStep(c: C.Cid, tcp: Conn, next: Conn): Option<Step> {
    if next.reported != [] then Some(ServerClosed(c))
    else if next.state == tcp.state then None
    else Some(ServerDrop(c, if tcp.state.reason == NoReason then next.state.reason else UnmanagedAbort))
  }

  /** What the step an event comes to, if any, does to the session. */
  predicate ServerFollows(s: System, c: C.Cid, step: Option<Step>, next: Conn) {
    match step
    case None => IsServerEnd(s, c, next)
    case Some(t) =>
      && Wired(s) && Enabled(s, t)
      && if next.reported == [] then IsServerEnd(Apply(s, t), c, next) else t == ServerClosed(c)
  }

  /** An accepted link's server end is a connection just accepted. */
  lemma AcceptedIsServerEnd(s: System, c: C.Cid, banner: seq<Byte>, limit: nat, initial: seq<nat>)
    requires Inv(s, initial) && Enabled(s, AcceptLink(c))
    ensures IsServerEnd(Apply(s, AcceptLink(c)), c, SL.Accepted(banner, limit))
    ensures SL.Sound(SL.Accepted(banner, limit), banner, limit)
  {
    StepKeepsWired(s, AcceptLink(c), initial);
    SL.AcceptedInv(banner, limit);
    SL.AcceptedLooks(banner, limit);
  }

  lemma PacketAtServer(s: System, c: C.Cid, tcp: Conn, p: Packet, accepted: bool, room: bool)
    requires IsServerEnd(s, c, tcp) && tcp.state.state in {Connected, LoggedIn}
    requires ForServer(p).Some? && ServerHears(s, c, p, accepted)
    ensures Enabled(s, ToServer(c, room))
    ensures ServedAs(s, Processed(s, c, room), c, SL.StateAfter(tcp, p, accepted))
  {
  }

  /** Link c is served in t as it is in s, but for its connection's state. */
  predicate ServedAs(s: System, t: System, c: C.Cid, state: ConnState)
    requires Wired(s) && Serves(s, c)
  {
    && |t.links| >= |s.links| && t.links[c].endpoint == s.links[c].endpoint && t.links[c].accepted
    && |t.acceptors| == |s.acceptors|
    && var live := t.acceptors[s.links[c].endpoint].connections; c in live && live[c].state == state
  }

  lemma ServedIsEnd(s: System, c: C.Cid, step: Step, next: Conn, initial: seq<nat>)
    requires Inv(s, initial) && Serves(s, c) && Enabled(s, step)
    requires ServedAs(s, Apply(s, step), c, next.state) && next.reported == []
    ensures IsServerEnd(Apply(s, step), c, next)
  {
    StepKeepsWired(s, step, initial);
  }

  lemma PacketFollows(s: System, c: C.Cid, tcp: Conn, p: Packet, accepted: bool, room: bool, next: Conn,
                      initial: seq<nat>)
    requires Inv(s, initial) && IsServerEnd(s, c, tcp) && tcp.state.state in {Connected, LoggedIn}
    requires ForServer(p).Some? && ServerHears(s, c, p, accepted)
    requires next.state == SL.StateAfter(tcp, p, accepted) && next.reported == []
    ensures ServerFollows(s, c, Some(ToServer(c, room)), next)
  {
    PacketAtServer(s, c, tcp, p, accepted, room);
    ServedIsEnd(s, c, ToServer(c, room), next, initial);
  }

  lemma DropFollows(s: System, c: C.Cid, tcp: Conn, reason: DisconnectReason, next: Conn, initial: seq<nat>)
    requires Inv(s, initial) && IsServerEnd(s, c, tcp) && FromOutside(reason)
    requires next.state == tcp.state.Disconnect(reason) && next.reported == []
    ensures ServerFollows(s, c, Some(ServerDrop(c, reason)), next)
  {
    ServedIsEnd(s, c, ServerDrop(c, reason), next, initial);
  }

  lemma ServerReadFollows(s: System, c: C.Cid, tcp: Conn, p: Packet, accepted: bool, room: bool, next: Conn,
                          initial: seq<nat>)
    requires Inv(s, initial) && IsServerEnd(s, c, tcp) && tcp.state.state in {Connected, LoggedIn}
    requires ServerHears(s, c, p, accepted)
    requires next.state == SL.StateAfter(tcp, p, accepted) && next.reported == []
    ensures var step := if ForServer(p).Some? then ToServer(c, room) else ServerDrop(c, ProtocolViolation);
            ServerFollows(s, c, Some(step), next)
  {
    if ForServer(p).Some? {
      PacketFollows(s, c, tcp, p, accepted, room, next, initial);
    } else {
      DropFollows(s, c, tcp, ProtocolViolation, next, initial);
    }
  }

  lemma OtherIsDisconnect(c: C.Cid, tcp: Conn, next: Conn) returns (reason: DisconnectReason)
    requires DropsAtMost(tcp.state, next.state) && next.state != tcp.state && next.reported == []
    ensures OtherStep(c, tcp, next) == Some(ServerDrop(c, reason))
    ensures FromOutside(reason) && next.state == tcp.state.Disconnect(reason)
  {
    reason := if tcp.state.reason == NoReason then next.state.reason else UnmanagedAbort;
  }

  lemma ServerDropFollows(s: System, c: C.Cid, tcp: Conn, next: Conn, initial: seq<nat>)
    requires Inv(s, initial) && IsServerEnd(s, c, tcp) && DropsAtMost(tcp.state, next.state)
    requires next.reported != [] ==> next.state == tcp.state && tcp.state.state == Disconnected
    ensures ServerFollows(s, c, OtherStep(c, tcp, next), next)
  {
    if next.reported != [] {
      assert Enabled(s, ServerClosed(c));
    } else if next.state != tcp.state {
      var reason := OtherIsDisconnect(c, tcp, next);
      DropFollows(s, c, tcp, reason, next, initial);
    }
  }

  lemma ReportedState(tcp: Conn, e: SL.Event, banner: seq<Byte>, limit: nat)
    requires SL.Sound(tcp, banner, limit) && SL.Enabled(tcp, e) && SL.Step(tcp, e).reported != []
    ensures SL.Step(tcp, e).state.state == Disconnected
  {
    SL.StepKeepsSound(tcp, e, banner, limit);
    SL.SoundStates(SL.Step(tcp, e), banner, limit);
  }

  /**
   * Each event of an accepted connection is a step of the session, or nothing to it; the reply to a login has room
   * exactly if the connection's queue has. Being superseded is part of another connection's login.
   */
  lemma ServerRefines(s: System, c: C.Cid, tcp: Conn, e: SL.Event, initial: seq<nat>, banner: seq<Byte>, limit: nat)
    requires Inv(s, initial) && IsServerEnd(s, c, tcp) && SL.Sound(tcp, banner, limit)
    requires SL.Enabled(tcp, e) && ServerReads(s, c, tcp, e) && !e.SupersedeCall?
    ensures ServerFollows(s, c, ServerStep(c, tcp, e), SL.Step(tcp, e))
  {
    if SL.PacketRead(tcp, e).Some? {
      SL.SoundStates(tcp, banner, limit);
      SL.ReadMoves(tcp, e);
      ServerReadFollows(s, c, tcp, SL.PacketRead(tcp, e).value, SL.Accepts(e),
                        tcp.socket.AsyncWriteError() == NoWriteError, SL.Step(tcp, e), initial);
    } else {
      SL.OtherDrops(tcp, e);
      if SL.Step(tcp, e).reported != [] {
        ReportedState(tcp, e, banner, limit);
      }
      ServerDropFollows(s, c, tcp, SL.Step(tcp, e), initial);
    }
  }

  /** The steps that are link c's own at its server's end. */
  predicate OfServerEnd(step: Step, c: C.Cid) {
    match step
    case ToServer(d, _) => d == c
    case ServerDrop(d, _) => d == c
    case ServerClosed(d) => d == c
    case _ => false
  }

  /** In this step another connection logs in at link c's port. */
  predicate Supersedes(s: System, step: Step, c: C.Cid)
    requires Wired(s) && Serves(s, c) && Enabled(s, step)
  {
    && step.ToServer? && step.c != c && s.links[step.c].endpoint == s.links[c].endpoint
    && s.links[step.c].up[0].RequestUp? && ServerState(s, step.c) == Connected
    && var a, request := AcceptorOf(s, c), s.links[step.c].up[0].request;
       && S.Answer(a, request).LoginOk?
       && a.ports[S.FindPort(a.ports, request.username).value].connection == Some(c)
  }

  function AfterOther(s: System, step: Step, c: C.Cid): ConnState
    requires Wired(s) && Serves(s, c) && Enabled(s, step)
  {
    var state := AcceptorOf(s, c).connections[c].state;
    if Supersedes(s, step, c) then state.Disconnect(Superseded) else state
  }

  lemma ProcessedBeside(s: System, d: C.Cid, room: bool, c: C.Cid)
    requires Wired(s) && Serves(s, c) && Enabled(s, ToServer(d, room)) && d != c
    ensures ServedAs(s, Processed(s, d, room), c, AfterOther(s, ToServer(d, room), c))
  {
  }

  lemma DeliveredBeside(s: System, d: C.Cid, c: C.Cid)
    requires Wired(s) && Serves(s, c) && Enabled(s, ToClient(d))
    ensures ServedAs(s, Delivered(s, d), c, AfterOther(s, ToClient(d), c))
  {
  }

  lemma SentBeside(s: System, step: Step, c: C.Cid)
    requires Wired(s) && Serves(s, c) && Enabled(s, step) && (step.SendMessage? || step.EndSession?)
    ensures ServedAs(s, Apply(s, step), c, AfterOther(s, step, c))
  {
  }

  lemma ServedBeside(s: System, step: Step, c: C.Cid)
    requires Wired(s) && Serves(s, c) && Enabled(s, step) && !OfServerEnd(step, c)
    ensures ServedAs(s, Apply(s, step), c, AfterOther(s, step, c))
  {
    match step
    case ToClient(d) => DeliveredBeside(s, d, c);
    case ToServer(d, room) => ProcessedBeside(s, d, room, c);
    case SendMessage(_, _, _, _) => SentBeside(s, step, c);
    case EndSession(_, _, _) => SentBeside(s, step, c);
    case _ =>
  }

  /** No other step touches it, unless it is to be superseded. */
  lemma OthersLeaveServer(s: System, c: C.Cid, tcp: Conn, step: Step, initial: seq<nat>)
    requires Inv(s, initial) && IsServerEnd(s, c, tcp) && Enabled(s, step) && !OfServerEnd(step, c)
    ensures SL.Enabled(tcp, SL.SupersedeCall)
    ensures IsServerEnd(Apply(s, step), c, if Supersedes(s, step, c) then SL.Step(tcp, SL.SupersedeCall) else tcp)
  {
    var next := if Supersedes(s, step, c) then SL.Step(tcp, SL.SupersedeCall) else tcp;
    assert next.state == AfterOther(s, step, c) && next.reported == [];
    ServedBeside(s, step, c);
    ServedIsEnd(s, c, step, next, initial);
  }

  // ---------------------------------------------------------------------
  // What one end sends is what the other reads

  function RequestPacket(request: LoginRequest): Packet
    requires request.nextSequenceNumber < TWO_TO_THE_64
  {
    Packet(SL.LOGIN_REQUEST, LoginRequestPayload(request))
  }

  function AcceptedPacket(response: LoginAccepted): Packet
    requires response.nextSequenceNumber < TWO_TO_THE_64
  {
    Packet(CL.LOGIN_ACCEPTED, LoginAcceptedPayload(response))
  }

  /** The server reads a client's request, data and heartbeat as what they are. */
  lemma ServerReadsClient(request: LoginRequest, data: seq<Byte>)
    requires ValidLoginRequest(request) && request.nextSequenceNumber < TWO_TO_THE_64
    ensures ForServer(RequestPacket(request)) == Some(RequestUp(request))
    ensures ForServer(Packet(CL.UNSEQUENCED_DATA, data)) == Some(OtherUp)
    ensures ForServer(CL.CLIENT_HEARTBEAT) == Some(OtherUp)
    ensures ForServer(Packet(CL.DEBUG, data)) == Some(DebugUp)
  {
    LoginRequestRoundTrip(request);
  }

  /** And a client a server's reply, message, heartbeat and end of session. */
  lemma ClientReadsServer(response: LoginAccepted, data: seq<Byte>, number: nat)
    requires ValidField(response.session, SESSION_LENGTH) && response.nextSequenceNumber < TWO_TO_THE_64
    ensures ForClient(AcceptedPacket(response)) && Carries(AcceptedDown(response), AcceptedPacket(response))
    ensures ForClient(Packet(SL.SEQUENCED_DATA, data))
    ensures Carries(DataDown(data, number), Packet(SL.SEQUENCED_DATA, data))
    ensures ForClient(SL.SERVER_HEARTBEAT) && Carries(HeartbeatDown, SL.SERVER_HEARTBEAT)
    ensures ForClient(SL.END_OF_SESSION) && Carries(EndDown, SL.END_OF_SESSION)
    ensures ForClient(Packet(SL.DEBUG, data)) && Carries(DebugDown, Packet(SL.DEBUG, data))
  {
    LoginAcceptedRoundTrip(response);
  }

  // ---------------------------------------------------------------------
  // The cause that ends a TCP connection decides whether it is retried

  /**
   * A client's TCP connection is reported closed for the first cause an event gave it, and its owner, after any run of
   * its own, then arms the timer exactly when its client runs and the cause is one that may pass.
   */
  lemma RetriedByFirstCause(
      cs: seq<Conn>, es: seq<CL.Event>, k: nat, r: DisconnectReason, limit: nat, l: C.Line, ops: seq<C.Op>)
    requires CL.IsRun(cs, es) && cs[0] == CL.Opened(limit, false) && CE.FirstCause(cs, es, k, r)
    requires cs[|es|].reported != [] && C.NewLine(l) && C.Run(l, ops).conn.tcp.Some?
    ensures cs[|es|].reported == [r]
    ensures C.Run(l, ops + [C.TcpClosed(cs[|es|].reported[0])]).conn.timer.started
       <==> C.Run(l, ops).client.started
            && r in {PeerClosed, ConnectFailure, TransportError, LoginTimeout, HeartbeatTimeout}
  {
    CE.ReportsFirstCause(cs, es, k, r, limit);
    C.RetryExact(l, ops, r);
  }

  /** So a login that is not answered in time is retried while the client runs. */
  lemma LoginTimeoutRetried(cs: seq<Conn>, es: seq<CL.Event>, k: nat, limit: nat, l: C.Line, ops: seq<C.Op>)
    requires CL.IsRun(cs, es) && cs[0] == CL.Opened(limit, false) && k < |es|
    requires es[k] == CL.LoginWaitEvent(false) && cs[k].state == ConnState(Connected, NoReason)
    requires cs[|es|].reported != [] && C.NewLine(l) && C.Run(l, ops).conn.tcp.Some? && C.Run(l, ops).client.started
    ensures cs[|es|].reported == [LoginTimeout]
    ensures C.Run(l, ops + [C.TcpClosed(LoginTimeout)]).conn.timer.started
  {
    CE.LoginWaitIsFirst(cs, es, k, limit);
    RetriedByFirstCause(cs, es, k, LoginTimeout, limit, l, ops);
  }
}
