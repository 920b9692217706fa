/** Clients, servers and the streams between them, as one transition system. */
module Session {
  import opened Types
  import opened LogicalPackets
  import opened Lifecycle
  import opened ClientSession
  import S = ServerSession

  type Data = seq<Byte>

  /** `OtherUp`: unsequenced data and heartbeats. */
  datatype Up = RequestUp(request: LoginRequest) | LogoutUp | OtherUp | DebugUp

  /** `number` is the number the port gave the message; it does not travel and no client reads it. */
  datatype Down =
    | AcceptedDown(response: LoginAccepted)
    | RejectedDown
    | DataDown(data: Data, number: nat)
    | EndDown
    | HeartbeatDown
    | DebugDown

  /** A message a port sent, to which client and under which number. */
  datatype Message = Message(client: nat, number: nat, data: Data)

  /**
   * A TCP connection: the client's end, and what is queued or in transit each way. `refused`: the server's reply to the
   * login found no room in its queue and was dropped.
   */
  datatype Link = Link(
    endpoint: nat, owner: nat, client: nat, state: ConnState, accepted: bool, up: seq<Up>, down: seq<Down>,
    refused: bool)

  /** Which client a connection belongs to, and which acceptor it connects to. */
  datatype Owner = Owner(client: nat, endpoint: nat)

  datatype System = System(
    acceptors: seq<S.Acceptor>, clients: seq<Client>, conns: seq<Connection>, owners: seq<Owner>,
    links: seq<Link>, sent: set<Message>)

  /**
   * `room` says whether the queue takes the packet the step writes: ClientLifecycle.RequestFitsExactly and
   * ServerLifecycle.ReplyFitsExactly say for which limits a login request or its reply is never refused.
   * Starting and stopping only set the flag here: the connects and closes they cause are steps of their own.
   */
  datatype Step =
    | StartClient(k: nat)
    | StopClient(k: nat)
    | Connect(i: nat)
    | TimerFires(i: nat)
    | CloseConnection(i: nat)
    | ConnectOk(c: Cid, room: bool)
    | AcceptLink(c: Cid)
    | ToServer(c: Cid, room: bool)
    | ToClient(c: Cid)
    | ClientSends(c: Cid, u: Up)
    | SendMessage(e: nat, p: nat, data: Data, room: bool)
    | ServerSends(c: Cid, d: Down)
    | EndSession(e: nat, p: nat, room: bool)
    | ServerDrop(c: Cid, reason: DisconnectReason)
    | ServerClosed(c: Cid)
    | ClientDrop(c: Cid, reason: DisconnectReason)
    | ClientClosed(c: Cid)

  predicate Open(l: Link) { l.state.state in {Connecting, Connected, LoggedIn} }

  // ---------------------------------------------------------------------
  // The system is wired: indices resolve, and each open link is its connection's current one

  predicate WiredLink(s: System, c: Cid, l: Link) {
    && l.owner < |s.conns| && |s.owners| == |s.conns|
    && l.endpoint == s.owners[l.owner].endpoint < |s.acceptors| && l.client == s.owners[l.owner].client
    && (Open(l) ==> s.conns[l.owner].tcp == Some(c))
  }

  predicate WiredConn(s: System, i: nat, conn: Connection) {
    && (conn.tcp.Some? ==> conn.tcp.value < |s.links| && s.links[conn.tcp.value].owner == i && !conn.timer.started)
  }

  predicate WiredAcceptor(s: System, e: nat, a: S.Acceptor) {
    forall c | c in a.connections :: c < |s.links| && s.links[c].endpoint == e && s.links[c].accepted
  }

  predicate Wired(s: System) {
    && |s.owners| == |s.conns|
    && (forall i | 0 <= i < |s.owners| :: s.owners[i].client < |s.clients| && s.owners[i].endpoint < |s.acceptors|)
    && (forall c | 0 <= c < |s.links| :: WiredLink(s, c, s.links[c]))
    && (forall i | 0 <= i < |s.conns| :: WiredConn(s, i, s.conns[i]))
    && (forall e | 0 <= e < |s.acceptors| :: WiredAcceptor(s, e, s.acceptors[e]))
  }

  // ---------------------------------------------------------------------
  // Streams

  function Advance(d: Down, n: Option<nat>): Option<nat> {
    match d
    case AcceptedDown(r) => Some(r.nextSequenceNumber)
    case DataDown(_, _) => (match n case Some(k) => Some(k + 1) case None => None)
    case _ => n
  }

  /** The number a client expecting `n` expects after all of `down`. */
  function End(down: seq<Down>, n: Option<nat>): Option<nat> {
    if down == [] then n else Advance(down[|down| - 1], End(down[..|down| - 1], n))
  }

  predicate Fits(d: Down, n: Option<nat>) {
    match d
    case AcceptedDown(_) => n.None?
    case RejectedDown => n.None?
    case DataDown(_, k) => n == Some(k)
    case EndDown => n.Some?
    case HeartbeatDown => n.Some?
    case DebugDown => true
  }

  /** Counting from `n`, each message is the one its port numbered so, and nothing numbered precedes the login reply. */
  predicate Stream(down: seq<Down>, n: Option<nat>) {
    down == [] || (Stream(down[..|down| - 1], n) && Fits(down[|down| - 1], End(down[..|down| - 1], n)))
  }

  lemma StreamAppend(down: seq<Down>, d: Down, n: Option<nat>)
    ensures Stream(down + [d], n) <==> Stream(down, n) && Fits(d, End(down, n))
    ensures End(down + [d], n) == Advance(d, End(down, n))
  {
    assert (down + [d])[..|down|] == down;
  }

  lemma {:induction false} StreamFirst(down: seq<Down>, n: Option<nat>)
    requires down != []
    ensures Stream(down, n) <==> Fits(down[0], n) && Stream(down[1..], Advance(down[0], n))
    ensures End(down, n) == End(down[1..], Advance(down[0], n))
  {
    if |down| > 1 {
      var front := down[..|down| - 1];
      StreamFirst(front, n);
      assert down[1..][..|down| - 2] == front[1..];
    } else {
      assert down[1..] == [] && down[..0] == [];
    }
  }

  lemma {:induction false} EndAfterLogin(down: seq<Down>, n: nat)
    ensures End(down, Some(n)).Some?
  {
    if down == [] {
    } else {
      EndAfterLogin(down[..|down| - 1], n);
    }
  }

  // ---------------------------------------------------------------------
  // One link, with what it depends on

  /** The server's end: not logged in yet, logged in at a port with this next number, or past that. */
  datatype ServerView = NotYet | Serving(next: nat) | Done

  function ViewIn(a: S.Acceptor, accepted: bool, c: Cid): ServerView {
    if !accepted then NotYet
    else if c !in a.connections then Done
    else
      var l := a.connections[c];
      if l.state.state == Connected then NotYet
      else if l.state.state == LoggedIn && l.port.Some? && l.port.value < |a.ports|
      then Serving(a.ports[l.port.value].nextSequenceNumber)
      else Done
  }

  function Expected(l: Link, conn: Connection): Option<nat> {
    if l.state.state == LoggedIn then Some(conn.nextSequenceNumber) else None
  }

  predicate AcceptFits(r: LoginAccepted, conn: Connection) {
    && r.nextSequenceNumber >= 1
    && (conn.nextSequenceNumber != 0 ==> r.nextSequenceNumber <= conn.nextSequenceNumber)
    && (conn.session == [] || r.session == conn.session)
  }

  predicate UpFits(up: seq<Up>, conn: Connection) {
    forall k | 0 <= k < |up| && up[k].RequestUp? :: up[k].request == RequestOf(conn)
  }

  predicate DownFits(down: seq<Down>, conn: Connection) {
    forall k | 0 <= k < |down| && down[k].AcceptedDown? :: AcceptFits(down[k].response, conn)
  }

  predicate NoReply(down: seq<Down>) { forall k | 0 <= k < |down| :: !down[k].AcceptedDown? && !down[k].RejectedDown? }

  /** The login was processed, and the client will never hear of it. */
  predicate Mute(l: Link, v: ServerView) { l.state.state == Connected && !v.NotYet? && NoReply(l.down) }

  /** Server, channel and client agree: the numbers still to count end at the port's next number. */
  predicate Conserved(l: Link, conn: Connection, v: ServerView) {
    && (v.NotYet? ==> NoReply(l.down))
    && Stream(l.down, Expected(l, conn))
    && (v.NotYet? ==> End(l.down, Expected(l, conn)).None?)
    && (v.Serving? ==> End(l.down, Expected(l, conn)) == Some(v.next))
  }

  predicate Numbered(l: Link, conn: Connection, clientNext: nat) {
    && (l.state.state == Connecting ==> l.up == [] && NoReply(l.down))
    && (l.state.state != Connecting ==> conn.nextSequenceNumber <= clientNext)
    && (l.state.state == LoggedIn ==> conn.nextSequenceNumber >= 1)
    && (l.state.state == Connected ==> UpFits(l.up, conn) && DownFits(l.down, conn))
  }

  predicate NeverMismatched(l: Link) {
    && l.state.state != Disconnecting
    && (Open(l) ==> l.state.reason == NoReason)
    && l.state.reason != SessionMismatch && l.state.reason != SequenceNumberTooHigh
  }

  predicate LinkOk(l: Link, conn: Connection, clientNext: nat, v: ServerView) {
    && NeverMismatched(l)
    && (Open(l) ==> (if l.refused then Mute(l, v) else Conserved(l, conn, v)) && Numbered(l, conn, clientNext))
  }

  /** Nothing that happens elsewhere harms a link: the client only advances, other logins only end its own. */
  lemma LinkOkElsewhere(l: Link, conn: Connection, n: nat, v: ServerView, n': nat, v': ServerView)
    requires LinkOk(l, conn, n, v) && n <= n' && (v' == v || v' == Done)
    ensures LinkOk(l, conn, n', v')
  {
  }

  // ---------------------------------------------------------------------
  // What one link's steps do to it

  lemma ConnectOkLink(l: Link, conn: Connection, client: Client, v: ServerView)
    requires LinkOk(l, conn, client.nextSequenceNumber, v) && l.state.state == Connecting
    ensures var conn' := OnConnectSuccess(conn, client);
            forall room :: LinkOk(RequestSent(l, conn', room), conn', client.nextSequenceNumber, v)
  {
  }

  lemma PushDownLink(l: Link, conn: Connection, n: nat, v: ServerView, d: Down, v': ServerView)
    requires LinkOk(l, conn, n, v)
    requires Open(l) && !l.refused ==> Fits(d, End(l.down, Expected(l, conn)))
    requires Open(l) && !l.refused ==> (v'.NotYet? ==> Advance(d, End(l.down, Expected(l, conn))).None?)
    requires Open(l) && !l.refused ==> (v'.Serving? ==> Advance(d, End(l.down, Expected(l, conn))) == Some(v'.next))
    requires v'.NotYet? ==> v.NotYet?
    requires d.AcceptedDown? || d.RejectedDown? ==> !l.refused && !v'.NotYet? && l.state.state != Connecting
    requires l.state.state == Connected && d.AcceptedDown? ==> AcceptFits(d.response, conn)
    ensures LinkOk(l.(down := l.down + [d]), conn, n, v')
  {
    StreamAppend(l.down, d, Expected(l, conn));
  }

  /** The login is processed, and its reply refused. */
  lemma RefuseLink(l: Link, conn: Connection, n: nat, v: ServerView)
    requires LinkOk(l, conn, n, NotYet) && !v.NotYet? && (Open(l) ==> l.state.state == Connected)
    ensures LinkOk(l.(refused := true), conn, n, v)
  {
  }

  lemma PopUpLink(l: Link, conn: Connection, n: nat, v: ServerView)
    requires LinkOk(l, conn, n, v) && l.up != []
    ensures LinkOk(l.(up := l.up[1..]), conn, n, v)
  {
    assert forall k | 0 <= k < |l.up[1..]| :: l.up[1..][k] == l.up[k + 1];
  }

  lemma PushUpLink(l: Link, conn: Connection, n: nat, v: ServerView, u: Up)
    requires LinkOk(l, conn, n, v) && !u.RequestUp? && l.state.state != Connecting
    ensures LinkOk(l.(up := l.up + [u]), conn, n, v)
  {
  }

  lemma PopDownLink(l: Link, conn: Connection, n: nat, v: ServerView)
    requires LinkOk(l, conn, n, v) && l.down != [] && !l.down[0].AcceptedDown? && !l.down[0].DataDown?
    ensures LinkOk(l.(down := l.down[1..]), conn, n, v)
  {
    StreamFirst(l.down, Expected(l, conn));
    assert forall k | 0 <= k < |l.down[1..]| :: l.down[1..][k] == l.down[k + 1];
  }

  /** A login reply from this server is never refused as mismatched or too high. */
  lemma LoginVerdictLink(conn: Connection, client: Client, r: LoginAccepted)
    requires AcceptFits(r, conn)
    ensures LoginVerdict(conn, client, r) != SessionMismatch
    ensures LoginVerdict(conn, client, r) != SequenceNumberTooHigh
  {
  }

  /** Every branch of a successful login leaves the connection's number at or below the client's. */
  lemma LoginBelowClient(conn: Connection, client: Client, r: LoginAccepted)
    requires conn.nextSequenceNumber <= client.nextSequenceNumber && LoginVerdict(conn, client, r) == NoReason
    ensures var conn', client' := LoggedInConnection(conn, client, r), LoggedInClient(conn, client, r);
            && conn'.nextSequenceNumber == r.nextSequenceNumber <= client'.nextSequenceNumber
            && client.nextSequenceNumber <= client'.nextSequenceNumber
  {
  }

  lemma LoginLink(l: Link, conn: Connection, client: Client, v: ServerView)
    requires LinkOk(l, conn, client.nextSequenceNumber, v) && l.state.state == Connected
    requires l.down != [] && l.down[0].AcceptedDown?
    requires LoginVerdict(conn, client, l.down[0].response) == NoReason
    ensures var r := l.down[0].response;
            LinkOk(l.(state := ConnState(LoggedIn, NoReason), down := l.down[1..]), LoggedInConnection(conn, client, r),
                   LoggedInClient(conn, client, r).nextSequenceNumber, v)
  {
    StreamFirst(l.down, None);
    LoginBelowClient(conn, client, l.down[0].response);
    EndAfterLogin(l.down[1..], l.down[0].response.nextSequenceNumber);
  }

  /** A message counted by a logged-in connection carries its port's number, and its client counts on from there. */
  lemma DataLink(l: Link, conn: Connection, client: Client, v: ServerView)
    requires LinkOk(l, conn, client.nextSequenceNumber, v) && l.state.state == LoggedIn
    requires l.down != [] && l.down[0].DataDown?
    ensures l.down[0].number == conn.nextSequenceNumber <= client.nextSequenceNumber
    ensures LinkOk(l.(down := l.down[1..]), Counted(conn),
                   Received(client, conn.nextSequenceNumber, l.down[0].data).nextSequenceNumber, v)
  {
    StreamFirst(l.down, Some(conn.nextSequenceNumber));
  }

  // ---------------------------------------------------------------------
  // The steps

  function ClientOf(s: System, i: nat): Client
    requires Wired(s) && i < |s.conns|
  {
    s.clients[s.owners[i].client]
  }

  predicate Serves(s: System, c: Cid)
    requires Wired(s)
  {
    c < |s.links| && s.links[c].accepted && c in s.acceptors[s.links[c].endpoint].connections
  }

  function ServerState(s: System, c: Cid): State
    requires Wired(s) && Serves(s, c)
  {
    s.acceptors[s.links[c].endpoint].connections[c].state.state
  }

  predicate Enabled(s: System, step: Step)
    requires Wired(s)
  {
    match step
    case StartClient(k) => k < |s.clients|
    case StopClient(k) => k < |s.clients|
    case Connect(i) => i < |s.conns| && MayConnect(s.conns[i], ClientOf(s, i))
    case TimerFires(i) => i < |s.conns| && s.conns[i].timer.started
    case CloseConnection(i) => i < |s.conns|
    case ConnectOk(c, _) => c < |s.links| && s.links[c].state.state == Connecting
    case AcceptLink(c) => c < |s.links| && !s.links[c].accepted
    case ToServer(c, _) => Serves(s, c) && s.links[c].up != [] && ServerState(s, c) in {Connected, LoggedIn}
    case ToClient(c) => c < |s.links| && s.links[c].down != [] && s.links[c].state.state in {Connected, LoggedIn}
    case ClientSends(c, u) =>
      && c < |s.links| && !u.RequestUp?
      && (s.links[c].state.state == LoggedIn || (s.links[c].state.state == Connected && u.DebugUp?))
    case SendMessage(e, p, _, _) => e < |s.acceptors| && p < |s.acceptors[e].ports|
    case ServerSends(c, d) =>
      Serves(s, c) && ((d.HeartbeatDown? && ServerState(s, c) == LoggedIn)
                       || (d.DebugDown? && ServerState(s, c) in {Connected, LoggedIn}))
    case EndSession(e, p, _) => e < |s.acceptors| && p < |s.acceptors[e].ports|
    case ServerDrop(c, reason) => Serves(s, c) && FromOutside(reason)
    case ServerClosed(c) => Serves(s, c) && ServerState(s, c) == Disconnected
    case ClientDrop(c, reason) => c < |s.links| && Open(s.links[c]) && FromOutside(reason)
    case ClientClosed(c) => c < |s.links| && !Open(s.links[c]) && s.conns[s.links[c].owner].tcp == Some(c)
  }

  function NewLink(s: System, i: nat): System
    requires Wired(s) && i < |s.conns|
  {
    s.(conns := s.conns[i := s.conns[i].(tcp := Some(|s.links|), timer := s.conns[i].timer.Stop())],
       links := s.links + [Link(s.owners[i].endpoint, i, s.owners[i].client, ConnState(Connecting, NoReason), false,
                                [], [], false)])
  }

  function WithLink(s: System, c: Cid, l: Link): System
    requires c < |s.links|
  {
    s.(links := s.links[c := l])
  }

  function WithAcceptor(s: System, e: nat, a: S.Acceptor): System
    requires e < |s.acceptors|
  {
    s.(acceptors := s.acceptors[e := a])
  }

  /** Link c, its connection and its client change together. */
  function WithClientEnd(s: System, c: Cid, l: Link, conn: Connection, client: Client): System
    requires Wired(s) && c < |s.links|
  {
    var i := s.links[c].owner;
    s.(links := s.links[c := l], conns := s.conns[i := conn], clients := s.clients[s.owners[i].client := client])
  }

  /** Link c and its acceptor change together; `sent` may grow. */
  function WithServerEnd(s: System, c: Cid, l: Link, a: S.Acceptor, sent: set<Message>): System
    requires Wired(s) && c < |s.links|
  {
    s.(links := s.links[c := l], acceptors := s.acceptors[s.links[c].endpoint := a], sent := sent)
  }

  function AcceptedAt(s: System, c: Cid): System
    requires Wired(s) && c < |s.links|
  {
    var l := s.links[c];
    WithServerEnd(s, c, l.(accepted := true), S.Accept(s.acceptors[l.endpoint], c), s.sent)
  }

  function RequestSent(l: Link, conn: Connection, room: bool): Link {
    l.(state := l.state.(state := Connected), up := if room then [RequestUp(RequestOf(conn))] else [])
  }

  /** The connect succeeds: the connection takes over its client's number and asks to log in. */
  function ConnectedAt(s: System, c: Cid, room: bool): System
    requires Wired(s) && c < |s.links|
  {
    var l := s.links[c];
    var conn := OnConnectSuccess(s.conns[l.owner], ClientOf(s, l.owner));
    WithClientEnd(s, c, RequestSent(l, conn, room), conn, ClientOf(s, l.owner))
  }

  function Violated(l: Link): Link { l.(state := l.state.Disconnect(ProtocolViolation)) }

  /** A packet reaches the client. */
  function Delivered(s: System, c: Cid): System
    requires Wired(s) && c < |s.links| && s.links[c].down != []
  {
    var l := s.links[c];
    var m := l.(down := l.down[1..]);
    var conn, client := s.conns[l.owner], ClientOf(s, l.owner);
    match l.down[0]
    case AcceptedDown(r) =>
      if l.state.state != Connected || r.nextSequenceNumber == 0 then WithLink(s, c, Violated(m))
      else if LoginVerdict(conn, client, r) != NoReason
      then WithLink(s, c, m.(state := l.state.Disconnect(LoginVerdict(conn, client, r))))
      else WithClientEnd(s, c, m.(state := l.state.(state := LoggedIn)),
                         LoggedInConnection(conn, client, r), LoggedInClient(conn, client, r))
    case RejectedDown =>
      WithLink(s, c, if l.state.state == Connected then m.(state := l.state.Disconnect(AccessDenied)) else Violated(m))
    case DataDown(data, _) =>
      if l.state.state != LoggedIn || conn.hasSessionEnded then WithLink(s, c, Violated(m))
      else WithClientEnd(s, c, m, Counted(conn), Received(client, conn.nextSequenceNumber, data))
    case EndDown =>
      if l.state.state != LoggedIn then WithLink(s, c, Violated(m))
      else WithClientEnd(s, c, m, EndedConnection(conn), EndedClient(conn, client))
    case HeartbeatDown => WithLink(s, c, if l.state.state == LoggedIn then m else Violated(m))
    case DebugDown => WithLink(s, c, m)
  }

  function Reply(a: S.Acceptor, request: LoginRequest): Down {
    match S.Answer(a, request)
    case LoginOk(response) => AcceptedDown(response)
    case LoginRejected(_) => RejectedDown
  }

  /** The link after its login request: with the reply, or without it if it was refused. */
  function Replied(l: Link, d: Down, room: bool): Link
    requires l.up != []
  {
    if room then l.(up := l.up[1..], down := l.down + [d]) else l.(up := l.up[1..], refused := true)
  }

  /** A packet reaches the server. */
  function Processed(s: System, c: Cid, room: bool): System
    requires Wired(s) && Serves(s, c) && s.links[c].up != []
  {
    var l := s.links[c];
    var m := l.(up := l.up[1..]);
    var a := s.acceptors[l.endpoint];
    match l.up[0]
    case RequestUp(request) =>
      if ServerState(s, c) != Connected
      then WithServerEnd(s, c, m, S.Disconnect(a, c, ProtocolViolation), s.sent)
      else
        WithServerEnd(s, c, Replied(l, Reply(a, request), room), S.ProcessLogin(a, c, request), s.sent)
    case LogoutUp =>
      var reason := if ServerState(s, c) == LoggedIn then LogoutRequested else ProtocolViolation;
      WithServerEnd(s, c, m, S.Disconnect(a, c, reason), s.sent)
    case OtherUp =>
      if ServerState(s, c) == LoggedIn then WithLink(s, c, m)
      else WithServerEnd(s, c, m, S.Disconnect(a, c, ProtocolViolation), s.sent)
    case DebugUp => WithLink(s, c, m)
  }

  /** A port sends a message, if it is not empty: its connection carries it, and it takes the port's next number. */
  function Sends(s: System, e: nat, p: nat, data: Data, room: bool): System
    requires Wired(s) && e < |s.acceptors| && p < |s.acceptors[e].ports|
  {
    var a := s.acceptors[e];
    if data == [] || S.SendError(a, p, room) != NoWriteError then s
    else
      var c, n := a.ports[p].connection.value, a.ports[p].nextSequenceNumber;
      assert WiredAcceptor(s, e, a);
      var l := s.links[c];
      WithServerEnd(s, c, l.(down := l.down + [DataDown(data, n)]), S.Sent(a, p), s.sent + {Message(l.client, n, data)})
  }

  /** The session of port p of acceptor e ends, and connection c hears of it. */
  function EndedAt(s: System, e: nat, p: nat, c: Cid): System
    requires Wired(s) && e < |s.acceptors| && p < |s.acceptors[e].ports| && c < |s.links|
  {
    WithServerEnd(s, c, s.links[c].(down := s.links[c].down + [EndDown]), S.EndPort(s.acceptors[e], p), s.sent)
  }

  /** A port's session ends, once; its connection carries the news if it has room for it. */
  function Ends(s: System, e: nat, p: nat, room: bool): System
    requires Wired(s) && e < |s.acceptors| && p < |s.acceptors[e].ports|
  {
    var a := s.acceptors[e];
    if a.ports[p].hasSessionEnded then s
    else if S.SendError(a, p, room) != NoWriteError then WithAcceptor(s, e, S.EndPort(a, p))
    else
      var c := a.ports[p].connection.value;
      assert WiredAcceptor(s, e, a);
      EndedAt(s, e, p, c)
  }

  function Apply(s: System, step: Step): System
    requires Wired(s) && Enabled(s, step)
  {
    match step
    case StartClient(k) => s.(clients := s.clients[k := s.clients[k].(started := true)])
    case StopClient(k) => s.(clients := s.clients[k := s.clients[k].(started := false)])
    case Connect(i) => NewLink(s, i)
    case TimerFires(i) => NewLink(s, i)
    case CloseConnection(i) => s.(conns := s.conns[i := ClosedByUser(s.conns[i])])
    case ConnectOk(c, room) => ConnectedAt(s, c, room)
    case AcceptLink(c) => AcceptedAt(s, c)
    case ToServer(c, room) => Processed(s, c, room)
    case ToClient(c) => Delivered(s, c)
    case ClientSends(c, u) => WithLink(s, c, s.links[c].(up := s.links[c].up + [u]))
    case SendMessage(e, p, data, room) => Sends(s, e, p, data, room)
    case ServerSends(c, d) => WithLink(s, c, s.links[c].(down := s.links[c].down + [d]))
    case EndSession(e, p, room) => Ends(s, e, p, room)
    case ServerDrop(c, reason) =>
      WithServerEnd(s, c, s.links[c], S.Disconnect(s.acceptors[s.links[c].endpoint], c, reason), s.sent)
    case ServerClosed(c) =>
      WithServerEnd(s, c, s.links[c], S.Closed(s.acceptors[s.links[c].endpoint], c), s.sent)
    case ClientDrop(c, reason) => WithLink(s, c, s.links[c].(state := s.links[c].state.Disconnect(reason)))
    case ClientClosed(c) =>
      var l := s.links[c];
      s.(conns := s.conns[l.owner := OnClosed(s.conns[l.owner], ClientOf(s, l.owner), l.state.reason)])
  }

  // ---------------------------------------------------------------------
  // The invariant

  function View(s: System, c: Cid): ServerView
    requires Wired(s) && c < |s.links|
  {
    ViewIn(s.acceptors[s.links[c].endpoint], s.links[c].accepted, c)
  }

  predicate LinkInv(s: System, c: Cid)
    requires Wired(s) && c < |s.links|
  {
    LinkOk(s.links[c], s.conns[s.links[c].owner], ClientOf(s, s.links[c].owner).nextSequenceNumber, View(s, c))
  }

  /** The application's log: consecutive numbers up to the client's next, from the configured start if there is one. */
  predicate LogOk(client: Client, k: nat, initial: nat, sent: set<Message>) {
    && |client.log| <= client.nextSequenceNumber
    && (initial != 0 ==> client.nextSequenceNumber == initial + |client.log|)
    && (forall j | 0 <= j < |client.log| ::
          && client.log[j].0 == client.nextSequenceNumber - |client.log| + j
          && Message(k, client.log[j].0, client.log[j].1) in sent)
  }

  /** Every message on its way was sent by a port, under the number it carries. */
  predicate DownSent(l: Link, sent: set<Message>) {
    forall k | 0 <= k < |l.down| && l.down[k].DataDown? :: Message(l.client, l.down[k].number, l.down[k].data) in sent
  }

  predicate Inv(s: System, initial: seq<nat>) {
    && Wired(s) && |initial| == |s.clients|
    && (forall e | 0 <= e < |s.acceptors| :: S.AccInv(s.acceptors[e]))
    && (forall c | 0 <= c < |s.links| :: LinkInv(s, c) && DownSent(s.links[c], s.sent))
    && (forall k | 0 <= k < |s.clients| :: LogOk(s.clients[k], k, initial[k], s.sent))
  }

  // ---------------------------------------------------------------------
  // Frames: what a step at one end of one link leaves alone

  predicate SameEnds(l: Link, m: Link) {
    l.owner == m.owner && l.client == m.client && l.endpoint == m.endpoint && l.accepted == m.accepted
  }

  lemma ClientEndWired(s: System, c: Cid, l: Link, conn: Connection, client: Client)
    requires Wired(s) && c < |s.links| && SameEnds(s.links[c], l)
    requires conn.tcp == s.conns[l.owner].tcp && conn.timer == s.conns[l.owner].timer
    requires Open(l) ==> Open(s.links[c])
    ensures Wired(WithClientEnd(s, c, l, conn, client))
  {
    var t := WithClientEnd(s, c, l, conn, client);
    forall d | 0 <= d < |t.links| ensures WiredLink(t, d, t.links[d]) {
      assert WiredLink(s, d, s.links[d]);
    }
    forall i | 0 <= i < |t.conns| ensures WiredConn(t, i, t.conns[i]) {
      assert WiredConn(s, i, s.conns[i]);
    }
    forall e | 0 <= e < |t.acceptors| ensures WiredAcceptor(t, e, t.acceptors[e]) {
      assert WiredAcceptor(s, e, s.acceptors[e]);
    }
  }

  lemma ClientEndKeeps(s: System, c: Cid, l: Link, conn: Connection, client: Client, initial: seq<nat>)
    requires Inv(s, initial) && c < |s.links| && SameEnds(s.links[c], l)
    requires conn.tcp == s.conns[l.owner].tcp && conn.timer == s.conns[l.owner].timer
    requires Open(l) ==> Open(s.links[c])
    requires Open(s.links[c]) || conn == s.conns[l.owner]
    requires ClientOf(s, l.owner).nextSequenceNumber <= client.nextSequenceNumber
    requires LinkOk(l, conn, client.nextSequenceNumber, View(s, c)) && DownSent(l, s.sent)
    requires LogOk(client, s.owners[l.owner].client, initial[s.owners[l.owner].client], s.sent)
    ensures Inv(WithClientEnd(s, c, l, conn, client), initial)
  {
    ClientEndWired(s, c, l, conn, client);
    var t := WithClientEnd(s, c, l, conn, client);
    forall d | 0 <= d < |t.links| ensures LinkInv(t, d) && DownSent(t.links[d], t.sent) {
      if d != c {
        assert LinkInv(s, d) && WiredLink(s, d, s.links[d]) && WiredLink(s, c, s.links[c]);
        OtherLinkKept(s, t, d);
      }
    }
  }

  lemma OtherLinkKept(s: System, t: System, d: Cid)
    requires Wired(s) && Wired(t) && d < |s.links| && d < |t.links| && t.links[d] == s.links[d] && t.owners == s.owners
    requires LinkInv(s, d) && (Open(s.links[d]) ==> t.conns[s.links[d].owner] == s.conns[s.links[d].owner])
    requires ClientOf(s, s.links[d].owner).nextSequenceNumber <= ClientOf(t, s.links[d].owner).nextSequenceNumber
    requires View(t, d) == View(s, d) || View(t, d) == Done
    ensures LinkInv(t, d)
  {
    var l := s.links[d];
    LinkOkElsewhere(l, s.conns[l.owner], ClientOf(s, l.owner).nextSequenceNumber, View(s, d),
                    ClientOf(t, l.owner).nextSequenceNumber, View(t, d));
  }

  /** A link changes at the client's end only. */
  lemma LinkKeeps(s: System, c: Cid, l: Link, initial: seq<nat>)
    requires Inv(s, initial) && c < |s.links| && SameEnds(s.links[c], l)
    requires Open(l) ==> Open(s.links[c])
    requires LinkOk(l, s.conns[l.owner], ClientOf(s, l.owner).nextSequenceNumber, View(s, c)) && DownSent(l, s.sent)
    ensures Inv(WithLink(s, c, l), initial)
  {
    var k := s.owners[l.owner].client;
    ClientEndKeeps(s, c, l, s.conns[l.owner], s.clients[k], initial);
    assert WithClientEnd(s, c, l, s.conns[l.owner], s.clients[k]) == WithLink(s, c, l);
  }

  /** To every connection but c, the acceptor looks as before, or as past its login. */
  ghost predicate ViewsKept(a: S.Acceptor, b: S.Acceptor, c: Cid) {
    && (forall d, accepted | d != c ::
          ViewIn(b, accepted, d) == ViewIn(a, accepted, d) || ViewIn(b, accepted, d) == Done)
    && (forall d | d in b.connections :: d in a.connections || d == c)
  }

  lemma ServerEndWired(s: System, c: Cid, l: Link, a: S.Acceptor, sent: set<Message>)
    requires Wired(s) && c < |s.links|
    requires l.owner == s.links[c].owner && l.client == s.links[c].client && l.endpoint == s.links[c].endpoint
    requires l.state == s.links[c].state && (s.links[c].accepted ==> l.accepted) && (c in a.connections ==> l.accepted)
    requires forall d | d in a.connections :: d in s.acceptors[l.endpoint].connections || d == c
    ensures Wired(WithServerEnd(s, c, l, a, sent))
  {
    var t := WithServerEnd(s, c, l, a, sent);
    forall d | 0 <= d < |t.links| ensures WiredLink(t, d, t.links[d]) {
      assert WiredLink(s, d, s.links[d]);
    }
    forall i | 0 <= i < |t.conns| ensures WiredConn(t, i, t.conns[i]) {
      assert WiredConn(s, i, s.conns[i]);
    }
    forall e | 0 <= e < |t.acceptors| ensures WiredAcceptor(t, e, t.acceptors[e]) {
      assert WiredAcceptor(s, e, s.acceptors[e]);
    }
  }

  /** A change at link c's server end that keeps c's link and its acceptor sound. */
  ghost predicate ServerEndFits(s: System, c: Cid, l: Link, a: S.Acceptor, sent: set<Message>)
    requires Wired(s) && c < |s.links|
  {
    && l.owner == s.links[c].owner && l.client == s.links[c].client && l.endpoint == s.links[c].endpoint
    && l.state == s.links[c].state
    && (s.links[c].accepted ==> l.accepted) && (c in a.connections ==> l.accepted)
    && S.AccInv(a) && ViewsKept(s.acceptors[l.endpoint], a, c) && s.sent <= sent
    && LinkOk(l, s.conns[l.owner], ClientOf(s, l.owner).nextSequenceNumber, ViewIn(a, l.accepted, c))
    && DownSent(l, sent)
  }

  lemma ServerEndKeeps(s: System, c: Cid, l: Link, a: S.Acceptor, sent: set<Message>, initial: seq<nat>)
    requires Inv(s, initial) && c < |s.links| && ServerEndFits(s, c, l, a, sent)
    ensures Inv(WithServerEnd(s, c, l, a, sent), initial)
  {
    ServerEndWired(s, c, l, a, sent);
    var t := WithServerEnd(s, c, l, a, sent);
    forall d | 0 <= d < |t.links| ensures LinkInv(t, d) && DownSent(t.links[d], t.sent) {
      if d != c {
        OtherEndKept(s, c, l, a, sent, d);
      }
    }
    forall k | 0 <= k < |t.clients| ensures LogOk(t.clients[k], k, initial[k], t.sent) {
      assert LogOk(s.clients[k], k, initial[k], s.sent);
    }
  }

  lemma OtherEndKept(s: System, c: Cid, l: Link, a: S.Acceptor, sent: set<Message>, d: Cid)
    requires Wired(s) && c < |s.links| && ServerEndFits(s, c, l, a, sent) && Wired(WithServerEnd(s, c, l, a, sent))
    requires d < |s.links| && d != c && LinkInv(s, d) && DownSent(s.links[d], s.sent)
    ensures LinkInv(WithServerEnd(s, c, l, a, sent), d) && DownSent(s.links[d], sent)
  {
    OtherLinkKept(s, WithServerEnd(s, c, l, a, sent), d);
  }

  // ---------------------------------------------------------------------
  // What the acceptor's operations look like from the other connections

  lemma AcceptViews(a: S.Acceptor, c: Cid)
    ensures ViewsKept(a, S.Accept(a, c), c) && ViewIn(S.Accept(a, c), true, c) == NotYet
  {
  }

  lemma DisconnectViews(a: S.Acceptor, c: Cid, reason: DisconnectReason)
    requires c in a.connections
    ensures ViewsKept(a, S.Disconnect(a, c, reason), c) && ViewIn(S.Disconnect(a, c, reason), true, c) == Done
  {
  }

  lemma ClosedViews(a: S.Acceptor, c: Cid)
    requires c in a.connections && S.AccInv(a)
    ensures ViewsKept(a, S.Closed(a, c), c) && ViewIn(S.Closed(a, c), true, c) == Done
  {
    var b := S.Closed(a, c);
    forall d, accepted | d != c ensures ViewIn(b, accepted, d) == ViewIn(a, accepted, d) {
    }
  }

  lemma EndPortViews(a: S.Acceptor, p: nat, c: Cid)
    requires p < |a.ports|
    ensures ViewsKept(a, S.EndPort(a, p), c)
    ensures forall accepted :: ViewIn(S.EndPort(a, p), accepted, c) == ViewIn(a, accepted, c)
  {
  }

  /** Only the port's own connection is logged in there, so only its view of the next number moves. */
  lemma SentViews(a: S.Acceptor, p: nat)
    requires S.AccInv(a) && p < |a.ports| && S.SendError(a, p, true) == NoWriteError
    ensures var c := a.ports[p].connection.value;
            && ViewsKept(a, S.Sent(a, p), c)
            && ViewIn(a, true, c) == Serving(a.ports[p].nextSequenceNumber)
            && ViewIn(S.Sent(a, p), true, c) == Serving(a.ports[p].nextSequenceNumber + 1)
  {
    var c, b := a.ports[p].connection.value, S.Sent(a, p);
    assert S.PortOk(a, p, a.ports[p]);
    forall d, accepted | d != c ensures ViewIn(b, accepted, d) == ViewIn(a, accepted, d) {
      if d in a.connections { assert S.LiveOk(a, d, a.connections[d]); }
    }
  }

  /** A login ends the view of the connection it supersedes, and shows the number it answers with. */
  lemma LoginViews(a: S.Acceptor, c: Cid, request: LoginRequest)
    requires S.AccInv(a) && c in a.connections && a.connections[c].state.state == Connected
    ensures ViewsKept(a, S.ProcessLogin(a, c, request), c)
    ensures ViewIn(S.ProcessLogin(a, c, request), true, c)
         == match S.Answer(a, request) case LoginOk(r) => Serving(r.nextSequenceNumber) case LoginRejected(_) => Done
  {
    match S.Answer(a, request)
    case LoginOk(_) =>
      var i := S.FindPort(a.ports, request.username).value;
      S.SupersededKeeps(a, i);
      assert S.PortOk(a, i, a.ports[i]);
      var b := S.ProcessLogin(a, c, request);
      forall d, accepted | d != c
        ensures ViewIn(b, accepted, d) == ViewIn(a, accepted, d) || ViewIn(b, accepted, d) == Done
      {
        if d in a.connections { assert S.LiveOk(a, d, a.connections[d]); }
      }
    case LoginRejected(_) =>
      assert S.LiveOk(a, c, a.connections[c]);
  }

  // ---------------------------------------------------------------------
  // Every step keeps the invariant

  lemma DownSentTail(l: Link, sent: set<Message>)
    requires DownSent(l, sent) && l.down != []
    ensures DownSent(l.(down := l.down[1..]), sent)
    ensures l.down[0].DataDown? ==> Message(l.client, l.down[0].number, l.down[0].data) in sent
  {
    assert forall k | 0 <= k < |l.down[1..]| :: l.down[1..][k] == l.down[k + 1];
  }

  lemma NewLinkKeeps(s: System, i: nat, initial: seq<nat>)
    requires Inv(s, initial) && i < |s.conns| && s.conns[i].tcp.None?
    ensures Inv(NewLink(s, i), initial)
  {
    var t := NewLink(s, i);
    var n := |s.links|;
    forall c | 0 <= c < |t.links| ensures WiredLink(t, c, t.links[c]) {
      if c < n { assert WiredLink(s, c, s.links[c]); }
    }
    forall j | 0 <= j < |t.conns| ensures WiredConn(t, j, t.conns[j]) {
      assert WiredConn(s, j, s.conns[j]);
    }
    forall e | 0 <= e < |t.acceptors| ensures WiredAcceptor(t, e, t.acceptors[e]) {
      assert WiredAcceptor(s, e, s.acceptors[e]);
    }
    assert Wired(t);
    forall c | 0 <= c < |t.links| ensures LinkInv(t, c) && DownSent(t.links[c], t.sent) {
      if c < n {
        assert LinkInv(s, c) && WiredLink(s, c, s.links[c]) && DownSent(s.links[c], s.sent);
        OtherLinkKept(s, t, c);
      }
    }
  }

  /** Changing what no link looks at: a connection's retry state, or a client's started flag. */
  lemma ConnKeeps(s: System, i: nat, conn: Connection, initial: seq<nat>)
    requires Inv(s, initial) && i < |s.conns|
    requires conn.tcp == s.conns[i].tcp || (conn.tcp.None? && s.conns[i].tcp.Some? && s.conns[i].tcp.value < |s.links|
                                            && !Open(s.links[s.conns[i].tcp.value]))
    requires conn.tcp.Some? ==> !conn.timer.started
    requires conn.nextSequenceNumber == s.conns[i].nextSequenceNumber && RequestOf(conn) == RequestOf(s.conns[i])
    ensures Inv(s.(conns := s.conns[i := conn]), initial)
  {
    var t := s.(conns := s.conns[i := conn]);
    forall c | 0 <= c < |t.links| ensures WiredLink(t, c, t.links[c]) {
      assert WiredLink(s, c, s.links[c]);
    }
    forall j | 0 <= j < |t.conns| ensures WiredConn(t, j, t.conns[j]) {
      assert WiredConn(s, j, s.conns[j]);
    }
    forall e | 0 <= e < |t.acceptors| ensures WiredAcceptor(t, e, t.acceptors[e]) {
      assert WiredAcceptor(s, e, s.acceptors[e]);
    }
    assert Wired(t);
    forall c | 0 <= c < |t.links| ensures LinkInv(t, c) && DownSent(t.links[c], t.sent) {
      assert LinkInv(s, c) && DownSent(s.links[c], s.sent);
      SameNumbersLink(s.links[c], s.conns[s.links[c].owner], t.conns[s.links[c].owner],
                      ClientOf(s, s.links[c].owner).nextSequenceNumber, View(s, c));
    }
  }

  lemma SameNumbersLink(l: Link, conn: Connection, conn': Connection, n: nat, v: ServerView)
    requires LinkOk(l, conn, n, v) && RequestOf(conn') == RequestOf(conn)
    ensures LinkOk(l, conn', n, v)
  {
    assert conn'.nextSequenceNumber == conn.nextSequenceNumber && conn'.session == conn.session;
  }

  lemma FlagKeeps(s: System, k: nat, started: bool, initial: seq<nat>)
    requires Inv(s, initial) && k < |s.clients|
    ensures Inv(s.(clients := s.clients[k := s.clients[k].(started := started)]), initial)
  {
    var t := s.(clients := s.clients[k := s.clients[k].(started := started)]);
    forall c | 0 <= c < |t.links| ensures WiredLink(t, c, t.links[c]) {
      assert WiredLink(s, c, s.links[c]);
    }
    forall j | 0 <= j < |t.conns| ensures WiredConn(t, j, t.conns[j]) {
      assert WiredConn(s, j, s.conns[j]);
    }
    forall e | 0 <= e < |t.acceptors| ensures WiredAcceptor(t, e, t.acceptors[e]) {
      assert WiredAcceptor(s, e, s.acceptors[e]);
    }
    assert Wired(t);
    forall c | 0 <= c < |t.links| ensures LinkInv(t, c) && DownSent(t.links[c], t.sent) {
      assert LinkInv(s, c) && DownSent(s.links[c], s.sent);
    }
    forall j | 0 <= j < |t.clients| ensures LogOk(t.clients[j], j, initial[j], t.sent) {
      assert LogOk(s.clients[j], j, initial[j], s.sent);
    }
  }

  lemma ConnectOkKeeps(s: System, c: Cid, room: bool, initial: seq<nat>)
    requires Inv(s, initial) && c < |s.links| && s.links[c].state.state == Connecting
    ensures Inv(ConnectedAt(s, c, room), initial)
  {
    var l := s.links[c];
    var client := ClientOf(s, l.owner);
    assert LinkInv(s, c) && DownSent(l, s.sent);
    assert LogOk(client, s.owners[l.owner].client, initial[s.owners[l.owner].client], s.sent);
    var conn := OnConnectSuccess(s.conns[l.owner], client);
    ConnectOkLink(l, s.conns[l.owner], client, View(s, c));
    ClientEndKeeps(s, c, RequestSent(l, conn, room), conn, client, initial);
  }

  lemma AcceptLinkKeeps(s: System, c: Cid, initial: seq<nat>)
    requires Inv(s, initial) && c < |s.links| && !s.links[c].accepted
    ensures Inv(AcceptedAt(s, c), initial)
  {
    var l := s.links[c];
    var a := s.acceptors[l.endpoint];
    assert LinkInv(s, c) && DownSent(l, s.sent) && WiredAcceptor(s, l.endpoint, a);
    S.AcceptKeeps(a, c);
    AcceptViews(a, c);
    ServerEndKeeps(s, c, l.(accepted := true), S.Accept(a, c), s.sent, initial);
  }

  /** The server's end is disconnected while a packet is taken off the stream to it, or without one. */
  lemma DisconnectedKeeps(s: System, c: Cid, l: Link, reason: DisconnectReason, initial: seq<nat>)
    requires Inv(s, initial) && Serves(s, c) && reason != NoReason
    requires l == s.links[c] || (s.links[c].up != [] && l == s.links[c].(up := s.links[c].up[1..]))
    ensures Inv(WithServerEnd(s, c, l, S.Disconnect(s.acceptors[l.endpoint], c, reason), s.sent), initial)
  {
    var a := s.acceptors[l.endpoint];
    assert LinkInv(s, c) && DownSent(s.links[c], s.sent);
    var conn, n := s.conns[l.owner], ClientOf(s, l.owner).nextSequenceNumber;
    if l != s.links[c] {
      PopUpLink(s.links[c], conn, n, View(s, c));
    }
    S.DisconnectKeeps(a, c, reason);
    DisconnectViews(a, c, reason);
    LinkOkElsewhere(l, conn, n, View(s, c), n, Done);
    ServerEndKeeps(s, c, l, S.Disconnect(a, c, reason), s.sent, initial);
  }

  /** A request that arrives on an open link is the one its connection sent, so the reply fits the connection. */
  lemma ReplyFits(s: System, c: Cid, request: LoginRequest)
    requires Wired(s) && Serves(s, c) && ServerState(s, c) == Connected && LinkInv(s, c)
    requires S.AccInv(s.acceptors[s.links[c].endpoint])
    requires s.links[c].up != [] && s.links[c].up[0] == RequestUp(request) && Open(s.links[c])
    ensures s.links[c].state.state == Connected
    ensures var answer := S.Answer(s.acceptors[s.links[c].endpoint], request);
            answer.LoginOk? ==> AcceptFits(answer.response, s.conns[s.links[c].owner])
  {
    var l := s.links[c];
    var conn := s.conns[l.owner];
    if l.state.state == LoggedIn {
      EndAfterLogin(l.down, conn.nextSequenceNumber);
    }
    assert request == RequestOf(conn);
    var a := s.acceptors[l.endpoint];
    var i := S.FindPort(a.ports, request.username);
    if i.Some? {
      assert S.PortOk(a, i.value, a.ports[i.value]);
    }
  }

  lemma RepliedLink(l: Link, conn: Connection, n: nat, d: Down, room: bool, v: ServerView)
    requires LinkOk(l, conn, n, NotYet) && l.up != [] && !v.NotYet? && (Open(l) ==> l.state.state == Connected)
    requires d.AcceptedDown? || d.RejectedDown?
    requires v.Serving? ==> d.AcceptedDown? && v.next == d.response.nextSequenceNumber
    requires Open(l) && d.AcceptedDown? ==> AcceptFits(d.response, conn)
    ensures LinkOk(Replied(l, d, room), conn, n, v)
  {
    PopUpLink(l, conn, n, NotYet);
    var m := l.(up := l.up[1..]);
    if !room {
      RefuseLink(m, conn, n, v);
    } else if Open(l) {
      PushDownLink(m, conn, n, NotYet, d, v);
    }
  }

  lemma RequestFits(s: System, c: Cid, request: LoginRequest, room: bool)
    requires Wired(s) && Serves(s, c) && ServerState(s, c) == Connected && S.AccInv(s.acceptors[s.links[c].endpoint])
    requires s.links[c].up != [] && s.links[c].up[0] == RequestUp(request)
    requires LinkInv(s, c) && DownSent(s.links[c], s.sent)
    ensures var l, a := s.links[c], s.acceptors[s.links[c].endpoint];
            ServerEndFits(s, c, Replied(l, Reply(a, request), room), S.ProcessLogin(a, c, request), s.sent)
  {
    var l := s.links[c];
    var a := s.acceptors[l.endpoint];
    var conn, n := s.conns[l.owner], ClientOf(s, l.owner).nextSequenceNumber;
    if Open(l) {
      ReplyFits(s, c, request);
    }
    S.LoginKeeps(a, c, request);
    LoginViews(a, c, request);
    RepliedLink(l, conn, n, Reply(a, request), room, ViewIn(S.ProcessLogin(a, c, request), true, c));
  }

  lemma RequestKeeps(s: System, c: Cid, request: LoginRequest, room: bool, initial: seq<nat>)
    requires Inv(s, initial) && Serves(s, c) && ServerState(s, c) == Connected
    requires s.links[c].up != [] && s.links[c].up[0] == RequestUp(request)
    ensures Inv(Processed(s, c, room), initial)
  {
    var l, a := s.links[c], s.acceptors[s.links[c].endpoint];
    assert LinkInv(s, c) && DownSent(l, s.sent);
    RequestFits(s, c, request, room);
    ServerEndKeeps(s, c, Replied(l, Reply(a, request), room), S.ProcessLogin(a, c, request), s.sent, initial);
  }

  lemma PopUpKeeps(s: System, c: Cid, initial: seq<nat>)
    requires Inv(s, initial) && c < |s.links| && s.links[c].up != []
    ensures Inv(WithLink(s, c, s.links[c].(up := s.links[c].up[1..])), initial)
  {
    var l := s.links[c];
    assert LinkInv(s, c) && DownSent(l, s.sent);
    PopUpLink(l, s.conns[l.owner], ClientOf(s, l.owner).nextSequenceNumber, View(s, c));
    LinkKeeps(s, c, l.(up := l.up[1..]), initial);
  }

  lemma ProcessedKeeps(s: System, c: Cid, room: bool, initial: seq<nat>)
    requires Inv(s, initial) && Serves(s, c) && s.links[c].up != [] && ServerState(s, c) in {Connected, LoggedIn}
    ensures Inv(Processed(s, c, room), initial)
  {
    var l := s.links[c];
    var m := l.(up := l.up[1..]);
    match l.up[0]
    case RequestUp(request) =>
      if ServerState(s, c) == Connected {
        RequestKeeps(s, c, request, room, initial);
      } else {
        DisconnectedKeeps(s, c, m, ProtocolViolation, initial);
      }
    case LogoutUp =>
      DisconnectedKeeps(s, c, m, if ServerState(s, c) == LoggedIn then LogoutRequested else ProtocolViolation, initial);
    case OtherUp =>
      if ServerState(s, c) == LoggedIn {
        PopUpKeeps(s, c, initial);
      } else {
        DisconnectedKeeps(s, c, m, ProtocolViolation, initial);
      }
    case DebugUp => PopUpKeeps(s, c, initial);
  }

  /** The client's end is disconnected, with or without taking a packet off the stream to it. */
  lemma ClientDropKeeps(s: System, c: Cid, m: Link, reason: DisconnectReason, initial: seq<nat>)
    requires Inv(s, initial) && c < |s.links| && Open(s.links[c])
    requires reason != NoReason && reason != SessionMismatch && reason != SequenceNumberTooHigh
    requires m == s.links[c] || (s.links[c].down != [] && m == s.links[c].(down := s.links[c].down[1..]))
    ensures Inv(WithLink(s, c, m.(state := s.links[c].state.Disconnect(reason))), initial)
  {
    var l := s.links[c];
    assert LinkInv(s, c) && DownSent(l, s.sent);
    if m != l {
      DownSentTail(l, s.sent);
    }
    LinkKeeps(s, c, m.(state := l.state.Disconnect(reason)), initial);
  }

  lemma LoginDeliveredKeeps(s: System, c: Cid, initial: seq<nat>)
    requires Inv(s, initial) && c < |s.links| && s.links[c].state.state == Connected
    requires s.links[c].down != [] && s.links[c].down[0].AcceptedDown?
    ensures Inv(Delivered(s, c), initial)
  {
    var l := s.links[c];
    var r, conn, client := l.down[0].response, s.conns[l.owner], ClientOf(s, l.owner);
    var k := s.owners[l.owner].client;
    assert LinkInv(s, c) && DownSent(l, s.sent) && LogOk(client, k, initial[k], s.sent);
    assert AcceptFits(r, conn);
    LoginVerdictLink(conn, client, r);
    DownSentTail(l, s.sent);
    var m := l.(down := l.down[1..]);
    if LoginVerdict(conn, client, r) != NoReason {
      ClientDropKeeps(s, c, m, LoginVerdict(conn, client, r), initial);
    } else {
      LoginLink(l, conn, client, View(s, c));
      LoginBelowClient(conn, client, r);
      assert LogOk(LoggedInClient(conn, client, r), k, initial[k], s.sent);
      ClientEndKeeps(s, c, m.(state := l.state.(state := LoggedIn)), LoggedInConnection(conn, client, r),
                     LoggedInClient(conn, client, r), initial);
    }
  }

  lemma ReceivedLog(client: Client, number: nat, data: Data, k: nat, initial: nat, sent: set<Message>)
    requires LogOk(client, k, initial, sent) && number <= client.nextSequenceNumber && Message(k, number, data) in sent
    ensures LogOk(Received(client, number, data), k, initial, sent)
  {
  }

  lemma DataDeliveredKeeps(s: System, c: Cid, initial: seq<nat>)
    requires Inv(s, initial) && c < |s.links| && s.links[c].state.state == LoggedIn
    requires s.links[c].down != [] && s.links[c].down[0].DataDown? && !s.conns[s.links[c].owner].hasSessionEnded
    ensures Inv(Delivered(s, c), initial)
  {
    var l := s.links[c];
    var conn, client := s.conns[l.owner], ClientOf(s, l.owner);
    var k := s.owners[l.owner].client;
    assert LinkInv(s, c) && DownSent(l, s.sent) && LogOk(client, k, initial[k], s.sent);
    DownSentTail(l, s.sent);
    DataLink(l, conn, client, View(s, c));
    var data := l.down[0].data;
    ReceivedLog(client, conn.nextSequenceNumber, data, k, initial[k], s.sent);
    ClientEndKeeps(s, c, l.(down := l.down[1..]), Counted(conn), Received(client, conn.nextSequenceNumber, data),
                   initial);
  }

  lemma PopDownKeeps(s: System, c: Cid, initial: seq<nat>)
    requires Inv(s, initial) && c < |s.links| && s.links[c].down != []
    requires !s.links[c].down[0].AcceptedDown? && !s.links[c].down[0].DataDown?
    ensures Inv(WithLink(s, c, s.links[c].(down := s.links[c].down[1..])), initial)
  {
    var l := s.links[c];
    assert LinkInv(s, c) && DownSent(l, s.sent);
    DownSentTail(l, s.sent);
    PopDownLink(l, s.conns[l.owner], ClientOf(s, l.owner).nextSequenceNumber, View(s, c));
    LinkKeeps(s, c, l.(down := l.down[1..]), initial);
  }

  lemma EndDeliveredKeeps(s: System, c: Cid, initial: seq<nat>)
    requires Inv(s, initial) && c < |s.links| && s.links[c].state.state == LoggedIn
    requires s.links[c].down != [] && s.links[c].down[0].EndDown?
    ensures Inv(Delivered(s, c), initial)
  {
    var l := s.links[c];
    var conn, client := s.conns[l.owner], ClientOf(s, l.owner);
    var k := s.owners[l.owner].client;
    assert LinkInv(s, c) && DownSent(l, s.sent) && LogOk(client, k, initial[k], s.sent);
    DownSentTail(l, s.sent);
    PopDownLink(l, conn, client.nextSequenceNumber, View(s, c));
    var m := l.(down := l.down[1..]);
    SameNumbersLink(m, conn, EndedConnection(conn), client.nextSequenceNumber, View(s, c));
    ClientEndKeeps(s, c, m, EndedConnection(conn), EndedClient(conn, client), initial);
  }

  lemma DeliveredKeeps(s: System, c: Cid, initial: seq<nat>)
    requires Inv(s, initial) && Enabled(s, ToClient(c))
    ensures Inv(Delivered(s, c), initial)
  {
    var l := s.links[c];
    var m := l.(down := l.down[1..]);
    match l.down[0]
    case AcceptedDown(r) =>
      if l.state.state == Connected && r.nextSequenceNumber != 0 {
        LoginDeliveredKeeps(s, c, initial);
      } else {
        ClientDropKeeps(s, c, m, ProtocolViolation, initial);
      }
    case RejectedDown =>
      ClientDropKeeps(s, c, m, if l.state.state == Connected then AccessDenied else ProtocolViolation, initial);
    case DataDown(_, _) =>
      if l.state.state == LoggedIn && !s.conns[l.owner].hasSessionEnded {
        DataDeliveredKeeps(s, c, initial);
      } else {
        ClientDropKeeps(s, c, m, ProtocolViolation, initial);
      }
    case EndDown =>
      if l.state.state == LoggedIn {
        EndDeliveredKeeps(s, c, initial);
      } else {
        ClientDropKeeps(s, c, m, ProtocolViolation, initial);
      }
    case HeartbeatDown =>
      if l.state.state == LoggedIn {
        PopDownKeeps(s, c, initial);
      } else {
        ClientDropKeeps(s, c, m, ProtocolViolation, initial);
      }
    case DebugDown => PopDownKeeps(s, c, initial);
  }

  lemma ClientSendsKeeps(s: System, c: Cid, u: Up, initial: seq<nat>)
    requires Inv(s, initial) && Enabled(s, ClientSends(c, u))
    ensures Inv(Apply(s, ClientSends(c, u)), initial)
  {
    var l := s.links[c];
    assert LinkInv(s, c) && DownSent(l, s.sent);
    PushUpLink(l, s.conns[l.owner], ClientOf(s, l.owner).nextSequenceNumber, View(s, c), u);
    LinkKeeps(s, c, l.(up := l.up + [u]), initial);
  }

  lemma SentLink(l: Link, conn: Connection, n: nat, number: nat, data: Data, sent: set<Message>)
    requires LinkOk(l, conn, n, Serving(number)) && DownSent(l, sent)
    ensures var m := l.(down := l.down + [DataDown(data, number)]);
            LinkOk(m, conn, n, Serving(number + 1)) && DownSent(m, sent + {Message(l.client, number, data)})
  {
    PushDownLink(l, conn, n, Serving(number), DataDown(data, number), Serving(number + 1));
  }

  lemma SendsFits(s: System, e: nat, p: nat, data: Data, c: Cid)
    requires Wired(s) && e < |s.acceptors| && p < |s.acceptors[e].ports| && S.AccInv(s.acceptors[e])
    requires S.SendError(s.acceptors[e], p, true) == NoWriteError && s.acceptors[e].ports[p].connection == Some(c)
    requires c < |s.links| && s.links[c].endpoint == e && s.links[c].accepted
    requires LinkInv(s, c) && DownSent(s.links[c], s.sent)
    ensures var l, n := s.links[c], s.acceptors[e].ports[p].nextSequenceNumber;
            ServerEndFits(s, c, l.(down := l.down + [DataDown(data, n)]), S.Sent(s.acceptors[e], p),
                          s.sent + {Message(l.client, n, data)})
  {
    var l, a := s.links[c], s.acceptors[e];
    var n := a.ports[p].nextSequenceNumber;
    SentViews(a, p);
    S.SentKeeps(a, p);
    SentLink(l, s.conns[l.owner], ClientOf(s, l.owner).nextSequenceNumber, n, data, s.sent);
  }

  lemma SendsKeeps(s: System, e: nat, p: nat, data: Data, room: bool, initial: seq<nat>)
    requires Inv(s, initial) && e < |s.acceptors| && p < |s.acceptors[e].ports|
    ensures Inv(Sends(s, e, p, data, room), initial)
  {
    var a := s.acceptors[e];
    if data != [] && S.SendError(a, p, room) == NoWriteError {
      var c, n := a.ports[p].connection.value, a.ports[p].nextSequenceNumber;
      assert WiredAcceptor(s, e, a);
      var l := s.links[c];
      assert LinkInv(s, c) && DownSent(l, s.sent);
      SendsFits(s, e, p, data, c);
      ServerEndKeeps(s, c, l.(down := l.down + [DataDown(data, n)]), S.Sent(a, p),
                     s.sent + {Message(l.client, n, data)}, initial);
    }
  }

  lemma ServerSendsLink(s: System, c: Cid, d: Down)
    requires Wired(s) && Enabled(s, ServerSends(c, d)) && LinkInv(s, c) && S.AccInv(s.acceptors[s.links[c].endpoint])
    ensures var l := s.links[c];
            LinkOk(l.(down := l.down + [d]), s.conns[l.owner], ClientOf(s, l.owner).nextSequenceNumber, View(s, c))
  {
    var l := s.links[c];
    var a := s.acceptors[l.endpoint];
    assert S.LiveOk(a, c, a.connections[c]);
    PushDownLink(l, s.conns[l.owner], ClientOf(s, l.owner).nextSequenceNumber, View(s, c), d, View(s, c));
  }

  lemma ServerSendsKeeps(s: System, c: Cid, d: Down, initial: seq<nat>)
    requires Inv(s, initial) && Enabled(s, ServerSends(c, d))
    ensures Inv(Apply(s, ServerSends(c, d)), initial)
  {
    var l := s.links[c];
    assert LinkInv(s, c) && DownSent(l, s.sent) && S.AccInv(s.acceptors[l.endpoint]);
    ServerSendsLink(s, c, d);
    LinkKeeps(s, c, l.(down := l.down + [d]), initial);
  }

  lemma EndPortWired(s: System, e: nat, p: nat)
    requires Wired(s) && e < |s.acceptors| && p < |s.acceptors[e].ports|
    ensures Wired(WithAcceptor(s, e, S.EndPort(s.acceptors[e], p)))
  {
    var t := WithAcceptor(s, e, S.EndPort(s.acceptors[e], p));
    forall c | 0 <= c < |t.links| ensures WiredLink(t, c, t.links[c]) {
      assert WiredLink(s, c, s.links[c]);
    }
    forall j | 0 <= j < |t.conns| ensures WiredConn(t, j, t.conns[j]) {
      assert WiredConn(s, j, s.conns[j]);
    }
    forall f | 0 <= f < |t.acceptors| ensures WiredAcceptor(t, f, t.acceptors[f]) {
      assert WiredAcceptor(s, f, s.acceptors[f]);
    }
  }

  lemma EndPortLinks(s: System, e: nat, p: nat, c: Cid)
    requires Wired(s) && e < |s.acceptors| && p < |s.acceptors[e].ports| && c < |s.links| && LinkInv(s, c)
    requires Wired(WithAcceptor(s, e, S.EndPort(s.acceptors[e], p)))
    ensures LinkInv(WithAcceptor(s, e, S.EndPort(s.acceptors[e], p)), c)
  {
    EndPortViews(s.acceptors[e], p, c);
    OtherLinkKept(s, WithAcceptor(s, e, S.EndPort(s.acceptors[e], p)), c);
  }

  lemma EndPortKeeps(s: System, e: nat, p: nat, initial: seq<nat>)
    requires Inv(s, initial) && e < |s.acceptors| && p < |s.acceptors[e].ports|
    ensures Inv(WithAcceptor(s, e, S.EndPort(s.acceptors[e], p)), initial)
  {
    var t := WithAcceptor(s, e, S.EndPort(s.acceptors[e], p));
    S.EndPortKeeps(s.acceptors[e], p);
    EndPortWired(s, e, p);
    forall c | 0 <= c < |t.links| ensures LinkInv(t, c) && DownSent(t.links[c], t.sent) {
      EndPortLinks(s, e, p, c);
    }
  }

  lemma EndedLink(l: Link, conn: Connection, n: nat, next: nat, sent: set<Message>)
    requires LinkOk(l, conn, n, Serving(next)) && DownSent(l, sent)
    ensures var m := l.(down := l.down + [EndDown]); LinkOk(m, conn, n, Serving(next)) && DownSent(m, sent)
  {
    PushDownLink(l, conn, n, Serving(next), EndDown, Serving(next));
  }

  lemma EndsFits(s: System, e: nat, p: nat, c: Cid)
    requires Wired(s) && e < |s.acceptors| && p < |s.acceptors[e].ports| && S.AccInv(s.acceptors[e])
    requires S.SendError(s.acceptors[e], p, true) == NoWriteError && s.acceptors[e].ports[p].connection == Some(c)
    requires c < |s.links| && s.links[c].endpoint == e && s.links[c].accepted
    requires LinkInv(s, c) && DownSent(s.links[c], s.sent)
    ensures ServerEndFits(s, c, s.links[c].(down := s.links[c].down + [EndDown]), S.EndPort(s.acceptors[e], p), s.sent)
  {
    var l, a := s.links[c], s.acceptors[e];
    SentViews(a, p);
    S.EndPortKeeps(a, p);
    EndPortViews(a, p, c);
    EndedLink(l, s.conns[l.owner], ClientOf(s, l.owner).nextSequenceNumber, a.ports[p].nextSequenceNumber, s.sent);
  }

  lemma EndsKeeps(s: System, e: nat, p: nat, room: bool, initial: seq<nat>)
    requires Inv(s, initial) && e < |s.acceptors| && p < |s.acceptors[e].ports|
    ensures Inv(Ends(s, e, p, room), initial)
  {
    var a := s.acceptors[e];
    if !a.ports[p].hasSessionEnded {
      if S.SendError(a, p, room) == NoWriteError {
        var c := a.ports[p].connection.value;
        assert WiredAcceptor(s, e, a);
        assert LinkInv(s, c) && DownSent(s.links[c], s.sent);
        EndsFits(s, e, p, c);
        ServerEndKeeps(s, c, s.links[c].(down := s.links[c].down + [EndDown]), S.EndPort(a, p), s.sent, initial);
      } else {
        EndPortKeeps(s, e, p, initial);
      }
    }
  }

  lemma ServerClosedKeeps(s: System, c: Cid, initial: seq<nat>)
    requires Inv(s, initial) && Serves(s, c) && ServerState(s, c) == Disconnected
    ensures Inv(WithServerEnd(s, c, s.links[c], S.Closed(s.acceptors[s.links[c].endpoint], c), s.sent), initial)
  {
    var l := s.links[c];
    var a := s.acceptors[l.endpoint];
    var n := ClientOf(s, l.owner).nextSequenceNumber;
    assert LinkInv(s, c) && DownSent(l, s.sent);
    S.ClosedKeeps(a, c);
    ClosedViews(a, c);
    LinkOkElsewhere(l, s.conns[l.owner], n, View(s, c), n, Done);
    ServerEndKeeps(s, c, l, S.Closed(a, c), s.sent, initial);
  }

  lemma ClientClosedKeeps(s: System, c: Cid, initial: seq<nat>)
    requires Inv(s, initial) && Enabled(s, ClientClosed(c))
    ensures Inv(Apply(s, ClientClosed(c)), initial)
  {
    var l := s.links[c];
    assert WiredConn(s, l.owner, s.conns[l.owner]);
    ConnKeeps(s, l.owner, OnClosed(s.conns[l.owner], ClientOf(s, l.owner), l.state.reason), initial);
  }

  lemma StepKeeps(s: System, step: Step, initial: seq<nat>)
    requires Inv(s, initial) && Enabled(s, step)
    ensures Inv(Apply(s, step), initial)
  {
    match step
    case StartClient(k) => FlagKeeps(s, k, true, initial);
    case StopClient(k) => FlagKeeps(s, k, false, initial);
    case Connect(i) => NewLinkKeeps(s, i, initial);
    case TimerFires(i) =>
      assert WiredConn(s, i, s.conns[i]);
      NewLinkKeeps(s, i, initial);
    case CloseConnection(i) =>
      assert WiredConn(s, i, s.conns[i]);
      ConnKeeps(s, i, ClosedByUser(s.conns[i]), initial);
    case ConnectOk(c, room) => ConnectOkKeeps(s, c, room, initial);
    case AcceptLink(c) => AcceptLinkKeeps(s, c, initial);
    case ToServer(c, room) => ProcessedKeeps(s, c, room, initial);
    case ToClient(c) => DeliveredKeeps(s, c, initial);
    case ClientSends(c, u) => ClientSendsKeeps(s, c, u, initial);
    case SendMessage(e, p, data, room) => SendsKeeps(s, e, p, data, room, initial);
    case ServerSends(c, d) => ServerSendsKeeps(s, c, d, initial);
    case EndSession(e, p, room) => EndsKeeps(s, e, p, room, initial);
    case ServerDrop(c, reason) => DisconnectedKeeps(s, c, s.links[c], reason, initial);
    case ServerClosed(c) => ServerClosedKeeps(s, c, initial);
    case ClientDrop(c, reason) => ClientDropKeeps(s, c, s.links[c], reason, initial);
    case ClientClosed(c) => ClientClosedKeeps(s, c, initial);
  }
}
