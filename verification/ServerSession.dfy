/** The server side of a session: ports, the acceptor's list of connections, and who is logged in where. */
module ServerSession {
  import opened Types
  import opened Packing
  import opened LogicalPackets
  import opened Lifecycle

  /** The name of one accepted TCP connection. */
  type Cid = nat

  datatype LoginRejectReason = UserNotFound | IncorrectPassword | SessionNotAvailable

  datatype LoginResult = LoginOk(response: LoginAccepted) | LoginRejected(reason: LoginRejectReason)

  /** A port; `connection` is its link to the connection that last logged in. */
  datatype Port = Port(
    username: seq<Byte>, password: seq<Byte>, connection: Option<Cid>, nextSequenceNumber: nat, hasSessionEnded: bool)

  /** What port and acceptor see of a connection: its state, and its link to a port. */
  datatype Live = Live(state: ConnState, port: Option<nat>)

  datatype Notice = Notice(cid: Cid, toPort: bool, reason: DisconnectReason)

  datatype Acceptor = Acceptor(
    session: seq<Byte>, ports: seq<Port>, connections: map<Cid, Live>, accepted: nat, notices: seq<Notice>)

  // ---------------------------------------------------------------------
  // Operations

  /** The first port with this username. */
  function FindPort(ports: seq<Port>, username: seq<Byte>): (r: Option<nat>)
    ensures r.Some? ==> r.value < |ports| && ports[r.value].username == username
    ensures r.None? ==> forall i | 0 <= i < |ports| :: ports[i].username != username
  {
    if ports == [] then None
    else
      match FindPort(ports[..|ports| - 1], username)
      case Some(i) => Some(i)
      case None => if ports[|ports| - 1].username == username then Some(|ports| - 1) else None
  }

  function AddPort(a: Acceptor, username: seq<Byte>, password: seq<Byte>): Acceptor {
    if !ValidField(username, USERNAME_LENGTH) || !ValidField(password, PASSWORD_LENGTH)
       || FindPort(a.ports, username).Some?
    then a
    else a.(ports := a.ports + [Port(username, password, None, 1, false)])
  }

  function Accept(a: Acceptor, c: Cid): Acceptor {
    a.(connections := a.connections[c := Live(ConnState(Connected, NoReason), None)], accepted := a.accepted + 1)
  }

  function Disconnect(a: Acceptor, c: Cid, reason: DisconnectReason): Acceptor
    requires c in a.connections
  {
    a.(connections := a.connections[c := a.connections[c].(state := a.connections[c].state.Disconnect(reason))])
  }

  /** Whether a port takes the request, and its answer. */
  function PortAnswer(p: Port, request: LoginRequest, session: seq<Byte>): LoginResult {
    if request.password != p.password then LoginRejected(IncorrectPassword)
    else if request.session != [] && request.session != session then LoginRejected(SessionNotAvailable)
    else LoginOk(LoginAccepted(session, Rewound(p, request)))
  }

  /** The port goes back to the number asked for, if that is a number it has already passed. */
  function Rewound(p: Port, request: LoginRequest): nat {
    if request.nextSequenceNumber != 0 && request.nextSequenceNumber < p.nextSequenceNumber
    then request.nextSequenceNumber else p.nextSequenceNumber
  }

  function Answer(a: Acceptor, request: LoginRequest): LoginResult {
    match FindPort(a.ports, request.username)
    case None => LoginRejected(UserNotFound)
    case Some(i) => PortAnswer(a.ports[i], request, a.session)
  }

  function Superseded(a: Acceptor, i: nat): Acceptor
    requires i < |a.ports|
  {
    match a.ports[i].connection
    case Some(d) => if d in a.connections then Disconnect(a, d, DisconnectReason.Superseded) else a
    case None => a
  }

  /** A login request of a connection in state connected is processed. */
  function ProcessLogin(a: Acceptor, c: Cid, request: LoginRequest): Acceptor
    requires c in a.connections
  {
    var l := a.connections[c];
    match Answer(a, request)
    case LoginOk(_) =>
      var i := FindPort(a.ports, request.username).value;
      var b := Superseded(a, i);
      var p := a.ports[i].(connection := Some(c), nextSequenceNumber := Rewound(a.ports[i], request));
      b.(ports := a.ports[i := p],
         connections := b.connections[c := Live(l.state.(state := LoggedIn), Some(i))])
    case LoginRejected(_) =>
      a.(connections := a.connections[c := l.(state := l.state.InitiateDisconnect(AccessDenied))])
  }

  /** What a port answers to a message to send, if the connection's queue has room or not. */
  function SendError(a: Acceptor, i: nat, room: bool): WriteError
    requires i < |a.ports|
  {
    var p := a.ports[i];
    if p.hasSessionEnded then SessionEnded
    else if p.connection.None? || p.connection.value !in a.connections then WriteDisconnected
    else if a.connections[p.connection.value].state.state != LoggedIn then NotLoggedIn
    else if !room then BufferFull
    else NoWriteError
  }

  function Sent(a: Acceptor, i: nat): Acceptor
    requires i < |a.ports|
  {
    a.(ports := a.ports[i := a.ports[i].(nextSequenceNumber := a.ports[i].nextSequenceNumber + 1)])
  }

  /** The join of connection c has completed: the port's link is cleared if it is c's, and c leaves the list. */
  function Closed(a: Acceptor, c: Cid): Acceptor
    requires c in a.connections
  {
    var l := a.connections[c];
    var ports :=
      if l.port.Some? && l.port.value < |a.ports| && a.ports[l.port.value].connection == Some(c)
      then a.ports[l.port.value := a.ports[l.port.value].(connection := None)]
      else a.ports;
    a.(ports := ports, connections := a.connections - {c},
       notices := a.notices + [Notice(c, l.port.Some?, l.state.reason)])
  }

  function PortsEnded(ports: seq<Port>): (r: seq<Port>)
    ensures |r| == |ports|
  {
    seq(|ports|, i requires 0 <= i < |ports| => ports[i].(hasSessionEnded := true))
  }

  function EndSession(a: Acceptor): Acceptor { a.(ports := PortsEnded(a.ports)) }

  /** One port's share of it. */
  function EndPort(a: Acceptor, i: nat): Acceptor
    requires i < |a.ports|
  {
    a.(ports := a.ports[i := a.ports[i].(hasSessionEnded := true)])
  }

  function EndPorts(a: Acceptor, n: nat): (r: Acceptor)
    requires n <= |a.ports|
    ensures |r.ports| == |a.ports|
  {
    if n == 0 then a else EndPort(EndPorts(a, n - 1), n - 1)
  }

  function Stop(a: Acceptor): Acceptor {
    a.(connections := map c | c in a.connections ::
         a.connections[c].(state := a.connections[c].state.Disconnect(UserInitiated)))
  }

  /**
   * An accepted login asking for n at a port whose next number is p: port and reply have n if it is a number already
   * passed, and p otherwise, however far ahead n is. Nothing else about any port changes but the link.
   */
  lemma AcceptedNumber(a: Acceptor, c: Cid, request: LoginRequest)
    requires c in a.connections && Answer(a, request).LoginOk?
    ensures FindPort(a.ports, request.username).Some?
    ensures var i, n := FindPort(a.ports, request.username).value, request.nextSequenceNumber;
            var p := a.ports[i].nextSequenceNumber;
            var number := if 0 < n < p then n else p;
            && Answer(a, request) == LoginOk(LoginAccepted(a.session, number))
            && ProcessLogin(a, c, request).ports
               == a.ports[i := a.ports[i].(connection := Some(c), nextSequenceNumber := number)]
  {
  }

  // ---------------------------------------------------------------------
  // The invariant

  predicate LiveOk(a: Acceptor, c: Cid, l: Live) {
    && l.state.state != Connecting
    && (l.state.state == Connected || l.state.state == Disconnecting ==> l.port.None?)
    && (l.port.Some? ==> l.port.value < |a.ports|)
    && (l.state.state == LoggedIn ==> l.port.Some? && a.ports[l.port.value].connection == Some(c))
    && (l.state.IsClosing() <==> l.state.reason != NoReason)
  }

  predicate PortOk(a: Acceptor, i: nat, p: Port) {
    && p.nextSequenceNumber >= 1
    && (p.connection.Some? ==>
          p.connection.value in a.connections && a.connections[p.connection.value].port == Some(i))
  }

  predicate UniqueUsernames(ports: seq<Port>) {
    forall i, j | 0 <= i < j < |ports| :: ports[i].username != ports[j].username
  }

  predicate LivesOk(a: Acceptor) { forall c | c in a.connections :: LiveOk(a, c, a.connections[c]) }

  predicate PortsOk(a: Acceptor) { forall i | 0 <= i < |a.ports| :: PortOk(a, i, a.ports[i]) }

  /** Connections accepted are either still live or have been reported, with a reason. */
  predicate Accounted(a: Acceptor) {
    && a.accepted == |a.connections| + |a.notices|
    && forall k | 0 <= k < |a.notices| :: a.notices[k].reason != NoReason
  }

  predicate AccInv(a: Acceptor) { LivesOk(a) && PortsOk(a) && UniqueUsernames(a.ports) && Accounted(a) }

  /** Two connections logged in at one port are the same connection. */
  lemma SingleLiveLogin(a: Acceptor, c: Cid, d: Cid)
    requires AccInv(a) && c in a.connections && d in a.connections
    requires a.connections[c].state.state == a.connections[d].state.state == LoggedIn
    requires a.connections[c].port == a.connections[d].port
    ensures c == d
  {
  }

  lemma AcceptKeeps(a: Acceptor, c: Cid)
    requires AccInv(a) && c !in a.connections
    ensures AccInv(Accept(a, c))
  {
  }

  lemma DisconnectKeeps(a: Acceptor, c: Cid, reason: DisconnectReason)
    requires AccInv(a) && c in a.connections && reason != NoReason
    ensures AccInv(Disconnect(a, c, reason))
  {
  }

  lemma SupersededKeeps(a: Acceptor, i: nat)
    requires AccInv(a) && i < |a.ports|
    ensures var b := Superseded(a, i);
            && AccInv(b) && b == a.(connections := b.connections) && b.connections.Keys == a.connections.Keys
            && (forall d | d in a.connections && a.ports[i].connection != Some(d) ::
                  b.connections[d] == a.connections[d])
            && (a.ports[i].connection.Some? ==>
                  b.connections[a.ports[i].connection.value].state.state == Disconnected)
  {
    assert PortOk(a, i, a.ports[i]);
    match a.ports[i].connection
    case Some(d) => DisconnectKeeps(a, d, DisconnectReason.Superseded);
    case None =>
  }

  /** The new connection takes over the port of connections that are no longer logged in. */
  lemma LinkKeeps(a: Acceptor, c: Cid, i: nat, next: nat, s: ConnState)
    requires AccInv(a) && c in a.connections && i < |a.ports| && next >= 1
    requires a.connections[c].port.None? && s == ConnState(LoggedIn, NoReason)
    requires a.ports[i].connection.Some? ==> a.connections[a.ports[i].connection.value].state.state != LoggedIn
    ensures AccInv(a.(ports := a.ports[i := a.ports[i].(connection := Some(c), nextSequenceNumber := next)],
                      connections := a.connections[c := Live(s, Some(i))]))
  {
  }

  lemma LoginKeeps(a: Acceptor, c: Cid, request: LoginRequest)
    requires AccInv(a) && c in a.connections && a.connections[c].state.state == Connected
    ensures AccInv(ProcessLogin(a, c, request))
  {
    assert LiveOk(a, c, a.connections[c]);
    match Answer(a, request)
    case LoginOk(_) =>
      var i := FindPort(a.ports, request.username).value;
      assert PortOk(a, i, a.ports[i]);
      SupersededKeeps(a, i);
      LinkKeeps(Superseded(a, i), c, i, Rewound(a.ports[i], request), ConnState(LoggedIn, NoReason));
    case LoginRejected(_) =>
      RejectKeeps(a, c);
  }

  lemma RejectKeeps(a: Acceptor, c: Cid)
    requires AccInv(a) && c in a.connections && a.connections[c].state == ConnState(Connected, NoReason)
    ensures var rejected := a.connections[c].(state := ConnState(Disconnecting, AccessDenied));
            AccInv(a.(connections := a.connections[c := rejected]))
  {
  }

  lemma SentKeeps(a: Acceptor, i: nat)
    requires AccInv(a) && i < |a.ports|
    ensures AccInv(Sent(a, i))
  {
  }

  /**
   * A close, however late, clears no link but the connection's own, and is told once, with its reason, to the port's
   * handler if the connection ever logged in.
   */
  lemma ClosedKeeps(a: Acceptor, c: Cid)
    requires AccInv(a) && c in a.connections && a.connections[c].state.state == Disconnected
    ensures AccInv(Closed(a, c))
    ensures forall i | 0 <= i < |a.ports| ::
              Closed(a, c).ports[i].connection
              == if a.ports[i].connection == Some(c) then None else a.ports[i].connection
    ensures Closed(a, c).connections == a.connections - {c}
    ensures Closed(a, c).notices
         == a.notices + [Notice(c, a.connections[c].port != None, a.connections[c].state.reason)]
  {
    var b := Closed(a, c);
    assert LiveOk(a, c, a.connections[c]);
    assert b.connections.Keys == a.connections.Keys - {c};
    forall i | 0 <= i < |b.ports|
      ensures b.ports[i].connection == (if a.ports[i].connection == Some(c) then None else a.ports[i].connection)
      ensures PortOk(b, i, b.ports[i])
    {
      assert PortOk(a, i, a.ports[i]);
    }
    forall d | d in b.connections ensures LiveOk(b, d, b.connections[d]) {
      assert LiveOk(a, d, a.connections[d]);
    }
    assert |b.connections.Keys| == |a.connections.Keys| - 1;
  }

  lemma EndPortKeeps(a: Acceptor, i: nat)
    requires AccInv(a) && i < |a.ports|
    ensures AccInv(EndPort(a, i))
  {
    var b := EndPort(a, i);
    forall d | d in b.connections ensures LiveOk(b, d, b.connections[d]) {
      assert LiveOk(a, d, a.connections[d]);
    }
    forall j | 0 <= j < |b.ports| ensures PortOk(b, j, b.ports[j]) {
      assert PortOk(a, j, a.ports[j]);
    }
  }

  lemma {:induction false} EndPortsEnds(a: Acceptor, n: nat)
    requires n <= |a.ports|
    ensures EndPorts(a, n) == a.(ports := PortsEnded(a.ports[..n]) + a.ports[n..])
  {
    if n == 0 {
    } else {
      EndPortsEnds(a, n - 1);
      assert EndPorts(a, n).ports == PortsEnded(a.ports[..n]) + a.ports[n..];
    }
  }

  /** Ending the session is ending it at each port in turn. */
  lemma EndSessionByPorts(a: Acceptor)
    ensures EndSession(a) == EndPorts(a, |a.ports|)
  {
    EndPortsEnds(a, |a.ports|);
    assert a.ports[..|a.ports|] == a.ports;
  }

  lemma StopKeeps(a: Acceptor)
    requires AccInv(a)
    ensures AccInv(Stop(a))
  {
    var b := Stop(a);
    assert b.connections.Keys == a.connections.Keys;
    assert |b.connections.Keys| == |a.connections.Keys|;
    forall d | d in b.connections ensures LiveOk(b, d, b.connections[d]) {
      assert LiveOk(a, d, a.connections[d]);
    }
    forall i | 0 <= i < |b.ports| ensures PortOk(b, i, b.ports[i]) {
      assert PortOk(a, i, a.ports[i]);
    }
  }

  lemma AddPortKeeps(a: Acceptor, username: seq<Byte>, password: seq<Byte>)
    requires AccInv(a)
    ensures AccInv(AddPort(a, username, password))
  {
  }

  /** A port that was added takes a login with its own credentials, starting at 1, and no other password. */
  lemma AddedPortTakesLogin(a: Acceptor, username: seq<Byte>, password: seq<Byte>, request: LoginRequest)
    requires ValidField(username, USERNAME_LENGTH) && ValidField(password, PASSWORD_LENGTH)
    requires FindPort(a.ports, username) == None && request.username == username && request.session in {[], a.session}
    ensures var b := AddPort(a, username, password);
            && |b.ports| == |a.ports| + 1 && b.ports[..|a.ports|] == a.ports && b == a.(ports := b.ports)
            && Answer(b, request) == if request.password == password then LoginOk(LoginAccepted(a.session, 1))
                                     else LoginRejected(IncorrectPassword)
  {
    var b := AddPort(a, username, password);
    assert b.ports[..|b.ports| - 1] == a.ports;
  }

  /** Stopping disconnects every connection, for the user unless there is an earlier reason. */
  lemma StopDisconnects(a: Acceptor, c: Cid)
    requires AccInv(a) && c in a.connections
    ensures c in Stop(a).connections
    ensures var s, t := a.connections[c].state, Stop(a).connections[c].state;
            t.state == Disconnected && t.reason == if s.reason == NoReason then UserInitiated else s.reason
  {
    assert LiveOk(a, c, a.connections[c]);
  }

  /** A port's answers to a message, each exactly when it is due. */
  lemma SendErrorExact(a: Acceptor, i: nat, room: bool)
    requires AccInv(a) && i < |a.ports|
    ensures var p, e := a.ports[i], SendError(a, i, room);
            && (e == SessionEnded <==> p.hasSessionEnded)
            && (e == WriteDisconnected <==> !p.hasSessionEnded && p.connection == None)
            && (p.connection.Some? ==>
                  && p.connection.value in a.connections
                  && var loggedIn := a.connections[p.connection.value].state.state == LoggedIn;
                     && (e == NotLoggedIn <==> !p.hasSessionEnded && !loggedIn)
                     && (e == BufferFull <==> !p.hasSessionEnded && loggedIn && !room)
                     && (e == NoWriteError <==> !p.hasSessionEnded && loggedIn && room))
  {
    assert PortOk(a, i, a.ports[i]);
  }
}
