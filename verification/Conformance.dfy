/** The two ends' state machines fit: in every run, neither end receives a packet its state forbids. */
module Conformance {
  import opened Types
  import opened LogicalPackets
  import opened Lifecycle
  import opened Session
  import opened SessionRuns
  import C = ClientSession
  import S = ServerSession

  type Name = seq<Byte>

  /** Whether the port with this username has ended its session. */
  predicate PortEnded(a: S.Acceptor, username: Name) {
    var i := S.FindPort(a.ports, username);
    i.Some? && a.ports[i.value].hasSessionEnded
  }

  /** The username of the port connection c is logged in at. */
  function ServedIn(a: S.Acceptor, accepted: bool, c: S.Cid): Option<Name> {
    if accepted && c in a.connections && a.connections[c].state.state == LoggedIn
       && a.connections[c].port.Some? && a.connections[c].port.value < |a.ports|
    then Some(a.ports[a.connections[c].port.value].username)
    else None
  }

  // ---------------------------------------------------------------------
  // What is in the streams

  predicate NoData(down: seq<Down>) { forall k | 0 <= k < |down| :: !down[k].DataDown? }

  predicate NoDataAfterEnd(down: seq<Down>) {
    forall i, j | 0 <= i < j < |down| && down[i].EndDown? :: !down[j].DataDown?
  }

  /** `held`: the connection knows the end of the session; `ended`: its port has ended it. */
  predicate DownConforms(down: seq<Down>, held: bool, ended: bool) {
    && NoDataAfterEnd(down) && (held ==> NoData(down))
    && (forall k | 0 <= k < |down| && down[k].EndDown? :: ended)
  }

  /** Until the login is processed the request comes first, if at all, among debug packets; later there is none. */
  predicate UpConforms(up: seq<Up>, v: ServerView) {
    && (v.NotYet? ==> forall k | 0 <= k < |up| :: up[k].DebugUp? || (k == 0 && up[k].RequestUp?))
    && (v.Serving? ==> forall k | 0 <= k < |up| :: !up[k].RequestUp?)
  }

  predicate LinkConforms(l: Link, conn: C.Connection, v: ServerView, served: Option<Name>, ended: bool) {
    && UpConforms(l.up, v)
    && (Open(l) ==>
          && DownConforms(l.down, conn.hasSessionEnded, ended)
          && (served.Some? ==> served.value == conn.username))
  }

  predicate ConformsAt(s: System, c: S.Cid)
    requires Wired(s) && c < |s.links|
  {
    var l := s.links[c];
    var a, conn := s.acceptors[l.endpoint], s.conns[l.owner];
    LinkConforms(l, conn, View(s, c), ServedIn(a, l.accepted, c), PortEnded(a, conn.username))
  }

  /** A connection that knows the end of its session is right. */
  predicate EndHeard(s: System, i: nat)
    requires Wired(s) && i < |s.conns|
  {
    s.conns[i].hasSessionEnded ==> PortEnded(s.acceptors[s.owners[i].endpoint], s.conns[i].username)
  }

  predicate Conforms(s: System)
    requires Wired(s)
  {
    && (forall c | 0 <= c < |s.links| :: ConformsAt(s, c))
    && (forall i | 0 <= i < |s.conns| :: EndHeard(s, i))
  }

  // ---------------------------------------------------------------------
  // What the acceptor's operations keep

  predicate SameNames(p: seq<S.Port>, q: seq<S.Port>) {
    && |p| == |q|
    && forall i | 0 <= i < |p| :: p[i].username == q[i].username && (p[i].hasSessionEnded ==> q[i].hasSessionEnded)
  }

  lemma {:induction false} SamePortFound(p: seq<S.Port>, q: seq<S.Port>, username: Name)
    requires SameNames(p, q)
    ensures S.FindPort(p, username) == S.FindPort(q, username)
  {
    if p == [] {
    } else {
      SamePortFound(p[..|p| - 1], q[..|q| - 1], username);
    }
  }

  /** To every connection but c, b looks as a did, or past its login; and no session that had ended goes on. */
  ghost predicate Follows(a: S.Acceptor, b: S.Acceptor, c: S.Cid) {
    && SameNames(a.ports, b.ports) && ViewsKept(a, b, c)
    && (forall d, accepted | d != c ::
          ServedIn(b, accepted, d) == ServedIn(a, accepted, d) || ServedIn(b, accepted, d) == None)
  }

  lemma EndedStays(a: S.Acceptor, b: S.Acceptor, username: Name)
    requires SameNames(a.ports, b.ports) && PortEnded(a, username)
    ensures PortEnded(b, username)
  {
    SamePortFound(a.ports, b.ports, username);
  }

  lemma AcceptFollows(a: S.Acceptor, c: S.Cid)
    ensures Follows(a, S.Accept(a, c), c) && ServedIn(S.Accept(a, c), true, c) == None
  {
  }

  lemma DisconnectFollows(a: S.Acceptor, c: S.Cid, reason: DisconnectReason)
    requires c in a.connections
    ensures Follows(a, S.Disconnect(a, c, reason), c) && ServedIn(S.Disconnect(a, c, reason), true, c) == None
  {
  }

  lemma ClosedFollows(a: S.Acceptor, c: S.Cid)
    requires c in a.connections && S.AccInv(a)
    ensures Follows(a, S.Closed(a, c), c) && ServedIn(S.Closed(a, c), true, c) == None
  {
    ClosedViews(a, c);
  }

  lemma SentFollows(a: S.Acceptor, p: nat)
    requires S.AccInv(a) && p < |a.ports| && S.SendError(a, p, true) == NoWriteError
    ensures Follows(a, S.Sent(a, p), a.ports[p].connection.value)
    ensures ServedIn(a, true, a.ports[p].connection.value) == Some(a.ports[p].username)
    ensures ServedIn(S.Sent(a, p), true, a.ports[p].connection.value) == Some(a.ports[p].username)
  {
    SentViews(a, p);
    assert S.PortOk(a, p, a.ports[p]);
  }

  lemma EndPortFollows(a: S.Acceptor, p: nat, c: S.Cid)
    requires p < |a.ports|
    ensures Follows(a, S.EndPort(a, p), c)
    ensures forall accepted :: ServedIn(S.EndPort(a, p), accepted, c) == ServedIn(a, accepted, c)
  {
    EndPortViews(a, p, c);
  }

  lemma LoginNames(a: S.Acceptor, c: S.Cid, request: LoginRequest)
    requires c in a.connections
    ensures SameNames(a.ports, S.ProcessLogin(a, c, request).ports)
  {
  }

  /** The server sees of a connection that logs in the username it asked with, and of the others no more than before. */
  lemma LoginServed(a: S.Acceptor, c: S.Cid, request: LoginRequest, d: S.Cid, accepted: bool)
    requires S.AccInv(a) && c in a.connections && S.Answer(a, request).LoginOk?
    ensures var b := S.ProcessLogin(a, c, request);
            if d == c then ServedIn(b, true, d) == Some(request.username)
            else ServedIn(b, accepted, d) == ServedIn(a, accepted, d) || ServedIn(b, accepted, d) == None
  {
    LoginNames(a, c, request);
    S.SupersededKeeps(a, S.FindPort(a.ports, request.username).value);
    if d in a.connections {
      assert S.LiveOk(a, d, a.connections[d]);
    }
  }

  lemma LoginFollows(a: S.Acceptor, c: S.Cid, request: LoginRequest)
    requires S.AccInv(a) && c in a.connections && a.connections[c].state.state == Connected
    ensures Follows(a, S.ProcessLogin(a, c, request), c)
    ensures ServedIn(S.ProcessLogin(a, c, request), true, c)
         == if S.Answer(a, request).LoginOk? then Some(request.username) else None
  {
    LoginViews(a, c, request);
    LoginNames(a, c, request);
    if S.Answer(a, request).LoginOk? {
      var b := S.ProcessLogin(a, c, request);
      LoginServed(a, c, request, c, true);
      forall d, accepted | d != c
        ensures ServedIn(b, accepted, d) == ServedIn(a, accepted, d) || ServedIn(b, accepted, d) == None
      {
        LoginServed(a, c, request, d, accepted);
      }
    }
  }

  // ---------------------------------------------------------------------
  // Frames

  lemma ConformsElsewhere(l: Link, conn: C.Connection, v: ServerView, served: Option<Name>, ended: bool,
                          v': ServerView, served': Option<Name>, ended': bool)
    requires LinkConforms(l, conn, v, served, ended) && (v' == v || v' == Done)
    requires (served' == served || served' == None) && (ended ==> ended')
    ensures LinkConforms(l, conn, v', served', ended')
  {
  }

  /** A change at link c's server end, seen from another link. */
  lemma OtherConforms(s: System, c: S.Cid, l: Link, a: S.Acceptor, sent: set<Message>, d: S.Cid)
    requires Wired(s) && c < |s.links| && l.endpoint == s.links[c].endpoint && Follows(s.acceptors[l.endpoint], a, c)
    requires Wired(WithServerEnd(s, c, l, a, sent)) && d < |s.links| && d != c && ConformsAt(s, d)
    ensures ConformsAt(WithServerEnd(s, c, l, a, sent), d)
  {
    var m, t := s.links[d], WithServerEnd(s, c, l, a, sent);
    var conn, b := s.conns[m.owner], s.acceptors[m.endpoint];
    if m.endpoint == l.endpoint {
      if PortEnded(b, conn.username) {
        EndedStays(b, a, conn.username);
      }
      ConformsElsewhere(m, conn, View(s, d), ServedIn(b, m.accepted, d), PortEnded(b, conn.username),
                        View(t, d), ServedIn(a, m.accepted, d), PortEnded(a, conn.username));
    }
  }

  lemma OtherEndHeard(s: System, c: S.Cid, l: Link, a: S.Acceptor, sent: set<Message>, i: nat)
    requires Wired(s) && c < |s.links| && SameNames(s.acceptors[s.links[c].endpoint].ports, a.ports)
    requires Wired(WithServerEnd(s, c, l, a, sent)) && i < |s.conns| && EndHeard(s, i)
    ensures EndHeard(WithServerEnd(s, c, l, a, sent), i)
  {
    if s.owners[i].endpoint == s.links[c].endpoint && s.conns[i].hasSessionEnded {
      EndedStays(s.acceptors[s.links[c].endpoint], a, s.conns[i].username);
    }
  }

  lemma ServerEndConforms(s: System, c: S.Cid, l: Link, a: S.Acceptor, sent: set<Message>)
    requires Wired(s) && Conforms(s) && c < |s.links| && SameEndpoint(l, s.links[c])
    requires Wired(WithServerEnd(s, c, l, a, sent)) && Follows(s.acceptors[l.endpoint], a, c)
    requires LinkConforms(l, s.conns[l.owner], ViewIn(a, l.accepted, c), ServedIn(a, l.accepted, c),
                          PortEnded(a, s.conns[l.owner].username))
    ensures Conforms(WithServerEnd(s, c, l, a, sent))
  {
    var t := WithServerEnd(s, c, l, a, sent);
    forall d | 0 <= d < |t.links| ensures ConformsAt(t, d) {
      if d != c {
        OtherConforms(s, c, l, a, sent, d);
      }
    }
    forall i | 0 <= i < |t.conns| ensures EndHeard(t, i) {
      OtherEndHeard(s, c, l, a, sent, i);
    }
  }

  predicate SameEndpoint(l: Link, m: Link) { l.owner == m.owner && l.endpoint == m.endpoint }

  lemma ClientEndConforms(s: System, c: S.Cid, l: Link, conn: C.Connection, client: C.Client)
    requires Wired(s) && Conforms(s) && c < |s.links| && SameEnds(s.links[c], l)
    requires Wired(WithClientEnd(s, c, l, conn, client)) && (Open(s.links[c]) || conn == s.conns[l.owner])
    requires conn.username == s.conns[l.owner].username
    requires ConformsAt(s, c)
    requires conn.hasSessionEnded ==> PortEnded(s.acceptors[l.endpoint], conn.username)
    requires LinkConforms(l, conn, View(s, c), ServedIn(s.acceptors[l.endpoint], l.accepted, c),
                          PortEnded(s.acceptors[l.endpoint], conn.username))
    ensures Conforms(WithClientEnd(s, c, l, conn, client))
  {
    var t := WithClientEnd(s, c, l, conn, client);
    assert WiredLink(s, c, s.links[c]);
    forall d | 0 <= d < |t.links| ensures ConformsAt(t, d) {
      assert ConformsAt(s, d) && WiredLink(s, d, s.links[d]);
    }
    forall i | 0 <= i < |t.conns| ensures EndHeard(t, i) {
      assert EndHeard(s, i);
    }
  }

  lemma LinkOnlyConforms(s: System, c: S.Cid, l: Link)
    requires Wired(s) && Conforms(s) && c < |s.links| && SameEnds(s.links[c], l) && Wired(WithLink(s, c, l))
    requires LinkConforms(l, s.conns[l.owner], View(s, c), ServedIn(s.acceptors[l.endpoint], l.accepted, c),
                          PortEnded(s.acceptors[l.endpoint], s.conns[l.owner].username))
    ensures Conforms(WithLink(s, c, l))
  {
    var t := WithLink(s, c, l);
    forall d | 0 <= d < |t.links| ensures ConformsAt(t, d) {
      assert ConformsAt(s, d);
    }
    forall i | 0 <= i < |t.conns| ensures EndHeard(t, i) {
      assert EndHeard(s, i);
    }
  }

  // ---------------------------------------------------------------------
  // Every step keeps it

  lemma DownTail(down: seq<Down>, held: bool, ended: bool)
    requires DownConforms(down, held, ended) && down != []
    ensures DownConforms(down[1..], held, ended)
    ensures down[0].EndDown? ==> ended && DownConforms(down[1..], true, ended)
    ensures down[0].DataDown? ==> !held
  {
    assert forall k | 0 <= k < |down[1..]| :: down[1..][k] == down[k + 1];
  }

  lemma UpTail(up: seq<Up>, v: ServerView, w: ServerView)
    requires UpConforms(up, v) && up != [] && (v.NotYet? || v == w || w == Done)
    ensures UpConforms(up[1..], w)
  {
    assert forall k | 0 <= k < |up[1..]| :: up[1..][k] == up[k + 1];
  }

  lemma {:induction false} NothingBeforeLogin(down: seq<Down>)
    requires NoReply(down)
    ensures End(down, None) == None
  {
    if down == [] {
    } else {
      NothingBeforeLogin(down[..|down| - 1]);
    }
  }

  /** The port a connection is logged in at is the one its username finds. */
  lemma OwnPort(a: S.Acceptor, p: nat)
    requires S.UniqueUsernames(a.ports) && p < |a.ports|
    ensures S.FindPort(a.ports, a.ports[p].username) == Some(p)
    ensures PortEnded(a, a.ports[p].username) == a.ports[p].hasSessionEnded
  {
    var i := S.FindPort(a.ports, a.ports[p].username);
    assert i.Some? ==> a.ports[i.value].username == a.ports[p].username;
  }

  lemma NewLinkConforms(s: System, i: nat)
    requires Wired(s) && Conforms(s) && i < |s.conns| && s.conns[i].tcp.None? && Wired(NewLink(s, i))
    ensures Conforms(NewLink(s, i))
  {
    var t := NewLink(s, i);
    assert EndHeard(s, i);
    forall d | 0 <= d < |t.links| ensures ConformsAt(t, d) {
      if d < |s.links| {
        assert ConformsAt(s, d) && WiredLink(s, d, s.links[d]);
      }
    }
    forall j | 0 <= j < |t.conns| ensures EndHeard(t, j) {
      assert EndHeard(s, j);
    }
  }

  /** Only what no stream looks at changes. */
  lemma ConnConforms(s: System, i: nat, conn: C.Connection)
    requires Wired(s) && Conforms(s) && i < |s.conns| && Wired(s.(conns := s.conns[i := conn]))
    requires conn.username == s.conns[i].username && conn.hasSessionEnded == s.conns[i].hasSessionEnded
    ensures Conforms(s.(conns := s.conns[i := conn]))
  {
    var t := s.(conns := s.conns[i := conn]);
    forall d | 0 <= d < |t.links| ensures ConformsAt(t, d) {
      assert ConformsAt(s, d);
    }
    forall j | 0 <= j < |t.conns| ensures EndHeard(t, j) {
      assert EndHeard(s, j);
    }
  }

  lemma FlagConforms(s: System, k: nat, started: bool)
    requires Wired(s) && Conforms(s) && k < |s.clients|
    requires Wired(s.(clients := s.clients[k := s.clients[k].(started := started)]))
    ensures Conforms(s.(clients := s.clients[k := s.clients[k].(started := started)]))
  {
    var t := s.(clients := s.clients[k := s.clients[k].(started := started)]);
    forall d | 0 <= d < |t.links| ensures ConformsAt(t, d) {
      assert ConformsAt(s, d);
    }
    forall j | 0 <= j < |t.conns| ensures EndHeard(t, j) {
      assert EndHeard(s, j);
    }
  }

  lemma ConnectedConforms(s: System, c: S.Cid, room: bool)
    requires Wired(s) && Conforms(s) && c < |s.links| && LinkInv(s, c) && s.links[c].state.state == Connecting
    requires Wired(ConnectedAt(s, c, room))
    ensures Conforms(ConnectedAt(s, c, room))
  {
    var l := s.links[c];
    var conn := C.OnConnectSuccess(s.conns[l.owner], ClientOf(s, l.owner));
    assert ConformsAt(s, c) && EndHeard(s, l.owner);
    NothingBeforeLogin(l.down);
    ClientEndConforms(s, c, RequestSent(l, conn, room), conn, ClientOf(s, l.owner));
  }

  lemma AcceptLinkConforms(s: System, c: S.Cid)
    requires Wired(s) && Conforms(s) && c < |s.links| && !s.links[c].accepted
    requires Wired(AcceptedAt(s, c))
    ensures Conforms(AcceptedAt(s, c))
  {
    var l := s.links[c];
    var a := s.acceptors[l.endpoint];
    assert ConformsAt(s, c);
    AcceptFollows(a, c);
    AcceptViews(a, c);
    ServerEndConforms(s, c, l.(accepted := true), S.Accept(a, c), s.sent);
  }

  /** The server is past the login of c: its stream and its request no longer matter. */
  lemma DoneConforms(s: System, c: S.Cid, l: Link, a: S.Acceptor)
    requires Wired(s) && Conforms(s) && Serves(s, c)
    requires l == s.links[c] || (s.links[c].up != [] && l == s.links[c].(up := s.links[c].up[1..]))
    requires Wired(WithServerEnd(s, c, l, a, s.sent)) && Follows(s.acceptors[l.endpoint], a, c)
    requires ViewIn(a, true, c) == Done && ServedIn(a, true, c) == None
    ensures Conforms(WithServerEnd(s, c, l, a, s.sent))
  {
    var name := s.conns[l.owner].username;
    assert ConformsAt(s, c);
    if PortEnded(s.acceptors[l.endpoint], name) {
      EndedStays(s.acceptors[l.endpoint], a, name);
    }
    ServerEndConforms(s, c, l, a, s.sent);
  }

  lemma DroppedConforms(s: System, c: S.Cid, l: Link, reason: DisconnectReason)
    requires Wired(s) && Conforms(s) && Serves(s, c)
    requires l == s.links[c] || (s.links[c].up != [] && l == s.links[c].(up := s.links[c].up[1..]))
    requires Wired(WithServerEnd(s, c, l, S.Disconnect(s.acceptors[l.endpoint], c, reason), s.sent))
    ensures Conforms(WithServerEnd(s, c, l, S.Disconnect(s.acceptors[l.endpoint], c, reason), s.sent))
  {
    DisconnectFollows(s.acceptors[l.endpoint], c, reason);
    DisconnectViews(s.acceptors[l.endpoint], c, reason);
    DoneConforms(s, c, l, S.Disconnect(s.acceptors[l.endpoint], c, reason));
  }

  lemma ClosedConforms(s: System, c: S.Cid)
    requires Wired(s) && Conforms(s) && Serves(s, c) && S.AccInv(s.acceptors[s.links[c].endpoint])
    requires Wired(WithServerEnd(s, c, s.links[c], S.Closed(s.acceptors[s.links[c].endpoint], c), s.sent))
    ensures Conforms(WithServerEnd(s, c, s.links[c], S.Closed(s.acceptors[s.links[c].endpoint], c), s.sent))
  {
    var a := s.acceptors[s.links[c].endpoint];
    ClosedFollows(a, c);
    ClosedViews(a, c);
    DoneConforms(s, c, s.links[c], S.Closed(a, c));
  }

  // A packet reaches the server.

  /** A connection that is served shows it, and one that is not is still before its login. */
  lemma ViewOf(s: System, c: S.Cid)
    requires Wired(s) && Serves(s, c) && S.AccInv(s.acceptors[s.links[c].endpoint])
    ensures ServerState(s, c) == Connected ==> View(s, c) == NotYet
    ensures ServerState(s, c) == LoggedIn ==> View(s, c).Serving?
  {
    var a := s.acceptors[s.links[c].endpoint];
    assert S.LiveOk(a, c, a.connections[c]);
  }

  lemma RepliedConforms(l: Link, conn: C.Connection, served: Option<Name>, ended: bool, d: Down, room: bool,
                        v: ServerView, served': Option<Name>, ended': bool)
    requires LinkConforms(l, conn, NotYet, served, ended) && l.up != [] && !v.NotYet? && (ended ==> ended')
    requires !d.DataDown? && !d.EndDown? && (Open(l) && served'.Some? ==> served'.value == conn.username)
    ensures LinkConforms(Replied(l, d, room), conn, v, served', ended')
  {
    UpTail(l.up, NotYet, v);
  }

  lemma RequestConforms(s: System, c: S.Cid, request: LoginRequest, room: bool)
    requires Wired(s) && Conforms(s) && Serves(s, c) && ServerState(s, c) == Connected && LinkInv(s, c)
    requires S.AccInv(s.acceptors[s.links[c].endpoint]) && DownSent(s.links[c], s.sent)
    requires s.links[c].up != [] && s.links[c].up[0] == RequestUp(request) && Wired(Processed(s, c, room))
    ensures Conforms(Processed(s, c, room))
  {
    var l := s.links[c];
    var a, conn := s.acceptors[l.endpoint], s.conns[l.owner];
    var b := S.ProcessLogin(a, c, request);
    assert ConformsAt(s, c);
    ViewOf(s, c);
    LoginFollows(a, c, request);
    LoginViews(a, c, request);
    if Open(l) {
      ReplyFits(s, c, request);
      assert request == C.RequestOf(conn);
    }
    if PortEnded(a, conn.username) {
      EndedStays(a, b, conn.username);
    }
    RepliedConforms(l, conn, ServedIn(a, true, c), PortEnded(a, conn.username), Reply(a, request), room,
                    ViewIn(b, true, c), ServedIn(b, true, c), PortEnded(b, conn.username));
    ServerEndConforms(s, c, Replied(l, Reply(a, request), room), b, s.sent);
  }

  lemma PoppedConforms(s: System, c: S.Cid)
    requires Wired(s) && Conforms(s) && Serves(s, c) && s.links[c].up != []
    requires Wired(WithLink(s, c, s.links[c].(up := s.links[c].up[1..])))
    ensures Conforms(WithLink(s, c, s.links[c].(up := s.links[c].up[1..])))
  {
    assert ConformsAt(s, c);
    UpTail(s.links[c].up, View(s, c), View(s, c));
    LinkOnlyConforms(s, c, s.links[c].(up := s.links[c].up[1..]));
  }

  /** What the server receives it can take: before the login the request or debug text, after it anything else. */
  lemma ServerExpects(s: System, c: S.Cid, room: bool)
    requires Wired(s) && Conforms(s) && Enabled(s, ToServer(c, room)) && S.AccInv(s.acceptors[s.links[c].endpoint])
    ensures ServerState(s, c) == Connected ==> s.links[c].up[0].RequestUp? || s.links[c].up[0].DebugUp?
    ensures ServerState(s, c) == LoggedIn ==> !s.links[c].up[0].RequestUp?
  {
    assert ConformsAt(s, c);
    ViewOf(s, c);
  }

  lemma ProcessedConforms(s: System, c: S.Cid, room: bool)
    requires Wired(s) && Conforms(s) && Enabled(s, ToServer(c, room)) && LinkInv(s, c) && Wired(Processed(s, c, room))
    requires S.AccInv(s.acceptors[s.links[c].endpoint]) && DownSent(s.links[c], s.sent)
    ensures Conforms(Processed(s, c, room))
  {
    var l := s.links[c];
    ServerExpects(s, c, room);
    match l.up[0]
    case RequestUp(request) => RequestConforms(s, c, request, room);
    case LogoutUp => DroppedConforms(s, c, l.(up := l.up[1..]), LogoutRequested);
    case OtherUp => PoppedConforms(s, c);
    case DebugUp => PoppedConforms(s, c);
  }

  // A packet reaches the client.

  /** What the client receives it can take: a reply before the login, and messages only until the session ends. */
  lemma ClientExpects(s: System, c: S.Cid)
    requires Wired(s) && Conforms(s) && Enabled(s, ToClient(c)) && LinkInv(s, c)
    ensures var l, d := s.links[c], s.links[c].down[0];
            && (l.state.state == Connected && !l.refused ==> d.AcceptedDown? || d.RejectedDown? || d.DebugDown?)
            && (l.state.state == LoggedIn ==> !d.AcceptedDown? && !d.RejectedDown?)
            && (l.refused ==> l.state.state == Connected && !d.AcceptedDown? && !d.RejectedDown?)
            && (d.AcceptedDown? ==> d.response.nextSequenceNumber >= 1)
            && (d.DataDown? ==> !s.conns[l.owner].hasSessionEnded)
  {
    var l := s.links[c];
    assert ConformsAt(s, c);
    if !l.refused {
      StreamFirst(l.down, Expected(l, s.conns[l.owner]));
    }
    DownTail(l.down, s.conns[l.owner].hasSessionEnded, PortEnded(s.acceptors[l.endpoint], s.conns[l.owner].username));
  }

  lemma TakenConforms(s: System, c: S.Cid, m: Link, conn: C.Connection, client: C.Client)
    requires Wired(s) && Conforms(s) && Enabled(s, ToClient(c)) && LinkInv(s, c)
    requires m.(state := s.links[c].state) == s.links[c].(down := s.links[c].down[1..])
    requires m.state.state == s.links[c].state.state || m.state.state == LoggedIn || !Open(m)
    requires conn.username == s.conns[m.owner].username
    requires conn.hasSessionEnded == (s.conns[m.owner].hasSessionEnded || s.links[c].down[0].EndDown?)
    requires Wired(WithClientEnd(s, c, m, conn, client))
    ensures Conforms(WithClientEnd(s, c, m, conn, client))
  {
    var l := s.links[c];
    var old' := s.conns[l.owner];
    assert ConformsAt(s, c) && EndHeard(s, l.owner);
    DownTail(l.down, old'.hasSessionEnded, PortEnded(s.acceptors[l.endpoint], old'.username));
    ClientEndConforms(s, c, m, conn, client);
  }

  lemma TakenOnlyConforms(s: System, c: S.Cid, m: Link)
    requires Wired(s) && Conforms(s) && Enabled(s, ToClient(c))
    requires m.(state := s.links[c].state) == s.links[c].(down := s.links[c].down[1..])
    requires m.state.state == s.links[c].state.state || !Open(m)
    requires Wired(WithLink(s, c, m))
    ensures Conforms(WithLink(s, c, m))
  {
    var l := s.links[c];
    var conn := s.conns[l.owner];
    assert ConformsAt(s, c);
    DownTail(l.down, conn.hasSessionEnded, PortEnded(s.acceptors[l.endpoint], conn.username));
    LinkOnlyConforms(s, c, m);
  }

  lemma DeliveredConforms(s: System, c: S.Cid)
    requires Wired(s) && Conforms(s) && Enabled(s, ToClient(c)) && LinkInv(s, c) && Wired(Delivered(s, c))
    ensures Conforms(Delivered(s, c))
  {
    var l := s.links[c];
    var m := l.(down := l.down[1..]);
    var conn, client := s.conns[l.owner], ClientOf(s, l.owner);
    ClientExpects(s, c);
    match l.down[0]
    case AcceptedDown(r) =>
      if C.LoginVerdict(conn, client, r) != NoReason {
        TakenOnlyConforms(s, c, m.(state := l.state.Disconnect(C.LoginVerdict(conn, client, r))));
      } else {
        TakenConforms(s, c, m.(state := l.state.(state := LoggedIn)), C.LoggedInConnection(conn, client, r),
                      C.LoggedInClient(conn, client, r));
      }
    case RejectedDown => TakenOnlyConforms(s, c, m.(state := l.state.Disconnect(AccessDenied)));
    case DataDown(data, _) =>
      if l.refused {
        TakenOnlyConforms(s, c, Violated(m));
      } else {
        TakenConforms(s, c, m, C.Counted(conn), C.Received(client, conn.nextSequenceNumber, data));
      }
    case EndDown =>
      if l.refused {
        TakenOnlyConforms(s, c, Violated(m));
      } else {
        TakenConforms(s, c, m, C.EndedConnection(conn), C.EndedClient(conn, client));
      }
    case HeartbeatDown => TakenOnlyConforms(s, c, if l.refused then Violated(m) else m);
    case DebugDown => TakenOnlyConforms(s, c, m);
  }

  // Packets are sent.

  lemma ClientSendsConforms(s: System, c: S.Cid, u: Up)
    requires Wired(s) && Conforms(s) && Enabled(s, ClientSends(c, u)) && LinkInv(s, c)
    requires Wired(WithLink(s, c, s.links[c].(up := s.links[c].up + [u])))
    ensures Conforms(WithLink(s, c, s.links[c].(up := s.links[c].up + [u])))
  {
    var l := s.links[c];
    assert ConformsAt(s, c);
    if l.state.state == LoggedIn {
      EndAfterLogin(l.down, s.conns[l.owner].nextSequenceNumber);
    }
    LinkOnlyConforms(s, c, l.(up := l.up + [u]));
  }

  lemma ServerSendsConforms(s: System, c: S.Cid, d: Down)
    requires Wired(s) && Conforms(s) && Enabled(s, ServerSends(c, d))
    requires Wired(WithLink(s, c, s.links[c].(down := s.links[c].down + [d])))
    ensures Conforms(WithLink(s, c, s.links[c].(down := s.links[c].down + [d])))
  {
    assert ConformsAt(s, c);
    LinkOnlyConforms(s, c, s.links[c].(down := s.links[c].down + [d]));
  }

  /** A message is sent only while the port's session goes on, so no end of session is ahead of it. */
  lemma SendsConforms(s: System, e: nat, p: nat, c: S.Cid, d: Down, sent: set<Message>)
    requires Wired(s) && Conforms(s) && e < |s.acceptors| && p < |s.acceptors[e].ports| && S.AccInv(s.acceptors[e])
    requires S.SendError(s.acceptors[e], p, true) == NoWriteError && s.acceptors[e].ports[p].connection == Some(c)
    requires c < |s.links| && s.links[c].endpoint == e && s.links[c].accepted && d.DataDown?
    requires Wired(WithServerEnd(s, c, s.links[c].(down := s.links[c].down + [d]), S.Sent(s.acceptors[e], p), sent))
    ensures Conforms(WithServerEnd(s, c, s.links[c].(down := s.links[c].down + [d]), S.Sent(s.acceptors[e], p), sent))
  {
    var l, a := s.links[c], s.acceptors[e];
    assert ConformsAt(s, c);
    SentFollows(a, p);
    SentViews(a, p);
    OwnPort(a, p);
    SamePortFound(a.ports, S.Sent(a, p).ports, s.conns[l.owner].username);
    assert EndHeard(s, l.owner) && WiredLink(s, c, l);
    ServerEndConforms(s, c, l.(down := l.down + [d]), S.Sent(a, p), sent);
  }

  lemma EndsConforms(s: System, e: nat, p: nat, c: S.Cid)
    requires Wired(s) && Conforms(s) && e < |s.acceptors| && p < |s.acceptors[e].ports| && S.AccInv(s.acceptors[e])
    requires S.SendError(s.acceptors[e], p, true) == NoWriteError && s.acceptors[e].ports[p].connection == Some(c)
    requires c < |s.links| && s.links[c].endpoint == e && s.links[c].accepted
    requires Wired(EndedAt(s, e, p, c))
    ensures Conforms(EndedAt(s, e, p, c))
  {
    var l, a := s.links[c], s.acceptors[e];
    var b := S.EndPort(a, p);
    assert ConformsAt(s, c);
    SentFollows(a, p);
    EndPortFollows(a, p, c);
    EndPortViews(a, p, c);
    OwnPort(a, p);
    SamePortFound(a.ports, b.ports, s.conns[l.owner].username);
    ServerEndConforms(s, c, l.(down := l.down + [EndDown]), b, s.sent);
  }

  lemma EndPortConforms(s: System, e: nat, p: nat)
    requires Wired(s) && Conforms(s) && e < |s.acceptors| && p < |s.acceptors[e].ports|
    requires Wired(WithAcceptor(s, e, S.EndPort(s.acceptors[e], p)))
    ensures Conforms(WithAcceptor(s, e, S.EndPort(s.acceptors[e], p)))
  {
    var a, b, t := s.acceptors[e], S.EndPort(s.acceptors[e], p), WithAcceptor(s, e, S.EndPort(s.acceptors[e], p));
    forall d | 0 <= d < |t.links| ensures ConformsAt(t, d) {
      assert ConformsAt(s, d);
      var l := s.links[d];
      if l.endpoint == e {
        EndPortFollows(a, p, d);
        EndPortViews(a, p, d);
        if PortEnded(a, s.conns[l.owner].username) {
          EndedStays(a, b, s.conns[l.owner].username);
        }
      }
    }
    forall i | 0 <= i < |t.conns| ensures EndHeard(t, i) {
      assert EndHeard(s, i);
      if s.owners[i].endpoint == e && s.conns[i].hasSessionEnded {
        EndedStays(a, b, s.conns[i].username);
      }
    }
  }

  lemma ClientDropConforms(s: System, c: S.Cid, reason: DisconnectReason)
    requires Wired(s) && Conforms(s) && c < |s.links| && Open(s.links[c])
    requires Wired(WithLink(s, c, s.links[c].(state := s.links[c].state.Disconnect(reason))))
    ensures Conforms(WithLink(s, c, s.links[c].(state := s.links[c].state.Disconnect(reason))))
  {
    assert ConformsAt(s, c);
    LinkOnlyConforms(s, c, s.links[c].(state := s.links[c].state.Disconnect(reason)));
  }

  // ---------------------------------------------------------------------
  // Runs

  lemma SendStepConforms(s: System, e: nat, p: nat, data: Data, room: bool, initial: seq<nat>)
    requires Inv(s, initial) && Conforms(s) && e < |s.acceptors| && p < |s.acceptors[e].ports|
    requires Wired(Sends(s, e, p, data, room))
    ensures Conforms(Sends(s, e, p, data, room))
  {
    var a := s.acceptors[e];
    if data != [] && S.SendError(a, p, room) == NoWriteError {
      var c, n := a.ports[p].connection.value, a.ports[p].nextSequenceNumber;
      assert WiredAcceptor(s, e, a);
      SendsConforms(s, e, p, c, DataDown(data, n), s.sent + {Message(s.links[c].client, n, data)});
    }
  }

  lemma EndStepConforms(s: System, e: nat, p: nat, room: bool, initial: seq<nat>)
    requires Inv(s, initial) && Conforms(s) && e < |s.acceptors| && p < |s.acceptors[e].ports|
    requires Wired(Ends(s, e, p, room))
    ensures Conforms(Ends(s, e, p, room))
  {
    var a := s.acceptors[e];
    if !a.ports[p].hasSessionEnded {
      if S.SendError(a, p, room) == NoWriteError {
        assert WiredAcceptor(s, e, a);
        EndsConforms(s, e, p, a.ports[p].connection.value);
      } else {
        EndPortConforms(s, e, p);
      }
    }
  }

  lemma OwnerStepConforms(s: System, step: Step)
    requires Wired(s) && Conforms(s) && Enabled(s, step) && Wired(Apply(s, step)) && IsOwnerStep(step)
    ensures Conforms(Apply(s, step))
  {
    match step
    case StartClient(k) => FlagConforms(s, k, true);
    case StopClient(k) => FlagConforms(s, k, false);
    case Connect(i) => NewLinkConforms(s, i);
    case TimerFires(i) =>
      assert WiredConn(s, i, s.conns[i]);
      NewLinkConforms(s, i);
    case CloseConnection(i) => ConnConforms(s, i, C.ClosedByUser(s.conns[i]));
    case ClientClosed(c) =>
      var l := s.links[c];
      ConnConforms(s, l.owner, C.OnClosed(s.conns[l.owner], ClientOf(s, l.owner), l.state.reason));
  }

  predicate IsOwnerStep(step: Step) {
    || step.StartClient? || step.StopClient? || step.Connect? || step.TimerFires? || step.CloseConnection?
    || step.ClientClosed?
  }

  lemma StepConforms(s: System, step: Step, initial: seq<nat>)
    requires Inv(s, initial) && Conforms(s) && Enabled(s, step) && Wired(Apply(s, step))
    ensures Conforms(Apply(s, step))
  {
    match step
    case ConnectOk(c, room) =>
      assert LinkInv(s, c);
      ConnectedConforms(s, c, room);
    case AcceptLink(c) => AcceptLinkConforms(s, c);
    case ToServer(c, room) =>
      assert LinkInv(s, c) && DownSent(s.links[c], s.sent);
      ProcessedConforms(s, c, room);
    case ToClient(c) =>
      assert LinkInv(s, c);
      DeliveredConforms(s, c);
    case ClientSends(c, u) =>
      assert LinkInv(s, c);
      ClientSendsConforms(s, c, u);
    case SendMessage(e, p, data, room) => SendStepConforms(s, e, p, data, room, initial);
    case ServerSends(c, d) => ServerSendsConforms(s, c, d);
    case EndSession(e, p, room) => EndStepConforms(s, e, p, room, initial);
    case ServerDrop(c, reason) => DroppedConforms(s, c, s.links[c], reason);
    case ServerClosed(c) => ClosedConforms(s, c);
    case ClientDrop(c, reason) => ClientDropConforms(s, c, reason);
    case _ => OwnerStepConforms(s, step);
  }

  lemma StartConforms(s: System)
    requires Initial(s) && Wired(s)
    ensures Conforms(s)
  {
    forall j | 0 <= j < |s.conns| ensures EndHeard(s, j) {
      assert NewConnection(s.conns[j]);
    }
  }

  lemma RunStartConforms(ss: seq<System>, steps: seq<Step>)
    requires IsRun(ss, steps)
    ensures Wired(ss[0]) && Conforms(ss[0])
  {
    InitialInv(ss[0]);
    StartConforms(ss[0]);
  }

  lemma RunStepConforms(ss: seq<System>, steps: seq<Step>, i: nat)
    requires IsRun(ss, steps) && i < |steps| && Wired(ss[i]) && Conforms(ss[i])
    ensures Wired(ss[i + 1]) && Conforms(ss[i + 1])
  {
    RunKeepsInv(ss, steps, i);
    RunKeepsInv(ss, steps, i + 1);
    assert IsStep(ss[i], steps[i], ss[i + 1]);
    StepConforms(ss[i], steps[i], Starts(ss[0]));
  }

  lemma {:induction false} RunConforms(ss: seq<System>, steps: seq<Step>, i: nat)
    requires IsRun(ss, steps) && i < |ss|
    ensures Wired(ss[i]) && Conforms(ss[i])
  {
    if i == 0 {
      RunStartConforms(ss, steps);
    } else {
      RunConforms(ss, steps, i - 1);
      RunStepConforms(ss, steps, i - 1);
    }
  }

  lemma DeliveredReason(s: System, c: S.Cid)
    requires Wired(s) && Conforms(s) && Enabled(s, ToClient(c)) && LinkInv(s, c)
    ensures Delivered(s, c).links[c].state.reason == ProtocolViolation
       <==> s.links[c].refused && !s.links[c].down[0].DebugDown?
  {
    ClientExpects(s, c);
  }

  lemma ProcessedReason(s: System, c: S.Cid, room: bool)
    requires Wired(s) && Conforms(s) && Enabled(s, ToServer(c, room)) && S.AccInv(s.acceptors[s.links[c].endpoint])
    ensures var a := Processed(s, c, room).acceptors[s.links[c].endpoint];
            c in a.connections && a.connections[c].state.reason != ProtocolViolation
  {
    var a := s.acceptors[s.links[c].endpoint];
    assert S.LiveOk(a, c, a.connections[c]);
    ServerExpects(s, c, room);
  }

  /**
   * In every run, what the client end of a connection reads next is a protocol violation exactly when the reply to its
   * login was refused and more than debug text follows. So with room for the replies it never is: only debug text
   * comes ahead of the login reply, one reply comes, and no message follows the end of session.
   */
  lemma ClientViolatedExactly(ss: seq<System>, steps: seq<Step>, i: nat, c: S.Cid)
    requires IsRun(ss, steps) && i < |ss| && Wired(ss[i]) && Enabled(ss[i], ToClient(c))
    ensures Delivered(ss[i], c).links[c].state.reason == ProtocolViolation
       <==> ss[i].links[c].refused && !ss[i].links[c].down[0].DebugDown?
  {
    RunKeepsInv(ss, steps, i);
    RunConforms(ss, steps, i);
    assert LinkInv(ss[i], c);
    DeliveredReason(ss[i], c);
  }

  /** If every login reply of the run so far found room, no client has been sent what it cannot take. */
  lemma ClientNeverViolated(ss: seq<System>, steps: seq<Step>, i: nat, c: S.Cid)
    requires IsRun(ss, steps) && i < |ss| && Wired(ss[i]) && Enabled(ss[i], ToClient(c))
    requires forall j | 0 <= j < i :: steps[j] != ToServer(c, false)
    ensures Delivered(ss[i], c).links[c].state.reason != ProtocolViolation
  {
    ClientViolatedExactly(ss, steps, i, c);
    if RefusedAt(ss[i], c) {
      var j := RefusedInRun(ss, steps, i, c);
    }
  }

  /** Nor does the server end: the request comes first, once, and the rest only after the login. */
  lemma ServerNeverViolated(ss: seq<System>, steps: seq<Step>, i: nat, c: S.Cid, room: bool)
    requires IsRun(ss, steps) && i < |ss| && Wired(ss[i]) && Enabled(ss[i], ToServer(c, room))
    ensures var a := Processed(ss[i], c, room).acceptors[ss[i].links[c].endpoint];
            c in a.connections && a.connections[c].state.reason != ProtocolViolation
  {
    RunKeepsInv(ss, steps, i);
    RunConforms(ss, steps, i);
    assert S.AccInv(ss[i].acceptors[ss[i].links[c].endpoint]);
    ProcessedReason(ss[i], c, room);
  }

  // ---------------------------------------------------------------------
  // A run in which a reply is refused: one client, one connection, one port

  const REQUEST := LoginRequest([], [], [], 1)

  function PortAt(c: Option<S.Cid>, next: nat): S.Port { S.Port([], [], c, next, false) }

  function ServerAt(port: S.Port, connections: map<S.Cid, S.Live>, accepted: nat): S.Acceptor {
    S.Acceptor([], [port], connections, accepted, [])
  }

  function EndAt(state: State, accepted: bool, up: seq<Up>, down: seq<Down>, refused: bool): seq<Link> {
    [Link(0, 0, 0, ConnState(state, NoReason), accepted, up, down, refused)]
  }

  function At(started: bool, tcp: Option<S.Cid>, a: S.Acceptor, links: seq<Link>, sent: set<Message>): System {
    System([a], [C.Client(1, false, started, [])],
           [C.Connection([], [], [], 1, false, tcp, C.ReconnectTimer(false, 0), 0)], [Owner(0, 0)], links, sent)
  }

  const IDLE := ServerAt(PortAt(None, 1), map[], 0)
  const ACCEPTED := ServerAt(PortAt(None, 1), map[0 := S.Live(ConnState(Connected, NoReason), None)], 1)

  function LoggedInAt(next: nat): S.Acceptor {
    ServerAt(PortAt(Some(0), next), map[0 := S.Live(ConnState(LoggedIn, NoReason), Some(0))], 1)
  }

  /** The states of the run: configured, started, connecting, requesting, accepted, logged in unanswered, sent to. */
  function StateOf(i: nat): System {
    if i == 0 then At(false, None, IDLE, [], {})
    else if i == 1 then At(true, None, IDLE, [], {})
    else if i == 2 then At(true, Some(0), IDLE, EndAt(Connecting, false, [], [], false), {})
    else if i == 3 then At(true, Some(0), IDLE, EndAt(Connected, false, [RequestUp(REQUEST)], [], false), {})
    else if i == 4 then At(true, Some(0), ACCEPTED, EndAt(Connected, true, [RequestUp(REQUEST)], [], false), {})
    else if i == 5 then At(true, Some(0), LoggedInAt(1), EndAt(Connected, true, [], [], true), {})
    else At(true, Some(0), LoggedInAt(2), EndAt(Connected, true, [], [DataDown([65], 1)], true), {Message(0, 1, [65])})
  }

  function StepOf(i: nat): Step {
    if i == 0 then StartClient(0)
    else if i == 1 then Step.Connect(0)
    else if i == 2 then ConnectOk(0, true)
    else if i == 3 then AcceptLink(0)
    else if i == 4 then ToServer(0, false)
    else SendMessage(0, 0, [65], true)
  }

  lemma IdleWired(started: bool)
    ensures Wired(At(started, None, IDLE, [], {}))
  {
  }

  lemma LinkedWired(a: S.Acceptor, state: State, accepted: bool, up: seq<Up>, down: seq<Down>, refused: bool,
                    sent: set<Message>)
    requires a.connections.Keys <= if accepted then {0} else {}
    ensures Wired(At(true, Some(0), a, EndAt(state, accepted, up, down, refused), sent))
  {
  }

  lemma StatesWired(i: nat)
    ensures Wired(StateOf(i))
  {
    if i <= 1 {
      IdleWired(i == 1);
    } else {
      var s := StateOf(i);
      var l := s.links[0];
      LinkedWired(s.acceptors[0], l.state.state, l.accepted, l.up, l.down, l.refused, s.sent);
    }
  }

  lemma FirstSteps()
    ensures IsStep(StateOf(0), StepOf(0), StateOf(1)) && IsStep(StateOf(1), StepOf(1), StateOf(2))
  {
    StatesWired(0);
    StatesWired(1);
  }

  lemma MiddleSteps()
    ensures IsStep(StateOf(2), StepOf(2), StateOf(3)) && IsStep(StateOf(3), StepOf(3), StateOf(4))
  {
    StatesWired(2);
    StatesWired(3);
  }

  lemma LoginTaken()
    ensures S.Answer(ACCEPTED, REQUEST).LoginOk? && S.ProcessLogin(ACCEPTED, 0, REQUEST) == LoggedInAt(1)
  {
    var ports := [PortAt(None, 1)];
    assert ports[..0] == [] && S.FindPort(ports, []) == Some(0);
    assert ports[0 := PortAt(Some(0), 1)] == [PortAt(Some(0), 1)];
    var live := S.Live(ConnState(LoggedIn, NoReason), Some(0));
    assert ACCEPTED.connections[0 := live] == map[0 := live];
  }

  lemma RefusedStep()
    ensures IsStep(StateOf(4), StepOf(4), StateOf(5))
  {
    StatesWired(4);
    LoginTaken();
    var s, l := StateOf(4), StateOf(4).links[0];
    assert l.up[1..] == [];
    assert Processed(s, 0, false).links == StateOf(5).links;
    assert Processed(s, 0, false).acceptors == StateOf(5).acceptors;
  }

  lemma SentStep()
    ensures IsStep(StateOf(5), StepOf(5), StateOf(6))
  {
    StatesWired(5);
    var s := StateOf(5);
    var t := Sends(s, 0, 0, [65], true);
    assert S.SendError(LoggedInAt(1), 0, true) == NoWriteError;
    assert S.Sent(LoggedInAt(1), 0) == LoggedInAt(2);
    assert s.links[0].down + [DataDown([65], 1)] == [DataDown([65], 1)];
    assert t.links == StateOf(6).links;
    assert t.acceptors == StateOf(6).acceptors;
    assert t.sent == StateOf(6).sent;
  }

  lemma EachStep(i: nat)
    requires i < 6
    ensures IsStep(StateOf(i), StepOf(i), StateOf(i + 1))
  {
    if i <= 1 {
      FirstSteps();
    } else if i <= 3 {
      MiddleSteps();
    } else if i == 4 {
      RefusedStep();
    } else {
      SentStep();
    }
  }

  lemma StartsInitial()
    ensures Initial(StateOf(0))
  {
  }

  lemma RefusedRun(ss: seq<System>, steps: seq<Step>)
    requires |ss| == 7 && |steps| == 6
    requires (forall i | 0 <= i < 7 :: ss[i] == StateOf(i)) && forall i | 0 <= i < 6 :: steps[i] == StepOf(i)
    ensures IsRun(ss, steps)
  {
    StartsInitial();
    forall i | 0 <= i < 6 ensures IsStep(ss[i], steps[i], ss[i + 1]) {
      EachStep(i);
    }
  }

  lemma MessageWaits()
    ensures Wired(StateOf(6)) && Enabled(StateOf(6), ToClient(0))
    ensures StateOf(6).links[0].refused && !StateOf(6).links[0].down[0].DebugDown?
  {
    StatesWired(6);
  }

  /** The run: the reply to the login is refused, a message is sent, and where the client reads it is a violation. */
  lemma RefusedReplyViolates() returns (ss: seq<System>, steps: seq<Step>)
    ensures IsRun(ss, steps) && |steps| == 6 && Wired(ss[6]) && Enabled(ss[6], ToClient(0))
    ensures Delivered(ss[6], 0).links[0].state.reason == ProtocolViolation
  {
    ss, steps := seq(7, i requires 0 <= i < 7 => StateOf(i)), seq(6, i requires 0 <= i < 6 => StepOf(i));
    RefusedRun(ss, steps);
    assert ss[6] == StateOf(6);
    MessageWaits();
    ClientViolatedExactly(ss, steps, 6, 0);
  }
}
