/** What single steps of the system do to numbers and to the end of a session, and what that comes to over runs. */
module SessionEvents {
  import opened Types
  import opened LogicalPackets
  import opened Lifecycle
  import opened CommonEvents
  import opened Session
  import opened SessionRuns
  import C = ClientSession
  import S = ServerSession

  lemma RunStep(ss: seq<System>, steps: seq<Step>, i: nat)
    requires IsRun(ss, steps) && i < |steps|
    ensures Wired(ss[i]) && Wired(ss[i + 1]) && Enabled(ss[i], steps[i]) && ss[i + 1] == Apply(ss[i], steps[i])
  {
    assert IsStep(ss[i], steps[i], ss[i + 1]);
    RunKeepsInv(ss, steps, i + 1);
  }

  // ---------------------------------------------------------------------
  // A connect asks for the client's number

  lemma ConnectLooks(s: System, c: S.Cid, room: bool)
    requires Wired(s) && Enabled(s, ConnectOk(c, room))
    ensures var t, i := Apply(s, ConnectOk(c, room)), s.links[c].owner;
            var was, client := s.conns[i], ClientOf(s, i);
            && t.clients == s.clients && t.owners == s.owners && |t.conns| == |s.conns| && |t.links| == |s.links|
            && t.conns[i] == was.(nextSequenceNumber := client.nextSequenceNumber)
            && t.links[c].state == s.links[c].state.(state := Connected) && t.links[c].owner == i
            && t.links[c].up
               == if room
                  then [RequestUp(LoginRequest(was.username, was.password, was.session, client.nextSequenceNumber))]
                  else []
  {
  }

  /**
   * In every run, when a connect succeeds, the connection takes its client's number, and its credentials with that
   * number are the one thing on the link.
   */
  lemma ConnectAsks(ss: seq<System>, steps: seq<Step>, i: nat, c: S.Cid, room: bool)
    requires IsRun(ss, steps) && i < |steps| && steps[i] == ConnectOk(c, room)
    ensures c < |ss[i + 1].links| && Wired(ss[i + 1])
    ensures var t := ss[i + 1];
            var conn, client := t.conns[t.links[c].owner], ClientOf(t, t.links[c].owner);
            && conn.nextSequenceNumber == client.nextSequenceNumber
            && client.nextSequenceNumber == ClientOf(ss[i], t.links[c].owner).nextSequenceNumber
            && (room ==> t.links[c].up == [RequestUp(LoginRequest(conn.username, conn.password, conn.session,
                                                                  client.nextSequenceNumber))])
            && (!room ==> t.links[c].up == [])
  {
    RunStep(ss, steps, i);
    ConnectLooks(ss[i], c, room);
  }

  // ---------------------------------------------------------------------
  // A port's number

  /** How port p of acceptor e comes to its number in one step. */
  predicate NumberMoves(s: System, step: Step, t: System, e: nat, p: nat)
    requires e < |s.acceptors| == |t.acceptors| && p < |s.acceptors[e].ports| == |t.acceptors[e].ports|
  {
    var n, m := s.acceptors[e].ports[p].nextSequenceNumber, t.acceptors[e].ports[p].nextSequenceNumber;
    || m == n
    || (m == n + 1 && IsSend(step, e, p))
    || (m < n && AsksFor(s, step, e, p, m))
  }

  predicate IsSend(step: Step, e: nat, p: nat) { step.SendMessage? && step.e == e && step.p == p && step.data != [] }

  /** The step brings port p of acceptor e a login request for this number. */
  predicate AsksFor(s: System, step: Step, e: nat, p: nat, number: nat)
    requires e < |s.acceptors|
  {
    && step.ToServer? && step.c < |s.links| && s.links[step.c].endpoint == e
    && s.links[step.c].up != [] && s.links[step.c].up[0].RequestUp?
    && var request := s.links[step.c].up[0].request;
       S.FindPort(s.acceptors[e].ports, request.username) == Some(p) && request.nextSequenceNumber == number
  }

  lemma ProcessedMovesNumber(s: System, c: S.Cid, room: bool, e: nat, p: nat)
    requires Wired(s) && Enabled(s, ToServer(c, room)) && e < |s.acceptors| && p < |s.acceptors[e].ports|
    ensures var t := Processed(s, c, room);
            && |t.acceptors| == |s.acceptors| && |t.acceptors[e].ports| == |s.acceptors[e].ports|
            && NumberMoves(s, ToServer(c, room), t, e, p)
  {
    var a := s.acceptors[s.links[c].endpoint];
    if s.links[c].up[0].RequestUp? && S.Answer(a, s.links[c].up[0].request).LoginOk? {
      S.AcceptedNumber(a, c, s.links[c].up[0].request);
    }
  }

  lemma StepMovesNumber(s: System, step: Step, e: nat, p: nat)
    requires Wired(s) && Enabled(s, step) && e < |s.acceptors| && p < |s.acceptors[e].ports|
    ensures var t := Apply(s, step);
            && |t.acceptors| == |s.acceptors| && |t.acceptors[e].ports| == |s.acceptors[e].ports|
            && NumberMoves(s, step, t, e, p)
  {
    match step
    case ToServer(c, room) => ProcessedMovesNumber(s, c, room, e, p);
    case _ =>
  }

  /** In every run a port's number rises only by one, at a message sent, and falls only at a login, to what it asked. */
  lemma PortNumberMoves(ss: seq<System>, steps: seq<Step>, i: nat, e: nat, p: nat)
    requires IsRun(ss, steps) && i < |steps| && e < |ss[i].acceptors| && p < |ss[i].acceptors[e].ports|
    ensures |ss[i + 1].acceptors| == |ss[i].acceptors|
    ensures |ss[i + 1].acceptors[e].ports| == |ss[i].acceptors[e].ports|
    ensures NumberMoves(ss[i], steps[i], ss[i + 1], e, p)
  {
    RunStep(ss, steps, i);
    StepMovesNumber(ss[i], steps[i], e, p);
  }

  /** The connection c at port p of acceptor a takes a packet now, if its queue does. */
  predicate Takes(a: S.Acceptor, p: nat, c: S.Cid)
    requires p < |a.ports|
  {
    && !a.ports[p].hasSessionEnded && a.ports[p].connection == Some(c)
    && c in a.connections && a.connections[c].state.state == LoggedIn
  }

  /** A message that a logged-in connection with room takes goes out under the port's number, and the port moves on. */
  lemma MessageSent(s: System, e: nat, p: nat, c: S.Cid, data: Data)
    requires Wired(s) && e < |s.acceptors| && p < |s.acceptors[e].ports| && Takes(s.acceptors[e], p, c) && data != []
    ensures Enabled(s, SendMessage(e, p, data, true)) && c < |s.links|
    ensures var t, n := Apply(s, SendMessage(e, p, data, true)), s.acceptors[e].ports[p].nextSequenceNumber;
            && t.acceptors == s.acceptors[e := t.acceptors[e]] && |t.acceptors[e].ports| == |s.acceptors[e].ports|
            && t.acceptors[e].ports[p].nextSequenceNumber == n + 1
            && t.links == s.links[c := s.links[c].(down := s.links[c].down + [DataDown(data, n)])]
            && t.sent == s.sent + {Message(s.links[c].client, n, data)}
  {
    assert WiredAcceptor(s, e, s.acceptors[e]);
  }

  // ---------------------------------------------------------------------
  // The end of a session

  /** A port's session ends, and its connection is told. */
  lemma SessionEndSent(s: System, e: nat, p: nat, c: S.Cid)
    requires Wired(s) && e < |s.acceptors| && p < |s.acceptors[e].ports| && Takes(s.acceptors[e], p, c)
    ensures Enabled(s, EndSession(e, p, true)) && c < |s.links|
    ensures var t := Apply(s, EndSession(e, p, true));
            && t.links == s.links[c := s.links[c].(down := s.links[c].down + [EndDown])]
            && |t.acceptors| == |s.acceptors| && |t.acceptors[e].ports| == |s.acceptors[e].ports|
            && t.acceptors[e].ports[p].hasSessionEnded
  {
    assert WiredAcceptor(s, e, s.acceptors[e]);
  }

  /** Whether or not it could be told, nobody is told of it again. */
  lemma SessionEndsOnce(s: System, e: nat, p: nat, room: bool)
    requires Wired(s) && e < |s.acceptors| && p < |s.acceptors[e].ports|
    ensures Enabled(s, EndSession(e, p, room))
    ensures var t := Apply(s, EndSession(e, p, room));
            && |t.acceptors| == |s.acceptors| && |t.acceptors[e].ports| == |s.acceptors[e].ports|
            && t.acceptors[e].ports[p].hasSessionEnded
    ensures s.acceptors[e].ports[p].hasSessionEnded ==> Apply(s, EndSession(e, p, room)) == s
  {
    if !s.acceptors[e].ports[p].hasSessionEnded && S.SendError(s.acceptors[e], p, room) == NoWriteError {
      assert WiredAcceptor(s, e, s.acceptors[e]);
    }
  }

  /** The connection that reads an end of session in this step, if one does. */
  function EndReader(s: System, step: Step): Option<nat> {
    if step.ToClient? && step.c < |s.links| && s.links[step.c].state.state == LoggedIn
       && s.links[step.c].down != [] && s.links[step.c].down[0].EndDown?
    then Some(s.links[step.c].owner) else None
  }

  function EndReaders(ss: seq<System>, steps: seq<Step>): (r: seq<Option<nat>>)
    requires |ss| == |steps| + 1
    ensures |r| == |steps|
  {
    seq(|steps|, k requires 0 <= k < |steps| => EndReader(ss[k], steps[k]))
  }

  predicate SameFlags(s: System, t: System, step: Step) {
    && t.owners == s.owners && |t.conns| == |s.conns| && |t.clients| == |s.clients|
    && (forall i | 0 <= i < |s.conns| ::
          t.conns[i].hasSessionEnded <==> s.conns[i].hasSessionEnded || EndReader(s, step) == Some(i))
    && (forall k | 0 <= k < |s.clients| ::
          t.clients[k].hasSessionEnded <==> s.clients[k].hasSessionEnded || ReadsFor(s, step, k))
  }

  predicate ReadsFor(s: System, step: Step, k: nat) {
    match EndReader(s, step) case Some(i) => i < |s.owners| && s.owners[i].client == k case None => false
  }

  lemma DeliveredFlags(s: System, c: S.Cid)
    requires Wired(s) && Enabled(s, ToClient(c)) && EndsKnown(s)
    ensures SameFlags(s, Delivered(s, c), ToClient(c))
  {
    var i := s.links[c].owner;
    assert WiredLink(s, c, s.links[c]) && ClientKnows(s, i);
  }

  lemma ProcessedFlags(s: System, c: S.Cid, room: bool)
    requires Wired(s) && Enabled(s, ToServer(c, room))
    ensures SameFlags(s, Processed(s, c, room), ToServer(c, room))
  {
  }

  lemma ConnectedFlags(s: System, c: S.Cid, room: bool)
    requires Wired(s) && Enabled(s, ConnectOk(c, room))
    ensures SameFlags(s, ConnectedAt(s, c, room), ConnectOk(c, room))
  {
  }

  predicate AtServer(step: Step) {
    || step.AcceptLink? || step.SendMessage? || step.ServerSends? || step.EndSession? || step.ServerDrop?
    || step.ServerClosed?
  }

  lemma ServerStepFlags(s: System, step: Step)
    requires Wired(s) && Enabled(s, step) && AtServer(step)
    ensures SameFlags(s, Apply(s, step), step)
  {
    var t := Apply(s, step);
    assert t.conns == s.conns && t.clients == s.clients && t.owners == s.owners;
  }

  lemma LinkStepFlags(s: System, step: Step)
    requires Wired(s) && Enabled(s, step) && (step.ClientSends? || step.ClientDrop?)
    ensures SameFlags(s, Apply(s, step), step)
  {
    var t := Apply(s, step);
    assert t.conns == s.conns && t.clients == s.clients && t.owners == s.owners;
  }

  lemma OwnerStepFlags(s: System, step: Step)
    requires Wired(s) && Enabled(s, step)
    requires step.StartClient? || step.StopClient? || step.Connect? || step.TimerFires? || step.CloseConnection?
             || step.ClientClosed?
    ensures SameFlags(s, Apply(s, step), step)
  {
  }

  lemma StepFlags(s: System, step: Step)
    requires Wired(s) && Enabled(s, step) && EndsKnown(s)
    ensures SameFlags(s, Apply(s, step), step)
  {
    match step
    case ToClient(c) => DeliveredFlags(s, c);
    case ToServer(c, room) => ProcessedFlags(s, c, room);
    case ConnectOk(c, room) => ConnectedFlags(s, c, room);
    case _ =>
      if AtServer(step) {
        ServerStepFlags(s, step);
      } else if step.ClientSends? || step.ClientDrop? {
        LinkStepFlags(s, step);
      } else {
        OwnerStepFlags(s, step);
      }
  }

  lemma RunStepFlags(ss: seq<System>, steps: seq<Step>, j: nat)
    requires IsRun(ss, steps) && j < |steps|
    ensures SameFlags(ss[j], ss[j + 1], steps[j])
  {
    RunStep(ss, steps, j);
    SessionEndReachesClient(ss, steps, j);
    StepFlags(ss[j], steps[j]);
  }

  /** A message delivered as an end of session to a logged-in connection ends it and its client's session. */
  lemma EndDelivered(s: System, c: S.Cid)
    requires Wired(s) && EndsKnown(s) && Enabled(s, ToClient(c)) && EndReader(s, ToClient(c)).Some?
    ensures var t, i := Delivered(s, c), s.links[c].owner;
            && |t.conns| == |s.conns| && |t.clients| == |s.clients|
            && t.conns[i] == s.conns[i].(hasSessionEnded := true)
            && t.clients[s.owners[i].client] == ClientOf(s, i).(hasSessionEnded := true)
  {
    assert WiredLink(s, c, s.links[c]) && ClientKnows(s, s.links[c].owner);
  }

  lemma SameOwners(ss: seq<System>, steps: seq<Step>, j: nat)
    requires IsRun(ss, steps) && j < |ss|
    ensures ss[j].owners == ss[0].owners && |ss[j].conns| == |ss[0].conns| && |ss[j].clients| == |ss[0].clients|
  {
    var same := seq(|ss|, n requires 0 <= n < |ss| =>
      ss[n].owners == ss[0].owners && |ss[n].conns| == |ss[0].conns| && |ss[n].clients| == |ss[0].clients|);
    forall n | 0 <= n < |same| - 1 && same[n] ensures same[n + 1] {
      RunStepFlags(ss, steps, n);
    }
    HoldsThroughout(same, j);
  }

  /** In every run a connection's session has ended exactly if it has read an end of session. */
  lemma ConnectionEndsExactly(ss: seq<System>, steps: seq<Step>, j: nat, i: nat)
    requires IsRun(ss, steps) && j < |ss| && i < |ss[0].conns|
    ensures |ss[j].conns| == |ss[0].conns|
    ensures ss[j].conns[i].hasSessionEnded <==> Some(i) in EndReaders(ss, steps)[..j]
  {
    var readers := EndReaders(ss, steps);
    var exact := seq(|ss|, n requires 0 <= n < |ss| =>
      |ss[n].conns| == |ss[0].conns| && (ss[n].conns[i].hasSessionEnded <==> Some(i) in readers[..n]));
    assert NewConnection(ss[0].conns[i]);
    forall n | 0 <= n < |exact| - 1 && exact[n] ensures exact[n + 1] {
      RunStepFlags(ss, steps, n);
      assert readers[..n + 1] == readers[..n] + [readers[n]];
    }
    HoldsThroughout(exact, j);
  }

  /** Some connection of client k is among these. */
  predicate OneOf(owners: seq<Owner>, readers: seq<Option<nat>>, k: nat) {
    exists n | 0 <= n < |readers| :: ReadBy(owners, readers[n], k)
  }

  predicate ReadBy(owners: seq<Owner>, reader: Option<nat>, k: nat) {
    reader.Some? && reader.value < |owners| && owners[reader.value].client == k
  }

  lemma OneMore(owners: seq<Owner>, readers: seq<Option<nat>>, n: nat, k: nat)
    requires n < |readers|
    ensures OneOf(owners, readers[..n + 1], k) <==> OneOf(owners, readers[..n], k) || ReadBy(owners, readers[n], k)
  {
    var longer, shorter := readers[..n + 1], readers[..n];
    assert longer == shorter + [readers[n]];
    if OneOf(owners, shorter, k) {
      var m :| 0 <= m < |shorter| && ReadBy(owners, shorter[m], k);
      assert longer[m] == shorter[m];
    }
    if ReadBy(owners, readers[n], k) {
      assert longer[n] == readers[n];
    }
  }

  lemma RunStepEnds(ss: seq<System>, steps: seq<Step>, n: nat, k: nat)
    requires IsRun(ss, steps) && n < |steps| && k < |ss[n].clients|
    ensures |ss[n + 1].clients| == |ss[n].clients|
    ensures ss[n + 1].clients[k].hasSessionEnded
       <==> ss[n].clients[k].hasSessionEnded || ReadBy(ss[0].owners, EndReaders(ss, steps)[n], k)
  {
    RunStepFlags(ss, steps, n);
    SameOwners(ss, steps, n);
  }

  /** And a client's exactly if one of its connections has, or it was set up so. */
  lemma ClientEndsExactly(ss: seq<System>, steps: seq<Step>, j: nat, k: nat)
    requires IsRun(ss, steps) && j < |ss| && k < |ss[0].clients|
    ensures |ss[j].clients| == |ss[0].clients|
    ensures ss[j].clients[k].hasSessionEnded
       <==> ss[0].clients[k].hasSessionEnded || OneOf(ss[0].owners, EndReaders(ss, steps)[..j], k)
  {
    var readers, owners := EndReaders(ss, steps), ss[0].owners;
    var exact := seq(|ss|, n requires 0 <= n < |ss| =>
      && |ss[n].clients| == |ss[0].clients|
      && (ss[n].clients[k].hasSessionEnded <==> ss[0].clients[k].hasSessionEnded || OneOf(owners, readers[..n], k)));
    forall n | 0 <= n < |exact| - 1 && exact[n] ensures exact[n + 1] {
      RunStepEnds(ss, steps, n, k);
      OneMore(owners, readers, n, k);
    }
    HoldsThroughout(exact, j);
  }

  // ---------------------------------------------------------------------
  // Connecting, closing and dropping

  /** A client started or stopped is running or not, and nothing else happens yet. */
  lemma StartStopLooks(s: System, k: nat)
    requires Wired(s) && k < |s.clients|
    ensures Apply(s, StartClient(k)) == s.(clients := s.clients[k := s.clients[k].(started := true)])
    ensures Apply(s, StopClient(k)) == s.(clients := s.clients[k := s.clients[k].(started := false)])
  {
  }

  /** A connect, called for or retried, opens one new link, to the connection's acceptor, and leaves no retry armed. */
  lemma ConnectingLooks(s: System, step: Step, i: nat)
    requires Wired(s) && Enabled(s, step) && (step == Connect(i) || step == TimerFires(i))
    ensures i < |s.conns| && s.conns[i].tcp == None
    ensures step == Connect(i) ==> s.clients[s.owners[i].client].started && !s.conns[i].timer.started
    ensures var t, c := Apply(s, step), |s.links|;
            && |t.links| == c + 1 && t.links[..c] == s.links && t.links[c].owner == i
            && t.links[c].endpoint == s.owners[i].endpoint && t.links[c].client == s.owners[i].client
            && t.links[c].state == ConnState(Connecting, NoReason) && !t.links[c].accepted
            && t.links[c].up == [] && t.links[c].down == []
            && t.conns == s.conns[i := t.conns[i]] && t.conns[i].tcp == Some(c) && !t.conns[i].timer.started
            && t.conns[i].nextSequenceNumber == s.conns[i].nextSequenceNumber
            && t.clients == s.clients && t.acceptors == s.acceptors && t.sent == s.sent
  {
    assert WiredConn(s, i, s.conns[i]);
  }

  /** Closing a connection disarms it and resets its delay; its TCP connection drops in a step of its own. */
  lemma ClosingLooks(s: System, i: nat)
    requires Wired(s) && i < |s.conns|
    ensures var t := Apply(s, CloseConnection(i));
            && t == s.(conns := s.conns[i := t.conns[i]]) && |t.conns| == |s.conns|
            && !t.conns[i].timer.started && t.conns[i].nextDelay == 0 && t.conns[i].tcp == s.conns[i].tcp
            && t.conns[i].nextSequenceNumber == s.conns[i].nextSequenceNumber
            && t.conns[i].session == s.conns[i].session
  {
  }

  /** A drop keeps an earlier reason, at either end. */
  lemma DropsLook(s: System, c: S.Cid, reason: DisconnectReason)
    requires Wired(s) && c < |s.links|
    ensures Enabled(s, ClientDrop(c, reason)) ==>
              var t, was := Apply(s, ClientDrop(c, reason)), s.links[c].state;
              && t == s.(links := s.links[c := t.links[c]]) && t.links[c].state.state == Disconnected
              && t.links[c].state.reason == if was.reason == NoReason then reason else was.reason
    ensures Enabled(s, ServerDrop(c, reason)) && ServerState(s, c) != Disconnected ==>
              var e := s.links[c].endpoint;
              var t, was := Apply(s, ServerDrop(c, reason)), s.acceptors[e].connections[c].state;
              && |t.acceptors| == |s.acceptors| && c in t.acceptors[e].connections
              && t.links == s.links && t.acceptors[e].ports == s.acceptors[e].ports
              && t.acceptors[e].connections[c].state.state == Disconnected
              && t.acceptors[e].connections[c].state.reason == if was.reason == NoReason then reason else was.reason
  {
  }

  /** When a TCP connection has closed, its owner lets go of it, and retries exactly for five reasons while it runs. */
  lemma ClosedLooks(s: System, c: S.Cid)
    requires Wired(s) && Enabled(s, ClientClosed(c))
    ensures var t, i := Apply(s, ClientClosed(c)), s.links[c].owner;
            && t == s.(conns := s.conns[i := t.conns[i]]) && |t.conns| == |s.conns| && t.conns[i].tcp == None
            && (t.conns[i].timer.started <==>
                  && s.clients[s.owners[i].client].started
                  && s.links[c].state.reason in {PeerClosed, ConnectFailure, TransportError, LoginTimeout,
                                                 HeartbeatTimeout})
  {
    assert WiredLink(s, c, s.links[c]) && WiredConn(s, s.links[c].owner, s.conns[s.links[c].owner]);
  }

  /** What either end sends besides logins, messages and ends of session goes last on its stream. */
  lemma OtherSendsLook(s: System, c: S.Cid, u: Up, d: Down)
    requires Wired(s) && c < |s.links|
    ensures Enabled(s, ClientSends(c, u)) ==>
              Apply(s, ClientSends(c, u)) == s.(links := s.links[c := s.links[c].(up := s.links[c].up + [u])])
    ensures Enabled(s, ServerSends(c, d)) ==>
              Apply(s, ServerSends(c, d)) == s.(links := s.links[c := s.links[c].(down := s.links[c].down + [d])])
  {
  }

  /** An accepted link is served by a connection yet to log in, at no port. */
  lemma AcceptingLooks(s: System, c: S.Cid)
    requires Wired(s) && Enabled(s, AcceptLink(c))
    ensures var t, e := Apply(s, AcceptLink(c)), s.links[c].endpoint;
            && t.links == s.links[c := s.links[c].(accepted := true)] && |t.acceptors| == |s.acceptors|
            && t.acceptors[e].connections
               == s.acceptors[e].connections[c := S.Live(ConnState(Connected, NoReason), None)]
            && t.acceptors[e].ports == s.acceptors[e].ports && t.acceptors[e].accepted == s.acceptors[e].accepted + 1
  {
  }
}
