/** Whole runs of the system: what the application is told, and what the two ends agree on. */
module SessionRuns {
  import opened Types
  import opened LogicalPackets
  import opened Lifecycle
  import opened Session
  import C = ClientSession
  import CL = ClientLifecycle
  import S = ServerSession

  // ---------------------------------------------------------------------
  // Runs

  predicate NewConnection(conn: C.Connection) { conn.tcp.None? && !conn.timer.started && !conn.hasSessionEnded }

  predicate NewAcceptor(a: S.Acceptor) {
    && a.connections == map[] && a.accepted == 0 && a.notices == [] && S.UniqueUsernames(a.ports)
    && forall p | 0 <= p < |a.ports| :: a.ports[p].connection.None? && a.ports[p].nextSequenceNumber >= 1
  }

  /** Any number of clients, connections, servers and ports, configured and not started. */
  predicate Initial(s: System) {
    && |s.owners| == |s.conns| && s.links == [] && s.sent == {}
    && (forall i | 0 <= i < |s.owners| :: s.owners[i].client < |s.clients| && s.owners[i].endpoint < |s.acceptors|)
    && (forall i | 0 <= i < |s.conns| :: NewConnection(s.conns[i]))
    && (forall e | 0 <= e < |s.acceptors| :: NewAcceptor(s.acceptors[e]))
    && (forall k | 0 <= k < |s.clients| :: s.clients[k].log == [])
  }

  /** The numbers the clients were configured to start at; 0 for wherever the first login puts them. */
  function Starts(s: System): (r: seq<nat>)
    ensures |r| == |s.clients| && forall k | 0 <= k < |r| :: r[k] == s.clients[k].nextSequenceNumber
  {
    seq(|s.clients|, k requires 0 <= k < |s.clients| => s.clients[k].nextSequenceNumber)
  }

  predicate IsStep(s: System, step: Step, t: System) { Wired(s) && Enabled(s, step) && t == Apply(s, step) }

  ghost predicate IsRun(ss: seq<System>, steps: seq<Step>) {
    && |ss| == |steps| + 1 && Initial(ss[0])
    && forall i | 0 <= i < |steps| :: IsStep(ss[i], steps[i], ss[i + 1])
  }

  lemma InitialInv(s: System)
    requires Initial(s)
    ensures Inv(s, Starts(s))
  {
  }

  lemma {:induction false} RunKeepsInv(ss: seq<System>, steps: seq<Step>, i: nat)
    requires IsRun(ss, steps) && i < |ss|
    ensures Inv(ss[i], Starts(ss[0]))
  {
    if i == 0 {
      InitialInv(ss[0]);
    } else {
      RunKeepsInv(ss, steps, i - 1);
      assert IsStep(ss[i - 1], steps[i - 1], ss[i]);
      StepKeeps(ss[i - 1], steps[i - 1], Starts(ss[0]));
    }
  }

  // ---------------------------------------------------------------------
  // The application's log

  function Messages(content: nat -> Data, first: nat, count: nat): seq<(nat, Data)> {
    seq(count, j requires 0 <= j < count => (first + j, content(first + j)))
  }

  /** What client k was sent has the one content for each number, whichever server and connection it came by. */
  ghost predicate StreamsAgree(s: System, k: nat, content: nat -> Data) {
    forall m | m in s.sent && m.client == k :: m.data == content(m.number)
  }

  function First(client: C.Client): int { client.nextSequenceNumber - |client.log| }

  /**
   * However many redundant connections connect, drop, log in and deliver, the application gets each message once and in
   * order: its log is exactly the messages from the client's first number up to its next.
   */
  lemma ApplicationLog(ss: seq<System>, steps: seq<Step>, i: nat, k: nat, content: nat -> Data)
    requires IsRun(ss, steps) && i < |ss| && k < |ss[0].clients| && StreamsAgree(ss[i], k, content)
    ensures |ss[i].clients| == |ss[0].clients| && First(ss[i].clients[k]) >= 0
    ensures var client, start := ss[i].clients[k], ss[0].clients[k].nextSequenceNumber;
            && client.log == Messages(content, First(client), |client.log|)
            && (start != 0 ==> First(client) == start)
  {
    RunKeepsInv(ss, steps, i);
    var client := ss[i].clients[k];
    assert LogOk(client, k, Starts(ss[0])[k], ss[i].sent);
    forall j | 0 <= j < |client.log| ensures client.log[j] == Messages(content, First(client), |client.log|)[j] {
      assert Message(k, client.log[j].0, client.log[j].1) in ss[i].sent;
    }
  }

  /** A client's log only grows, and its first number never changes once it has one. */
  predicate Grown(c: C.Client, d: C.Client) {
    && c.log <= d.log && c.nextSequenceNumber <= d.nextSequenceNumber
    && (c.nextSequenceNumber != 0 ==> First(d) == First(c))
  }

  ghost predicate AllGrown(s: System, t: System) {
    |t.clients| == |s.clients| && forall k | 0 <= k < |s.clients| :: Grown(s.clients[k], t.clients[k])
  }

  lemma LoginGrows(conn: C.Connection, client: C.Client, r: LoginAccepted)
    requires client.nextSequenceNumber >= |client.log|
    ensures Grown(client, C.LoggedInClient(conn, client, r))
  {
  }

  lemma DataGrows(s: System, c: S.Cid)
    requires Wired(s) && c < |s.links| && LinkInv(s, c) && s.links[c].state.state == LoggedIn
    requires s.links[c].down != [] && s.links[c].down[0].DataDown?
    ensures var conn, client := s.conns[s.links[c].owner], ClientOf(s, s.links[c].owner);
            Grown(client, C.Received(client, conn.nextSequenceNumber, s.links[c].down[0].data))
  {
  }

  lemma DeliveredGrows(s: System, c: S.Cid)
    requires Wired(s) && Enabled(s, ToClient(c)) && LinkInv(s, c)
    requires ClientOf(s, s.links[c].owner).nextSequenceNumber >= |ClientOf(s, s.links[c].owner).log|
    ensures AllGrown(s, Delivered(s, c))
  {
    var l := s.links[c];
    var k := s.owners[l.owner].client;
    if l.state.state == LoggedIn && l.down[0].DataDown? {
      DataGrows(s, c);
    } else if l.down[0].AcceptedDown? {
      LoginGrows(s.conns[l.owner], s.clients[k], l.down[0].response);
    }
    var d := Delivered(s, c).clients[k];
    assert Grown(s.clients[k], d) && Delivered(s, c).clients == s.clients[k := d];
  }

  /** Only a delivery changes a log or a number. */
  lemma OtherStepsGrow(s: System, step: Step)
    requires Wired(s) && Enabled(s, step) && !step.ToClient?
    ensures |Apply(s, step).clients| == |s.clients|
    ensures forall k | 0 <= k < |s.clients| ::
              && Apply(s, step).clients[k].log == s.clients[k].log
              && Apply(s, step).clients[k].nextSequenceNumber == s.clients[k].nextSequenceNumber
  {
  }

  lemma StepGrows(s: System, step: Step, initial: seq<nat>)
    requires Inv(s, initial) && Enabled(s, step)
    ensures AllGrown(s, Apply(s, step))
  {
    if step.ToClient? {
      var k := s.links[step.c].client;
      assert WiredLink(s, step.c, s.links[step.c]) && LinkInv(s, step.c) && LogOk(s.clients[k], k, initial[k], s.sent);
      DeliveredGrows(s, step.c);
    } else {
      OtherStepsGrow(s, step);
    }
  }

  lemma {:induction false} LogGrows(ss: seq<System>, steps: seq<Step>, i: nat, j: nat)
    requires IsRun(ss, steps) && i <= j < |ss|
    ensures AllGrown(ss[i], ss[j])
    decreases j - i
  {
    if i == j {
    } else {
      RunKeepsInv(ss, steps, i);
      assert IsStep(ss[i], steps[i], ss[i + 1]);
      StepGrows(ss[i], steps[i], Starts(ss[0]));
      LogGrows(ss, steps, i + 1, j);
    }
  }

  // ---------------------------------------------------------------------
  // Numbers: the client infers what the server assigned

  /**
   * The client's assertion cannot fail: no connection has counted past its client, and the number a logged-in
   * connection infers for the next message is the one the port gave it.
   */
  lemma InferredNumbers(ss: seq<System>, steps: seq<Step>, i: nat, c: S.Cid)
    requires IsRun(ss, steps) && i < |ss| && c < |ss[i].links| && ss[i].links[c].state.state == LoggedIn
    ensures Wired(ss[i])
    ensures var l := ss[i].links[c];
            var conn := ss[i].conns[l.owner];
            && 1 <= conn.nextSequenceNumber <= ClientOf(ss[i], l.owner).nextSequenceNumber
            && (l.down != [] && l.down[0].DataDown? ==> l.down[0].number == conn.nextSequenceNumber)
  {
    RunKeepsInv(ss, steps, i);
    var s := ss[i];
    var l := s.links[c];
    assert LinkInv(s, c) && WiredLink(s, c, l);
    if l.down != [] && l.down[0].DataDown? {
      DataLink(l, s.conns[l.owner], ClientOf(s, l.owner), View(s, c));
    }
  }

  /** How many messages are queued or in transit. */
  function InTransit(down: seq<Down>): nat {
    if down == [] then 0 else InTransit(down[..|down| - 1]) + (if down[|down| - 1].DataDown? then 1 else 0)
  }

  lemma {:induction false} EndCounts(down: seq<Down>, n: nat)
    requires Stream(down, Some(n))
    ensures End(down, Some(n)) == Some(n + InTransit(down))
  {
    if down == [] {
    } else {
      EndCounts(down[..|down| - 1], n);
    }
  }

  /** Until its reply is read, a login's number is in the reply, and only messages follow it. */
  lemma {:induction false} ReplyCounts(down: seq<Down>, n: nat) returns (k: nat)
    requires Stream(down, None) && End(down, None) == Some(n)
    ensures k < |down| && down[k].AcceptedDown?
    ensures down[k].response.nextSequenceNumber + InTransit(down[k + 1..]) == n
    ensures forall j | 0 <= j < |down| && j != k :: !down[j].AcceptedDown?
  {
    var front, last := down[..|down| - 1], down[|down| - 1];
    if last.AcceptedDown? {
      k := |down| - 1;
      NoReplyYet(front);
      assert down[k + 1..] == [];
    } else {
      k := ReplyCounts(front, if last.DataDown? then n - 1 else n);
      assert down[k + 1..][..|down| - k - 2] == front[k + 1..];
    }
  }

  lemma {:induction false} NoReplyYet(down: seq<Down>)
    requires Stream(down, None) && End(down, None) == None
    ensures forall k | 0 <= k < |down| :: !down[k].AcceptedDown?
  {
    if down == [] {
    } else {
      NoReplyYet(down[..|down| - 1]);
    }
  }

  /** The number the client holds, or the one in the reply still on its way. */
  ghost predicate AgreesWith(down: seq<Down>, loggedIn: bool, held: nat, next: nat) {
    if loggedIn then held + InTransit(down) == next
    else exists k | 0 <= k < |down| && down[k].AcceptedDown? ::
           down[k].response.nextSequenceNumber + InTransit(down[k + 1..]) == next
  }

  /**
   * Conservation: while a login is live at port p and its TCP connection is open, what the client expects next, or will
   * once it reads the reply, plus the messages queued or in transit is the port's next number; the one exception is a
   * login whose reply was refused for want of room.
   */
  lemma NumbersConserved(ss: seq<System>, steps: seq<Step>, i: nat, c: S.Cid, p: nat)
    requires IsRun(ss, steps) && i < |ss| && Wired(ss[i]) && Serves(ss[i], c) && ServerState(ss[i], c) == LoggedIn
    requires Open(ss[i].links[c]) && !ss[i].links[c].refused
    requires ss[i].acceptors[ss[i].links[c].endpoint].connections[c].port == Some(p)
    ensures p < |ss[i].acceptors[ss[i].links[c].endpoint].ports|
    ensures ss[i].links[c].state.state != Connecting
    ensures var l := ss[i].links[c];
            AgreesWith(l.down, l.state.state == LoggedIn, ss[i].conns[l.owner].nextSequenceNumber,
                       ss[i].acceptors[l.endpoint].ports[p].nextSequenceNumber)
  {
    RunKeepsInv(ss, steps, i);
    var s := ss[i];
    var l := s.links[c];
    var a := s.acceptors[l.endpoint];
    assert LinkInv(s, c) && S.AccInv(a) && S.LiveOk(a, c, a.connections[c]);
    var next := a.ports[p].nextSequenceNumber;
    if l.state.state == LoggedIn {
      EndCounts(l.down, s.conns[l.owner].nextSequenceNumber);
    } else {
      var k := ReplyCounts(l.down, next);
    }
  }

  lemma DeliveredRefuses(s: System, c: S.Cid, d: S.Cid)
    requires Wired(s) && Enabled(s, ToClient(c)) && d < |s.links|
    ensures Delivered(s, c).links[d].refused == s.links[d].refused
  {
  }

  lemma ProcessedRefuses(s: System, c: S.Cid, room: bool, d: S.Cid)
    requires Wired(s) && Enabled(s, ToServer(c, room)) && d < |s.links|
    ensures Processed(s, c, room).links[d].refused ==> s.links[d].refused || (d == c && !room)
  {
  }

  lemma StepRefuses(s: System, step: Step, d: S.Cid)
    requires Wired(s) && Enabled(s, step) && d < |Apply(s, step).links| && Apply(s, step).links[d].refused
    requires step != ToServer(d, false)
    ensures d < |s.links| && s.links[d].refused
  {
    match step
    case ToClient(c) => DeliveredRefuses(s, c, d);
    case ToServer(c, room) => ProcessedRefuses(s, c, room, d);
    case _ =>
  }

  lemma RunStepRefuses(ss: seq<System>, steps: seq<Step>, i: nat, d: S.Cid)
    requires IsRun(ss, steps) && i < |steps| && d < |ss[i + 1].links| && ss[i + 1].links[d].refused
    requires steps[i] != ToServer(d, false)
    ensures d < |ss[i].links| && ss[i].links[d].refused
  {
    assert IsStep(ss[i], steps[i], ss[i + 1]);
    StepRefuses(ss[i], steps[i], d);
  }

  lemma {:induction false} FirstTrue(flags: seq<bool>, i: nat) returns (j: nat)
    requires i < |flags| && !flags[0] && flags[i]
    ensures j < i && !flags[j] && flags[j + 1]
  {
    if !flags[i - 1] {
      j := i - 1;
    } else {
      j := FirstTrue(flags, i - 1);
    }
  }

  predicate RefusedAt(s: System, c: S.Cid) { c < |s.links| && s.links[c].refused }

  /** And such a login is one whose reply the server's queue refused in that very run. */
  lemma RefusedInRun(ss: seq<System>, steps: seq<Step>, i: nat, c: S.Cid) returns (j: nat)
    requires IsRun(ss, steps) && i < |ss| && RefusedAt(ss[i], c)
    ensures j < i && steps[j] == ToServer(c, false)
  {
    var flags := seq(|ss|, k requires 0 <= k < |ss| => RefusedAt(ss[k], c));
    j := FirstTrue(flags, i);
    if steps[j] != ToServer(c, false) {
      RunStepRefuses(ss, steps, j, c);
    }
  }

  /** Against these servers no client ever finds a mismatched session or a number too high. */
  lemma NeverRefusedSo(ss: seq<System>, steps: seq<Step>, i: nat, c: S.Cid)
    requires IsRun(ss, steps) && i < |ss| && c < |ss[i].links|
    ensures ss[i].links[c].state.reason != SessionMismatch && ss[i].links[c].state.reason != SequenceNumberTooHigh
  {
    RunKeepsInv(ss, steps, i);
    assert LinkInv(ss[i], c);
  }

  // ---------------------------------------------------------------------
  // The server: one live login per port, every connection accounted for

  /** Acceptor e's notices are about different connections, each accepted there and listed no more. */
  predicate NoticesApart(s: System, e: nat)
    requires e < |s.acceptors|
  {
    var a := s.acceptors[e];
    && (forall j, k | 0 <= j < k < |a.notices| :: a.notices[j].cid != a.notices[k].cid)
    && (forall k | 0 <= k < |a.notices| :: NoticeOk(s, e, a.notices[k].cid))
  }

  predicate NoticeOk(s: System, e: nat, c: S.Cid)
    requires e < |s.acceptors|
  {
    c !in s.acceptors[e].connections && c < |s.links| && s.links[c].accepted && s.links[c].endpoint == e
  }

  /** Nobody enters or leaves acceptor e's list. */
  predicate ListKept(s: System, t: System, e: nat) {
    && e < |s.acceptors| == |t.acceptors|
    && t.acceptors[e].connections.Keys == s.acceptors[e].connections.Keys
    && t.acceptors[e].notices == s.acceptors[e].notices
  }

  lemma ProcessedKeepsList(s: System, c: S.Cid, room: bool, e: nat)
    requires Wired(s) && Enabled(s, ToServer(c, room)) && e < |s.acceptors|
    ensures ListKept(s, Processed(s, c, room), e)
  {
    var a := s.acceptors[s.links[c].endpoint];
    if s.links[c].up[0].RequestUp? {
      LoginKeepsList(a, c, s.links[c].up[0].request);
    }
  }

  lemma LoginKeepsList(a: S.Acceptor, c: S.Cid, request: LoginRequest)
    requires c in a.connections
    ensures S.ProcessLogin(a, c, request).connections.Keys == a.connections.Keys
    ensures S.ProcessLogin(a, c, request).notices == a.notices
  {
  }

  lemma StepKeepsList(s: System, step: Step, e: nat)
    requires Wired(s) && Enabled(s, step) && e < |s.acceptors| && !step.AcceptLink? && !step.ServerClosed?
    ensures ListKept(s, Apply(s, step), e)
  {
    match step
    case ToServer(c, room) => ProcessedKeepsList(s, c, room, e);
    case _ =>
  }

  /** Link c stays where it is, and once accepted stays accepted. */
  predicate LinkStays(s: System, t: System, c: S.Cid) {
    && c < |s.links| <= |t.links| && t.links[c].endpoint == s.links[c].endpoint
    && (s.links[c].accepted ==> t.links[c].accepted)
  }

  lemma DeliveredStays(s: System, d: S.Cid, c: S.Cid)
    requires Wired(s) && Enabled(s, ToClient(d)) && c < |s.links|
    ensures LinkStays(s, Delivered(s, d), c)
  {
  }

  lemma ProcessedStays(s: System, d: S.Cid, room: bool, c: S.Cid)
    requires Wired(s) && Enabled(s, ToServer(d, room)) && c < |s.links|
    ensures LinkStays(s, Processed(s, d, room), c)
  {
  }

  lemma StepStays(s: System, step: Step, c: S.Cid)
    requires Wired(s) && Enabled(s, step) && c < |s.links|
    ensures LinkStays(s, Apply(s, step), c)
  {
    match step
    case ToClient(d) => DeliveredStays(s, d, c);
    case ToServer(d, room) => ProcessedStays(s, d, room, c);
    case _ =>
  }

  lemma ChangeKeepsNotices(s: System, step: Step, e: nat)
    requires Wired(s) && Enabled(s, step) && e < |s.acceptors| && NoticesApart(s, e)
    requires step.AcceptLink? || step.ServerClosed?
    ensures |Apply(s, step).acceptors| == |s.acceptors| && NoticesApart(Apply(s, step), e)
  {
  }

  lemma StepKeepsNotices(s: System, step: Step, e: nat)
    requires Wired(s) && Enabled(s, step) && e < |s.acceptors| && NoticesApart(s, e)
    ensures |Apply(s, step).acceptors| == |s.acceptors| && NoticesApart(Apply(s, step), e)
  {
    if step.AcceptLink? || step.ServerClosed? {
      ChangeKeepsNotices(s, step, e);
    } else {
      StepKeepsList(s, step, e);
      var a := s.acceptors[e];
      forall k | 0 <= k < |a.notices| ensures NoticeOk(Apply(s, step), e, a.notices[k].cid) {
        assert NoticeOk(s, e, a.notices[k].cid);
        StepStays(s, step, a.notices[k].cid);
      }
    }
  }

  lemma StepKeepsCount(s: System, step: Step)
    requires Wired(s) && Enabled(s, step)
    ensures |Apply(s, step).acceptors| == |s.acceptors|
  {
  }

  lemma {:induction false} SameAcceptors(ss: seq<System>, steps: seq<Step>, i: nat)
    requires IsRun(ss, steps) && i < |ss|
    ensures |ss[i].acceptors| == |ss[0].acceptors|
  {
    if i == 0 {
    } else {
      SameAcceptors(ss, steps, i - 1);
      assert IsStep(ss[i - 1], steps[i - 1], ss[i]);
      StepKeepsCount(ss[i - 1], steps[i - 1]);
    }
  }

  lemma {:induction false} RunKeepsNotices(ss: seq<System>, steps: seq<Step>, i: nat, e: nat)
    requires IsRun(ss, steps) && i < |ss| && e < |ss[0].acceptors|
    ensures |ss[i].acceptors| == |ss[0].acceptors| && NoticesApart(ss[i], e)
  {
    if i == 0 {
      assert NewAcceptor(ss[0].acceptors[e]);
    } else {
      RunKeepsNotices(ss, steps, i - 1, e);
      assert IsStep(ss[i - 1], steps[i - 1], ss[i]);
      StepKeepsNotices(ss[i - 1], steps[i - 1], e);
    }
  }

  /**
   * A logged-in connection is its port's current one, so it is the only one there; a port's link is to a connection in
   * the list; every connection accepted is either in the list or has been reported, once, with a reason.
   */
  lemma OneLoginPerPort(ss: seq<System>, steps: seq<Step>, i: nat, e: nat)
    requires IsRun(ss, steps) && i < |ss| && e < |ss[i].acceptors|
    ensures var a := ss[i].acceptors[e];
            && (forall c | c in a.connections && a.connections[c].state.state == LoggedIn ::
                  && a.connections[c].port.Some? && a.connections[c].port.value < |a.ports|
                  && a.ports[a.connections[c].port.value].connection == Some(c))
            && (forall p | 0 <= p < |a.ports| && a.ports[p].connection.Some? ::
                  a.ports[p].connection.value in a.connections)
            && a.accepted == |a.connections| + |a.notices|
            && (forall k | 0 <= k < |a.notices| ::
                  a.notices[k].reason != NoReason && a.notices[k].cid !in a.connections)
            && (forall j, k | 0 <= j < k < |a.notices| :: a.notices[j].cid != a.notices[k].cid)
  {
    RunKeepsInv(ss, steps, i);
    SameAcceptors(ss, steps, i);
    RunKeepsNotices(ss, steps, i, e);
    var a := ss[i].acceptors[e];
    forall k | 0 <= k < |a.notices| ensures a.notices[k].cid !in a.connections {
      assert NoticeOk(ss[i], e, a.notices[k].cid);
    }
    assert S.AccInv(a);
    forall c | c in a.connections && a.connections[c].state.state == LoggedIn
      ensures a.connections[c].port.Some? && a.connections[c].port.value < |a.ports|
      ensures a.ports[a.connections[c].port.value].connection == Some(c)
    {
      assert S.LiveOk(a, c, a.connections[c]);
    }
    forall p | 0 <= p < |a.ports| && a.ports[p].connection.Some? ensures a.ports[p].connection.value in a.connections {
      assert S.PortOk(a, p, a.ports[p]);
    }
  }

  // ---------------------------------------------------------------------
  // The end of a session

  predicate ClientKnows(s: System, i: nat)
    requires Wired(s) && i < |s.conns|
  {
    s.conns[i].hasSessionEnded ==> ClientOf(s, i).hasSessionEnded
  }

  predicate EndsKnown(s: System)
    requires Wired(s)
  {
    forall i | 0 <= i < |s.conns| :: ClientKnows(s, i)
  }

  lemma DeliveredKeepsEnds(s: System, c: S.Cid)
    requires Wired(s) && EndsKnown(s) && Enabled(s, ToClient(c)) && Wired(Delivered(s, c))
    ensures EndsKnown(Delivered(s, c))
  {
    var t, l := Delivered(s, c), s.links[c];
    assert WiredLink(s, c, l) && ClientKnows(s, l.owner);
    forall i | 0 <= i < |t.conns| ensures ClientKnows(t, i) {
      assert ClientKnows(s, i);
    }
  }

  lemma StepKeepsEnds(s: System, step: Step)
    requires Wired(s) && EndsKnown(s) && Enabled(s, step) && Wired(Apply(s, step))
    ensures EndsKnown(Apply(s, step))
  {
    if step.ToClient? {
      DeliveredKeepsEnds(s, step.c);
    } else {
      var t := Apply(s, step);
      forall i | 0 <= i < |t.conns| ensures ClientKnows(t, i) {
        assert ClientKnows(s, i);
      }
    }
  }

  /** In every run a connection whose session has ended belongs to a client whose session has ended. */
  lemma {:induction false} SessionEndReachesClient(ss: seq<System>, steps: seq<Step>, i: nat)
    requires IsRun(ss, steps) && i < |ss|
    ensures Wired(ss[i]) && EndsKnown(ss[i])
  {
    RunKeepsInv(ss, steps, i);
    if i == 0 {
      assert forall j | 0 <= j < |ss[0].conns| :: NewConnection(ss[0].conns[j]);
    } else {
      SessionEndReachesClient(ss, steps, i - 1);
      assert IsStep(ss[i - 1], steps[i - 1], ss[i]);
      StepKeepsEnds(ss[i - 1], steps[i - 1]);
    }
  }

  // ---------------------------------------------------------------------
  // The client's end of a TCP connection

  lemma DeliveredMoves(s: System, c: S.Cid, d: S.Cid)
    requires Wired(s) && Enabled(s, ToClient(c)) && c < |s.links| && d < |s.links| && NeverMismatched(s.links[c])
    ensures CL.Moves(s.links[d].state, Delivered(s, c).links[d].state)
  {
  }

  lemma OthersMove(s: System, step: Step, d: S.Cid)
    requires Wired(s) && Enabled(s, step) && !step.ToClient? && d < |s.links| && NeverMismatched(s.links[d])
    ensures d < |Apply(s, step).links| && CL.Moves(s.links[d].state, Apply(s, step).links[d].state)
  {
  }

  lemma StepMoves(s: System, step: Step, d: S.Cid)
    requires Wired(s) && Enabled(s, step) && d < |s.links|
    requires forall c | 0 <= c < |s.links| :: NeverMismatched(s.links[c])
    ensures d < |Apply(s, step).links| && CL.Moves(s.links[d].state, Apply(s, step).links[d].state)
  {
    if step.ToClient? {
      DeliveredMoves(s, step.c, d);
    } else {
      OthersMove(s, step, d);
    }
  }

  /** In every run a TCP connection's state moves the way the events of its life on the event loop move it. */
  lemma LinksMove(ss: seq<System>, steps: seq<Step>, i: nat, d: S.Cid)
    requires IsRun(ss, steps) && i < |steps| && d < |ss[i].links|
    ensures d < |ss[i + 1].links| && CL.Moves(ss[i].links[d].state, ss[i + 1].links[d].state)
  {
    RunKeepsInv(ss, steps, i);
    assert IsStep(ss[i], steps[i], ss[i + 1]);
    forall c | 0 <= c < |ss[i].links| ensures NeverMismatched(ss[i].links[c]) {
      assert LinkInv(ss[i], c);
    }
    StepMoves(ss[i], steps[i], d);
  }
}
