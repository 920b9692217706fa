/** The client side of a session: one client arbitrating its connections, and their reconnects. */
module ClientSession {
  import opened Types
  import opened LogicalPackets

  /** The name of one TCP connection. */
  type Cid = nat

  /** `epoch` numbers the starts of the timer; a pending wait remembers the epoch it was started in. */
  datatype ReconnectTimer = ReconnectTimer(started: bool, epoch: nat) {
    function Start(): ReconnectTimer { if started then this else ReconnectTimer(true, epoch + 1) }

    function Stop(): ReconnectTimer { this.(started := false) }

    /** Whether a wait started in epoch `e` still matters when it ends. */
    predicate Heeds(e: nat) { e == epoch && started }
  }

  datatype Connection = Connection(
    username: seq<Byte>, password: seq<Byte>, session: seq<Byte>, nextSequenceNumber: nat, hasSessionEnded: bool,
    tcp: Option<Cid>, timer: ReconnectTimer, nextDelay: nat)

  /** A client; `log` lists the messages passed to the application, with their numbers. */
  datatype Client = Client(nextSequenceNumber: nat, hasSessionEnded: bool, started: bool, log: seq<(nat, seq<Byte>)>)

  // ---------------------------------------------------------------------
  // Numbers

  function OnConnectSuccess(conn: Connection, client: Client): Connection {
    conn.(nextSequenceNumber := client.nextSequenceNumber)
  }

  function RequestOf(conn: Connection): LoginRequest {
    LoginRequest(conn.username, conn.password, conn.session, conn.nextSequenceNumber)
  }

  /** Why the client refuses a login reply, or NoReason. */
  function LoginVerdict(conn: Connection, client: Client, response: LoginAccepted): DisconnectReason {
    if conn.session != [] && response.session != conn.session then SessionMismatch
    else if conn.nextSequenceNumber != 0 then
      if response.nextSequenceNumber < conn.nextSequenceNumber then SequenceNumberTooLow
      else if response.nextSequenceNumber > conn.nextSequenceNumber then SequenceNumberTooHigh
      else NoReason
    else if client.nextSequenceNumber == 0 then NoReason
    else if response.nextSequenceNumber > client.nextSequenceNumber then SequenceNumberAheadOfSession
    else NoReason
  }

  function LoggedInConnection(conn: Connection, client: Client, response: LoginAccepted): Connection {
    if LoginVerdict(conn, client, response) != NoReason then conn
    else conn.(session := response.session, nextSequenceNumber := response.nextSequenceNumber, nextDelay := 0)
  }

  /** A client that starts at 0 takes its number from the first login. */
  function LoggedInClient(conn: Connection, client: Client, response: LoginAccepted): Client {
    if LoginVerdict(conn, client, response) == NoReason
       && conn.nextSequenceNumber == 0 && client.nextSequenceNumber == 0
    then client.(nextSequenceNumber := response.nextSequenceNumber) else client
  }

  /**
   * A reply is taken exactly when it is for the session asked for, if one was, with the number asked for, if one was,
   * and otherwise not ahead of a number the client already holds; the session is checked first.
   */
  lemma VerdictExact(conn: Connection, client: Client, r: LoginAccepted)
    ensures var asked, given := conn.nextSequenceNumber, r.nextSequenceNumber;
            && (LoginVerdict(conn, client, r) == SessionMismatch <==> conn.session !in {[], r.session})
            && (conn.session in {[], r.session} ==>
                  && (LoginVerdict(conn, client, r) == SequenceNumberTooLow <==> 0 < asked && given < asked)
                  && (LoginVerdict(conn, client, r) == SequenceNumberTooHigh <==> 0 < asked < given)
                  && (LoginVerdict(conn, client, r) == SequenceNumberAheadOfSession
                      <==> asked == 0 && 0 < client.nextSequenceNumber < given)
                  && (LoginVerdict(conn, client, r) == NoReason
                      <==> given == asked || (asked == 0 && (client.nextSequenceNumber == 0
                                                             || given <= client.nextSequenceNumber))))
  {
  }

  /** A reply that is taken sets the session and the number of the connection and resets its back-off. */
  lemma LoginTaken(conn: Connection, client: Client, r: LoginAccepted)
    requires LoginVerdict(conn, client, r) == NoReason
    ensures LoggedInConnection(conn, client, r)
         == conn.(session := r.session, nextSequenceNumber := r.nextSequenceNumber, nextDelay := 0)
    ensures LoggedInClient(conn, client, r)
         == if conn.nextSequenceNumber == client.nextSequenceNumber == 0
            then client.(nextSequenceNumber := r.nextSequenceNumber) else client
  {
  }

  /** The client keeps what it has not yet passed on. */
  function Received(client: Client, number: nat, data: seq<Byte>): Client {
    if number < client.nextSequenceNumber then client
    else client.(nextSequenceNumber := number + 1, log := client.log + [(number, data)])
  }

  function Counted(conn: Connection): Connection { conn.(nextSequenceNumber := conn.nextSequenceNumber + 1) }

  function EndedConnection(conn: Connection): Connection { conn.(hasSessionEnded := true) }

  function EndedClient(conn: Connection, client: Client): Client {
    if conn.hasSessionEnded then client else client.(hasSessionEnded := true)
  }

  // ---------------------------------------------------------------------
  // Connecting and reconnecting

  predicate IsRetryable(reason: DisconnectReason) {
    match reason
    case PeerClosed => true
    case ConnectFailure => true
    case TransportError => true
    case LoginTimeout => true
    case HeartbeatTimeout => true
    case _ => false
  }

  function Min(a: nat, b: nat): nat { if a < b then a else b }

  function NextDelay(delay: nat): nat {
    if delay == 0 then RECONNECT_INITIAL_DELAY else Min(delay * RECONNECT_DELAY_MULTIPLIER, RECONNECT_MAX_DELAY)
  }

  predicate MayConnect(conn: Connection, client: Client) {
    client.started && conn.tcp.None? && !conn.timer.started
  }

  function Scheduled(conn: Connection): Connection {
    conn.(nextDelay := NextDelay(conn.nextDelay), timer := conn.timer.Start())
  }

  function OnClosed(conn: Connection, client: Client, reason: DisconnectReason): Connection {
    var c := conn.(tcp := None);
    if client.started && IsRetryable(reason) then Scheduled(c) else c
  }

  function ClosedByUser(conn: Connection): Connection { conn.(timer := conn.timer.Stop(), nextDelay := 0) }

  // ---------------------------------------------------------------------
  // One connection's reconnects over whole runs

  /** What happened to the timer: started with a delay, stopped or ended by an error, or fired. */
  datatype Mark = Armed(epoch: nat, delay: nat) | Disarmed | Fired(epoch: nat)

  /** A connection, its client, the timer waits still to end, the timer's marks, and the delays since the last reset. */
  datatype Line = Line(conn: Connection, client: Client, waits: seq<nat>, marks: seq<Mark>, delays: seq<nat>)

  datatype Op =
    | StartClient(c: Cid)
    | StopClient
    | ConnectCall(c: Cid)
    | CloseCall
    | LoginOp(response: LoginAccepted)
    | TcpClosed(reason: DisconnectReason)
    | WaitEnds(k: nat, failed: bool, c: Cid)

  function Disarm(l: Line): seq<Mark> { if l.conn.timer.started then l.marks + [Disarmed] else l.marks }

  function Apply(l: Line, op: Op): Line {
    match op
    case StartClient(c) => if l.client.started then l else ConnectIn(l.(client := l.client.(started := true)), c)
    case StopClient => if l.client.started then CloseIn(l.(client := l.client.(started := false))) else l
    case ConnectCall(c) => ConnectIn(l, c)
    case CloseCall => CloseIn(l)
    case LoginOp(response) =>
      if l.conn.tcp.Some? && LoginVerdict(l.conn, l.client, response) == NoReason
      then l.(conn := LoggedInConnection(l.conn, l.client, response),
              client := LoggedInClient(l.conn, l.client, response), delays := [])
      else l
    case TcpClosed(reason) =>
      if l.conn.tcp.None? then l
      else
        var conn := OnClosed(l.conn, l.client, reason);
        if l.client.started && IsRetryable(reason)
        then l.(conn := conn, waits := if l.conn.timer.started then l.waits else l.waits + [conn.timer.epoch],
                marks := l.marks + [Armed(conn.timer.epoch, l.conn.nextDelay)], delays := l.delays + [l.conn.nextDelay])
        else l.(conn := conn)
    case WaitEnds(k, failed, c) =>
      if k >= |l.waits| then l
      else
        var m := l.(waits := l.waits[..k] + l.waits[k + 1..]);
        if !l.conn.timer.Heeds(l.waits[k]) then m
        else if failed then m.(conn := m.conn.(timer := m.conn.timer.Stop()), marks := m.marks + [Disarmed])
        else m.(conn := m.conn.(timer := m.conn.timer.Stop(), tcp := Some(c)), marks := m.marks + [Fired(l.waits[k])])
  }

  function ConnectIn(l: Line, c: Cid): Line {
    if MayConnect(l.conn, l.client) then l.(conn := l.conn.(tcp := Some(c))) else l
  }

  function CloseIn(l: Line): Line { l.(conn := ClosedByUser(l.conn), marks := Disarm(l), delays := []) }

  function Run(l: Line, ops: seq<Op>): Line {
    if ops == [] then l else Apply(Run(l, ops[..|ops| - 1]), ops[|ops| - 1])
  }

  predicate NewLine(l: Line) {
    && l.conn.tcp.None? && l.conn.timer == ReconnectTimer(false, 0) && l.conn.nextDelay == 0
    && !l.client.started && l.waits == [] && l.marks == [] && l.delays == []
  }

  /** The start the timer is still waiting for, going by the marks alone. */
  function LastArmed(marks: seq<Mark>): Option<nat> {
    if marks == [] then None
    else match marks[|marks| - 1] case Armed(e, _) => Some(e) case Disarmed => None case Fired(_) => None
  }

  /** Every firing belongs to the latest start, with nothing in between. */
  predicate FiresLatest(marks: seq<Mark>) {
    forall k | 0 <= k < |marks| && marks[k].Fired? :: LastArmed(marks[..k]) == Some(marks[k].epoch)
  }

  function PowerOfTwo(k: nat): (r: nat)
    ensures r >= 1
  {
    if k == 0 then 1 else 2 * PowerOfTwo(k - 1)
  }

  /** The delay before the (k+1)-th consecutive retry: 0, 1, 2, 4, 8, 16, 30, 30, ... */
  function BackOff(k: nat): nat { if k == 0 then 0 else Min(PowerOfTwo(k - 1), RECONNECT_MAX_DELAY) }

  predicate BacksOff(delays: seq<nat>) { forall k | 0 <= k < |delays| :: delays[k] == BackOff(k) }

  predicate LineInv(l: Line) {
    && !(l.conn.tcp.Some? && l.conn.timer.started)
    && LastArmed(l.marks) == (if l.conn.timer.started then Some(l.conn.timer.epoch) else None)
    && (l.conn.timer.started ==> l.conn.timer.epoch in l.waits)
    && FiresLatest(l.marks)
    && BacksOff(l.delays) && l.conn.nextDelay == BackOff(|l.delays|)
  }

  lemma BackOffStep(k: nat)
    ensures NextDelay(BackOff(k)) == BackOff(k + 1)
  {
  }

  lemma MarkAppended(marks: seq<Mark>, m: Mark)
    requires FiresLatest(marks) && (m.Fired? ==> LastArmed(marks) == Some(m.epoch))
    ensures FiresLatest(marks + [m])
    ensures LastArmed(marks + [m]) == match m case Armed(e, _) => Some(e) case _ => None
  {
  }

  lemma DelayAppended(delays: seq<nat>, delay: nat)
    requires BacksOff(delays) && delay == BackOff(|delays|)
    ensures BacksOff(delays + [delay]) && NextDelay(delay) == BackOff(|delays + [delay]|)
  {
    BackOffStep(|delays|);
  }

  /** The line after a retryable close: a new wait, the timer armed for it, and the next delay. */
  function Retrying(l: Line): Line {
    var epoch := l.conn.timer.epoch + 1;
    l.(conn := l.conn.(tcp := None, nextDelay := NextDelay(l.conn.nextDelay), timer := ReconnectTimer(true, epoch)),
       waits := l.waits + [epoch], marks := l.marks + [Armed(epoch, l.conn.nextDelay)],
       delays := l.delays + [l.conn.nextDelay])
  }

  lemma ClosedIsRetrying(l: Line, reason: DisconnectReason)
    requires l.conn.tcp.Some? && !l.conn.timer.started && l.client.started && IsRetryable(reason)
    ensures Apply(l, TcpClosed(reason)) == Retrying(l)
  {
  }

  lemma RetryingKeeps(l: Line)
    requires LineInv(l) && l.conn.tcp.Some?
    ensures LineInv(Retrying(l))
  {
    var epoch := l.conn.timer.epoch + 1;
    MarkAppended(l.marks, Armed(epoch, l.conn.nextDelay));
    DelayAppended(l.delays, l.conn.nextDelay);
    assert (l.waits + [epoch])[|l.waits|] == epoch;
  }

  lemma TcpClosedKeeps(l: Line, reason: DisconnectReason)
    requires LineInv(l)
    ensures LineInv(Apply(l, TcpClosed(reason)))
  {
    if l.conn.tcp.Some? && l.client.started && IsRetryable(reason) {
      ClosedIsRetrying(l, reason);
      RetryingKeeps(l);
    }
  }

  lemma WaitEndsKeeps(l: Line, k: nat, failed: bool, c: Cid)
    requires LineInv(l)
    ensures LineInv(Apply(l, WaitEnds(k, failed, c)))
  {
    if k < |l.waits| {
      if l.conn.timer.Heeds(l.waits[k]) {
        MarkAppended(l.marks, if failed then Disarmed else Fired(l.waits[k]));
      } else if l.conn.timer.started {
        var i :| 0 <= i < |l.waits| && l.waits[i] == l.conn.timer.epoch;
        var waits := l.waits[..k] + l.waits[k + 1..];
        assert waits[if i < k then i else i - 1] == l.conn.timer.epoch;
      }
    }
  }

  lemma CloseKeeps(l: Line)
    requires LineInv(l)
    ensures LineInv(CloseIn(l))
  {
  }

  lemma ApplyKeepsLine(l: Line, op: Op)
    requires LineInv(l)
    ensures LineInv(Apply(l, op))
  {
    match op
    case StopClient => CloseKeeps(l.(client := l.client.(started := false)));
    case CloseCall => CloseKeeps(l);
    case TcpClosed(reason) => TcpClosedKeeps(l, reason);
    case WaitEnds(k, failed, c) => WaitEndsKeeps(l, k, failed, c);
    case _ =>
  }

  /**
   * In every run: never a live TCP connection and an armed timer at once; a wait fires only for the latest start, with
   * no stop in between, and while the timer is armed that wait is still to end; the delays since the last login or
   * close are 0, 1, 2, 4, 8, 16, 30, 30, ...
   */
  lemma {:induction false} ReconnectSafety(l: Line, ops: seq<Op>)
    requires NewLine(l)
    ensures LineInv(Run(l, ops))
    decreases |ops|
  {
    if ops == [] {
    } else {
      ReconnectSafety(l, ops[..|ops| - 1]);
      ApplyKeepsLine(Run(l, ops[..|ops| - 1]), ops[|ops| - 1]);
    }
  }

  /** After any run, a TCP connection's close arms the timer exactly when the client runs and the cause is retryable. */
  lemma RetryExact(l: Line, ops: seq<Op>, reason: DisconnectReason)
    requires NewLine(l) && Run(l, ops).conn.tcp.Some?
    ensures var before, after := Run(l, ops), Run(l, ops + [TcpClosed(reason)]);
            && after.conn.tcp.None?
            && (after.conn.timer.started <==>
                  && before.client.started
                  && reason in {PeerClosed, ConnectFailure, TransportError, LoginTimeout, HeartbeatTimeout})
            && (after.conn.timer.started ==>
                  after.marks == before.marks + [Armed(after.conn.timer.epoch, BackOff(|before.delays|))])
  {
    ReconnectSafety(l, ops);
    assert (ops + [TcpClosed(reason)])[..|ops|] == ops;
  }

  /** After any run, closing the connection or stopping the client leaves no retry armed, and the delay starts anew. */
  lemma ClosingDisarms(l: Line, ops: seq<Op>, op: Op)
    requires NewLine(l) && (op == CloseCall || (op == StopClient && Run(l, ops).client.started))
    ensures var before, after := Run(l, ops), Run(l, ops + [op]);
            && !after.conn.timer.started && after.conn.nextDelay == 0
            && after.conn.tcp == before.conn.tcp && after.client.started == (op == CloseCall && before.client.started)
            && forall k, c :: Apply(after, WaitEnds(k, false, c)).conn == after.conn
  {
    assert (ops + [op])[..|ops|] == ops;
  }

  /** After any run, a login that is taken starts the back-off over. */
  lemma LoginStartsOver(l: Line, ops: seq<Op>, r: LoginAccepted)
    requires NewLine(l) && Run(l, ops).conn.tcp.Some?
    requires LoginVerdict(Run(l, ops).conn, Run(l, ops).client, r) == NoReason
    ensures Run(l, ops + [LoginOp(r)]).conn.nextDelay == 0
  {
    assert (ops + [LoginOp(r)])[..|ops|] == ops;
  }

  /** After any run, a call connects exactly a running client's connection that has neither TCP connection nor retry. */
  lemma ConnectsExactly(l: Line, ops: seq<Op>, c: Cid)
    requires NewLine(l)
    ensures var before, after := Run(l, ops), Run(l, ops + [ConnectCall(c)]);
            && after.conn.tcp == (if before.client.started && before.conn.tcp == None && !before.conn.timer.started
                                  then Some(c) else before.conn.tcp)
            && after.conn.timer == before.conn.timer
    ensures var before, after := Run(l, ops), Run(l, ops + [StartClient(c)]);
            && after.client.started
            && (!before.client.started && before.conn.tcp == None && !before.conn.timer.started ==>
                  after.conn.tcp == Some(c))
  {
    assert (ops + [ConnectCall(c)])[..|ops|] == ops;
    assert (ops + [StartClient(c)])[..|ops|] == ops;
  }

  /** And a wait that ends connects exactly if it is the one the timer is armed for and did not fail. */
  lemma RetriesExactly(l: Line, ops: seq<Op>, k: nat, failed: bool, c: Cid)
    requires NewLine(l) && k < |Run(l, ops).waits|
    ensures var before, after := Run(l, ops), Run(l, ops + [WaitEnds(k, failed, c)]);
            && after.waits == before.waits[..k] + before.waits[k + 1..]
            && if before.conn.timer.started && before.waits[k] == before.conn.timer.epoch
               then !after.conn.timer.started && after.conn.tcp == if failed then before.conn.tcp else Some(c)
               else after.conn == before.conn
  {
    assert (ops + [WaitEnds(k, failed, c)])[..|ops|] == ops;
  }
}
