/** What the completions both ends share do, seen from the outside: the causes, the queue, the heartbeat counters. */
module CommonEvents {
  import opened Types
  import opened RwPackets
  import opened Lifecycle

  predicate IsOpen(c: Conn) { c.state.state in {Connected, LoggedIn} }

  predicate StaysOpen(c: Conn, d: Conn) { IsOpen(c) && d.state.state == c.state.state }

  function AsList(r: Option<DisconnectReason>): seq<DisconnectReason> {
    match r case None => [] case Some(reason) => [reason]
  }

  function ReadCause(f: ReadFailure): DisconnectReason {
    match f
    case ReadAborted => UnmanagedAbort
    case EndOfStream => PeerClosed
    case ReadFailed => TransportError
  }

  /** What the queue takes of a packet handed over now. */
  function WithRoom(c: Conn, p: Packet): seq<Packet> {
    if c.socket.AsyncWriteError() == NoWriteError then [p] else []
  }

  /** Neither the state nor what is being read changes. */
  predicate Unmoved(c: Conn, d: Conn) {
    && d.state == c.state && d.socket.readPending == c.socket.readPending && d.socket.closing == c.socket.closing
  }

  /** No connect starts, and a heartbeat timer that does not run is left alone. */
  predicate Untimed(c: Conn, d: Conn) {
    && (d.socket.connectPending ==> c.socket.connectPending)
    && (!c.heartbeat.started ==> d.heartbeat == c.heartbeat)
  }

  // ---------------------------------------------------------------------
  // The pieces

  lemma StopAllGives(c: Conn)
    ensures var d := c.StopAll();
            d.causes == c.causes && d.state == c.state && d.socket.queue == c.socket.queue && Untimed(c, d)
  {
  }

  lemma DisconnectGives(c: Conn, r: DisconnectReason)
    ensures var d := c.Disconnect(r);
            && d.causes == c.causes + [r] && d.socket.queue == c.socket.queue && d.state.state == Disconnected
            && Untimed(c, d)
  {
    StopAllGives(c.(state := c.state.Disconnect(r), causes := c.causes + [r]));
  }

  lemma SocketDoneGives(c: Conn)
    ensures var d := c.SocketDone();
            && d.causes == c.causes && d.socket.queue == c.socket.queue && d.heartbeat == c.heartbeat
            && Unmoved(c, d) && Untimed(c, d)
  {
  }

  lemma PopFrontGives(c: Conn)
    requires c.socket.queue != []
    ensures var d := c.WithSocket(c.socket.PopFront());
            && d.causes == c.causes && d.socket.queue == c.socket.queue[1..] && d.heartbeat == c.heartbeat
            && Unmoved(c, d) && Untimed(c, d)
  {
  }

  lemma AsyncWriteGives(c: Conn, p: Packet)
    ensures var d := c.AsyncWrite(p);
            && d.causes == c.causes && d.socket.queue == c.socket.queue + WithRoom(c, p) && d.heartbeat == c.heartbeat
            && Unmoved(c, d) && Untimed(c, d)
  {
  }

  lemma ReadOnGives(c: Conn)
    ensures var d := c.WithSocket(c.socket.AsyncRead());
            && d.causes == c.causes && d.socket.queue == c.socket.queue && d.heartbeat == c.heartbeat
            && d.state == c.state && d.socket.closing == c.socket.closing && Untimed(c, d)
            && (!c.socket.closing ==> d.socket.readPending)
  {
  }

  lemma ReadErrorGives(c: Conn, f: ReadFailure)
    ensures var d := c.ReadError(f);
            && d.causes == c.causes + [ReadCause(f)] && d.socket.queue == c.socket.queue
            && d.state.state == Disconnected && Untimed(c, d)
  {
    DisconnectGives(c, ReadCause(f));
  }

  lemma LoginStopGives(c: Conn)
    ensures var d := c.WithLogin(c.login.MaybeSignalStopped());
            d.causes == c.causes && d.socket == c.socket && d.heartbeat == c.heartbeat && d.state == c.state
  {
  }

  lemma HeartbeatStopGives(c: Conn)
    ensures var d := c.WithHeartbeat(c.heartbeat.MaybeSignalStopped());
            && d.causes == c.causes && d.socket == c.socket && d.state == c.state
            && (c.heartbeat.started ==> d.heartbeat == c.heartbeat)
  {
  }

  // ---------------------------------------------------------------------
  // A write completes

  function WriteCauses(c: Conn, o: WriteOutcome, graceful: bool): seq<DisconnectReason> {
    match o
    case WriteAborted => []
    case WriteFailed => [TransportError]
    case Written => if graceful && c.state.state == Disconnecting then [UnmanagedAbort] else []
  }

  lemma WriteGives(c: Conn, o: WriteOutcome, graceful: bool)
    requires c.tasks.writes > 0 && c.socket.queue != []
    ensures var d := c.WriteDone(o, graceful);
            && d.causes == c.causes + WriteCauses(c, o, graceful)
            && d.socket.queue == (if o == Written then c.socket.queue[1..] else c.socket.queue)
            && Untimed(c, d) && (d.state.state != Disconnected ==> Unmoved(c, d) && d.heartbeat == c.heartbeat)
  {
    var d := c.Taken(PacketWrite).(socket := c.socket.(writePending := false));
    match o
    case WriteAborted => SocketDoneGives(d);
    case WriteFailed =>
      DisconnectGives(d, TransportError);
      SocketDoneGives(d.Disconnect(TransportError));
    case Written =>
      if graceful && c.state.state == Disconnecting {
        DisconnectGives(d, UnmanagedAbort);
        PoppedGives(d.Disconnect(UnmanagedAbort));
      } else {
        PoppedGives(d);
      }
  }

  lemma PoppedGives(c: Conn)
    requires c.socket.queue != []
    ensures var d := c.WithSocket(c.socket.PopFront()).SocketDone();
            && d.causes == c.causes && d.socket.queue == c.socket.queue[1..] && d.heartbeat == c.heartbeat
            && Unmoved(c, d) && Untimed(c, d)
  {
    PopFrontGives(c);
    SocketDoneGives(c.WithSocket(c.socket.PopFront()));
  }

  // ---------------------------------------------------------------------
  // The timers

  lemma LoginWaitGives(c: Conn, failed: bool)
    requires c.tasks.loginWaits > 0
    ensures var d := c.LoginWaitDone(failed);
            && d.causes
               == c.causes + (if !c.login.started then [] else [if failed then TransportError else LoginTimeout])
            && d.socket.queue == c.socket.queue
            && Untimed(c, d) && (d.state.state != Disconnected ==> Unmoved(c, d) && d.heartbeat == c.heartbeat)
  {
    var d := c.Taken(LoginWait).(login := c.login.(waitPending := false));
    var r := if failed then TransportError else LoginTimeout;
    DisconnectGives(d, r);
    LoginStopGives(d);
    LoginStopGives(d.Disconnect(r));
  }

  /** A tick completes the timeout in silence. */
  predicate Silent(c: Conn) {
    c.heartbeat.receiveCount == 0 && c.heartbeat.noReceive + HEARTBEAT_PERIOD >= c.heartbeat.timeout
  }

  /** A tick does not, and nothing was sent since the last. */
  predicate Paces(c: Conn) { !Silent(c) && c.heartbeat.sendCount == 0 }

  /** The timer asks for what the counters say. */
  lemma TickLooks(c: Conn)
    ensures c.heartbeat.TickAction()
         == if Silent(c) then ReceiveTimeout else if Paces(c) then SendHeartbeat else SendNothing
  {
  }

  lemma RescheduledGives(c: Conn)
    ensures var d := c.Rescheduled();
            && d.causes == c.causes && d.socket == c.socket && d.state == c.state
            && d.heartbeat == c.heartbeat.(waitPending := true)
  {
  }

  lemma TickedGives(c: Conn, p: Packet)
    ensures var d := c.Ticked(p);
            && (d.socket.connectPending ==> c.socket.connectPending)
            && if Silent(c) then d.causes == c.causes + [HeartbeatTimeout] && d.socket.queue == c.socket.queue
                                 && d.state.state == Disconnected
               else d.causes == c.causes && d.socket.queue == c.socket.queue + (if Paces(c) then WithRoom(c, p) else [])
                    && Unmoved(c, d) && d.heartbeat == c.heartbeat.Tick().(waitPending := true)
  {
    var ticked := c.(heartbeat := c.heartbeat.Tick());
    DisconnectGives(ticked, HeartbeatTimeout);
    AsyncWriteGives(ticked, p);
    RescheduledGives(ticked);
    RescheduledGives(ticked.AsyncWrite(p));
    TickLooks(c);
  }

  function TickCauses(c: Conn, failed: bool): seq<DisconnectReason> {
    if !c.heartbeat.started then []
    else if failed then [TransportError]
    else if Silent(c) then [HeartbeatTimeout]
    else []
  }

  lemma HeartbeatWaitGives(c: Conn, failed: bool, p: Packet)
    requires c.tasks.heartbeatWaits > 0
    ensures var d := c.HeartbeatWaitDone(failed, p);
            && d.causes == c.causes + TickCauses(c, failed)
            && d.socket.queue
               == c.socket.queue + (if c.heartbeat.started && !failed && Paces(c) then WithRoom(c, p) else [])
            && (d.socket.connectPending ==> c.socket.connectPending)
            && (d.state.state != Disconnected ==> Unmoved(c, d))
            && (d.state.state != Disconnected && c.heartbeat.started ==>
                  !failed && d.heartbeat == c.heartbeat.Tick().(waitPending := true))
  {
    var d := c.Taken(HeartbeatWait).(heartbeat := c.heartbeat.(waitPending := false));
    DisconnectGives(d, TransportError);
    TickedGives(d, p);
    HeartbeatStopGives(d);
    HeartbeatStopGives(d.Disconnect(TransportError));
    HeartbeatStopGives(d.Ticked(p));
  }

  // ---------------------------------------------------------------------

  /** What holds at the start of a run and is kept by each of its steps holds throughout. */
  lemma {:induction false} HoldsThroughout(holds: seq<bool>, n: nat)
    requires n < |holds| && holds[0] && forall i | 0 <= i < |holds| - 1 && holds[i] :: holds[i + 1]
    ensures holds[n]
  {
    if n == 0 {
    } else {
      HoldsThroughout(holds, n - 1);
    }
  }
}
