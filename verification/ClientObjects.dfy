/** A client and its redundant connections as objects; ClientSession says what each change means. */
module ClientObjects {
  import opened Types
  import opened RwPackets
  import opened LogicalPackets
  import L = Lifecycle
  import T = ClientLifecycle
  import E = CommonEvents
  import C = ClientSession

  class ReconnectTimer {
    var started: bool
    var epoch: nat

    constructor ()
      ensures Value() == C.ReconnectTimer(false, 0)
    {
      started, epoch := false, 0;
    }

    function Value(): C.ReconnectTimer
      reads this
    {
      C.ReconnectTimer(started, epoch)
    }

    /** The wait that starts, if one does, remembers the epoch it starts in. */
    method Start() returns (wait: Option<nat>)
      modifies this
      ensures Value() == old(Value()).Start()
      ensures wait == if old(started) then None else Some(epoch)
    {
      if started {
        return None;
      }
      started := true;
      epoch := epoch + 1;
      wait := Some(epoch);
    }

    method Stop()
      modifies this
      ensures Value() == old(Value()).Stop()
    {
      if !started {
        return;
      }
      started := false;
    }

    /** A wait started in epoch `e` ends; the answer says whether the timer has expired. */
    method OnWait(e: nat, failed: bool) returns (expired: bool)
      modifies this
      ensures Value() == if old(Value()).Heeds(e) then old(Value()).Stop() else old(Value())
      ensures expired == (old(Value()).Heeds(e) && !failed)
    {
      if e != epoch {
        return false;
      }
      if !started {
        return false;
      }
      started := false;
      expired := !failed;
    }
  }

  /** The TCP connection a connection owns, by value, and a name for it. */
  datatype Tcp = Tcp(id: C.Cid, conn: L.Conn)

  /** What a TCP connection answers to a packet to send. */
  function TcpAnswer(c: L.Conn): WriteError {
    if c.state.state != L.LoggedIn then NotLoggedIn else c.socket.AsyncWriteError()
  }

  function Offered(tcp: Option<Tcp>, packet: Packet): Option<Tcp> {
    match tcp
    case None => None
    case Some(t) => Some(t.(conn := T.SendPacket(t.conn, packet)))
  }

  /** The answer tells what becomes of the packet: it is queued last exactly if there is no error. */
  lemma AnswerTells(c: L.Conn, packet: Packet)
    ensures T.SendPacket(c, packet).socket.queue
         == c.socket.queue + if TcpAnswer(c) == NoWriteError then [packet] else []
    ensures TcpAnswer(c) == NoWriteError
       <==> c.state.state == L.LoggedIn && !c.socket.closing && |c.socket.queue| != c.socket.limit
    ensures TcpAnswer(c) == NotLoggedIn <==> c.state.state != L.LoggedIn
  {
    if c.state.state == L.LoggedIn {
      E.AsyncWriteGives(c, packet);
    }
  }

  /** The owned connection after the user closes it; it stays until it has closed. */
  function ClosedTcp(tcp: Option<Tcp>): Option<Tcp> {
    match tcp
    case None => None
    case Some(t) => Some(t.(conn := t.conn.Disconnect(UserInitiated)))
  }

  /** The packet a buffer puts on the wire. */
  function PacketIn(w: WritePacket): Packet
    requires w.Valid()
    reads w, w.buffer
  {
    var size := SizeIn(w.buffer[..]);
    Packet(w.buffer[PACKET_SIZE_LENGTH],
           if size < PACKET_TYPE_LENGTH then [] else w.buffer[PACKET_HEADER_LENGTH..PACKET_SIZE_LENGTH + size])
  }

  lemma BuiltPacket(packetType: Byte, data: seq<Byte>, w: WritePacket)
    requires w.Valid() && w.buffer[..] == Built(packetType, data[..|data| % TWO_TO_THE_16])
    ensures PacketIn(w) == Narrowed(packetType, data)
  {
    var payload := data[..|data| % TWO_TO_THE_16];
    BuiltFits(packetType, payload);
    assert w.buffer[PACKET_HEADER_LENGTH..] == Built(packetType, payload)[PACKET_HEADER_LENGTH..] == payload;
  }

  class Connection {
    const client: Client
    const endpoint: nat
    var username: seq<Byte>
    var password: seq<Byte>
    var session: seq<Byte>
    var nextSequenceNumber: nat
    var hasSessionEnded: bool
    var tcp: Option<Tcp>
    const reconnectTimer: ReconnectTimer
    var reconnectNextDelay: nat

    constructor (client: Client, endpoint: nat)
      ensures this.client == client && this.endpoint == endpoint && fresh(reconnectTimer)
      ensures Value() == C.Connection([], [], [], 1, false, None, C.ReconnectTimer(false, 0), 0) && tcp == None
    {
      this.client, this.endpoint := client, endpoint;
      username, password, session, nextSequenceNumber, hasSessionEnded := [], [], [], 1, false;
      tcp, reconnectNextDelay := None, 0;
      reconnectTimer := new ReconnectTimer();
    }

    function Value(): C.Connection
      reads this, reconnectTimer
    {
      C.Connection(username, password, session, nextSequenceNumber, hasSessionEnded,
                   match tcp case None => None case Some(t) => Some(t.id), reconnectTimer.Value(), reconnectNextDelay)
    }

    // -------------------------------------------------------------------
    // Called by the TCP connection

    method OnConnectSuccess() returns (request: LoginRequest)
      modifies this`nextSequenceNumber
      ensures Value() == C.OnConnectSuccess(old(Value()), client.Value())
      ensures request == C.RequestOf(Value())
      ensures nextSequenceNumber == client.nextSequenceNumber
      ensures request == LoginRequest(username, password, session, client.nextSequenceNumber)
    {
      nextSequenceNumber := client.nextSequenceNumber;
      request := LoginRequest(username, password, session, nextSequenceNumber);
    }

    method OnLoginSuccess(response: LoginAccepted) returns (reason: DisconnectReason)
      modifies this`session, this`nextSequenceNumber, this`reconnectNextDelay, client`nextSequenceNumber
      ensures reason == C.LoginVerdict(old(Value()), old(client.Value()), response)
      ensures Value() == C.LoggedInConnection(old(Value()), old(client.Value()), response)
      ensures client.Value() == C.LoggedInClient(old(Value()), old(client.Value()), response)
    {
      if session != [] && response.session != session {
        return SessionMismatch;
      }
      if nextSequenceNumber != 0 {
        if response.nextSequenceNumber < nextSequenceNumber {
          return SequenceNumberTooLow;
        }
        if response.nextSequenceNumber > nextSequenceNumber {
          return SequenceNumberTooHigh;
        }
      } else if client.nextSequenceNumber == 0 {
        client.SetNextSequenceNumber(response.nextSequenceNumber);
      } else if response.nextSequenceNumber > client.nextSequenceNumber {
        return SequenceNumberAheadOfSession;
      }
      session := response.session;
      nextSequenceNumber := response.nextSequenceNumber;
      reconnectNextDelay := 0;
      reason := NoReason;
    }

    /** The message has the number the connection has counted to. */
    method OnSequencedData(data: seq<Byte>)
      requires nextSequenceNumber <= client.nextSequenceNumber
      modifies this`nextSequenceNumber, client`nextSequenceNumber, client`log
      ensures Value() == C.Counted(old(Value()))
      ensures client.Value() == C.Received(old(client.Value()), old(nextSequenceNumber), data)
      ensures client.log == old(client.log) + if old(nextSequenceNumber) < old(client.nextSequenceNumber) then []
                                              else [(old(nextSequenceNumber), data)]
    {
      var sequenceNumber := nextSequenceNumber;
      nextSequenceNumber := nextSequenceNumber + 1;
      client.OnSequencedData(sequenceNumber, data);
    }

    method OnEndOfSession()
      modifies this`hasSessionEnded, client`hasSessionEnded, client`endsTold
      ensures Value() == C.EndedConnection(old(Value()))
      ensures client.Value() == C.EndedClient(old(Value()), old(client.Value()))
      ensures old(client.Valid()) ==> client.Valid()
      ensures hasSessionEnded
      ensures old(client.Valid() && this in client.connections) ==>
                && client.hasSessionEnded
                && client.endsTold == old(client.endsTold) + if old(client.hasSessionEnded) then 0 else 1
    {
      if hasSessionEnded {
        return;
      }
      hasSessionEnded := true;
      client.OnEndOfSession();
    }

    /** The TCP connection has closed for good; the answer says how long until a retry, if one is scheduled. */
    method OnClosed(reason: DisconnectReason) returns (delay: Option<nat>)
      modifies this`tcp, this`reconnectNextDelay, reconnectTimer
      ensures Value() == C.OnClosed(old(Value()), client.Value(), reason)
      ensures delay == if client.started && C.IsRetryable(reason) then Some(old(reconnectNextDelay)) else None
    {
      tcp := None;
      if !client.started {
        return None;
      }
      if !C.IsRetryable(reason) {
        return None;
      }
      delay := Some(reconnectNextDelay);
      ScheduleReconnect();
    }

    method ScheduleReconnect()
      modifies this`reconnectNextDelay, reconnectTimer
      ensures Value() == C.Scheduled(old(Value()))
    {
      reconnectNextDelay :=
        if reconnectNextDelay == 0 then RECONNECT_INITIAL_DELAY
        else if reconnectNextDelay * RECONNECT_DELAY_MULTIPLIER < RECONNECT_MAX_DELAY
        then reconnectNextDelay * RECONNECT_DELAY_MULTIPLIER
        else RECONNECT_MAX_DELAY;
      var _ := reconnectTimer.Start();
    }

    // -------------------------------------------------------------------
    // Called by the client and the application

    /** `id` and `openFails` are what the environment makes of a new TCP connection. */
    method Connect(id: C.Cid, openFails: bool)
      modifies this`tcp
      ensures C.MayConnect(old(Value()), client.Value()) ==>
                tcp == Some(Tcp(id, T.Opened(client.writePacketsLimit, openFails)))
      ensures !C.MayConnect(old(Value()), client.Value()) ==> tcp == old(tcp)
    {
      if !client.started {
        return;
      }
      if tcp.Some? {
        return;
      }
      if reconnectTimer.started {
        return;
      }
      tcp := Some(Tcp(id, T.Opened(client.writePacketsLimit, openFails)));
    }

    /** The TCP connection begins to close, but stays until it has closed. */
    method Close()
      modifies this`tcp, this`reconnectNextDelay, reconnectTimer
      ensures Value() == C.ClosedByUser(old(Value()))
      ensures tcp == ClosedTcp(old(tcp)) && !reconnectTimer.started && reconnectNextDelay == 0
    {
      if tcp.Some? {
        tcp := Some(tcp.value.(conn := tcp.value.conn.Disconnect(UserInitiated)));
      }
      reconnectTimer.Stop();
      reconnectNextDelay := 0;
    }

    ghost function Answer(): WriteError
      reads this
    {
      if hasSessionEnded then SessionEnded else if tcp.None? then WriteDisconnected else TcpAnswer(tcp.value.conn)
    }

    method SendPacket(packet: WritePacket) returns (error: WriteError)
      requires packet.Valid()
      modifies this`tcp
      ensures error == old(Answer())
      ensures tcp == if hasSessionEnded then old(tcp) else Offered(old(tcp), PacketIn(packet))
    {
      if hasSessionEnded {
        return SessionEnded;
      }
      if tcp.None? {
        return WriteDisconnected;
      }
      error := TcpAnswer(tcp.value.conn);
      tcp := Some(tcp.value.(conn := T.SendPacket(tcp.value.conn, PacketIn(packet))));
    }
  }

  class Client {
    var nextSequenceNumber: nat
    var hasSessionEnded: bool
    var started: bool
    var writePacketsLimit: nat
    var connections: seq<Connection>
    /** The messages passed to the application, with their numbers. */
    ghost var log: seq<(nat, seq<Byte>)>
    /** How many times the application has been told that the session has ended. */
    ghost var endsTold: nat

    constructor (writePacketsLimit: nat)
      ensures Valid() && Value() == C.Client(1, false, false, []) && connections == []
    {
      nextSequenceNumber, hasSessionEnded, started := 1, false, false;
      this.writePacketsLimit, connections, log, endsTold := writePacketsLimit, [], [], 0;
    }

    ghost function Value(): C.Client
      reads this
    {
      C.Client(nextSequenceNumber, hasSessionEnded, started, log)
    }

    ghost predicate Distinct()
      reads this
    {
      forall i, j | 0 <= i < j < |connections| :: connections[i] != connections[j]
    }

    ghost predicate Unended()
      reads this, connections
    {
      forall i | 0 <= i < |connections| :: !connections[i].hasSessionEnded
    }

    /**
     * The connections are distinct and the client's own, and a connection's end of session is the client's, of which
     * the application has been told once.
     */
    ghost predicate Valid()
      reads this, connections
    {
      && Distinct() && endsTold == (if hasSessionEnded then 1 else 0)
      && (forall i, j | 0 <= i < j < |connections| :: connections[i].reconnectTimer != connections[j].reconnectTimer)
      && (forall c | c in connections :: c.client == this && (c.hasSessionEnded ==> hasSessionEnded))
    }

    method SetNextSequenceNumber(number: nat)
      modifies this`nextSequenceNumber
      ensures nextSequenceNumber == number
    {
      nextSequenceNumber := number;
    }

    method OnSequencedData(sequenceNumber: nat, data: seq<Byte>)
      requires sequenceNumber <= nextSequenceNumber
      modifies this`nextSequenceNumber, this`log
      ensures Value() == C.Received(old(Value()), sequenceNumber, data)
    {
      if sequenceNumber < nextSequenceNumber {
        return;
      }
      assert sequenceNumber == nextSequenceNumber;
      nextSequenceNumber := sequenceNumber + 1;
      log := log + [(sequenceNumber, data)];
    }

    /** The application is told the first time only. */
    method OnEndOfSession()
      modifies this`hasSessionEnded, this`endsTold
      ensures hasSessionEnded && endsTold == old(endsTold) + if old(hasSessionEnded) then 0 else 1
    {
      if hasSessionEnded {
        return;
      }
      hasSessionEnded := true;
      endsTold := endsTold + 1;
    }

    // -------------------------------------------------------------------
    // Connections

    /** One connection per endpoint. */
    method AddConnection(endpoint: nat) returns (added: Option<Connection>)
      requires Valid()
      modifies this`connections
      ensures Valid()
      ensures added.None? <==> exists c :: c in old(connections) && c.endpoint == endpoint
      ensures connections == if added.None? then old(connections) else old(connections) + [added.value]
      ensures added.Some? ==> fresh(added.value) && added.value.endpoint == endpoint && added.value.client == this
    {
      var i := 0;
      while i < |connections|
        invariant 0 <= i <= |connections|
        invariant forall j | 0 <= j < i :: connections[j].endpoint != endpoint
      {
        if connections[i].endpoint == endpoint {
          return None;
        }
        i := i + 1;
      }
      var connection := new Connection(this, endpoint);
      connections := connections + [connection];
      added := Some(connection);
    }

    /** What the posted start does: every connection without a TCP connection or an armed timer gets one. */
    method Start()
      requires Valid()
      modifies this`started, connections`tcp
      ensures Valid() && started
      ensures old(started) ==> forall c | c in connections :: c.tcp == old(c.tcp)
      ensures !old(started) ==> forall c | c in connections ::
                if old(c.tcp.Some?) || c.reconnectTimer.started then c.tcp == old(c.tcp)
                else c.tcp.Some? && (exists fails :: c.tcp.value.conn == T.Opened(writePacketsLimit, fails))
    {
      if started {
        return;
      }
      started := true;
      var i := 0;
      while i < |connections|
        invariant 0 <= i <= |connections| && started
        invariant forall j | i <= j < |connections| :: connections[j].tcp == old(connections[j].tcp)
        invariant forall j | 0 <= j < i ::
                    if old(connections[j].tcp.Some?) || connections[j].reconnectTimer.started
                    then connections[j].tcp == old(connections[j].tcp)
                    else connections[j].tcp.Some?
                         && (exists fails :: connections[j].tcp.value.conn == T.Opened(writePacketsLimit, fails))
        modifies connections`tcp
      {
        var id: nat := *;
        var openFails: bool := *;
        connections[i].Connect(id, openFails);
        i := i + 1;
      }
    }

    ghost function Timers(): set<ReconnectTimer>
      reads this
    {
      set c | c in connections :: c.reconnectTimer
    }

    /** What the posted stop does: every TCP connection begins to close, and no retry stays armed. */
    method Stop()
      requires Valid()
      modifies this`started, connections`tcp, connections`reconnectNextDelay, Timers()
      ensures Valid() && !started
      ensures old(started) ==> forall c | c in connections ::
                && c.Value() == C.ClosedByUser(old(c.Value())) && c.tcp == ClosedTcp(old(c.tcp))
                && !c.reconnectTimer.started && c.reconnectNextDelay == 0
      ensures !old(started) ==> forall c | c in connections :: c.Value() == old(c.Value()) && c.tcp == old(c.tcp)
    {
      if !started {
        return;
      }
      started := false;
      var i := 0;
      while i < |connections|
        invariant 0 <= i <= |connections| && !started
        invariant forall j | i <= j < |connections| ::
                    && connections[j].Value() == old(connections[j].Value())
                    && connections[j].tcp == old(connections[j].tcp)
        invariant forall j | 0 <= j < i ::
                    && connections[j].Value() == C.ClosedByUser(old(connections[j].Value()))
                    && connections[j].tcp == ClosedTcp(old(connections[j].tcp))
                    && !connections[j].reconnectTimer.started && connections[j].reconnectNextDelay == 0
        modifies connections`tcp, connections`reconnectNextDelay, Timers()
      {
        connections[i].Close();
        i := i + 1;
      }
    }

    // -------------------------------------------------------------------
    // Fan-out

    /** `data` is absent when the caller passes no pointer. */
    method SendMessage(data: Option<seq<Byte>>, size: nat) returns (error: WriteError)
      requires Valid() && (data.Some? ==> |data.value| == size)
      modifies connections`tcp
      ensures size == 0 ==> error == EmptyBuffer
      ensures size > 0 && data.None? ==> error == NullBuffer
      ensures size > 0 && data.Some? && hasSessionEnded ==> error == SessionEnded
      ensures size > 0 && data.Some? && !hasSessionEnded ==>
                && BestOf(error, old(Answers()))
                && forall c | c in connections :: c.tcp == Offered(old(c.tcp), Narrowed(T.UNSEQUENCED_DATA, data.value))
      ensures error in {EmptyBuffer, NullBuffer, SessionEnded} ==> forall c | c in connections :: c.tcp == old(c.tcp)
    {
      if size == 0 {
        return EmptyBuffer;
      }
      if data.None? {
        return NullBuffer;
      }
      var packet := new WritePacket(T.UNSEQUENCED_DATA, data.value[..size % TWO_TO_THE_16]);
      BuiltPacket(T.UNSEQUENCED_DATA, data.value, packet);
      error := SendPacket(packet);
    }

    /** What each connection would answer to a packet now. */
    ghost function Answers(): (r: seq<WriteError>)
      reads this, connections
      ensures |r| == |connections|
      ensures forall i | 0 <= i < |connections| :: r[i] == connections[i].Answer()
    {
      seq(|connections|, i requires 0 <= i < |connections| reads this, connections => connections[i].Answer())
    }

    /** Every connection is offered the same packet, and the client answers with the best of their answers. */
    method SendPacket(packet: WritePacket) returns (error: WriteError)
      requires Valid() && packet.Valid()
      modifies connections`tcp
      ensures hasSessionEnded ==> error == SessionEnded && forall c | c in connections :: c.tcp == old(c.tcp)
      ensures !hasSessionEnded ==> BestOf(error, old(Answers()))
      ensures !hasSessionEnded ==> forall c | c in connections :: c.tcp == Offered(old(c.tcp), old(PacketIn(packet)))
    {
      if hasSessionEnded {
        return SessionEnded;
      }
      if |connections| == 1 {
        error := SendOne(packet);
      } else if |connections| == 2 {
        error := SendTwo(packet);
      } else {
        error := SendMultiple(packet);
      }
    }

    method SendOne(packet: WritePacket) returns (error: WriteError)
      requires Unended() && packet.Valid() && |connections| == 1
      modifies connections`tcp
      ensures BestOf(error, old(Answers()))
      ensures forall c | c in connections :: c.tcp == Offered(old(c.tcp), old(PacketIn(packet)))
    {
      error := connections[0].SendPacket(packet);
    }

    method SendTwo(packet: WritePacket) returns (error: WriteError)
      requires Distinct() && Unended() && packet.Valid() && |connections| == 2
      modifies connections`tcp
      ensures BestOf(error, old(Answers()))
      ensures forall c | c in connections :: c.tcp == Offered(old(c.tcp), old(PacketIn(packet)))
    {
      var copy := packet.Clone();
      var error1 := connections[0].SendPacket(packet);
      var error2 := connections[1].SendPacket(copy);
      var errors := [error1, error2];
      assert errors == old(Answers());
      NoneEnded(errors);
      error := PriorityError(errors);
    }

    /** Every connection but the last is offered a copy, and the last the packet itself. */
    method SendMultiple(packet: WritePacket) returns (error: WriteError)
      requires Distinct() && Unended() && packet.Valid()
      modifies connections`tcp
      ensures BestOf(error, old(Answers()))
      ensures forall c | c in connections :: c.tcp == Offered(old(c.tcp), old(PacketIn(packet)))
    {
      if connections == [] {
        return WriteDisconnected;
      }
      ghost var answers := Answers();
      var errors := OfferAll(packet);
      assert errors == answers;
      NoneEnded(errors);
      error := PriorityError(errors);
    }

    method OfferAll(packet: WritePacket) returns (errors: seq<WriteError>)
      requires Distinct() && Unended() && packet.Valid() && connections != []
      modifies connections`tcp
      ensures |errors| == |connections| && forall j | 0 <= j < |errors| :: errors[j] == old(connections[j].Answer())
      ensures forall j | 0 <= j < |connections| ::
                connections[j].tcp == Offered(old(connections[j].tcp), PacketIn(packet))
    {
      var back := |connections| - 1;
      errors := OfferCopies(packet, back);
      var last := connections[back].SendPacket(packet);
      errors := errors + [last];
    }

    method OfferCopy(c: Connection, packet: WritePacket) returns (error: WriteError)
      requires packet.Valid() && !c.hasSessionEnded
      modifies c`tcp
      ensures error == old(c.Answer()) && c.tcp == Offered(old(c.tcp), PacketIn(packet))
    {
      var copy := packet.Clone();
      error := c.SendPacket(copy);
    }

    method OfferCopies(packet: WritePacket, back: nat) returns (errors: seq<WriteError>)
      requires Distinct() && Unended() && packet.Valid() && back + 1 == |connections|
      modifies connections`tcp
      ensures |errors| == back && forall j | 0 <= j < back :: errors[j] == old(connections[j].Answer())
      ensures forall j | 0 <= j < back ::
                connections[j].tcp == Offered(old(connections[j].tcp), PacketIn(packet))
      ensures connections[back].tcp == old(connections[back].tcp)
    {
      errors := [];
      var i := 0;
      while i < back
        invariant 0 <= i <= back && |errors| == i
        invariant forall j | 0 <= j < i :: errors[j] == old(connections[j].Answer())
        invariant forall j | 0 <= j < i ::
                    connections[j].tcp == Offered(old(connections[j].tcp), PacketIn(packet))
        invariant forall j | i <= j < |connections| :: connections[j].tcp == old(connections[j].tcp)
        modifies connections`tcp
      {
        var next := OfferCopy(connections[i], packet);
        errors := errors + [next];
        i := i + 1;
      }
    }
  }

  // ---------------------------------------------------------------------
  // The best of several answers

  function Rank(e: WriteError): nat {
    match e
    case NoWriteError => 4
    case BufferFull => 3
    case NotLoggedIn => 2
    case WriteDisconnected => 1
    case _ => 0
  }

  /** Some answer, and no other answer ranks above it; with nobody to answer, disconnected. */
  predicate BestOf(e: WriteError, answers: seq<WriteError>) {
    if answers == [] then e == WriteDisconnected
    else e in answers && forall a | a in answers :: Rank(a) <= Rank(e)
  }

  function PriorityError(errors: seq<WriteError>): WriteError {
    if NoWriteError in errors then NoWriteError
    else if BufferFull in errors then BufferFull
    else if NotLoggedIn in errors then NotLoggedIn
    else WriteDisconnected
  }

  /** The answers a connection can give to a packet of at least one byte. */
  predicate IsAnswer(e: WriteError) {
    e.NoWriteError? || e.BufferFull? || e.NotLoggedIn? || e.WriteDisconnected? || e.SessionEnded?
  }

  lemma NoneEnded(errors: seq<WriteError>)
    requires errors != []
    requires forall k | 0 <= k < |errors| :: IsAnswer(errors[k]) && errors[k] != SessionEnded
    ensures BestOf(PriorityError(errors), errors)
  {
    assert errors[0] in errors;
  }

  /** Falling through to disconnected is exact unless every connection answers that the session has ended. */
  lemma PriorityIsBest(errors: seq<WriteError>)
    requires forall e | e in errors :: IsAnswer(e)
    ensures BestOf(PriorityError(errors), errors) <==> errors == [] || exists e | e in errors :: e != SessionEnded
  {
  }
}
