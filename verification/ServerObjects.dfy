/** The server's ports, connections and acceptor as objects linked by pointers, changing as ServerSession says. */
module ServerObjects {
  import opened Types
  import opened Packing
  import opened LogicalPackets
  import opened RwPackets
  import L = Lifecycle
  import SL = ServerLifecycle
  import S = ServerSession

  /**
   * What port and acceptor see of an accepted TCP connection: its state, the packets it has been handed to send, and
   * its link to a port. `id` only names it in specifications.
   */
  class Connection {
    ghost const id: S.Cid
    var state: L.ConnState
    var port: Port?
    ghost var handed: seq<Packet>

    constructor (ghost id: S.Cid)
      ensures this.id == id && state == L.ConnState(L.Connected, NoReason) && port == null && handed == []
    {
      this.id := id;
      state, port, handed := L.ConnState(L.Connected, NoReason), null, [];
    }

    ghost function Value(): S.Live
      reads this
    {
      S.Live(state, if port == null then None else Some(port.index))
    }

    ghost function AtPort(): set<Port>
      reads this
    {
      if port == null then {} else {port}
    }

    method Disconnect(reason: DisconnectReason)
      modifies this`state
      ensures state == old(state).Disconnect(reason)
    {
      state := state.Disconnect(reason);
    }

    /** The connection goes on with the answer to its login request. */
    method Answered(accepted: bool)
      modifies this`state
      ensures state
           == if accepted then old(state).(state := L.LoggedIn) else old(state).InitiateDisconnect(AccessDenied)
    {
      state := if accepted then state.(state := L.LoggedIn) else state.InitiateDisconnect(AccessDenied);
    }

    /** The answer to a packet to send, if the socket's queue has room or not. */
    method SendPacket(packet: Packet, room: bool) returns (error: WriteError)
      modifies this`handed
      ensures handed == old(handed) + [packet]
      ensures error == if state.state != L.LoggedIn then NotLoggedIn else if !room then BufferFull else NoWriteError
    {
      handed := handed + [packet];
      if state.state != L.LoggedIn {
        return NotLoggedIn;
      }
      error := if room then NoWriteError else BufferFull;
    }

    method SendDebugPacket(text: seq<Byte>)
      modifies this`handed
      ensures handed == old(handed) + [Packet(SL.DEBUG, text)]
    {
      handed := handed + [Packet(SL.DEBUG, text)];
    }
  }

  class Port {
    ghost const index: nat
    const username: seq<Byte>
    const password: seq<Byte>
    var connection: Connection?
    var nextSequenceNumber: nat
    var hasSessionEnded: bool

    constructor (ghost index: nat, username: seq<Byte>, password: seq<Byte>)
      ensures this.index == index && Value() == S.Port(username, password, None, 1, false) && connection == null
    {
      this.index, this.username, this.password := index, username, password;
      connection, nextSequenceNumber, hasSessionEnded := null, 1, false;
    }

    ghost function Value(): S.Port
      reads this
    {
      S.Port(username, password, if connection == null then None else Some(connection.id), nextSequenceNumber,
             hasSessionEnded)
    }

    ghost function Linked(): set<Connection>
      reads this
    {
      if connection == null then {} else {connection}
    }

    /** Checks the request; a connection that passes takes the port over from the one it had. */
    method OnLoginRequest(c: Connection, request: LoginRequest, session: seq<Byte>) returns (result: S.LoginResult)
      requires connection != c
      modifies this, c`port, Linked()`state
      ensures result == S.PortAnswer(old(Value()), request, session)
      ensures result.LoginRejected? ==>
                Value() == old(Value()) && connection == old(connection) && c.port == old(c.port)
                && (connection != null ==> connection.state == old(connection.state))
      ensures result.LoginOk? ==>
                && connection == c && c.port == this
                && (var n, p := request.nextSequenceNumber, old(nextSequenceNumber);
                    nextSequenceNumber == if 0 < n < p then n else p)
                && result == S.LoginOk(LoginAccepted(session, nextSequenceNumber))
                && Value() == S.Port(username, password, Some(c.id), S.Rewound(old(Value()), request), hasSessionEnded)
                && hasSessionEnded == old(hasSessionEnded)
                && (old(connection) != null ==> old(connection).state == old(connection.state).Disconnect(Superseded))
    {
      if request.password != password {
        return S.LoginRejected(S.IncorrectPassword);
      }
      if request.session != [] && request.session != session {
        return S.LoginRejected(S.SessionNotAvailable);
      }
      if connection != null {
        connection.Disconnect(Superseded);
      }
      connection := c;
      c.port := this;
      if request.nextSequenceNumber != 0 && request.nextSequenceNumber < nextSequenceNumber {
        nextSequenceNumber := request.nextSequenceNumber;
      }
      result := S.LoginOk(LoginAccepted(session, nextSequenceNumber));
    }

    /** Only a message the connection takes uses up a number. `data` is absent when the caller passes no pointer. */
    method SendMessage(data: Option<seq<Byte>>, size: nat, room: bool) returns (error: WriteError)
      requires data.Some? ==> |data.value| == size
      modifies this`nextSequenceNumber, Linked()`handed
      ensures error == if size == 0 then EmptyBuffer else if data.None? then NullBuffer else old(PacketError(room))
      ensures nextSequenceNumber == old(nextSequenceNumber) + if error == NoWriteError then 1 else 0
      ensures connection != null ==>
                connection.handed == if error in {EmptyBuffer, NullBuffer, SessionEnded} then old(connection.handed)
                                     else old(connection.handed) + [Narrowed(SL.SEQUENCED_DATA, data.value)]
    {
      if size == 0 {
        return EmptyBuffer;
      }
      if data.None? {
        return NullBuffer;
      }
      error := SendPacket(Narrowed(SL.SEQUENCED_DATA, data.value), room);
      if error == NoWriteError {
        nextSequenceNumber := nextSequenceNumber + 1;
      }
    }

    ghost function PacketError(room: bool): WriteError
      reads this, Linked()
    {
      if hasSessionEnded then SessionEnded
      else if connection == null then WriteDisconnected
      else if connection.state.state != L.LoggedIn then NotLoggedIn
      else if !room then BufferFull else NoWriteError
    }

    method SendPacket(packet: Packet, room: bool) returns (error: WriteError)
      modifies Linked()`handed
      ensures error == PacketError(room)
      ensures connection != null ==>
                connection.handed == old(connection.handed) + if hasSessionEnded then [] else [packet]
    {
      if hasSessionEnded {
        return SessionEnded;
      }
      if connection == null {
        return WriteDisconnected;
      }
      error := connection.SendPacket(packet, room);
    }

    /** The connection, if there is one, is handed an End of Session packet the first time, and never again. */
    method EndSession(room: bool)
      modifies this`hasSessionEnded, Linked()`handed
      ensures hasSessionEnded
      ensures connection != null ==>
                connection.handed == old(connection.handed) + if old(hasSessionEnded) then [] else [SL.END_OF_SESSION]
    {
      if hasSessionEnded {
        return;
      }
      hasSessionEnded := true;
      if connection != null {
        var _ := connection.SendPacket(SL.END_OF_SESSION, room);
      }
    }

    method OnClosed(c: Connection)
      modifies this`connection
      ensures connection == if old(connection) == c then null else old(connection)
    {
      if connection == c {
        connection := null;
      }
    }
  }

  ghost function AfterSupersede(a: S.Acceptor, i: nat, c: S.Cid): S.Live
    requires i < |a.ports| && c in a.connections
  {
    if a.ports[i].connection == Some(c) then a.connections[c].(state := a.connections[c].state.Disconnect(Superseded))
    else a.connections[c]
  }

  function Answered(a: S.Acceptor, c: S.Cid, accepted: bool): S.Acceptor
    requires c in a.connections
  {
    var live := a.connections[c];
    var next := if accepted then live.state.(state := L.LoggedIn) else live.state.InitiateDisconnect(AccessDenied);
    a.(connections := a.connections[c := live.(state := next)])
  }

  /** The login in two steps: port i takes c in or refuses it, or there is no port i; then c's state follows. */
  lemma LoginByCases(a: S.Acceptor, c: S.Cid, i: nat, request: LoginRequest)
    requires c in a.connections && i <= |a.ports|
    requires S.FindPort(a.ports, request.username) == if i < |a.ports| then Some(i) else None
    ensures S.Answer(a, request)
         == if i < |a.ports| then S.PortAnswer(a.ports[i], request, a.session) else S.LoginRejected(S.UserNotFound)
    ensures S.ProcessLogin(a, c, request)
         == if S.Answer(a, request).LoginOk? then Answered(TakenOver(a, c, i, request), c, true)
            else Answered(a, c, false)
  {
  }

  lemma NamesDiffer(connections: seq<Connection>, c: Connection)
    requires OneEach(connections) && c in connections
    ensures forall d | d in connections && d != c :: d.id != c.id
  {
  }

  function ForgottenBy(p: S.Port, c: S.Cid): S.Port { if p.connection == Some(c) then p.(connection := None) else p }

  /** The acceptor after connection c took port i over. */
  function TakenOver(a: S.Acceptor, c: S.Cid, i: nat, request: LoginRequest): S.Acceptor
    requires c in a.connections && i < |a.ports|
  {
    var live := a.connections[c];
    var p := a.ports[i].(connection := Some(c), nextSequenceNumber := S.Rewound(a.ports[i], request));
    a.(ports := a.ports[i := p],
       connections := S.Superseded(a, i).connections[c := S.Live(live.state, Some(i))])
  }

  /** No two listed connections have one name; in particular none is listed twice. */
  ghost predicate OneEach(connections: seq<Connection>) {
    forall i, j | 0 <= i < j < |connections| :: connections[i].id != connections[j].id
  }

  class Acceptor {
    const session: seq<Byte>
    const debugBanner: seq<Byte>
    var ports: seq<Port>
    var connections: seq<Connection>
    /** The acceptor as ServerSession describes it. */
    ghost var model: S.Acceptor

    constructor (session: seq<Byte>, debugBanner: seq<Byte>)
      ensures Valid() && model == S.Acceptor(session, [], map[], 0, [])
    {
      this.session, this.debugBanner := session, debugBanner;
      ports, connections := [], [];
      model := S.Acceptor(session, [], map[], 0, []);
    }

    ghost predicate PortsMatch()
      reads this, ports
    {
      && |model.ports| == |ports|
      && forall i | 0 <= i < |ports| :: ports[i].index == i && ports[i].Value() == model.ports[i]
    }

    ghost predicate ConnectionsMatch()
      reads this, connections
    {
      && (forall c | c in connections ::
            c.id in model.connections && c.Value() == model.connections[c.id] && c.id < model.accepted)
      && (forall id | id in model.connections :: Has(id))
      && OneEach(connections)
    }

    ghost predicate Has(id: S.Cid)
      reads this
    {
      exists c :: c in connections && c.id == id
    }

    ghost predicate PointersResolve()
      reads this, ports, connections
    {
      && (forall p | p in ports :: p.connection == null || p.connection in connections)
      && (forall c | c in connections :: c.port == null || c.port in ports)
    }

    ghost predicate Valid()
      reads this, ports, connections
    {
      model.session == session && PortsMatch() && ConnectionsMatch() && PointersResolve()
    }

    method FindPort(username: seq<Byte>) returns (i: nat)
      requires PortsMatch()
      ensures i <= |ports|
      ensures S.FindPort(model.ports, username) == if i < |ports| then Some(i) else None
    {
      i := 0;
      while i < |ports| && ports[i].username != username
        invariant 0 <= i <= |ports|
        invariant S.FindPort(model.ports[..i], username) == None
      {
        i := i + 1;
        assert model.ports[..i][..i - 1] == model.ports[..i - 1];
      }
      if i < |ports| {
        assert model.ports[..i + 1][..i] == model.ports[..i];
        FoundStays(model.ports, i + 1, username);
      } else {
        assert model.ports[..i] == model.ports;
      }
    }

    method AddPort(username: seq<Byte>, password: seq<Byte>) returns (added: bool)
      requires Valid()
      modifies this
      ensures Valid() && model == S.AddPort(old(model), username, password)
      ensures connections == old(connections)
      ensures added <==> && ValidField(username, USERNAME_LENGTH) && ValidField(password, PASSWORD_LENGTH)
                         && forall i | 0 <= i < |old(ports)| :: old(ports)[i].username != username
    {
      if !ValidField(username, USERNAME_LENGTH) || !ValidField(password, PASSWORD_LENGTH) {
        return false;
      }
      var i := FindPort(username);
      if i < |ports| {
        return false;
      }
      var port := new Port(|ports|, username, password);
      model := S.AddPort(model, username, password);
      ports := ports + [port];
      added := true;
    }

    /** A new connection is listed, and handed the banner if there is one. */
    method OnAccept() returns (c: Connection)
      requires Valid()
      modifies this`connections, this`model
      ensures Valid() && fresh(c) && c.id !in old(model).connections && model == S.Accept(old(model), c.id)
      ensures connections == old(connections) + [c]
      ensures c.handed == if debugBanner == [] then [] else [Packet(SL.DEBUG, debugBanner)]
    {
      c := new Connection(model.accepted);
      if debugBanner != [] {
        c.SendDebugPacket(debugBanner);
      }
      Enlist(c);
    }

    method Enlist(c: Connection)
      requires Valid() && c !in connections && c.port == null && c.id == model.accepted
      requires c.state == L.ConnState(L.Connected, NoReason)
      modifies this`connections, this`model
      ensures Valid() && connections == old(connections) + [c] && model == S.Accept(old(model), c.id)
      ensures c.id !in old(model).connections
    {
      NotNamedYet();
      connections := connections + [c];
      model := S.Accept(model, c.id);
      assert c in connections;
      forall id | id in model.connections ensures Has(id) {
        if id != c.id {
          assert old(Has(id));
        }
      }
    }

    lemma NotNamedYet()
      requires Valid()
      ensures model.accepted !in model.connections
    {
      assert forall id | id in model.connections :: Has(id);
    }

    /** Only the port a connection points to can point to it. */
    lemma OnlyItsPort(c: Connection, p: Port)
      requires Valid() && S.AccInv(model) && c in connections && p in ports && p.connection == c
      ensures c.port == p
    {
      var i :| 0 <= i < |ports| && ports[i] == p;
      assert S.PortOk(model, i, model.ports[i]);
      assert c.port.index == i;
    }

    lemma NoPortYet(c: Connection, p: Port)
      requires Valid() && S.AccInv(model) && c in connections && p in ports && c.state.state == L.Connected
      ensures c.port == null && p.connection != c
    {
      assert S.LiveOk(model, c.id, model.connections[c.id]);
      if p.connection == c {
        OnlyItsPort(c, p);
      }
    }

    /** A connection not yet logged in asks to, and goes on with the answer. */
    method OnLoginRequest(c: Connection, request: LoginRequest) returns (result: S.LoginResult)
      requires Valid() && S.AccInv(model) && c in connections && c.state.state == L.Connected
      modifies this`model, ports, connections
      ensures Valid() && model == S.ProcessLogin(old(model), c.id, request)
      ensures result == S.Answer(old(model), request)
    {
      forall p | p in ports ensures c.port == null && p.connection != c {
        NoPortYet(c, p);
      }
      result := ProcessRequest(c, request);
    }

    method ProcessRequest(c: Connection, request: LoginRequest) returns (result: S.LoginResult)
      requires Valid() && c in connections && forall p | p in ports :: c.port == null && p.connection != c
      modifies this`model, ports, connections
      ensures Valid() && model == S.ProcessLogin(old(model), c.id, request)
      ensures result == S.Answer(old(model), request)
    {
      ghost var a, i := model, 0;
      result, i := AskPort(c, request);
      Answer(c, result.LoginOk?);
      LoginByCases(a, c.id, i, request);
    }

    /** The port with the request's username, if there is one, takes c in or refuses it. */
    method AskPort(c: Connection, request: LoginRequest) returns (result: S.LoginResult, ghost i: nat)
      requires Valid() && c in connections && forall p | p in ports :: c.port == null && p.connection != c
      modifies this`model, ports, connections
      ensures Valid() && i <= |ports| && c.state == old(c.state)
      ensures S.FindPort(old(model).ports, request.username) == if i < |ports| then Some(i) else None
      ensures result == if i < |ports| then S.PortAnswer(old(model).ports[i], request, session)
                        else S.LoginRejected(S.UserNotFound)
      ensures model == if result.LoginOk? then TakenOver(old(model), c.id, i, request) else old(model)
    {
      var at := FindPort(request.username);
      i := at;
      if at < |ports| {
        result := OnPortRequest(c, at, request);
      } else {
        result := S.LoginRejected(S.UserNotFound);
      }
    }

    method Answer(c: Connection, accepted: bool)
      requires Valid() && c in connections
      modifies this`model, c`state
      ensures Valid() && model == Answered(old(model), c.id, accepted)
    {
      NamesDiffer(connections, c);
      c.Answered(accepted);
      StateInModel(c);
    }

    method OnPortRequest(c: Connection, i: nat, request: LoginRequest) returns (result: S.LoginResult)
      requires Valid() && c in connections && i < |ports| && c.port == null && ports[i].connection != c
      modifies this`model, ports, connections
      ensures Valid() && result == S.PortAnswer(old(model).ports[i], request, session)
      ensures result.LoginOk? ==> model == TakenOver(old(model), c.id, i, request)
      ensures result.LoginRejected? ==> model == old(model)
    {
      result := PortLogin(c, i, ports[i], ports[i].connection, request);
      if result.LoginOk? {
        TakeOverInModel(c, i, request);
      }
    }

    method PortLogin(c: Connection, ghost i: nat, port: Port, ghost previous: Connection?, request: LoginRequest)
      returns (result: S.LoginResult)
      requires Valid() && c in connections && c.port == null
      requires i < |ports| && ports[i] == port && port.connection == previous != c
      modifies port, c`port, port.Linked()`state
      ensures result == S.PortAnswer(model.ports[i], request, session)
      ensures result.LoginOk? ==> TookOver(c, i, request)
      ensures result.LoginRejected? ==> Valid()
    {
      NamesDiffer(connections, c);
      if previous != null {
        NamesDiffer(connections, previous);
      }
      result := port.OnLoginRequest(c, request, session);
      if result.LoginRejected? {
        return;
      }
    }

    /** Only connection c's state is not yet in the model. */
    ghost predicate StateChanged(c: Connection)
      reads this, ports, connections
    {
      && model.session == session && PortsMatch() && PointersResolve() && c in connections && OneEach(connections)
      && (forall d | d in connections ::
            && d.id in model.connections && d.id < model.accepted
            && (d != c ==> d.id != c.id && d.Value() == model.connections[d.id]))
      && (forall id | id in model.connections :: Has(id))
    }

    ghost method StateInModel(c: Connection)
      requires StateChanged(c)
      modifies this`model
      ensures Valid() && model == old(model).(connections := old(model).connections[c.id := c.Value()])
    {
      model := model.(connections := model.connections[c.id := c.Value()]);
    }

    /** Only the value of port i is not yet in the model. */
    ghost predicate PortChanged(i: nat)
      reads this, ports, connections
    {
      && model.session == session && |model.ports| == |ports| && ConnectionsMatch() && PointersResolve()
      && (forall j | 0 <= j < |ports| :: ports[j].index == j && (j != i ==> ports[j].Value() == model.ports[j]))
    }

    ghost method PortInModel(i: nat)
      requires i < |ports| && PortChanged(i)
      modifies this`model
      ensures Valid() && i < |ports| && model == old(model).(ports := old(model).ports[i := ports[i].Value()])
    {
      model := model.(ports := model.ports[i := ports[i].Value()]);
    }

    /** Port i, connection c and the connection it supersedes are not yet in the model. */
    ghost predicate TookOver(c: Connection, i: nat, request: LoginRequest)
      reads this, ports, connections
    {
      && model.session == session && |model.ports| == |ports| && i < |ports|
      && PointersResolve() && OneEach(connections)
      && (forall j | 0 <= j < |ports| :: ports[j].index == j && (j != i ==> ports[j].Value() == model.ports[j]))
      && ports[i].Value()
         == model.ports[i].(connection := Some(c.id), nextSequenceNumber := S.Rewound(model.ports[i], request))
      && c in connections && c.id in model.connections
      && c.Value() == S.Live(model.connections[c.id].state, Some(i))
      && (forall d | d in connections ::
            && d.id in model.connections && d.id < model.accepted
            && (d != c ==> d.id != c.id && d.Value() == AfterSupersede(model, i, d.id)))
      && (forall id | id in model.connections :: Has(id))
    }

    ghost method TakeOverInModel(c: Connection, i: nat, request: LoginRequest)
      requires TookOver(c, i, request)
      modifies this`model
      ensures Valid() && model == TakenOver(old(model), c.id, i, request)
    {
      model := TakenOver(model, c.id, i, request);
    }

    /** The join of c has completed: its port forgets it, and then it leaves the list. */
    method SignalClosed(c: Connection)
      requires Valid() && S.AccInv(model) && c in connections
      modifies this`model, this`connections, ports
      ensures Valid() && model == S.Closed(old(model), c.id)
      ensures c !in connections
    {
      forall p | p in ports && p.connection == c ensures c.port == p {
        OnlyItsPort(c, p);
      }
      ForgetAtPort(c);
      OnClosed(c);
    }

    method ForgetAtPort(c: Connection)
      requires Valid() && c in connections && forall p | p in ports && p.connection == c :: c.port == p
      modifies this`model, ports
      ensures Valid() && model == old(model).(ports := S.Closed(old(model), c.id).ports)
      ensures forall p | p in ports :: p.connection != c
    {
      if c.port != null {
        ghost var i :| 0 <= i < |ports| && ports[i] == c.port;
        ForgetAt(c, i, c.port);
      }
    }

    method ForgetAt(c: Connection, ghost i: nat, port: Port)
      requires Valid() && c in connections && i < |ports| && ports[i] == port
      modifies this`model, port`connection
      ensures Valid() && model == old(model).(ports := old(model).ports[i := ForgottenBy(old(model).ports[i], c.id)])
      ensures port.connection != c
    {
      NamesDiffer(connections, c);
      port.OnClosed(c);
      PortInModel(i);
    }

    method OnClosed(c: Connection)
      requires Valid() && c in connections && forall p | p in ports :: p.connection != c
      modifies this`model, this`connections
      ensures Valid() && c !in connections
      ensures model == old(model).(connections := old(model).connections - {c.id},
                                   notices := old(model).notices + [S.Notice(c.id, c.port != null, c.state.reason)])
    {
      NamesDiffer(connections, c);
      WithoutListed(connections, c);
      connections := Without(connections, c);
      model := model.(connections := model.connections - {c.id},
                      notices := model.notices + [S.Notice(c.id, c.port != null, c.state.reason)]);
      forall id | id in model.connections ensures Has(id) {
        assert old(Has(id));
      }
    }

    /** Connection c is yet to hear that its port's session ends. */
    ghost predicate ToBeTold(c: Connection)
      reads c, c.AtPort()
    {
      c.port != null && c.port.connection == c && !c.port.hasSessionEnded
    }

    /** Each connection whose port's session was still on is handed an End of Session packet, and no other is. */
    method EndSession(rooms: seq<bool>)
      requires Valid() && S.AccInv(model) && |rooms| == |ports|
      modifies this`model, ports`hasSessionEnded, connections`handed
      ensures Valid() && model == S.EndSession(old(model))
      ensures forall c | c in connections ::
                c.handed == old(c.handed) + if old(ToBeTold(c)) then [SL.END_OF_SESSION] else []
    {
      forall c, p | c in connections && p in ports && p.connection == c ensures c.port == p {
        OnlyItsPort(c, p);
      }
      EndAtPorts(rooms);
      EndInModel();
    }

    ghost method EndInModel()
      requires model.session == session && |model.ports| == |ports| && ConnectionsMatch() && PointersResolve()
      requires forall j | 0 <= j < |ports| ::
                 ports[j].index == j && ports[j].Value() == model.ports[j].(hasSessionEnded := true)
      modifies this`model
      ensures Valid() && model == S.EndSession(old(model))
    {
      model := S.EndSession(model);
    }

    method EndAtPorts(rooms: seq<bool>)
      requires PortsMatch() && PointersResolve() && |rooms| == |ports|
      requires forall c, p | c in connections && p in ports && p.connection == c :: c.port == p
      modifies ports`hasSessionEnded, connections`handed
      ensures forall p | p in ports :: p.hasSessionEnded
      ensures forall c | c in connections ::
                c.handed == old(c.handed) + if old(ToBeTold(c)) then [SL.END_OF_SESSION] else []
    {
      var i := 0;
      while i < |ports|
        invariant 0 <= i <= |ports|
        invariant forall j | 0 <= j < i :: ports[j].hasSessionEnded
        invariant forall j | i <= j < |ports| :: ports[j].hasSessionEnded == old(ports[j].hasSessionEnded)
        invariant forall c | c in connections ::
                    c.handed == old(c.handed) + if old(ToBeTold(c)) && c.port.index < i then [SL.END_OF_SESSION] else []
        modifies ports`hasSessionEnded, connections`handed
      {
        ports[i].EndSession(rooms[i]);
        i := i + 1;
      }
    }

    method Stop()
      requires Valid()
      modifies this`model, connections
      ensures Valid() && model == S.Stop(old(model))
    {
      var i := 0;
      while i < |connections|
        invariant 0 <= i <= |connections|
        invariant forall j | 0 <= j < |connections| ::
                    && connections[j].port == old(connections[j].port)
                    && connections[j].state
                       == if j < i then old(connections[j].state).Disconnect(UserInitiated)
                          else old(connections[j].state)
        modifies connections
      {
        connections[i].Disconnect(UserInitiated);
        i := i + 1;
      }
      StopInModel();
    }

    ghost method StopInModel()
      requires model.session == session && PortsMatch() && PointersResolve() && OneEach(connections)
      requires forall c | c in connections ::
                 && c.id in model.connections && c.id < model.accepted
                 && c.Value()
                    == model.connections[c.id].(state := model.connections[c.id].state.Disconnect(UserInitiated))
      requires forall id | id in model.connections :: Has(id)
      modifies this`model
      ensures Valid() && model == S.Stop(old(model))
    {
      model := S.Stop(model);
    }

    method SendMessage(p: nat, data: Option<seq<Byte>>, size: nat, room: bool) returns (error: WriteError)
      requires Valid() && p < |ports| && (data.Some? ==> |data.value| == size)
      modifies this`model, ports`nextSequenceNumber, ports[p].Linked()`handed
      ensures Valid()
      ensures error == if size == 0 then EmptyBuffer else if data.None? then NullBuffer
                       else S.SendError(old(model), p, room)
      ensures model == if error == NoWriteError then S.Sent(old(model), p) else old(model)
      ensures ports[p].connection != null ==>
                ports[p].connection.handed
                == if error in {EmptyBuffer, NullBuffer, SessionEnded} then old(ports[p].connection.handed)
                   else old(ports[p].connection.handed) + [Narrowed(SL.SEQUENCED_DATA, data.value)]
    {
      error := SendAt(p, ports[p], data, size, room);
    }

    method SendAt(ghost p: nat, port: Port, data: Option<seq<Byte>>, size: nat, room: bool) returns (error: WriteError)
      requires Valid() && p < |ports| && ports[p] == port && (data.Some? ==> |data.value| == size)
      modifies this`model, port`nextSequenceNumber, port.Linked()`handed
      ensures Valid()
      ensures error == if size == 0 then EmptyBuffer else if data.None? then NullBuffer
                       else S.SendError(old(model), p, room)
      ensures model == if error == NoWriteError then S.Sent(old(model), p) else old(model)
      ensures port.connection != null ==>
                port.connection.handed
                == if error in {EmptyBuffer, NullBuffer, SessionEnded} then old(port.connection.handed)
                   else old(port.connection.handed) + [Narrowed(SL.SEQUENCED_DATA, data.value)]
    {
      error := SendFrom(p, port, data, size, room);
      PortInModel(p);
    }

    method SendFrom(ghost p: nat, port: Port, data: Option<seq<Byte>>, size: nat, room: bool)
      returns (error: WriteError)
      requires Valid() && p < |ports| && ports[p] == port && (data.Some? ==> |data.value| == size)
      modifies port`nextSequenceNumber, port.Linked()`handed
      ensures PortChanged(p)
      ensures error == if size == 0 then EmptyBuffer else if data.None? then NullBuffer else S.SendError(model, p, room)
      ensures port.Value() == if error == NoWriteError then S.Sent(model, p).ports[p] else model.ports[p]
      ensures port.connection != null ==>
                port.connection.handed
                == if error in {EmptyBuffer, NullBuffer, SessionEnded} then old(port.connection.handed)
                   else old(port.connection.handed) + [Narrowed(SL.SEQUENCED_DATA, data.value)]
    {
      PacketErrorInModel(p, room);
      error := port.SendMessage(data, size, room);
    }

    lemma PacketErrorInModel(p: nat, room: bool)
      requires Valid() && p < |ports|
      ensures ports[p].PacketError(room) == S.SendError(model, p, room)
    {
    }
  }

  function Without(connections: seq<Connection>, c: Connection): seq<Connection> {
    if connections == [] then []
    else Without(connections[..|connections| - 1], c)
         + (if connections[|connections| - 1] == c then [] else [connections[|connections| - 1]])
  }

  lemma {:induction false} WithoutListed(connections: seq<Connection>, c: Connection)
    ensures forall k | 0 <= k < |Without(connections, c)| ::
              Without(connections, c)[k] in connections && Without(connections, c)[k] != c
    ensures forall k | 0 <= k < |connections| && connections[k] != c :: connections[k] in Without(connections, c)
    ensures OneEach(connections) ==> OneEach(Without(connections, c))
  {
    if connections == [] {
    } else {
      var front, last := connections[..|connections| - 1], connections[|connections| - 1];
      WithoutListed(front, c);
      assert connections == front + [last];
    }
  }

  /** The first match in a prefix is the first match. */
  lemma {:induction false} FoundStays(ports: seq<S.Port>, n: nat, username: seq<Byte>)
    requires n <= |ports| && S.FindPort(ports[..n], username).Some?
    ensures S.FindPort(ports, username) == S.FindPort(ports[..n], username)
    decreases |ports|
  {
    if n < |ports| {
      var front := ports[..|ports| - 1];
      assert front[..n] == ports[..n];
      FoundStays(front, n, username);
    } else {
      assert ports[..n] == ports;
    }
  }
}
