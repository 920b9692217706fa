/** One login exchange through the packet codec: what each end holds when it is over. */
module LoginAgreement {
  import opened Types
  import opened Packing
  import opened LogicalPackets
  import opened ClientSession
  import S = ServerSession

  datatype Outcome =
    | RejectedByServer(reason: S.LoginRejectReason)
    | DroppedByClient(verdict: DisconnectReason)
    | Agreed(conn: Connection, client: Client, portNumber: nat)

  function Overheard(request: LoginRequest): LoginRequest
    requires request.nextSequenceNumber < TWO_TO_THE_64
  {
    ReadLoginRequest(FRESH_LOGIN_REQUEST, LoginRequestPayload(request))
  }

  function Returned(response: LoginAccepted): LoginAccepted
    requires response.nextSequenceNumber < TWO_TO_THE_64
  {
    ReadLoginAccepted(FRESH_LOGIN_ACCEPTED, LoginAcceptedPayload(response))
  }

  predicate NumbersFit(conn: Connection, a: S.Acceptor) {
    && conn.nextSequenceNumber < TWO_TO_THE_64
    && forall i | 0 <= i < |a.ports| :: a.ports[i].nextSequenceNumber < TWO_TO_THE_64
  }

  /** The request is written, read and answered by the server; the answer is written, read and judged by the client. */
  function Handshake(conn: Connection, client: Client, a: S.Acceptor): Outcome
    requires NumbersFit(conn, a)
  {
    var request := Overheard(RequestOf(conn));
    match S.Answer(a, request)
    case LoginRejected(reason) => RejectedByServer(reason)
    case LoginOk(response) =>
      var reply := Returned(response);
      if LoginVerdict(conn, client, reply) != NoReason then DroppedByClient(LoginVerdict(conn, client, reply))
      else
        Agreed(LoggedInConnection(conn, client, reply), LoggedInClient(conn, client, reply),
               response.nextSequenceNumber)
  }

  /** Configured as both ends require: the validated fields, with the credentials of port p. */
  predicate Matching(conn: Connection, a: S.Acceptor, p: nat) {
    && ValidLoginRequest(RequestOf(conn)) && ValidField(a.session, SESSION_LENGTH)
    && S.FindPort(a.ports, conn.username) == Some(p) && a.ports[p].password == conn.password
  }

  predicate SessionAllows(conn: Connection, a: S.Acceptor) { conn.session == [] || conn.session == a.session }

  /** Written and read, the exchange is the one between the two ends' own values. */
  lemma CodecTransparent(conn: Connection, a: S.Acceptor, number: nat)
    requires NumbersFit(conn, a) && ValidLoginRequest(RequestOf(conn)) && ValidField(a.session, SESSION_LENGTH)
    requires number < TWO_TO_THE_64
    ensures Overheard(RequestOf(conn)) == RequestOf(conn)
    ensures Returned(LoginAccepted(a.session, number)) == LoginAccepted(a.session, number)
  {
    LoginRequestRoundTrip(RequestOf(conn));
    LoginAcceptedRoundTrip(LoginAccepted(a.session, number));
  }

  /**
   * Asking for n > 0 at a port whose next number is p, the client accepts exactly when n <= p and it asked for no
   * session or the server's; then both ends hold n. Otherwise the server refuses the session, or the number is too low:
   * a mismatched session or a number too high cannot be seen.
   */
  lemma AgreementOnNumber(conn: Connection, client: Client, a: S.Acceptor, p: nat)
    requires NumbersFit(conn, a) && Matching(conn, a, p) && conn.nextSequenceNumber > 0
    ensures var o, n := Handshake(conn, client, a), conn.nextSequenceNumber;
            && (o.Agreed? <==> n <= a.ports[p].nextSequenceNumber && SessionAllows(conn, a))
            && (o.Agreed? ==>
                  && o.conn.nextSequenceNumber == o.portNumber == n && o.conn.session == a.session && o.client == client
                  && S.Rewound(a.ports[p], RequestOf(conn)) == n)
            && (o.RejectedByServer? <==> !SessionAllows(conn, a))
            && (o.RejectedByServer? ==> o.reason == S.SessionNotAvailable)
            && (o.DroppedByClient? ==> o.verdict == SequenceNumberTooLow)
  {
    CodecTransparent(conn, a, S.Rewound(a.ports[p], RequestOf(conn)));
  }

  /**
   * Asking for 0, the client is given p: it accepts exactly when its session is allowed and it holds no number yet or
   * one not below p, and then both ends hold p; otherwise the port is ahead of the session.
   */
  lemma AgreementFromZero(conn: Connection, client: Client, a: S.Acceptor, p: nat)
    requires NumbersFit(conn, a) && Matching(conn, a, p) && conn.nextSequenceNumber == 0
    ensures var o, next := Handshake(conn, client, a), a.ports[p].nextSequenceNumber;
            && (o.Agreed? <==>
                  SessionAllows(conn, a) && (client.nextSequenceNumber == 0 || next <= client.nextSequenceNumber))
            && (o.Agreed? ==>
                  && o.conn.nextSequenceNumber == o.portNumber == next && o.conn.session == a.session
                  && o.client.nextSequenceNumber
                     == (if client.nextSequenceNumber == 0 then next else client.nextSequenceNumber))
            && (o.RejectedByServer? <==> !SessionAllows(conn, a))
            && (o.DroppedByClient? ==> o.verdict == SequenceNumberAheadOfSession)
  {
    CodecTransparent(conn, a, a.ports[p].nextSequenceNumber);
  }

  /** Credentials that are no port's are refused, and the reason says which of the two was wrong. */
  lemma WrongCredentials(conn: Connection, client: Client, a: S.Acceptor)
    requires NumbersFit(conn, a) && ValidLoginRequest(RequestOf(conn)) && ValidField(a.session, SESSION_LENGTH)
    requires S.UniqueUsernames(a.ports)
    ensures Handshake(conn, client, a) == RejectedByServer(S.UserNotFound)
       <==> forall i | 0 <= i < |a.ports| :: a.ports[i].username != conn.username
    ensures Handshake(conn, client, a) == RejectedByServer(S.IncorrectPassword)
       <==> exists i | 0 <= i < |a.ports| ::
              a.ports[i].username == conn.username && a.ports[i].password != conn.password
  {
    CodecTransparent(conn, a, 0);
  }
}
