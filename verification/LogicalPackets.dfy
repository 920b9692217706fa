/** The login packets and their payload layouts. */
module LogicalPackets {
  import opened Types
  import opened Packing

  const LOGIN_ACCEPTED_SIZE: nat := SESSION_LENGTH + SEQUENCE_NUMBER_LENGTH
  const LOGIN_REQUEST_SIZE: nat := USERNAME_LENGTH + PASSWORD_LENGTH + SESSION_LENGTH + SEQUENCE_NUMBER_LENGTH

  datatype LoginAccepted = LoginAccepted(session: seq<Byte>, nextSequenceNumber: nat)

  datatype LoginRequest =
    LoginRequest(username: seq<Byte>, password: seq<Byte>, session: seq<Byte>, nextSequenceNumber: nat)

  /** The packets as their default constructors leave them. */
  const FRESH_LOGIN_ACCEPTED := LoginAccepted([], 1)
  const FRESH_LOGIN_REQUEST := LoginRequest([], [], [], 0)

  // ---------------------------------------------------------------------
  // Login Accepted

  function LoginAcceptedPayload(p: LoginAccepted): (r: seq<Byte>)
    requires p.nextSequenceNumber < TWO_TO_THE_64
    ensures |r| == LOGIN_ACCEPTED_SIZE
  {
    LeftPadded(p.session, SESSION_LENGTH) + SequenceNumberField(p.nextSequenceNumber)
  }

  /** Reading into a packet that already holds `before`: strings are unpacked in front of what is there. */
  function ReadLoginAccepted(before: LoginAccepted, payload: seq<Byte>): LoginAccepted
    requires |payload| == LOGIN_ACCEPTED_SIZE
  {
    LoginAccepted(AlnumSuffix(payload[..10]) + before.session, FieldNumber(payload[10..30]))
  }

  method WriteLoginAcceptedTo(p: LoginAccepted, data: array<Byte>, at: nat)
    requires p.nextSequenceNumber < TWO_TO_THE_64
    requires at + LOGIN_ACCEPTED_SIZE <= data.Length
    modifies data
    ensures data[..] == Spliced(old(data[..]), at, LoginAcceptedPayload(p))
  {
    var iter := at;
    PackLeftPadded(p.session, data, iter, SESSION_LENGTH);
    iter := iter + SESSION_LENGTH;
    PackSequenceNumber(p.nextSequenceNumber, data, iter);
    SplicedTwice(old(data[..]), at, LeftPadded(p.session, SESSION_LENGTH), SequenceNumberField(p.nextSequenceNumber));
  }

  method ReadLoginAcceptedFrom(before: LoginAccepted, data: array<Byte>, at: nat) returns (p: LoginAccepted)
    requires at + LOGIN_ACCEPTED_SIZE <= data.Length
    ensures p == ReadLoginAccepted(before, data[at..at + LOGIN_ACCEPTED_SIZE])
  {
    var iter := at;
    var session := UnpackLeftPadded(before.session, data, iter, SESSION_LENGTH);
    iter := iter + SESSION_LENGTH;
    var number := UnpackSequenceNumber(data, iter);
    p := LoginAccepted(session, number);
    ghost var payload := data[at..at + LOGIN_ACCEPTED_SIZE];
    assert payload[..10] == data[at..at + 10];
    assert payload[10..30] == data[at + 10..at + 30];
  }

  /** Reading a written packet gives its session normalised, so the packet itself exactly when the session is valid. */
  lemma LoginAcceptedRoundTrip(p: LoginAccepted)
    requires p.nextSequenceNumber < TWO_TO_THE_64
    ensures ReadLoginAccepted(FRESH_LOGIN_ACCEPTED, LoginAcceptedPayload(p))
         == LoginAccepted(NormalSuffix(p.session, SESSION_LENGTH), p.nextSequenceNumber)
    ensures ReadLoginAccepted(FRESH_LOGIN_ACCEPTED, LoginAcceptedPayload(p)) == p
       <==> ValidField(p.session, SESSION_LENGTH)
  {
    var payload := LoginAcceptedPayload(p);
    assert payload[..10] == LeftPadded(p.session, SESSION_LENGTH);
    assert payload[10..30] == SequenceNumberField(p.nextSequenceNumber);
    LeftPaddedRoundTrip(p.session, SESSION_LENGTH);
    SequenceNumberRoundTrip(p.nextSequenceNumber);
  }

  // ---------------------------------------------------------------------
  // Login Request

  function LoginRequestPayload(p: LoginRequest): (r: seq<Byte>)
    requires p.nextSequenceNumber < TWO_TO_THE_64
    ensures |r| == LOGIN_REQUEST_SIZE
  {
    RightPadded(p.username, USERNAME_LENGTH) + RightPadded(p.password, PASSWORD_LENGTH)
    + LeftPadded(p.session, SESSION_LENGTH) + SequenceNumberField(p.nextSequenceNumber)
  }

  function ReadLoginRequest(before: LoginRequest, payload: seq<Byte>): LoginRequest
    requires |payload| == LOGIN_REQUEST_SIZE
  {
    LoginRequest(AlnumPrefix(payload[..6]) + before.username, AlnumPrefix(payload[6..16]) + before.password,
                 AlnumSuffix(payload[16..26]) + before.session, FieldNumber(payload[26..46]))
  }

  method WriteLoginRequestTo(p: LoginRequest, data: array<Byte>, at: nat)
    requires p.nextSequenceNumber < TWO_TO_THE_64
    requires at + LOGIN_REQUEST_SIZE <= data.Length
    modifies data
    ensures data[..] == Spliced(old(data[..]), at, LoginRequestPayload(p))
  {
    ghost var was := data[..];
    ghost var username, password := RightPadded(p.username, USERNAME_LENGTH), RightPadded(p.password, PASSWORD_LENGTH);
    ghost var session := LeftPadded(p.session, SESSION_LENGTH);
    var iter := at;
    PackRightPadded(p.username, data, iter, USERNAME_LENGTH);
    iter := iter + USERNAME_LENGTH;
    PackRightPadded(p.password, data, iter, PASSWORD_LENGTH);
    SplicedTwice(was, at, username, password);
    iter := iter + PASSWORD_LENGTH;
    PackLeftPadded(p.session, data, iter, SESSION_LENGTH);
    SplicedTwice(was, at, username + password, session);
    iter := iter + SESSION_LENGTH;
    PackSequenceNumber(p.nextSequenceNumber, data, iter);
    SplicedTwice(was, at, username + password + session, SequenceNumberField(p.nextSequenceNumber));
  }

  method ReadLoginRequestFrom(before: LoginRequest, data: array<Byte>, at: nat) returns (p: LoginRequest)
    requires at + LOGIN_REQUEST_SIZE <= data.Length
    ensures p == ReadLoginRequest(before, data[at..at + LOGIN_REQUEST_SIZE])
  {
    var iter := at;
    var username := UnpackRightPadded(before.username, data, iter, USERNAME_LENGTH);
    iter := iter + USERNAME_LENGTH;
    var password := UnpackRightPadded(before.password, data, iter, PASSWORD_LENGTH);
    iter := iter + PASSWORD_LENGTH;
    var session := UnpackLeftPadded(before.session, data, iter, SESSION_LENGTH);
    iter := iter + SESSION_LENGTH;
    var number := UnpackSequenceNumber(data, iter);
    p := LoginRequest(username, password, session, number);
    ghost var payload := data[at..at + LOGIN_REQUEST_SIZE];
    assert payload[..6] == data[at..at + 6];
    assert payload[6..16] == data[at + 6..at + 16];
    assert payload[16..26] == data[at + 16..at + 26];
    assert payload[26..46] == data[at + 26..at + 46];
  }

  predicate ValidLoginRequest(p: LoginRequest) {
    && ValidField(p.username, USERNAME_LENGTH)
    && ValidField(p.password, PASSWORD_LENGTH)
    && ValidField(p.session, SESSION_LENGTH)
  }

  lemma LoginRequestAreas(p: LoginRequest)
    requires p.nextSequenceNumber < TWO_TO_THE_64
    ensures var payload := LoginRequestPayload(p);
            && payload[..6] == RightPadded(p.username, USERNAME_LENGTH)
            && payload[6..16] == RightPadded(p.password, PASSWORD_LENGTH)
            && payload[16..26] == LeftPadded(p.session, SESSION_LENGTH)
            && payload[26..46] == SequenceNumberField(p.nextSequenceNumber)
  {
  }

  lemma LoginRequestRoundTrip(p: LoginRequest)
    requires p.nextSequenceNumber < TWO_TO_THE_64
    ensures ReadLoginRequest(FRESH_LOGIN_REQUEST, LoginRequestPayload(p))
         == LoginRequest(NormalPrefix(p.username, USERNAME_LENGTH), NormalPrefix(p.password, PASSWORD_LENGTH),
                         NormalSuffix(p.session, SESSION_LENGTH), p.nextSequenceNumber)
    ensures ReadLoginRequest(FRESH_LOGIN_REQUEST, LoginRequestPayload(p)) == p <==> ValidLoginRequest(p)
  {
    LoginRequestAreas(p);
    RightPaddedRoundTrip(p.username, USERNAME_LENGTH);
    RightPaddedRoundTrip(p.password, PASSWORD_LENGTH);
    LeftPaddedRoundTrip(p.session, SESSION_LENGTH);
    SequenceNumberRoundTrip(p.nextSequenceNumber);
  }

  // ---------------------------------------------------------------------
  // The bytes of the login packets

  /** A valid reply: the session at the right of bytes 0 to 9, the number in bytes 10 to 29. */
  lemma LoginAcceptedBytes(p: LoginAccepted)
    requires ValidField(p.session, 10) && p.nextSequenceNumber < TWO_TO_THE_64
    ensures var payload := LoginAcceptedPayload(p);
            && |payload| == 30
            && (forall k | 0 <= k < 10 - |p.session| :: payload[k] == 32) && payload[10 - |p.session|..10] == p.session
            && payload[10..30] == SequenceNumberField(p.nextSequenceNumber)
  {
    var payload := LoginAcceptedPayload(p);
    LeftPaddedBytes(p.session, 10);
    assert payload[..10] == LeftPadded(p.session, 10);
    assert payload[10 - |p.session|..10] == payload[..10][10 - |p.session|..];
    forall k | 0 <= k < 10 - |p.session| ensures payload[k] == 32 {
      assert payload[k] == payload[..10][k];
    }
  }

  /**
   * A valid request: username at the left of bytes 0 to 5, password at the left of bytes 6 to 15, session at the right
   * of bytes 16 to 25, number in bytes 26 to 45.
   */
  lemma LoginRequestBytes(p: LoginRequest)
    requires ValidLoginRequest(p) && p.nextSequenceNumber < TWO_TO_THE_64
    ensures var payload := LoginRequestPayload(p);
            && |payload| == 46
            && payload[..|p.username|] == p.username && (forall k | |p.username| <= k < 6 :: payload[..6][k] == 32)
            && payload[6..6 + |p.password|] == p.password
            && (forall k | |p.password| <= k < 10 :: payload[6..16][k] == 32)
            && (forall k | 0 <= k < 10 - |p.session| :: payload[16..26][k] == 32)
            && payload[26 - |p.session|..26] == p.session
            && payload[26..46] == SequenceNumberField(p.nextSequenceNumber)
  {
    var payload := LoginRequestPayload(p);
    LoginRequestAreas(p);
    RightPaddedBytes(p.username, 6);
    RightPaddedBytes(p.password, 10);
    LeftPaddedBytes(p.session, 10);
    assert payload[..|p.username|] == payload[..6][..|p.username|];
    assert payload[6..6 + |p.password|] == payload[6..16][..|p.password|];
    assert payload[26 - |p.session|..26] == payload[16..26][10 - |p.session|..];
  }
}
