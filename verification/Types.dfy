/** The enumerations and constants shared by both ends of the session. */
module Types {

  datatype Option<+T> = None | Some(value: T)

  datatype DisconnectReason =
    | NoReason
    | UserInitiated
    | Superseded
    | LogoutRequested
    | PeerClosed
    | ConnectFailure
    | TransportError
    | LoginTimeout
    | HeartbeatTimeout
    | AccessDenied
    | SessionMismatch
    | SequenceNumberAheadOfSession
    | SequenceNumberTooLow
    | SequenceNumberTooHigh
    | ProtocolViolation
    | UnmanagedAbort

  datatype WriteError =
    | NoWriteError
    | EmptyBuffer
    | NullBuffer
    | SessionEnded
    | WriteDisconnected
    | NotLoggedIn
    | BufferFull

  datatype PacketError =
    | NoPacketError
    | MalformedHeader
    | InvalidMessageType
    | IncorrectLength
    | InvalidFieldValue
    | UnexpectedSequence

  /** One byte of a buffer; characters are their ASCII codes. */
  type Byte = x: int | 0 <= x < 256

  const TWO_TO_THE_16: int := 0x1_0000
  const TWO_TO_THE_64: int := 0x1_0000_0000_0000_0000

  const PACKET_SIZE_LENGTH: nat := 2
  const PACKET_TYPE_LENGTH: nat := 1
  const PACKET_HEADER_LENGTH: nat := 3

  const USERNAME_LENGTH: nat := 6
  const PASSWORD_LENGTH: nat := 10
  const SESSION_LENGTH: nat := 10
  const SEQUENCE_NUMBER_LENGTH: nat := 20

  // Durations are in seconds.
  const HEARTBEAT_PERIOD: nat := 1
  const CLIENT_HEARTBEAT_TIMEOUT: nat := 15
  const SERVER_HEARTBEAT_TIMEOUT: nat := 5

  const RECONNECT_INITIAL_DELAY: nat := 1
  const RECONNECT_MAX_DELAY: nat := 30
  const RECONNECT_DELAY_MULTIPLIER: nat := 2
}
