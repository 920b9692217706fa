# SoupBinTCP, modelled and proved in Dafny

Both ends of a SoupBinTCP 3.00 session: clients that arbitrate redundant connections, servers with ports, the
event-loop life of one TCP connection, the packet codec and framing, and the file store.

Four layers:

1. **Session and numbers.** `ServerSession` and `ClientSession` are the operations of acceptor, port, client and
   connection as functions on values. `Session` puts any number of clients, connections, servers and ports together as
   one transition system with FIFO streams and an inductive invariant; `SessionRuns` and `SessionEvents` state what
   holds in every run, and `Conformance` that the two ends' state machines fit. `LoginAgreement` takes one login
   through the packet codec.
2. **Life of a TCP connection.** `Lifecycle` holds the shared parts (socket, timers, state, three-way join) with a
   count of every completion and posted callback outstanding; `ServerLifecycle` and `ClientLifecycle` prove teardown
   safe and terminating over all runs. `WriteQueue` and `Heartbeats` treat the socket's queue and the heartbeat timer
   alone. `CommonEvents`, `ServerEvents` and `ClientEvents` say of each event what cause it gives, what it hands to
   the queue and what it counts, without reference to the handlers, and what that comes to over runs. `Refinement`
   joins this layer to the first: each event at either end of a connection is a step of the session, or nothing to it,
   with the acceptor's and the owning connection's real answers in the place of the parameters.
3. **Objects.** `LoopObjects`, `ServerTcpConnection`, `ClientTcpConnection`, `ServerObjects` and `ClientObjects` are
   the classes of the program, changing their fields in place. Every method equates the new state with the function of
   the layers above applied to the old one; `Run` of the two `TcpConnection` classes takes an object through any
   sequence of events. The methods `Handle` dispatches to, and those of `LoopObjects`, have no rows of their own
   below.
4. **Bytes.** `Packing`, `LogicalPackets`, `RwPackets` and `FileStore` work in place on arrays and on a file whose
   reads and writes may be short, and are proved against sequences of bytes, packets and messages.

Claims one would expect that are false of the code, with their exact conditions:

- A server connection is reported closed with nothing outstanding in every run in which no reject is queued behind
  another packet (`ServerLifecycle.TeardownSafeInRun`). All runs are such exactly when there is no debug banner or no
  room for two packets (`ServerLifecycle.TeardownSafe`); `RejectBehindBannerBreaks` is a run that is not. Reported at
  most once, with the first cause, it is in every run of every configuration (`ServerLifecycle.ClosedAtMostOnce`).
- A closing server connection always finishes exactly when the write limit is at least 1
  (`ServerLifecycle.TeardownFinishes`).
- The reply to a login is never refused by a full queue exactly when the limit is at least 1, or 2 with a banner
  (`ServerLifecycle.ReplyFitsExactly`). A client that was refused its reply finds the next packet but debug text a
  protocol violation, and no other client ever finds one (`Conformance.ClientViolatedExactly`).
- Packets come back from a stream exactly when their payloads are below 65535 bytes (`RwPackets.FramingRoundTrip`).
  The file store's index is right exactly when the messages its last opening scanned are below 65536
  (`FileStore.IndexAgreement`).
- A client connection's state moves only forward, except exactly at a connect that succeeds after close
  (`ClientLifecycle.StepMoves`).
- Outgoing silence reaches past one heartbeat period but never past two (`Heartbeats.SilencePastOnePeriod`,
  `Heartbeats.SilenceBelowTwoPeriods`).

## Model

| member | source | states |
|---|---|---|
| `SessionRuns.ApplicationLog` | src/client/client.cpp:184-191 | in every run, if what a client is sent agrees on content per number, its application log is exactly the messages from its first number (the configured one unless 0) to its next, each once, in order |
| `SessionRuns.LogGrows` | src/client/client.cpp:184-191 | a client's log is only ever extended, its number never falls, and its first number never changes once it has one |
| `SessionRuns.InferredNumbers` | src/client/connection.cpp:195-199 | the client's assertion cannot fail: no logged-in connection has counted past its client, and the number it infers for a message is the one the port assigned |
| `SessionRuns.NumbersConserved` | src/server/port.cpp:26-51 | while a login is live and its reply was not refused, the number the client holds, or the one in the reply still on its way, plus the messages queued or in transit is the port's next number |
| `SessionRuns.EndCounts` | src/client/connection.cpp:195-199 | what a client expects after a stream is its number plus one per message in it |
| `SessionRuns.ReplyCounts` | src/server/port.cpp:75-99 | before the login reply is read exactly one reply is in the stream, and its number plus the messages after it is the port's |
| `SessionRuns.RefusedInRun` | src/server/tcp_connection.cpp:166-183 | a reply is missing only where that run's queue refused it |
| `SessionRuns.NeverRefusedSo` | src/client/connection.cpp:173-193 | against these servers no connection of any run is ever dropped for a mismatched session or a number too high |
| `SessionRuns.OneLoginPerPort` | src/server/acceptor.cpp:127-152 | in every run a logged-in connection is its port's current one, port links are to listed connections, and each connection accepted is either listed or was reported once, with a reason |
| `SessionRuns.RunKeepsNotices` | src/server/acceptor.cpp:144-152 | in every run the notices are about different connections, all accepted and none of them listed |
| `SessionRuns.SessionEndReachesClient` | src/client/connection.cpp:201-206 | in every run a connection whose session has ended belongs to a client whose session has ended |
| `SessionRuns.RunKeepsInv` | src/client/connection.cpp:167-199 | every state of every run satisfies the system invariant |
| `SessionRuns.LinksMove` | src/connection_state.cpp:7-26 | in every run every step moves a TCP connection's state forward, the first cause kept |
| `SessionEvents.ConnectAsks` | src/client/connection.cpp:167-171 | in every run, when a connect succeeds the connection has its client's number, and a request for it with the connection's credentials is all that is on the link, or nothing if it had no room |
| `SessionEvents.PortNumberMoves` | src/server/port.cpp:26-51 | in every run a port's number changes only by one more at a message sent, or down at a login to exactly the number it asked for |
| `SessionEvents.MessageSent` | src/server/port.cpp:26-51 | a message a logged-in connection takes goes out last on its link under the port's number, and the port moves to the next |
| `SessionEvents.OtherSendsLook` | src/socket.cpp:82-94 | what else either end sends goes last on its stream |
| `SessionEvents.StartStopLooks` | src/client/client.cpp:46-75 | starting and stopping set the flag and nothing else yet |
| `SessionEvents.ConnectingLooks` | src/client/connection.cpp:87-96 | a connect or a retry opens one new link to the connection's acceptor and leaves no retry armed |
| `SessionEvents.AcceptingLooks` | src/server/acceptor.cpp:29-40 | an accepted link is served by a connection yet to log in, at no port |
| `SessionEvents.ClosingLooks` | src/client/connection.cpp:98-103 | closing disarms a connection and resets its delay, its number and session kept |
| `SessionEvents.DropsLook` | src/connection_state.cpp:19-26 | a drop at either end keeps an earlier reason |
| `SessionEvents.ClosedLooks` | src/client/connection.cpp:208-216 | a closed TCP connection is let go, and retried exactly for five reasons while its client runs |
| `SessionEvents.SessionEndSent` | src/server/port.cpp:101-109 | ending a port's session puts the end of session last on its logged-in connection's link |
| `SessionEvents.SessionEndsOnce` | src/server/port.cpp:101-109 | and doing so again does nothing |
| `SessionEvents.EndDelivered` | src/client/connection.cpp:201-206 | reading it ends the session of connection and client, and changes nothing else of them |
| `SessionEvents.ConnectionEndsExactly` | src/client/connection.cpp:201-206 | in every run a connection's session has ended exactly if it has read an end of session |
| `SessionEvents.ClientEndsExactly` | src/client/client.cpp:193-198 | in every run a client's session has ended exactly if one of its connections has read one, or it was set up so |
| `Conformance.ClientViolatedExactly` | src/client/tcp_connection.cpp:134-242 | in every run, with any supersedes, reconnects and session ends, what a client reads is a protocol violation exactly when its login reply was refused and the packet is not debug text |
| `Conformance.RefusedReplyViolates` | src/server/tcp_connection.cpp:166-176 | a concrete run in which it is |
| `Conformance.ClientNeverViolated` | src/client/tcp_connection.cpp:134-242 | in every run in which the replies to its logins found room, no packet a server sent is a protocol violation where the client reads it |
| `Conformance.ServerNeverViolated` | src/server/tcp_connection.cpp:122-218 | nor is any packet a client sent where the server reads it |
| `Conformance.ClientExpects` | src/client/tcp_connection.cpp:160-221 | unless the reply was refused: one reply before the login, none after, a number in it, and no message once the session's end is known |
| `Conformance.ServerExpects` | src/server/tcp_connection.cpp:150-218 | a request is read exactly before the login |
| `Conformance.StepConforms` | src/server/port.cpp:101-109 | every step keeps the order of the streams, and what a connection knows of its session's end is true of its port |
| `Conformance.OwnPort` | src/server/acceptor.cpp:131-135 | the port a connection is logged in at is the one its username finds |
| `Session.StepKeeps` | src/client/connection.cpp:167-199 | connecting, logging in, sending, delivering, dropping, closing and reconnecting each keep the system invariant |
| `Session.LoginBelowClient` | src/client/connection.cpp:173-193 | every accepting branch of a login, the start at 0 included, leaves the connection's number at or below the client's |
| `Session.DataLink` | src/client/connection.cpp:195-199 | a delivered message carries the port's number for it, and counting it keeps the link's agreement |
| `Session.LoginLink` | src/client/connection.cpp:173-193 | reading the reply keeps the link's agreement with the number it brings |
| `Session.SentViews` | src/server/port.cpp:26-51 | a message sent moves only the view of the port's own connection, by one |
| `Session.LoginViews` | src/server/port.cpp:75-99 | a login shows its connection the number it answers with, and ends at most the view of the one it supersedes |
| `Session.StreamFirst` | src/client/tcp_connection.cpp:211-221 | consuming a stream from the front agrees with extending it at the back |
| `Session.ReplyFits` | src/server/port.cpp:75-99 | the reply to the request on an open link never carries a number above the requested one or another session |
| `LoginAgreement.AgreementOnNumber` | src/server/port.cpp:75-99 | through the codec, a request for n > 0 is accepted exactly when n is at most the port's number and the session is none or the server's; then both ends hold n, and otherwise the reason is exact |
| `LoginAgreement.AgreementFromZero` | src/client/connection.cpp:173-193 | a request for 0 is accepted exactly when the session is allowed and the client holds no number or one not below the port's; then both hold the port's |
| `LoginAgreement.WrongCredentials` | src/server/acceptor.cpp:127-142 | unknown user and wrong password are told apart exactly |
| `LoginAgreement.CodecTransparent` | src/logical_packets.cpp:64-91 | valid requests and replies arrive as they were sent |
| `ServerSession.SingleLiveLogin` | src/server/port.cpp:88-92 | two connections logged in at one port are the same connection |
| `ServerSession.LoginKeeps` | src/server/port.cpp:75-99 | accepting (with supersede and rewind) or rejecting a login keeps the acceptor's invariant |
| `ServerSession.AcceptedNumber` | src/server/port.cpp:75-99 | an accepted login for n at a port with p leaves port and reply with n if 0 < n < p and with p otherwise, and changes nothing else of the ports but the link |
| `ServerSession.SendErrorExact` | src/server/port.cpp:62-69 | each answer to a message given exactly when it is due |
| `ServerSession.SupersededKeeps` | src/server/port.cpp:88-89 | superseding disconnects the port's previous connection and touches no other |
| `ServerSession.ClosedKeeps` | src/server/port.cpp:111-114 | a close, however late, clears no port link but the connection's own, and is noticed once, with its reason, to the port's handler if it ever logged in |
| `ServerSession.AddPortKeeps` | src/server/acceptor.cpp:65-78 | adding ports keeps usernames unique |
| `ServerSession.AddedPortTakesLogin` | src/server/acceptor.cpp:65-78 | an added port takes a login with its own credentials, at number 1, and refuses any other password |
| `ServerSession.EndSessionByPorts` | src/server/acceptor.cpp:116-119 | ending the session is ending it at each port in turn |
| `ServerSession.StopKeeps` | src/server/acceptor.cpp:121-125 | stopping keeps the acceptor's invariant |
| `ServerSession.StopDisconnects` | src/server/acceptor.cpp:121-125 | and leaves every connection disconnected, for the user unless there was an earlier reason |
| `ServerSession.FindPort` | src/server/acceptor.cpp:131-135 | finds a port with the username exactly when there is one |
| `ClientSession.ReconnectSafety` | src/reconnect_timer.cpp:9-50 | in every run: no live TCP connection beside an armed timer; a wait fires only for the latest start; delays without a login are 0, 1, 2, 4, 8, 16, 30, 30, ... |
| `ClientSession.RetryExact` | src/client/connection.cpp:208-216 | after any run, a close arms the timer exactly when the client runs and the cause is one of five, with the next back-off delay |
| `ClientSession.BackOffStep` | src/client/connection.cpp:143-152 | one scheduled retry moves the delay one place along the back-off sequence |
| `ClientSession.ConnectsExactly` | src/client/connection.cpp:87-96 | after any run, a connect call connects exactly a running client's connection without TCP connection or armed retry; a start does so for it |
| `ClientSession.RetriesExactly` | src/reconnect_timer.cpp:22-50 | after any run, a wait that ends connects exactly if it is the one the timer is armed for and did not fail |
| `ClientSession.ClosingDisarms` | src/client/connection.cpp:98-103 | after any run, closing or stopping leaves no retry armed, no later wait heeded, and the delay reset |
| `ClientSession.LoginStartsOver` | src/client/connection.cpp:189-191 | after any run, a login taken resets the delay |
| `ClientSession.VerdictExact` | src/client/connection.cpp:173-193 | each verdict on a login reply given exactly when it is due, the session checked first |
| `ClientSession.LoginTaken` | src/client/connection.cpp:173-193 | what a reply that is taken changes at connection and client |
| `Refinement.ClientRefines` | src/client/tcp_connection.cpp:38-242 | each event of a client's TCP connection, answered by its owner, is a session step that leaves the link in the same state, or nothing to the session; a connect that succeeds after close excepted |
| `Refinement.OthersLeaveClient` | src/client/connection.cpp:87-103 | no other step of the session touches it |
| `Refinement.OpenedIsClientEnd` | src/client/connection.cpp:87-96 | a new link's client end is a TCP connection just opened |
| `Refinement.ServerRefines` | src/server/tcp_connection.cpp:42-218 | each event of an accepted connection, login requests answered by its acceptor, is a session step that leaves the connection in the same state, or nothing to the session; replies have room as its queue has |
| `Refinement.OthersLeaveServer` | src/server/port.cpp:88-92 | no other step touches it, except that a login of another connection at its port is its supersede call |
| `Refinement.AcceptedIsServerEnd` | src/server/acceptor.cpp:29-40 | an accepted link's server end is a connection just accepted |
| `Refinement.ServerReadsClient` | src/logical_packets.cpp:64-91 | the server reads a client's request, data, heartbeat and debug packets as what they are |
| `Refinement.ClientReadsServer` | src/logical_packets.cpp:14-33 | the client reads a server's reply, message, heartbeat, end of session and debug packets as what they are |
| `Refinement.RetriedByFirstCause` | src/client/connection.cpp:208-216 | a TCP connection is reported for the first cause an event gave it, and then retried exactly when its client runs and that cause is one of five |
| `Refinement.LoginTimeoutRetried` | src/client/tcp_connection.cpp:106-108 | in particular a login not answered in time |
| `ServerLifecycle.TeardownSafe` | src/server/tcp_connection.cpp:237-254 | all runs of a configuration report closed at most once, with nothing outstanding and the first cause, if and only if no reject can be queued behind a banner |
| `ServerLifecycle.ClosedAtMostOnce` | src/server/tcp_connection.cpp:246-254 | in every run of every configuration on_closed happens at most once, with the first cause and nothing outstanding but writes |
| `ServerLifecycle.TeardownSafeInRun` | src/server/tcp_connection.cpp:237-254 | and with nothing at all outstanding in any run in which a reject is alone in the queue whenever it waits there |
| `ServerLifecycle.RejectedReportsIt` | src/server/tcp_connection.cpp:73-76 | a connection whose login was rejected is reported, if ever, as denied access |
| `ServerLifecycle.ReplyFitsExactly` | src/server/tcp_connection.cpp:166-183 | in every run a connection yet to log in has room for the reply, if and only if the limit is at least 1, or 2 with a banner |
| `ServerLifecycle.RejectBehindBannerBreaks` | src/socket.cpp:210-230 | the run in which the banner's completion closes the socket and the reject's write outlives the connection |
| `ServerLifecycle.StepKeepsInv` | src/server/tcp_connection.cpp:42-118 | every completion, posted callback and call keeps the connection's invariant, unless a graceful close completes with a packet still queued |
| `ServerLifecycle.StepKeepsInvExactly` | src/socket.cpp:210-230 | and such a completion always breaks it |
| `ServerLifecycle.StepKeepsSound` | src/server/tcp_connection.cpp:42-118 | every event in every configuration keeps the connection sound: its invariant, but for writes outstanding after its socket signalled closed |
| `ServerLifecycle.OtherDrops` | src/server/tcp_connection.cpp:42-118 | an event that brings no packet disconnects at most, and one that reports the connection closed leaves its state alone |
| `ServerLifecycle.ReadMoves` | src/server/tcp_connection.cpp:122-218 | a packet moves the state by its type, length and the state, and a login request by the acceptor's answer |
| `ServerLifecycle.RunKeepsInv` | src/server/tcp_connection.cpp:18-32 | so does every run without such a completion |
| `ServerLifecycle.StateMovesForward` | src/connection_state.cpp:7-26 | over any run the state only moves forward, in every configuration |
| `ServerLifecycle.DrainingTerminates` | src/socket.cpp:130-241 | in every configuration, from disconnecting or disconnected, completions are bounded by a measure of queue, read phase, waits and posts, whatever re-arms |
| `ServerLifecycle.DrainingHasTask` | src/server/tcp_connection.cpp:175-183 | with room for a packet, a rejected login always has a write outstanding |
| `ServerLifecycle.TeardownFinishes` | src/server/tcp_connection.cpp:237-258 | no run leaves a closing connection unreported with nothing to run, if and only if the write limit is at least 1, whatever the banner |
| `ServerLifecycle.NoRoomToFinish` | src/socket.cpp:82-94 | with limit 0, the run in which a rejected login never closes |
| `ServerEvents.OnlyExpected` | src/server/tcp_connection.cpp:122-218 | the packets that are no error in each state, by type and layout |
| `ServerEvents.StepDoes` | src/server/tcp_connection.cpp:42-118 | what any event adds to the causes and to the write queue, and to the heartbeat counters of a connection that stays logged in |
| `ServerEvents.ReportsFirstCause` | src/server/tcp_connection.cpp:237-254 | in every run the reason kept, and reported if any, is the cause of the first event that gives one: timeouts, silence, end of stream, failed or aborted operations, bad packets, calls |
| `ServerEvents.NoCauseNoReport` | src/server/tcp_connection.cpp:237-254 | and until then the connection is neither closing nor reported |
| `ServerEvents.AlwaysWatched` | src/server/tcp_connection.cpp:42-118 | in every run a connection yet to log in has the login wait outstanding, one logged in the heartbeat wait, and an open one exactly one read |
| `ServerEvents.RunBeats` | src/heartbeat_timer.cpp:52-79 | in every run the heartbeat timer of a logged-in connection is that of Heartbeats, fed with the packets it heard and the data its queue took between ticks |
| `ServerEvents.TickLaw` | src/server/tcp_connection.cpp:108-115 | so it is dropped at a tick exactly after fifteen intervals without a packet heard, and otherwise hands over a heartbeat exactly when the last had no data sent |
| `ClientLifecycle.TeardownSafe` | src/client/tcp_connection.cpp:261-276 | on_closed happens at most once, with nothing outstanding, reporting the first cause, for every limit and even after a late connect |
| `ClientLifecycle.StepKeepsInv` | src/client/tcp_connection.cpp:38-132 | every event of a client's TCP connection keeps its invariant |
| `ClientLifecycle.TeardownTerminates` | src/socket.cpp:130-241 | from a closed socket, completions are bounded by the measure |
| `ClientLifecycle.TeardownFinishes` | src/client/tcp_connection.cpp:270-276 | a closing connection with nothing left to run has been reported, with its first cause |
| `ClientLifecycle.RequestFitsExactly` | src/client/tcp_connection.cpp:42-57 | in every run the login request finds room if and only if the limit is at least 1 |
| `ClientLifecycle.OtherDrops` | src/client/tcp_connection.cpp:38-132 | an event that brings no packet and no connect disconnects at most |
| `ClientLifecycle.ReadMoves` | src/client/tcp_connection.cpp:134-242 | a packet moves the state by its type, length, the state and its owner's answer |
| `ClientLifecycle.StepMoves` | src/client/tcp_connection.cpp:42-57 | each event moves the state forward with the first cause kept, except exactly a connect that succeeds on a disconnected connection |
| `ClientLifecycle.StateMovesForward` | src/connection_state.cpp:7-26 | over any run without one the state only moves forward |
| `ClientLifecycle.LateConnect` | src/client/tcp_connection.cpp:42-57 | a connect that succeeds on a closed socket arms only the login timer |
| `ClientEvents.OnlyExpected` | src/client/tcp_connection.cpp:134-242 | the packets that are no error in each state, by type and layout |
| `ClientEvents.StepDoes` | src/client/tcp_connection.cpp:38-132 | what any event adds to the causes and to the write queue, and to the heartbeat counters of a connection that stays logged in |
| `ClientEvents.ReportsFirstCause` | src/client/tcp_connection.cpp:261-276 | in every run the reason kept, and reported if any, is the cause of the first event that gives one: timeouts, silence, end of stream, failed or aborted operations, bad packets, calls |
| `ClientEvents.FailedOpenReports` | src/client/tcp_connection.cpp:15-36 | one whose socket could not be opened is reported as a connect failure, if at all |
| `ClientEvents.NoCauseNoReport` | src/client/tcp_connection.cpp:261-276 | and until then the connection is neither closing nor reported |
| `ClientEvents.AlwaysWatched` | src/client/tcp_connection.cpp:38-132 | in every run a connection yet to log in has the login wait outstanding, one logged in the heartbeat wait, and an open one exactly one read |
| `ClientEvents.RunBeats` | src/heartbeat_timer.cpp:52-79 | in every run the heartbeat timer of a logged-in connection is that of Heartbeats, fed with the packets it heard and the data its queue took between ticks |
| `ClientEvents.TickLaw` | src/client/tcp_connection.cpp:120-127 | so it is dropped at a tick exactly after five intervals without a packet heard, and otherwise hands over a heartbeat exactly when the last had no data sent |
| `Lifecycle.JoinFindsNothing` | src/server/tcp_connection.cpp:246-254 | the join reports only when all three parts have stopped, and then no task is outstanding |
| `Lifecycle.WriteDoneKeeps` | src/socket.cpp:196-230 | a write completion keeps socket, timers and tasks in agreement, unless a graceful close meets a second queued packet |
| `Lifecycle.TickKeeps` | src/heartbeat_timer.cpp:52-79 | a tick, whichever handler it calls and whether it re-arms or not, leaves every part settled |
| `Lifecycle.WriteLowers` | src/socket.cpp:210-230 | a write completion lowers the teardown measure even when it starts the next write |
| `Lifecycle.DisconnectLowers` | src/server/tcp_connection.cpp:237-244 | disconnecting never raises it |
| `CommonEvents.WriteGives` | src/socket.cpp:196-230 | the causes a write completion gives, and the queue it leaves |
| `CommonEvents.LoginWaitGives` | src/login_timer.cpp:20-49 | a running login timer's wait gives login timeout, or transport error if it failed |
| `CommonEvents.HeartbeatWaitGives` | src/heartbeat_timer.cpp:45-79 | a running heartbeat timer's wait gives heartbeat timeout exactly on completed silence, and otherwise hands over a heartbeat exactly when nothing was sent since the last tick |
| `WriteQueue.QueueRefinement` | src/socket.cpp:196-230 | in every run packets reach the transport once each in the order accepted, the limit holds, one write is outstanding exactly when the queue is nonempty until close, and buffer-empty fires exactly at the first drain after a refusal |
| `Heartbeats.TimeoutExact` | src/heartbeat_timer.cpp:52-79 | a timeout is reported exactly at the first tick that completes the timeout in consecutive silent periods |
| `Heartbeats.SendOrHeartbeat` | src/heartbeat_timer.cpp:71-74 | a period without a counted send ends in a requested heartbeat, and only such a one |
| `Heartbeats.TimerMeasuresSilence` | src/heartbeat_timer.cpp:61-69 | the timer's counter is the length of the silence so far |
| `Heartbeats.TickAsks` | src/heartbeat_timer.cpp:52-79 | what a connection's next tick asks for follows from its intervals alone |
| `Heartbeats.SilenceBelowTwoPeriods` | src/heartbeat_timer.cpp:71-78 | within any two periods of real time something is sent |
| `Heartbeats.SilencePastOnePeriod` | src/heartbeat_timer.cpp:71-78 | one period is not enough |
| `Heartbeats.PacedPeerIsHeard` | src/client/tcp_connection.cpp:120-127 | a peer so paced never lets the timeout be reached while delays vary by less than the timeout minus two periods |
| `ServerTcpConnection.TcpConnection.constructor` | src/server/tcp_connection.cpp:18-32 | login timer and first read started |
| `ServerTcpConnection.TcpConnection.Handle` | src/server/tcp_connection.cpp:42-118 | on any event, in every configuration, the object takes the step of ServerLifecycle and stays sound, gets the cause and the queue that event gives, and stays read from and timed |
| `ServerTcpConnection.TcpConnection.Run` | src/server/tcp_connection.cpp:18-118 | an object taken through any events reports at most once, with the cause of the first event that gives one, is always read from and timed while open, is never stuck with a limit of at least 1, and once closing runs no more completions than its measure |
| `ClientTcpConnection.TcpConnection.constructor` | src/client/tcp_connection.cpp:15-36 | opened and connecting, or failed at once |
| `ClientTcpConnection.TcpConnection.Handle` | src/client/tcp_connection.cpp:38-132 | on any event the object takes the step of ClientLifecycle and keeps its invariant, gets the cause and the queue that event gives, and stays read from and timed |
| `ClientTcpConnection.TcpConnection.Run` | src/client/tcp_connection.cpp:15-132 | an object taken through any events reports at most once, with the cause of the first event that gives one and nothing outstanding, is always read from and timed while open, has reported when closing with nothing to run, and once closing runs no more completions than its measure |
| `ServerObjects.Port.OnLoginRequest` | src/server/port.cpp:75-99 | refuses, or supersedes, links both ways and goes back to the number asked for if it has passed it, replying with its number |
| `ServerObjects.Port.SendMessage` | src/server/port.cpp:26-51 | argument errors first; a number is used up exactly when the connection takes the message; the packet it is handed |
| `ServerObjects.Port.EndSession` | src/server/port.cpp:101-109 | the session ends, and the connection is handed one End of Session packet the first time only |
| `ServerObjects.Port.OnClosed` | src/server/port.cpp:111-114 | forgets only the connection that closed |
| `ServerObjects.Acceptor.FindPort` | src/server/acceptor.cpp:131-135 | the search loop finds the first port with the username |
| `ServerObjects.Acceptor.AddPort` | src/server/acceptor.cpp:65-78 | adds a port exactly when both fields are valid and the username is free |
| `ServerObjects.Acceptor.OnAccept` | src/server/acceptor.cpp:29-40 | a new connection under a new name, handed the debug banner if there is one |
| `ServerObjects.Acceptor.OnLoginRequest` | src/server/acceptor.cpp:127-142 | objects and links end as ServerSession's login says, with its answer |
| `ServerObjects.Acceptor.SignalClosed` | src/server/tcp_connection.cpp:246-254 | the port is told first, then the connection leaves the list |
| `ServerObjects.Acceptor.OnClosed` | src/server/acceptor.cpp:144-152 | exactly that connection leaves the list, and one notice is given |
| `ServerObjects.Acceptor.EndSession` | src/server/acceptor.cpp:116-119 | every port's session ends; exactly the connections of ports whose session was on are handed one End of Session packet |
| `ServerObjects.Acceptor.Stop` | src/server/acceptor.cpp:121-125 | every connection is disconnected by the user, nothing else changes |
| `ServerObjects.Acceptor.SendMessage` | src/server/port.cpp:62-69 | the error and the new numbers are ServerSession's; the packet the port's connection is handed |
| `ServerObjects.Acceptor.OnlyItsPort` | src/server/port.cpp:111-114 | only the port a connection points to can point to it |
| `ServerObjects.WithoutListed` | src/server/acceptor.cpp:146-147 | removal keeps everything but the one connection, and no duplicates arise |
| `ClientObjects.ReconnectTimer.Start` | src/reconnect_timer.cpp:9-27 | a new epoch for a new wait |
| `ClientObjects.ReconnectTimer.Stop` | src/reconnect_timer.cpp:29-38 | disarms |
| `ClientObjects.ReconnectTimer.OnWait` | src/reconnect_timer.cpp:22-50 | heeds only a wait of the current epoch while armed |
| `ClientObjects.Connection.OnConnectSuccess` | src/client/connection.cpp:167-171 | takes the client's number and asks for it with its credentials |
| `ClientObjects.Connection.OnLoginSuccess` | src/client/connection.cpp:173-193 | verdict, connection and client are ClientSession's in every branch |
| `ClientObjects.Connection.OnSequencedData` | src/client/connection.cpp:195-199 | counts the message and passes it on under its number, to the application if it is new |
| `ClientObjects.Connection.OnEndOfSession` | src/client/connection.cpp:201-206 | ends its own session and the client's, whose application is told once, the first time |
| `ClientObjects.Connection.OnClosed` | src/client/connection.cpp:208-216 | retry scheduled exactly when running and retryable, after the current delay |
| `ClientObjects.Connection.ScheduleReconnect` | src/client/connection.cpp:143-152 | the next delay and the armed timer |
| `ClientObjects.Connection.Connect` | src/client/connection.cpp:87-96 | connects exactly when running, unconnected and not waiting to retry |
| `ClientObjects.Connection.Close` | src/client/connection.cpp:98-103 | disconnects, disarms and resets the delay to 0 |
| `ClientObjects.Connection.SendPacket` | src/client/connection.cpp:154-161 | the exact answer, and the packet offered unless the session ended |
| `ClientObjects.AnswerTells` | src/client/tcp_connection.cpp:278-287 | a packet is queued last exactly if the answer is no error, which is exactly when the connection is logged in and open with room |
| `ClientObjects.Client.OnSequencedData` | src/client/client.cpp:184-191 | passes on exactly what is new; that callers meet its assertion is SessionRuns.InferredNumbers |
| `ClientObjects.Client.OnEndOfSession` | src/client/client.cpp:193-198 | the session ends, and the application is told the first time only |
| `ClientObjects.Client.AddConnection` | src/client/client.cpp:108-117 | one connection per endpoint |
| `ClientObjects.Client.Start` | src/client/client.cpp:46-64 | connects every connection that has no TCP connection and no armed retry, once |
| `ClientObjects.Client.Stop` | src/client/client.cpp:66-75 | closes and disarms every connection |
| `ClientObjects.Client.SendMessage` | src/client/client.cpp:77-96 | argument errors first, then the fan-out of one unsequenced packet, its size narrowed to 16 bits |
| `ClientObjects.Client.SendPacket` | src/client/client.cpp:119-128 | every connection is offered an identical packet and the best answer is returned, whichever of the three paths runs |
| `ClientObjects.Client.SendOne` | src/client/client.cpp:130-134 | one connection's answer is the best |
| `ClientObjects.Client.SendTwo` | src/client/client.cpp:151-161 | both connections get the packet or its clone |
| `ClientObjects.Client.SendMultiple` | src/client/client.cpp:163-182 | all connections get the packet or a clone; none at all means disconnected |
| `ClientObjects.PriorityIsBest` | src/client/client.cpp:138-149 | the priority chain gives a best answer exactly when there is none to give or not every connection answered session ended |
| `Packing.PackRightPadded` | src/packing.cpp:16-27 | writes the truncated alphanumeric prefix and spaces, and nothing outside its area |
| `Packing.UnpackRightPadded` | src/packing.cpp:29-36 | the longest alphanumeric prefix, in front of what the string held |
| `Packing.RightPaddedRoundTrip` | src/packing.cpp:16-36 | pack then unpack is an idempotent normalisation, and the identity exactly on valid fields |
| `Packing.AlnumPrefixIsLongest` | src/packing.cpp:32-34 | the prefix ends at the first other character |
| `Packing.PackLeftPadded` | src/packing.cpp:60-72 | writes spaces and the alphanumeric suffix, and nothing outside its area |
| `Packing.UnpackLeftPadded` | src/packing.cpp:74-81 | the longest alphanumeric suffix, in front of what the string held |
| `Packing.LeftPaddedRoundTrip` | src/packing.cpp:60-81 | pack then unpack is an idempotent normalisation, and the identity exactly on valid fields |
| `Packing.AlnumSuffixIsLongest` | src/packing.cpp:77-79 | the suffix starts after the last other character |
| `Packing.PackSequenceNumber` | src/packing.cpp:97-113 | the digit loop writes the decimal notation right-aligned in 20 bytes |
| `Packing.UnpackSequenceNumber` | src/packing.cpp:115-128 | on any 20 bytes, the value of the longest trailing digit run modulo 2^64 |
| `Packing.SequenceNumberRoundTrip` | src/packing.cpp:97-128 | unpacking a packed 64-bit number gives it back |
| `Packing.SequenceNumberLayout` | src/packing.cpp:97-113 | spaces, then digits, with a leading zero only for 0 |
| `Packing.TwentyDigitsSuffice` | src/packing.cpp:97-100 | every 64-bit number fits 20 digits |
| `Packing.DigitSuffixIsLongest` | src/packing.cpp:120-122 | the digit run starts after the last other character |
| `Packing.RightPaddedBytes` | src/packing.cpp:16-27 | a valid string, then ASCII spaces |
| `Packing.LeftPaddedBytes` | src/packing.cpp:60-72 | ASCII spaces, then a valid string |
| `Packing.SequenceNumberBytes` | src/packing.cpp:97-113 | the decimal digits of the number, ones last, behind ASCII spaces |
| `LogicalPackets.WriteLoginAcceptedTo` | src/logical_packets.cpp:25-33 | writes its 30 bytes and no others |
| `LogicalPackets.ReadLoginAcceptedFrom` | src/logical_packets.cpp:14-23 | reads its 30 bytes |
| `LogicalPackets.LoginAcceptedRoundTrip` | src/logical_packets.cpp:14-33 | a reply survives exactly when its session is valid, and otherwise arrives normalised |
| `LogicalPackets.LoginAcceptedBytes` | src/logical_packets.cpp:25-33 | which bytes of the payload hold session and number |
| `LogicalPackets.WriteLoginRequestTo` | src/logical_packets.cpp:79-91 | writes its 46 bytes and no others |
| `LogicalPackets.ReadLoginRequestFrom` | src/logical_packets.cpp:64-77 | reads its 46 bytes |
| `LogicalPackets.LoginRequestRoundTrip` | src/logical_packets.cpp:64-91 | a request survives exactly when its fields are valid, and otherwise arrives normalised |
| `LogicalPackets.LoginRequestBytes` | src/logical_packets.cpp:79-91 | which bytes of the payload hold username, password, session and number |
| `RwPackets.WritePacket.constructor` | src/rw_packets.cpp:68-83 | header and payload laid out in the buffer |
| `RwPackets.WritePacket.Clone` | src/rw_packets.cpp:85-89 | a fresh buffer with the same bytes |
| `RwPackets.WritePacket.ResizePayload` | src/rw_packets.cpp:97-104 | rewrites the size exactly when it fits the capacity |
| `RwPackets.ShrunkOnWire` | src/rw_packets.cpp:97-104 | a shrunk packet sends what a packet made with the kept bytes sends |
| `RwPackets.WireBytes` | src/rw_packets.cpp:68-83 | size with the type counted and the high byte first, type, payload |
| `RwPackets.NarrowedFits` | src/rw_packets.cpp:68-83 | data of any length is carried up to its length modulo 65536 |
| `RwPackets.ReadPacket.ResizePayload` | src/rw_packets.cpp:57-66 | malformed, empty or resized by the size field |
| `RwPackets.ReadOne` | src/socket.cpp:116-194 | header then payload gives the first packet of the stream |
| `RwPackets.ReadAll` | src/socket.cpp:116-194 | the reader's loop gives the packets of the stream |
| `RwPackets.FramingRoundTrip` | src/socket.cpp:116-194 | written one after another, all packets are read back with nothing left over, exactly when every payload is below 65535 bytes |
| `RwPackets.ReadWrapped` | src/rw_packets.cpp:70-75 | what a payload too long for the size field is read back as |
| `FileStore.ReadPartial` | include/bc/soup/file_store.h:41-55 | for every script of short reads, bytes land once, in order, in place; the count is what moved; success means all |
| `FileStore.WritePartial` | include/bc/soup/file_store.h:57-70 | the same for writes, which zero results can only delay finitely often |
| `FileStore.FileStore.Open` | src/file_store.cpp:76-88 | a fresh store that opens a file of messages that fit holds them and numbers the next; otherwise what the scan finds |
| `FileStore.FileStore.SetOffsets` | src/file_store.cpp:160-177 | the scanning loop finds what the scan of the bytes finds |
| `FileStore.FileStore.Add` | src/file_store.cpp:100-119 | a store that holds messages holds one more; in any case one record and its offset, or what a failure leaves |
| `FileStore.FileStore.ReadRecord` | src/file_store.cpp:179-199 | on any file, the record at the position, or none if the file does not hold all of it |
| `FileStore.FileStore.Get` | src/file_store.cpp:128-147 | exactly messages first to last, and exactly when the range is valid |
| `FileStore.FileStore.GetRange` | src/file_store.cpp:139-147 | the loop over the range |
| `FileStore.StoreAndReload` | src/file_store.cpp:76-147 | messages added to a new file are numbered and returned, range by range, by a fresh store that opens it |
| `FileStore.FileIsImage` | src/file_store.cpp:100-119 | after any run the file is the records of the messages in order |
| `FileStore.IndexAgreement` | src/file_store.cpp:100-119 | after any run of adds and reopens the file is the records in order, and the index their prefix sums exactly when every message scanned by the last reopening fits |
| `FileStore.ReopenAgreement` | src/file_store.cpp:76-88 | reopening after any run recovers the index exactly when every message fits |
| `FileStore.ScanImage` | src/file_store.cpp:160-177 | scanning written records finds their starts exactly when every message fits 16 bits |
| `FileStore.RecordAt` | src/file_store.cpp:179-199 | the record of message i stands at offset i |
| `FileStore.RecordBytes` | src/file_store.cpp:100-119 | size with the high byte first, then the message |

## Left out

- asio, sockets, system calls, clocks and executors are an environment that runs each outstanding completion once and
  posted callbacks in any order. Outcomes are free, except that an operation ends aborted only on a closed socket
  where the code relies on it (a server's write, a client's connect); branches for timer calls that throw are not
  modelled.
- Application handlers are calls that do not call back in; the code runs some of them in the middle of a transition.
- Session treats a connect that completes after its connection was closed as aborted; ClientLifecycle does not.
- Session keeps of a socket only its stream; whether a packet finds room is a parameter of the step that writes it,
  which Refinement.ServerRefines and Refinement.ClientRefines set from the socket's queue for login packets.
- Refinement maps an event given that the packet it reads is the link's next one; that bytes arrive in order and whole
  is TCP's, and RwPackets.ReadAll's.
- Starting and stopping a client set its flag in Session, and the connects and closes that follow are steps of their
  own.
- ServerObjects sees of a TCP connection its state, its port and the packets handed to it; whether its queue has room
  is a parameter. Its End of Session packet is a step per port in Session.
- ServerTcpConnection and ClientTcpConnection take the acceptor's and the owning connection's answers as parameters of
  the event; Refinement says which answers those are.
- ClientObjects owns its TCP connections by value, as states of ClientLifecycle.
- Setters called while running, and wrap-around of sequence numbers, epochs and packet counts, are not modelled;
  numbers are below 2^64 where they meet the codec.
- Ports start with a number of at least 1, as the constructor gives them.
- RwPackets.WritePacket takes sizes below 65536, as the 16-bit parameter of its constructor does; callers narrow them.
- Bytes outside ASCII are not alphanumeric, whatever the locale.
- The file's position and append-only end are modelled, not its modes, permissions or error codes; failing system
  calls are a flag of the environment, and a failed add or a second open of the same store is only described, not
  ruled out.
- Accept loop, listening socket, login-rejected packet codec, error categories, string tables, option parsing and the
  example programs are not part of this model.
