/** The write queue of a socket over whole runs: order, bound, and the buffer-empty signal. */
module WriteQueue {
  import opened Types
  import opened RwPackets
  import opened Lifecycle

  /** `closeFirst`: the handler of a successful write closes the socket before the queue moves on. */
  datatype Op =
    | Submit(p: Packet)
    | Complete(closeFirst: bool)
    | Fail
    | CloseOp

  /** What the application sees: writes taken or refused, and drains with whether they signalled an empty buffer. */
  datatype Mark = Taken | Refused | Drained(signalled: bool)

  /** A socket with what it accepted, what it has sent, what it has handed to the transport, and its marks. */
  datatype History =
    History(socket: Socket, accepted: seq<Packet>, sent: seq<Packet>, handed: seq<Packet>, marks: seq<Mark>)

  function Handed(e: Effect<Socket>): seq<Packet> {
    if e.started == Some(PacketWrite) && e.value.queue != [] then [e.value.queue[0]] else []
  }

  predicate Possible(h: History, op: Op) {
    op.Complete? || op.Fail? ==> h.socket.writePending && h.socket.queue != []
  }

  function Apply(h: History, op: Op): History
    requires Possible(h, op)
  {
    match op
    case Submit(p) =>
      var e := h.socket.AsyncWrite(p);
      h.(socket := e.value, handed := h.handed + Handed(e),
         accepted := if h.socket.AsyncWriteError() == NoWriteError then h.accepted + [p] else h.accepted,
         marks := match h.socket.AsyncWriteError()
           case NoWriteError => h.marks + [Taken]
           case BufferFull => h.marks + [Refused]
           case _ => h.marks)
    case Complete(closeFirst) =>
      var s := h.socket.(writePending := false);
      var t := if closeFirst then s.Close().value else s;
      var e := t.PopFront();
      h.(socket := e.value, sent := h.sent + [s.queue[0]], handed := h.handed + Handed(e),
         marks := if |s.queue| == 1 then h.marks + [Drained(t.SignalsBufferEmpty())] else h.marks)
    case Fail => h.(socket := h.socket.(writePending := false).Close().value)
    case CloseOp => h.(socket := h.socket.Close().value)
  }

  function Run(h: History, ops: seq<Op>): Option<History> {
    if ops == [] then Some(h)
    else
      match Run(h, ops[..|ops| - 1])
      case None => None
      case Some(g) => if Possible(g, ops[|ops| - 1]) then Some(Apply(g, ops[|ops| - 1])) else None
  }

  function Fresh(limit: nat): History {
    History(Socket([], limit, false, false, false, false, false, false), [], [], [], [])
  }

  // ---------------------------------------------------------------------

  predicate RefusedSinceDrain(marks: seq<Mark>) {
    marks != [] &&
    match marks[|marks| - 1]
    case Taken => RefusedSinceDrain(marks[..|marks| - 1])
    case Refused => true
    case Drained(_) => false
  }

  /** Each drain signals exactly when a write was refused since the drain before it. */
  predicate SignalsExactly(marks: seq<Mark>) {
    forall k | 0 <= k < |marks| && marks[k].Drained? :: marks[k].signalled <==> RefusedSinceDrain(marks[..k])
  }

  predicate QueueOk(h: History) {
    && h.accepted == h.sent + h.socket.queue
    && h.handed == h.sent + (if h.socket.queue == [] then [] else [h.socket.queue[0]])
    && |h.socket.queue| <= h.socket.limit
    && (h.socket.writePending ==> h.socket.queue != [])
    && (!h.socket.closing ==> (h.socket.writePending <==> h.socket.queue != []))
  }

  predicate SignalOk(h: History) {
    && SignalsExactly(h.marks)
    && (h.socket.wasFull <==> RefusedSinceDrain(h.marks))
    && (h.socket.wasFull && h.socket.limit >= 1 ==> h.socket.queue != [])
  }

  lemma SubmitKeepsQueue(h: History, p: Packet)
    requires QueueOk(h)
    ensures QueueOk(Apply(h, Submit(p)))
  {
  }

  /** Where a write that ends leaves the socket. */
  lemma CompleteLooks(h: History, closeFirst: bool)
    requires Possible(h, Complete(closeFirst))
    ensures var g, rest := Apply(h, Complete(closeFirst)), h.socket.queue[1..];
            && g.accepted == h.accepted && g.sent == h.sent + [h.socket.queue[0]]
            && g.socket.queue == rest && g.socket.writePending == (rest != []) && g.socket.limit == h.socket.limit
            && g.handed == h.handed + (if rest == [] then [] else [rest[0]])
            && (!g.socket.closing ==> !h.socket.closing)
  {
  }

  lemma CompleteKeepsQueue(h: History, closeFirst: bool)
    requires QueueOk(h) && Possible(h, Complete(closeFirst))
    ensures QueueOk(Apply(h, Complete(closeFirst)))
  {
    CompleteLooks(h, closeFirst);
    var first, rest := h.socket.queue[0], h.socket.queue[1..];
    assert h.socket.queue == [first] + rest;
    assert h.sent + ([first] + rest) == h.sent + [first] + rest;
  }

  lemma HandedIsPrefix(h: History)
    requires QueueOk(h)
    ensures h.handed <= h.accepted
  {
    if h.socket.queue != [] {
      assert h.accepted[|h.sent|] == h.socket.queue[0];
    }
  }

  lemma ApplyKeepsQueue(h: History, op: Op)
    requires QueueOk(h) && Possible(h, op)
    ensures QueueOk(Apply(h, op)) && Apply(h, op).socket.limit == h.socket.limit
  {
    match op
    case Submit(p) => SubmitKeepsQueue(h, p);
    case Complete(closeFirst) => CompleteKeepsQueue(h, closeFirst);
    case _ =>
  }

  lemma MarkAppended(marks: seq<Mark>, m: Mark)
    requires SignalsExactly(marks) && (m.Drained? ==> (m.signalled <==> RefusedSinceDrain(marks)))
    ensures SignalsExactly(marks + [m])
    ensures RefusedSinceDrain(marks + [m]) <==> m.Refused? || (m.Taken? && RefusedSinceDrain(marks))
  {
    assert forall k | 0 <= k <= |marks| :: (marks + [m])[..k] == marks[..k];
    assert marks[..|marks|] == marks;
  }

  lemma SubmitKeepsSignal(h: History, p: Packet)
    requires QueueOk(h) && SignalOk(h)
    ensures SignalOk(Apply(h, Submit(p)))
  {
    match h.socket.AsyncWriteError()
    case BufferFull => MarkAppended(h.marks, Refused);
    case NoWriteError => MarkAppended(h.marks, Taken);
    case _ =>
  }

  lemma CompleteKeepsSignal(h: History, closeFirst: bool)
    requires QueueOk(h) && SignalOk(h) && Possible(h, Complete(closeFirst))
    ensures SignalOk(Apply(h, Complete(closeFirst)))
  {
    if |h.socket.queue| == 1 {
      MarkAppended(h.marks, Drained(h.socket.wasFull));
    } else {
      assert h.socket.queue[1..] != [];
    }
  }

  lemma ApplyKeepsSignal(h: History, op: Op)
    requires QueueOk(h) && SignalOk(h) && Possible(h, op)
    ensures SignalOk(Apply(h, op))
  {
    match op
    case Submit(p) => SubmitKeepsSignal(h, p);
    case Complete(closeFirst) => CompleteKeepsSignal(h, closeFirst);
    case _ =>
  }

  /**
   * In every run: what the transport is given is a prefix, in order, of what was accepted; what was accepted is sent
   * or queued; the bound holds; until close one write is outstanding iff the queue is not empty; and the buffer-empty
   * signal is raised exactly at the first drain after a refusal, which is still to come while one is owed.
   */
  lemma {:induction false} QueueRefinement(ops: seq<Op>, limit: nat)
    ensures var r := Run(Fresh(limit), ops);
            r.Some? ==> QueueOk(r.value) && SignalOk(r.value) && r.value.handed <= r.value.accepted
                        && r.value.socket.limit == limit
    decreases |ops|
  {
    if ops == [] {
    } else {
      var before, op := ops[..|ops| - 1], ops[|ops| - 1];
      QueueRefinement(before, limit);
      var r := Run(Fresh(limit), before);
      if r.Some? && Possible(r.value, op) {
        ApplyKeepsQueue(r.value, op);
        ApplyKeepsSignal(r.value, op);
        HandedIsPrefix(Apply(r.value, op));
      }
    }
  }
}
