/** Heartbeat pacing and detection over whole runs of a running timer. */
module Heartbeats {
  import opened Types
  import opened Lifecycle
  import opened CommonEvents

  /** What was counted between one tick and the next. */
  datatype Interval = Interval(receives: nat, sends: nat)

  function Started(timeout: nat): HeartbeatTimer {
    HeartbeatTimer(timeout, 0, 0, 0, false, false, false).Start().value
  }

  function Counted(h: HeartbeatTimer, x: Interval): HeartbeatTimer {
    h.(receiveCount := h.receiveCount + x.receives, sendCount := h.sendCount + x.sends)
  }

  /** The timer after one tick at the end of each interval. */
  function After(timeout: nat, xs: seq<Interval>): HeartbeatTimer {
    if xs == [] then Started(timeout) else Counted(After(timeout, xs[..|xs| - 1]), xs[|xs| - 1]).Tick()
  }

  /** What the last of those ticks asks for. */
  function Action(timeout: nat, xs: seq<Interval>): TickAction
    requires xs != []
  {
    Counted(After(timeout, xs[..|xs| - 1]), xs[|xs| - 1]).TickAction()
  }

  ghost predicate NoTimeoutBefore(timeout: nat, xs: seq<Interval>) {
    forall k | 0 < k < |xs| :: Action(timeout, xs[..k]) != ReceiveTimeout
  }

  /** The last `n` intervals counted no receive. */
  predicate SilentTail(xs: seq<Interval>, n: nat) {
    n <= |xs| && forall k | |xs| - n <= k < |xs| :: xs[k].receives == 0
  }

  /** How many intervals at the end counted no receive. */
  function Silence(xs: seq<Interval>): (n: nat)
    ensures n <= |xs|
  {
    if xs == [] || xs[|xs| - 1].receives != 0 then 0 else Silence(xs[..|xs| - 1]) + 1
  }

  lemma {:induction false} SilenceIsTail(xs: seq<Interval>, n: nat)
    ensures SilentTail(xs, n) <==> n <= Silence(xs)
  {
    if xs == [] || n == 0 {
    } else {
      SilenceIsTail(xs[..|xs| - 1], n - 1);
    }
  }

  lemma NoTimeoutPrefix(timeout: nat, xs: seq<Interval>)
    requires xs != [] && NoTimeoutBefore(timeout, xs)
    ensures NoTimeoutBefore(timeout, xs[..|xs| - 1])
  {
    var prefix := xs[..|xs| - 1];
    forall k | 0 < k < |prefix| ensures Action(timeout, prefix[..k]) != ReceiveTimeout {
      assert prefix[..k] == xs[..k];
    }
  }

  /** While no timeout has been reported, the timer has measured exactly the silence so far. */
  lemma {:induction false} TimerMeasuresSilence(timeout: nat, xs: seq<Interval>)
    requires timeout > 0 && NoTimeoutBefore(timeout, xs) && (xs != [] ==> Action(timeout, xs) != ReceiveTimeout)
    ensures After(timeout, xs) == Started(timeout).(noReceive := Silence(xs))
  {
    if xs == [] {
    } else {
      var prefix := xs[..|xs| - 1];
      NoTimeoutPrefix(timeout, xs);
      TimerMeasuresSilence(timeout, prefix);
    }
  }

  /** A timeout is reported exactly at the first tick that completes `timeout` consecutive silent intervals. */
  lemma TimeoutExact(timeout: nat, xs: seq<Interval>)
    requires timeout > 0 && xs != [] && NoTimeoutBefore(timeout, xs)
    ensures Action(timeout, xs) == ReceiveTimeout <==> SilentTail(xs, timeout)
  {
    NoTimeoutPrefix(timeout, xs);
    TimerMeasuresSilence(timeout, xs[..|xs| - 1]);
    SilenceIsTail(xs, timeout);
  }

  /** As long as the timer runs, every interval holds a counted send or ends in a requested heartbeat. */
  lemma SendOrHeartbeat(timeout: nat, xs: seq<Interval>)
    requires timeout > 0 && xs != [] && NoTimeoutBefore(timeout, xs) && Action(timeout, xs) != ReceiveTimeout
    ensures Action(timeout, xs) == SendHeartbeat <==> xs[|xs| - 1].sends == 0
  {
  }

  /** No tick so far has reported a timeout. */
  predicate NoTimeoutYet(timeout: nat, xs: seq<Interval>) {
    xs == [] || (NoTimeoutYet(timeout, xs[..|xs| - 1]) && Action(timeout, xs) != ReceiveTimeout)
  }

  lemma {:induction false} NoTimeoutInPrefixes(timeout: nat, xs: seq<Interval>)
    requires NoTimeoutYet(timeout, xs)
    ensures forall k | 0 < k <= |xs| :: Action(timeout, xs[..k]) != ReceiveTimeout
  {
    if xs == [] {
    } else {
      var front := xs[..|xs| - 1];
      NoTimeoutInPrefixes(timeout, front);
      forall k | 0 < k <= |xs| ensures Action(timeout, xs[..k]) != ReceiveTimeout {
        assert xs[..k] == if k == |xs| then xs else front[..k];
      }
    }
  }

  /** Between ticks the timer's send count is the sends since the last one. */
  lemma SendsSinceTick(timeout: nat, done: seq<Interval>, open: Interval)
    requires timeout > 0 && NoTimeoutYet(timeout, done)
    ensures Counted(After(timeout, done), open).sendCount == open.sends
  {
    NoTimeoutInPrefixes(timeout, done);
    assert done[..|done|] == done;
    TimerMeasuresSilence(timeout, done);
  }

  // ---------------------------------------------------------------------
  // The timer of a connection

  /** What an event means to it: nothing, a tick, or so many packets heard and sent. */
  datatype Signal = NoSignal | TickSignal | CountSignal(receives: nat, sends: nat)

  /** What was heard and sent between the ticks so far, and since the last one. */
  datatype Beat = Beat(done: seq<Interval>, open: Interval)

  const FIRST_BEAT := Beat([], Interval(0, 0))

  function NextBeat(b: Beat, x: Signal): Beat {
    match x
    case NoSignal => b
    case TickSignal => Beat(b.done + [b.open], Interval(0, 0))
    case CountSignal(receives, sends) => b.(open := Interval(b.open.receives + receives, b.open.sends + sends))
  }

  function BeatOf(xs: seq<Signal>): Beat {
    if xs == [] then FIRST_BEAT else NextBeat(BeatOf(xs[..|xs| - 1]), xs[|xs| - 1])
  }

  /** A login may still come. */
  predicate MayLogIn(c: Conn) { c.state.state in {Connecting, Connected} || c.socket.connectPending }

  /** From its login on, a connection's timer is this one after those intervals. */
  predicate Beats(timeout: nat, c: Conn, b: Beat) {
    && (MayLogIn(c) ==> b == FIRST_BEAT)
    && (c.state.state == LoggedIn ==>
          c.heartbeat == Counted(After(timeout, b.done), b.open) && NoTimeoutYet(timeout, b.done))
  }

  /** What an event does to the timer of a connection that it leaves open. */
  predicate GoesOn(timeout: nat, c: Conn, x: Signal, d: Conn) {
    && (MayLogIn(d) ==> MayLogIn(c) && x == NoSignal)
    && (d.state.state == LoggedIn ==>
          if c.state.state == LoggedIn then
            match x
            case NoSignal => false
            case TickSignal => !Silent(c) && d.heartbeat == c.heartbeat.Tick()
            case CountSignal(receives, sends) => d.heartbeat == Counted(c.heartbeat, Interval(receives, sends))
          else MayLogIn(c) && x == NoSignal && d.heartbeat == Started(timeout))
  }

  lemma TickBeats(timeout: nat, c: Conn, b: Beat)
    requires c.state.state == LoggedIn && Beats(timeout, c, b) && !Silent(c)
    ensures var done := b.done + [b.open];
            c.heartbeat.Tick() == Counted(After(timeout, done), Interval(0, 0)) && NoTimeoutYet(timeout, done)
  {
    var done := b.done + [b.open];
    assert done[..|done| - 1] == b.done;
    TickLooks(c);
  }

  lemma BeatGoesOn(timeout: nat, c: Conn, b: Beat, x: Signal, d: Conn)
    requires Beats(timeout, c, b) && GoesOn(timeout, c, x, d)
    ensures Beats(timeout, d, NextBeat(b, x))
  {
    if d.state.state == LoggedIn && x.TickSignal? {
      TickBeats(timeout, c, b);
    }
  }

  lemma BeatExtends(timeout: nat, c: Conn, d: Conn, xs: seq<Signal>, i: nat)
    requires i < |xs| && Beats(timeout, c, BeatOf(xs[..i])) && GoesOn(timeout, c, xs[i], d)
    ensures Beats(timeout, d, BeatOf(xs[..i + 1]))
  {
    assert xs[..i + 1][..i] == xs[..i];
    BeatGoesOn(timeout, c, BeatOf(xs[..i]), xs[i], d);
  }

  /** What a tick would ask for now, by the intervals alone. */
  lemma TickAsks(timeout: nat, c: Conn, b: Beat)
    requires timeout > 0 && c.state.state == LoggedIn && Beats(timeout, c, b)
    ensures Silent(c) <==> SilentTail(b.done + [b.open], timeout)
    ensures !Silent(c) ==> (Paces(c) <==> b.open.sends == 0)
  {
    var xs := b.done + [b.open];
    assert xs[..|xs| - 1] == b.done;
    NoTimeoutInPrefixes(timeout, b.done);
    forall k | 0 < k < |xs| ensures Action(timeout, xs[..k]) != ReceiveTimeout {
      assert xs[..k] == b.done[..k];
    }
    TimeoutExact(timeout, xs);
    SendsSinceTick(timeout, b.done, b.open);
    TickLooks(c);
  }

  // ---------------------------------------------------------------------
  // In real time: the timer starts at 0 and ticks at 1, 2, 3, ...

  function During(times: set<real>, k: nat): set<real> {
    set t | t in times && k as real < t <= k as real + 1.0
  }

  /** The intervals of a timer, from the times of its counted receives and sends. */
  function Intervals(receives: set<real>, sends: set<real>, n: nat): (xs: seq<Interval>)
    ensures |xs| == n
  {
    seq(n, k requires 0 <= k => Interval(|During(receives, k)|, |During(sends, k)|))
  }

  /** Something is transmitted at time t: a counted send, or a heartbeat requested by one of the first n ticks. */
  predicate Transmits(timeout: nat, receives: set<real>, sends: set<real>, n: nat, t: real) {
    || t in sends
    || exists k: nat | 0 < k <= n :: t == k as real && Action(timeout, Intervals(receives, sends, k)) == SendHeartbeat
  }

  /** The timer is still running after n ticks. */
  ghost predicate Running(timeout: nat, receives: set<real>, sends: set<real>, n: nat) {
    forall k: nat | 0 < k <= n :: Action(timeout, Intervals(receives, sends, k)) != ReceiveTimeout
  }

  lemma RunningHasNoTimeout(timeout: nat, receives: set<real>, sends: set<real>, n: nat, k: nat)
    requires Running(timeout, receives, sends, n) && k <= n + 1
    ensures NoTimeoutBefore(timeout, Intervals(receives, sends, k))
  {
    var xs := Intervals(receives, sends, k);
    forall j | 0 < j < |xs| ensures Action(timeout, xs[..j]) != ReceiveTimeout {
      assert xs[..j] == Intervals(receives, sends, j);
    }
  }

  /** In every interval between ticks something is transmitted. */
  lemma IntervalTransmits(timeout: nat, receives: set<real>, sends: set<real>, n: nat, k: nat) returns (t: real)
    requires timeout > 0 && Running(timeout, receives, sends, n) && k < n
    ensures k as real < t <= k as real + 1.0 && Transmits(timeout, receives, sends, n, t)
  {
    var xs := Intervals(receives, sends, k + 1);
    RunningHasNoTimeout(timeout, receives, sends, n, k + 1);
    SendOrHeartbeat(timeout, xs);
    if During(sends, k) != {} {
      t :| t in During(sends, k);
    } else {
      t := (k + 1) as real;
    }
  }

  /** Outgoing silence never reaches past two periods. */
  lemma SilenceBelowTwoPeriods(timeout: nat, receives: set<real>, sends: set<real>, n: nat, x: real) returns (t: real)
    requires timeout > 0 && Running(timeout, receives, sends, n)
    requires 0.0 <= x && x + 2.0 <= n as real
    ensures x < t <= x + 2.0 && Transmits(timeout, receives, sends, n, t)
  {
    var k := x.Floor + 1;
    t := IntervalTransmits(timeout, receives, sends, n, k);
  }

  /** The bound is not one period: a send just after the start keeps the line silent until the second tick. */
  lemma SilencePastOnePeriod(timeout: nat, early: real)
    requires timeout > 2 && 0.0 < early < 1.0
    ensures Running(timeout, {}, {early}, 2)
    ensures forall t | early < t < 2.0 :: !Transmits(timeout, {}, {early}, 2, t)
  {
    var one, two := Intervals({}, {early}, 1), Intervals({}, {early}, 2);
    assert During({early}, 0) == {early};
    assert one == [Interval(0, 1)];
    assert two[..1] == one && one[..0] == [];
    assert Action(timeout, one) == SendNothing;
    assert Action(timeout, two) != ReceiveTimeout;
  }

  // ---------------------------------------------------------------------
  // A paced peer over a line with varying delay

  /**
   * The receiving timer starts when the login reply arrives. A packet sent at u arrives at u + late(u) - slack on its
   * clock, where slack is how late that reply was itself. If the delays vary by less than the timeout minus two
   * periods, a running peer never lets the timeout be reached.
   */
  lemma PacedPeerIsHeard(
      peerTimeout: nat, peerReceives: set<real>, peerSends: set<real>,
      timeout: nat, receives: set<real>, late: real -> real, slack: real, n: nat)
    requires peerTimeout > 0 && timeout > 2 && Running(peerTimeout, peerReceives, peerSends, n)
    requires 0.0 <= slack < timeout as real - 2.0
    requires forall u :: 0.0 <= late(u) < timeout as real - 2.0
    requires forall u | 0.0 < u && Transmits(peerTimeout, peerReceives, peerSends, n, u) ::
               u + late(u) - slack in receives
    ensures Running(timeout, receives, {}, n)
  {
    forall k: nat | 0 < k <= n ensures Action(timeout, Intervals(receives, {}, k)) != ReceiveTimeout {
      NotSilent(peerTimeout, peerReceives, peerSends, timeout, receives, late, slack, n, k);
    }
  }

  lemma {:induction false} NotSilent(
      peerTimeout: nat, peerReceives: set<real>, peerSends: set<real>,
      timeout: nat, receives: set<real>, late: real -> real, slack: real, n: nat, k: nat)
    requires peerTimeout > 0 && timeout > 2 && Running(peerTimeout, peerReceives, peerSends, n)
    requires 0.0 <= slack < timeout as real - 2.0
    requires forall u :: 0.0 <= late(u) < timeout as real - 2.0
    requires forall u | 0.0 < u && Transmits(peerTimeout, peerReceives, peerSends, n, u) ::
               u + late(u) - slack in receives
    requires 0 < k <= n
    ensures Action(timeout, Intervals(receives, {}, k)) != ReceiveTimeout
    decreases k
  {
    var xs := Intervals(receives, {}, k);
    forall j | 0 < j < k ensures Action(timeout, xs[..j]) != ReceiveTimeout {
      NotSilent(peerTimeout, peerReceives, peerSends, timeout, receives, late, slack, n, j);
      assert xs[..j] == Intervals(receives, {}, j);
    }
    TimeoutExact(timeout, xs);
    if k >= timeout {
      var w := (k - timeout) as real;
      var u := SilenceBelowTwoPeriods(peerTimeout, peerReceives, peerSends, n, w + slack);
      var arrival := u + late(u) - slack;
      assert w < arrival < k as real;
      var j := HeardDuring(receives, arrival);
      assert k - timeout <= j < k && xs[j].receives > 0;
    }
  }

  /** An arrival is counted in the interval it falls in. */
  lemma HeardDuring(receives: set<real>, arrival: real) returns (j: nat)
    requires arrival in receives && arrival > 0.0
    ensures j as real < arrival <= j as real + 1.0 && |During(receives, j)| > 0
  {
    j := if arrival == arrival.Floor as real then arrival.Floor - 1 else arrival.Floor;
    assert arrival in During(receives, j);
  }
}
