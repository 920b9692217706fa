/** The objects a TCP connection is made of, each changing its fields in place as Lifecycle says. */
module LoopObjects {
  import opened Types
  import opened RwPackets
  import L = Lifecycle

  /** The completions and posted callbacks outstanding for one connection. */
  class EventLoop {
    var tasks: L.Tasks

    constructor ()
      ensures tasks == L.NO_TASKS
    {
      tasks := L.NO_TASKS;
    }

    method Start(t: L.Task)
      modifies this
      ensures tasks == old(tasks).Add(Some(t))
    {
      tasks := tasks.Set(t, tasks.Has(t) + 1);
    }

    method Take(t: L.Task)
      requires tasks.Has(t) > 0
      modifies this
      ensures tasks == old(tasks).Take(t)
    {
      tasks := tasks.Set(t, tasks.Has(t) - 1);
    }
  }

  class ConnectionState {
    var state: L.State
    var reason: DisconnectReason

    constructor (state: L.State)
      ensures Value() == L.ConnState(state, NoReason)
    {
      this.state, reason := state, NoReason;
    }

    function Value(): L.ConnState
      reads this
    {
      L.ConnState(state, reason)
    }

    predicate IsClosing()
      reads this
    {
      state == L.Disconnecting || state == L.Disconnected
    }

    method SetState(next: L.State)
      modifies this
      ensures Value() == old(Value()).(state := next)
    {
      state := next;
    }

    method InitiateDisconnect(pending: DisconnectReason) returns (changed: bool)
      modifies this
      ensures Value() == old(Value()).InitiateDisconnect(pending)
      ensures changed == !old(IsClosing())
    {
      if IsClosing() {
        return false;
      }
      state, reason := L.Disconnecting, pending;
      changed := true;
    }

    method Disconnect(observed: DisconnectReason) returns (changed: bool)
      modifies this
      ensures Value() == old(Value()).Disconnect(observed)
      ensures changed == (old(state) != L.Disconnected)
    {
      if state == L.Disconnected {
        return false;
      }
      state := L.Disconnected;
      if reason == NoReason {
        reason := observed;
      }
      changed := true;
    }
  }

  class LoginTimer {
    const loop: EventLoop
    var started: bool
    var waitPending: bool
    var stoppedSignaled: bool

    constructor (loop: EventLoop)
      ensures this.loop == loop && Value() == L.LoginTimer(false, false, false)
    {
      this.loop := loop;
      started, waitPending, stoppedSignaled := false, false, false;
    }

    function Value(): L.LoginTimer
      reads this
    {
      L.LoginTimer(started, waitPending, stoppedSignaled)
    }

    method Start()
      modifies this, loop
      ensures var e := old(Value()).Start(); Value() == e.value && loop.tasks == old(loop.tasks).Add(e.started)
    {
      if started {
        return;
      }
      started := true;
      waitPending := true;
      loop.Start(L.LoginWait);
    }

    method Stop()
      modifies this, loop
      ensures var e := old(Value()).Stop(); Value() == e.value && loop.tasks == old(loop.tasks).Add(e.started)
    {
      if !started {
        return;
      }
      started := false;
      MaybeSignalStopped();
    }

    method MaybeSignalStopped()
      modifies this, loop
      ensures var e := old(Value()).MaybeSignalStopped();
              Value() == e.value && loop.tasks == old(loop.tasks).Add(e.started)
    {
      if !started && !stoppedSignaled && !waitPending {
        stoppedSignaled := true;
        loop.Start(L.LoginStoppedPost);
      }
    }
  }

  class HeartbeatTimer {
    const loop: EventLoop
    const timeout: nat
    var noReceivePeriod: nat
    var receiveCount: nat
    var sendCount: nat
    var started: bool
    var waitPending: bool
    var stoppedSignaled: bool

    constructor (loop: EventLoop, timeout: nat)
      ensures this.loop == loop && Value() == L.HeartbeatTimer(timeout, 0, 0, 0, false, false, false)
    {
      this.loop, this.timeout := loop, timeout;
      noReceivePeriod, receiveCount, sendCount := 0, 0, 0;
      started, waitPending, stoppedSignaled := false, false, false;
    }

    function Value(): L.HeartbeatTimer
      reads this
    {
      L.HeartbeatTimer(timeout, noReceivePeriod, receiveCount, sendCount, started, waitPending, stoppedSignaled)
    }

    method Start()
      modifies this, loop
      ensures var e := old(Value()).Start(); Value() == e.value && loop.tasks == old(loop.tasks).Add(e.started)
    {
      if started {
        return;
      }
      started := true;
      Schedule();
    }

    method Stop()
      modifies this, loop
      ensures var e := old(Value()).Stop(); Value() == e.value && loop.tasks == old(loop.tasks).Add(e.started)
    {
      if !started {
        return;
      }
      started := false;
      MaybeSignalStopped();
    }

    method Schedule()
      modifies this, loop
      ensures var e := old(Value()).Schedule(); Value() == e.value && loop.tasks == old(loop.tasks).Add(e.started)
    {
      waitPending := true;
      loop.Start(L.HeartbeatWait);
    }

    method MaybeSignalStopped()
      modifies this, loop
      ensures var e := old(Value()).MaybeSignalStopped();
              Value() == e.value && loop.tasks == old(loop.tasks).Add(e.started)
    {
      if !started && !stoppedSignaled && !waitPending {
        stoppedSignaled := true;
        loop.Start(L.HeartbeatStoppedPost);
      }
    }

    /** The accounting of one expiry, and the handler call it leads to. */
    method Tick() returns (action: L.TickAction)
      modifies this
      ensures Value() == old(Value()).Tick() && action == old(Value()).TickAction()
    {
      if receiveCount == 0 {
        noReceivePeriod := noReceivePeriod + HEARTBEAT_PERIOD;
        if noReceivePeriod >= timeout {
          return L.ReceiveTimeout;
        }
      } else {
        noReceivePeriod := 0;
        receiveCount := 0;
      }
      if sendCount == 0 {
        return L.SendHeartbeat;
      }
      sendCount := 0;
      action := L.SendNothing;
    }
  }

  class Socket {
    const loop: EventLoop
    var writePackets: seq<Packet>
    var writePacketsLimit: nat
    var writeBufferWasFull: bool
    var connectPending: bool
    var readPending: bool
    var writePending: bool
    var closing: bool
    var closedSignaled: bool

    constructor (loop: EventLoop, limit: nat)
      ensures this.loop == loop && Value() == L.Socket([], limit, false, false, false, false, false, false)
    {
      this.loop := loop;
      writePackets, writePacketsLimit, writeBufferWasFull := [], limit, false;
      connectPending, readPending, writePending, closing, closedSignaled := false, false, false, false, false;
    }

    function Value(): L.Socket
      reads this
    {
      L.Socket(writePackets, writePacketsLimit, writeBufferWasFull, connectPending, readPending, writePending, closing,
               closedSignaled)
    }

    method Close()
      modifies this, loop
      ensures var e := old(Value()).Close(); Value() == e.value && loop.tasks == old(loop.tasks).Add(e.started)
    {
      closing := true;
      MaybeSignalClosed();
    }

    method AsyncConnect()
      modifies this, loop
      ensures var e := old(Value()).AsyncConnect(); Value() == e.value && loop.tasks == old(loop.tasks).Add(e.started)
    {
      if closing {
        return;
      }
      connectPending := true;
      loop.Start(L.ConnectWait);
    }

    method AsyncRead()
      modifies this, loop
      ensures var e := old(Value()).AsyncRead(); Value() == e.value && loop.tasks == old(loop.tasks).Add(e.started)
    {
      if closing {
        return;
      }
      readPending := true;
      loop.Start(L.HeaderRead);
    }

    method ReadPayload()
      modifies this, loop
      ensures var e := old(Value()).ReadPayload(); Value() == e.value && loop.tasks == old(loop.tasks).Add(e.started)
    {
      readPending := true;
      loop.Start(L.PayloadRead);
    }

    method AsyncWrite(packet: Packet) returns (error: WriteError)
      modifies this, loop
      ensures var e := old(Value()).AsyncWrite(packet);
              Value() == e.value && loop.tasks == old(loop.tasks).Add(e.started)
      ensures error == old(Value()).AsyncWriteError()
    {
      if closing {
        return WriteDisconnected;
      }
      var size := |writePackets|;
      if size == writePacketsLimit {
        writeBufferWasFull := true;
        return BufferFull;
      }
      writePackets := writePackets + [packet];
      if size == 0 {
        WriteFront();
      }
      error := NoWriteError;
    }

    method WriteFront()
      modifies this, loop
      ensures var e := old(Value()).WriteFront(); Value() == e.value && loop.tasks == old(loop.tasks).Add(e.started)
    {
      writePending := true;
      loop.Start(L.PacketWrite);
    }

    /** The front packet has been written; `drained` says whether write_buffer_empty is signalled. */
    method PopFront() returns (drained: bool)
      requires writePackets != []
      modifies this, loop
      ensures var e := old(Value()).PopFront(); Value() == e.value && loop.tasks == old(loop.tasks).Add(e.started)
      ensures drained == old(Value()).SignalsBufferEmpty()
    {
      writePackets := writePackets[1..];
      if writePackets != [] {
        WriteFront();
        drained := false;
      } else {
        drained := writeBufferWasFull;
        writeBufferWasFull := false;
      }
    }

    method MaybeSignalClosed()
      modifies this, loop
      ensures var e := old(Value()).MaybeSignalClosed();
              Value() == e.value && loop.tasks == old(loop.tasks).Add(e.started)
    {
      if closing && !closedSignaled && !connectPending && !readPending && !writePending {
        closedSignaled := true;
        loop.Start(L.ClosedPost);
      }
    }
  }
}
