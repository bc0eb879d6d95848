/**
 * Model of object_database/tcp_server.py: the two ends of a database
 * connection, the background event loop's start, the client's connect/retry
 * loop and the server's liveness-sweep gate.
 *
 * Callbacks handed to the event loop (`call_soon_threadsafe`, `call_later`)
 * are recorded in the order they are submitted instead of being run; sockets,
 * the asyncio loop and threads are not modelled.
 */
module TcpServer {
  import opened Wrappers

  /** Messages a server sends; only the locally made `Disconnected` is told apart. */
  datatype ServerToClient = Disconnected | ServerMessage(id: nat)

  /** Messages a client sends; only `Heartbeat` is told apart. */
  datatype ClientToServer = Heartbeat | ClientMessage(id: nat)

  /** A message handler installed on a protocol object. */
  type HandlerId = nat

  /** The messages of a list of handler calls, in order. */
  function Messages<M>(calls: seq<(HandlerId, M)>): (ms: seq<M>)
    ensures |ms| == |calls| && forall i :: 0 <= i < |calls| ==> ms[i] == calls[i].1
  {
    seq(|calls|, i requires 0 <= i < |calls| => calls[i].1)
  }

  /** The handler calls that deliver `ms` to `h`, in order. */
  function Addressed<M>(h: HandlerId, ms: seq<M>): (calls: seq<(HandlerId, M)>)
    ensures Messages(calls) == ms
    ensures forall i :: 0 <= i < |calls| ==> calls[i].0 == h
  {
    seq(|ms|, i requires 0 <= i < |ms| => (h, ms[i]))
  }

  /** Server side of one client connection. */
  class ServerToClientProtocol {
    var handler: Option<HandlerId>
    var connectionIsDead: bool
    /** Messages handed to `sendMessage`, in order. */
    var sent: seq<ServerToClient>
    /** Handler calls made for received messages, in order. */
    var delivered: seq<(HandlerId, ClientToServer)>
    /** Whether the connection has been registered with the database server. */
    var registered: bool
    /** How many `completeDropConnection` callbacks have been scheduled. */
    var dropsScheduled: nat
    /** Whether the database server has been told to drop this connection. */
    var dropped: bool
    var transportClosed: bool

    constructor ()
      ensures handler.None? && !connectionIsDead && sent == [] && delivered == []
      ensures !registered && dropsScheduled == 0 && !dropped && !transportClosed
    {
      handler := None;
      connectionIsDead := false;
      sent := [];
      delivered := [];
      registered := false;
      dropsScheduled := 0;
      dropped := false;
      transportClosed := false;
    }

    method SetClientToServerHandler(h: HandlerId)
      modifies this`handler
      ensures handler == Some(h)
    {
      handler := Some(h);
    }

    /** Passes a message to the handler; `false` when none is installed (the attribute lookup fails). */
    method MessageReceived(msg: ClientToServer) returns (ok: bool)
      modifies this`delivered
      ensures ok == old(handler).Some?
      ensures delivered == if ok then old(delivered) + [(handler.value, msg)] else old(delivered)
    {
      if handler.None? {
        return false;
      }
      delivered := delivered + [(handler.value, msg)];
      return true;
    }

    method OnConnected()
      modifies this`registered
      ensures registered
    {
      registered := true;
    }

    /** Sends only while the connection is alive. */
    method Write(msg: ServerToClient)
      modifies this`sent
      ensures sent == if old(connectionIsDead) then old(sent) else old(sent) + [msg]
    {
      if !connectionIsDead {
        sent := sent + [msg];
      }
    }

    /** The transport went away: stop writing and schedule the drop. */
    method ConnectionLost()
      modifies this`connectionIsDead, this`dropsScheduled
      ensures connectionIsDead
      ensures dropsScheduled == old(dropsScheduled) + 1
    {
      connectionIsDead := true;
      dropsScheduled := dropsScheduled + 1;
    }

    method CompleteDropConnection()
      modifies this`dropped
      ensures dropped
    {
      dropped := true;
    }

    /** Closing from the server side also stops writing. */
    method Close()
      modifies this`connectionIsDead, this`transportClosed
      ensures connectionIsDead && transportClosed
    {
      connectionIsDead := true;
      transportClosed := true;
    }
  }

  /**
   * Client side of the connection.  Messages that arrive before a handler is
   * installed wait in `msgs`; installing the handler hands them over in order
   * and retires the buffer (`msgs` becomes None).
   */
  class ClientToServerProtocol {
    var handler: Option<HandlerId>
    var msgs: Option<seq<ServerToClient>>
    var disconnected: bool
    var stopHeartbeatingSet: bool
    /** Handler calls submitted to the loop with `call_soon_threadsafe`, in order. */
    var dispatched: seq<(HandlerId, ServerToClient)>
    /** Messages sent or submitted for sending, in order. */
    var sent: seq<ClientToServer>
    /** How many `heartbeat` callbacks have been scheduled with `call_later`. */
    var heartbeatTimers: nat
    /** Every message received so far, in arrival order. */
    ghost var arrived: seq<ServerToClient>

    /** Every arrived message is either handed to a handler or still buffered, in arrival order. */
    ghost predicate Valid()
      reads this
    {
      && (handler.None? <==> msgs.Some?)
      && (handler.None? ==> dispatched == [])
      && Messages(dispatched) + msgs.GetOr([]) == arrived
    }

    constructor ()
      ensures Valid()
      ensures handler.None? && msgs == Some([]) && arrived == []
      ensures !disconnected && !stopHeartbeatingSet && sent == [] && heartbeatTimers == 0
    {
      handler := None;
      msgs := Some([]);
      disconnected := false;
      stopHeartbeatingSet := false;
      dispatched := [];
      sent := [];
      heartbeatTimers := 0;
      arrived := [];
    }

    method StopHeartbeating()
      modifies this`stopHeartbeatingSet
      ensures stopHeartbeatingSet
    {
      stopHeartbeatingSet := true;
    }

    /**
     * Installs the handler and hands it the buffered messages in order.  A second
     * call finds the buffer retired and fails (`ok` false) after replacing the handler.
     */
    method SetServerToClientHandler(h: HandlerId) returns (ok: bool)
      requires Valid()
      modifies this`handler, this`msgs, this`dispatched
      ensures Valid() && handler == Some(h) && msgs.None?
      ensures ok == old(msgs).Some?
      ensures ok ==> Messages(dispatched) == arrived
      ensures dispatched == old(dispatched) + (if old(msgs).Some? then Addressed(h, old(msgs).value) else [])
    {
      handler := Some(h);
      if msgs.None? {
        return false;
      }
      var buffered := msgs.value;
      var i := 0;
      while i < |buffered|
        invariant 0 <= i <= |buffered|
        invariant handler == Some(h) && msgs == Some(buffered)
        invariant dispatched == old(dispatched) + Addressed(h, buffered[..i])
      {
        dispatched := dispatched + [(h, buffered[i])];
        i := i + 1;
      }
      msgs := None;
      assert buffered[..i] == buffered;
      assert Messages(dispatched) == buffered;
      return true;
    }

    /** Buffers the message while no handler is installed, otherwise submits it to the handler. */
    method MessageReceived(msg: ServerToClient)
      requires Valid()
      modifies this`msgs, this`dispatched, this`arrived
      ensures Valid() && arrived == old(arrived) + [msg]
      ensures handler.None? ==> msgs == Some(old(msgs).value + [msg]) && dispatched == old(dispatched)
      ensures handler.Some? ==> dispatched == old(dispatched) + [(handler.value, msg)] && msgs == old(msgs)
    {
      arrived := arrived + [msg];
      if handler.None? {
        msgs := Some(msgs.value + [msg]);
      } else {
        dispatched := dispatched + [(handler.value, msg)];
        assert Messages(dispatched) == Messages(old(dispatched)) + [msg];
      }
    }

    method OnConnected()
      modifies this`heartbeatTimers
      ensures heartbeatTimers == old(heartbeatTimers) + 1
    {
      heartbeatTimers := heartbeatTimers + 1;
    }

    /** Sends a heartbeat and schedules the next one, unless disconnected or told to stop. */
    method Heartbeat()
      modifies this`sent, this`heartbeatTimers
      ensures disconnected || stopHeartbeatingSet ==>
        sent == old(sent) && heartbeatTimers == old(heartbeatTimers)
      ensures !disconnected && !stopHeartbeatingSet ==>
        sent == old(sent) + [ClientToServer.Heartbeat] && heartbeatTimers == old(heartbeatTimers) + 1
    {
      if !disconnected && !stopHeartbeatingSet {
        sent := sent + [ClientToServer.Heartbeat];
        heartbeatTimers := heartbeatTimers + 1;
      }
    }

    /** Marks the connection disconnected and feeds a `Disconnected` message through the usual path. */
    method ConnectionLost()
      requires Valid()
      modifies this`disconnected, this`msgs, this`dispatched, this`arrived
      ensures Valid() && disconnected
      ensures arrived == old(arrived) + [Disconnected]
      ensures handler.None? ==> msgs == Some(old(msgs).value + [Disconnected]) && dispatched == old(dispatched)
      ensures handler.Some? ==> dispatched == old(dispatched) + [(handler.value, Disconnected)]
    {
      disconnected := true;
      MessageReceived(Disconnected);
    }

    /** Submits the message to the loop for sending. */
    method Write(msg: ClientToServer)
      modifies this`sent
      ensures sent == old(sent) + [msg]
    {
      sent := sent + [msg];
    }
  }

  /** The background thread that runs the event loop. */
  class EventLoopInThread {
    var started: bool
    /** How many times the thread has been started. */
    var threadStarts: nat

    ghost predicate Valid()
      reads this
    {
      threadStarts == if started then 1 else 0
    }

    constructor ()
      ensures Valid() && !started
    {
      started := false;
      threadStarts := 0;
    }

    /** Starts the thread on the first call only. */
    method Start()
      requires Valid()
      modifies this
      ensures Valid() && started && threadStarts == 1
    {
      if !started {
        started := true;
        threadStarts := threadStarts + 1;
      }
    }
  }

  /** The state of the listening socket of a `TcpServer`. */
  datatype SocketServer = NotListening | Listening | ClosedServer

  /** The server that accepts connections and sweeps them for missed heartbeats. */
  class TcpServer {
    var stopped: bool
    var socketServer: SocketServer
    /** How many `checkHeartbeatsCallback` runs have been scheduled. */
    var sweepTimers: nat
    /** How many dead-connection sweeps have run. */
    var sweeps: nat

    constructor ()
      ensures !stopped && socketServer == NotListening && sweepTimers == 0 && sweeps == 0
    {
      stopped := false;
      socketServer := NotListening;
      sweepTimers := 0;
      sweeps := 0;
    }

    method Start()
      modifies this`socketServer, this`sweepTimers
      ensures socketServer == Listening
      ensures sweepTimers == old(sweepTimers) + 1
    {
      socketServer := Listening;
      sweepTimers := sweepTimers + 1;
    }

    /** Reschedules itself and sweeps, only while the server is not stopped. */
    method CheckHeartbeatsCallback()
      modifies this`sweepTimers, this`sweeps
      ensures stopped ==> sweepTimers == old(sweepTimers) && sweeps == old(sweeps)
      ensures !stopped ==> sweepTimers == old(sweepTimers) + 1 && sweeps == old(sweeps) + 1
    {
      if !stopped {
        sweepTimers := sweepTimers + 1;
        sweeps := sweeps + 1;
      }
    }

    method Stop()
      modifies this`stopped, this`socketServer
      ensures stopped
      ensures socketServer == if old(socketServer) == Listening then ClosedServer else old(socketServer)
    {
      stopped := true;
      if socketServer == Listening {
        socketServer := ClosedServer;
      }
    }
  }

  /** One connection attempt: whether it connected, and the elapsed time read right after it. */
  datatype Attempt = Attempt(connected: bool, elapsedMs: int)

  /** How `connect` ends, with the sleeps it made between attempts (microseconds). */
  datatype ConnectOutcome =
    | Connected(attempt: nat, sleepsUs: seq<int>, initWaitMs: int)
    | NotInitialized(attempt: nat, sleepsUs: seq<int>, initWaitMs: int)
    | Raised(attempt: nat, sleepsUs: seq<int>)
    | NoMoreAttempts(sleepsUs: seq<int>)

  function Min(a: int, b: int): int { if a <= b then a else b }
  function Max(a: int, b: int): int { if a >= b then a else b }

  /** The sleep between attempts, `min(timeout, max(timeout / 100, 0.01))` seconds, in microseconds. */
  function BackoffMicros(timeoutMs: int): (us: int)
    ensures us <= 1000 * timeoutMs
    ensures us == 1000 * timeoutMs || (us >= 10 * timeoutMs && us >= 10000)
    ensures 0 <= timeoutMs ==> 0 <= us
  {
    Min(1000 * timeoutMs, Max(10 * timeoutMs, 10000))
  }

  /** A failed attempt is re-raised when retrying is off or 80% of the timeout has passed. */
  predicate GiveUp(retry: bool, timeoutMs: int, elapsedMs: int) {
    !retry || 5 * elapsedMs > 4 * timeoutMs
  }

  /** What is left of the timeout for the handshake, never negative. */
  function InitWaitMs(timeoutMs: int, elapsedMs: int): (w: int)
    ensures 0 <= w && timeoutMs - elapsedMs <= w
    ensures w == 0 || w == timeoutMs - elapsedMs
  {
    Max(timeoutMs - elapsedMs, 0)
  }

  /** The outcome of `connect` from attempt `i` on, having slept `sleeps` so far. */
  function ConnectFrom(timeoutMs: int, retry: bool, attempts: seq<Attempt>, initialized: bool,
                       i: nat, sleeps: seq<int>): ConnectOutcome
    requires i <= |attempts|
    decreases |attempts| - i
  {
    if i == |attempts| then NoMoreAttempts(sleeps)
    else if attempts[i].connected then
      var w := InitWaitMs(timeoutMs, attempts[i].elapsedMs);
      if initialized then Connected(i, sleeps, w) else NotInitialized(i, sleeps, w)
    else if GiveUp(retry, timeoutMs, attempts[i].elapsedMs) then Raised(i, sleeps)
    else ConnectFrom(timeoutMs, retry, attempts, initialized, i + 1, sleeps + [BackoffMicros(timeoutMs)])
  }

  /**
   * The connect loop: try, and on failure either re-raise or sleep and try
   * again.  `attempts` are the results the network gives, `initialized`
   * whether the handshake completes within the granted wait.
   */
  method Connect(timeoutMs: int, retry: bool, attempts: seq<Attempt>, initialized: bool) returns (r: ConnectOutcome)
    ensures r == ConnectFrom(timeoutMs, retry, attempts, initialized, 0, [])
  {
    var i := 0;
    var sleeps: seq<int> := [];
    while i < |attempts|
      invariant 0 <= i <= |attempts|
      invariant ConnectFrom(timeoutMs, retry, attempts, initialized, i, sleeps) ==
                ConnectFrom(timeoutMs, retry, attempts, initialized, 0, [])
    {
      var a := attempts[i];
      if a.connected {
        var w := Max(timeoutMs - a.elapsedMs, 0);
        if initialized {
          return Connected(i, sleeps, w);
        }
        return NotInitialized(i, sleeps, w);
      }
      if !retry || 5 * a.elapsedMs > 4 * timeoutMs {
        return Raised(i, sleeps);
      }
      sleeps := sleeps + [Min(1000 * timeoutMs, Max(10 * timeoutMs, 10000))];
      i := i + 1;
    }
    return NoMoreAttempts(sleeps);
  }

  /**
   * What the outcome means: the attempt it names is the first that connected or
   * gave up, every earlier attempt failed early enough to be retried, one backoff
   * sleep was made after each of them, and the handshake wait is never negative.
   */
  lemma {:induction false} ConnectFromMeaning(timeoutMs: int, retry: bool, attempts: seq<Attempt>, initialized: bool,
                                              i: nat, sleeps: seq<int>)
    requires i <= |attempts|
    requires forall j :: 0 <= j < |sleeps| ==> sleeps[j] == BackoffMicros(timeoutMs)
    ensures var r := ConnectFrom(timeoutMs, retry, attempts, initialized, i, sleeps);
      && (forall j :: 0 <= j < |r.sleepsUs| ==> r.sleepsUs[j] == BackoffMicros(timeoutMs))
      && (r.NoMoreAttempts? ==>
            && |r.sleepsUs| == |sleeps| + |attempts| - i
            && (forall j :: i <= j < |attempts| ==> !attempts[j].connected && !GiveUp(retry, timeoutMs, attempts[j].elapsedMs)))
      && (!r.NoMoreAttempts? ==>
            && i <= r.attempt < |attempts|
            && |r.sleepsUs| == |sleeps| + r.attempt - i
            && (forall j :: i <= j < r.attempt ==> !attempts[j].connected && !GiveUp(retry, timeoutMs, attempts[j].elapsedMs)))
      && (r.Raised? ==> !attempts[r.attempt].connected && GiveUp(retry, timeoutMs, attempts[r.attempt].elapsedMs))
      && (r.Connected? || r.NotInitialized? ==>
            && attempts[r.attempt].connected
            && r.initWaitMs == InitWaitMs(timeoutMs, attempts[r.attempt].elapsedMs) >= 0
            && (r.Connected? <==> initialized))
    decreases |attempts| - i
  {
    if i < |attempts| && !attempts[i].connected && !GiveUp(retry, timeoutMs, attempts[i].elapsedMs) {
      ConnectFromMeaning(timeoutMs, retry, attempts, initialized, i + 1, sleeps + [BackoffMicros(timeoutMs)]);
    }
  }

  /** Without retrying, a refused first attempt is re-raised at once, with no sleep. */
  lemma NoRetryFailsImmediately(timeoutMs: int, attempts: seq<Attempt>, initialized: bool)
    requires |attempts| > 0 && !attempts[0].connected
    ensures ConnectFrom(timeoutMs, false, attempts, initialized, 0, []) == Raised(0, [])
  {
  }

  /**
   * With retrying, a listener that accepts attempt `k` is reached when every
   * earlier failure came within 80% of the timeout.
   */
  lemma {:induction false} RetryReachesListener(timeoutMs: int, attempts: seq<Attempt>, k: nat,
                                                i: nat, sleeps: seq<int>)
    requires i <= k < |attempts| && attempts[k].connected
    requires forall j :: i <= j < k ==> !attempts[j].connected && 5 * attempts[j].elapsedMs <= 4 * timeoutMs
    ensures ConnectFrom(timeoutMs, true, attempts, true, i, sleeps).Connected?
    ensures ConnectFrom(timeoutMs, true, attempts, true, i, sleeps).attempt == k
    decreases k - i
  {
    if i < k {
      RetryReachesListener(timeoutMs, attempts, k, i + 1, sleeps + [BackoffMicros(timeoutMs)]);
    }
  }
}
