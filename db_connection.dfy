/**
 * The REST API's MongoDB connection manager (backend-rest-api/config/db.js):
 * module-level connection state, the reconnect policy with exponential
 * back-off, the connection event handlers and the shutdown decision.
 *
 * The driver, timers and signals are events: a `connectDB` call says whether
 * `mongoose.connect` succeeds, a fired retry timer is another `connectDB` call,
 * and `process.exit` ends the run (no later event has any effect).
 */
module DbConnection {
  import opened Wrappers
  import Config

  const MaxRetries: nat := 5

  /** `2 ** n`. */
  function Pow2(n: nat): (p: nat)
    ensures p >= 1
  {
    if n == 0 then 1 else 2 * Pow2(n - 1)
  }

  /** `Math.min(1000 * Math.pow(2, attempts), 30000)`: the wait before retry number `attempts`. */
  function RetryDelay(attempts: nat): (ms: nat)
    ensures ms <= 30000
    ensures ms == 1000 * Pow2(attempts) || ms == 30000
  {
    if 1000 * Pow2(attempts) < 30000 then 1000 * Pow2(attempts) else 30000
  }

  /**
   * The module's state: `isConnected`, `connectionAttempts`, how many times
   * the four connection handlers have been registered (once per successful
   * connect, never removed), how many metrics intervals are running (one
   * started per successful connect), whether the connection was closed, the
   * exit code once the process has exited, and the delays of the retries
   * scheduled so far, in order.
   */
  datatype DbState = DbState(
    isConnected: bool,
    attempts: nat,
    handlers: nat,
    metricsTimers: nat,
    closed: bool,
    exitCode: Option<int>,
    retries: seq<nat>)

  const Initial := DbState(false, 0, 0, 0, false, None, [])

  /** What can happen to the module. */
  datatype Event =
    | ConnectCall(succeeds: bool)
    | ErrorEvent
    | DisconnectedEvent
    | ConnectedEvent
    | ReconnectedEvent
    | Signal(readyState: int, closeFails: bool)

  /** The counter is at most the cap and every scheduled wait is a back-off delay. */
  ghost predicate Inv(s: DbState)
  {
    s.attempts <= MaxRetries &&
    forall i :: 0 <= i < |s.retries| ==> 2000 <= s.retries[i] <= 30000
  }

  /** Count one more attempt and schedule a retry when under the cap; `None` at the cap. */
  function Backoff(s: DbState): (r: Option<DbState>)
    ensures s.attempts < MaxRetries <==> r.Some?
    ensures r.Some? ==> r.value == s.(attempts := s.attempts + 1, retries := s.retries + [RetryDelay(s.attempts + 1)])
  {
    if s.attempts < MaxRetries
    then Some(s.(attempts := s.attempts + 1, retries := s.retries + [RetryDelay(s.attempts + 1)]))
    else None
  }

  /** `connectDB()`. */
  function Connect(s: DbState, succeeds: bool): (r: DbState)
  {
    if s.isConnected then s
    else if succeeds then
      s.(isConnected := true, attempts := 0, handlers := s.handlers + 1, metricsTimers := s.metricsTimers + 1)
    else match Backoff(s.(isConnected := false))
      case Some(t) => t
      case None => s.(isConnected := false, exitCode := Some(1))
  }

  /** One registered 'error' or 'disconnected' handler: mark the connection lost, then back off under the cap. */
  function LostOnce(s: DbState): (r: DbState)
  {
    match Backoff(s.(isConnected := false))
      case Some(t) => t
      case None => s.(isConnected := false)
  }

  /** An 'error' or 'disconnected' event runs every registered copy of its handler, in turn. */
  function Lost(s: DbState, copies: nat): (r: DbState)
  {
    if copies == 0 then s else LostOnce(Lost(s, copies - 1))
  }

  /** `gracefulShutdown()` on a signal. */
  function CloseAndExit(s: DbState, readyState: int, closeFails: bool): (r: DbState)
  {
    var t := s.(metricsTimers := if s.metricsTimers > 0 then s.metricsTimers - 1 else 0);
    if readyState == 1 && closeFails then t.(exitCode := Some(1))
    else if readyState == 1 then t.(closed := true, exitCode := Some(0))
    else t.(exitCode := Some(0))
  }

  /** One event; once the process has exited nothing more happens. */
  function Step(s: DbState, e: Event): (r: DbState)
  {
    if s.exitCode.Some? then s
    else match e
      case ConnectCall(ok) => Connect(s, ok)
      case ErrorEvent => Lost(s, s.handlers)
      case DisconnectedEvent => Lost(s, s.handlers)
      case ConnectedEvent => if s.handlers > 0 then s.(isConnected := true) else s
      case ReconnectedEvent => if s.handlers > 0 then s.(isConnected := true, attempts := 0) else s
      case Signal(rs, fails) => CloseAndExit(s, rs, fails)
  }

  /** The delays used by the five retries: 2 s, 4 s, 8 s, 16 s, then the 30 s ceiling. */
  lemma RetrySchedule()
    ensures RetryDelay(1) == 2000 && RetryDelay(2) == 4000 && RetryDelay(3) == 8000
    ensures RetryDelay(4) == 16000 && RetryDelay(5) == 30000
  {
    assert Pow2(5) == 32;
  }

  /** Every scheduled wait is at least 2 s and at most 30 s. */
  lemma {:induction false} RetryDelayBounds(n: nat)
    requires n >= 1
    ensures 2000 <= RetryDelay(n) <= 30000
  {
    if n > 1 {
      RetryDelayBounds(n - 1);
    }
  }

  /** The counter never passes the cap and every scheduled delay lies in 2000..30000. */
  lemma StepKeepsInv(s: DbState, e: Event)
    requires Inv(s)
    ensures Inv(Step(s, e))
  {
    RetryDelayBounds(s.attempts + 1);
    if e == ErrorEvent || e == DisconnectedEvent {
      LostKeepsInv(s, s.handlers);
    }
  }

  /** Each copy of the lost-connection handler keeps the invariant. */
  lemma {:induction false} LostKeepsInv(s: DbState, copies: nat)
    requires Inv(s)
    ensures Inv(Lost(s, copies))
  {
    if copies > 0 {
      var t := Lost(s, copies - 1);
      LostKeepsInv(s, copies - 1);
      RetryDelayBounds(t.attempts + 1);
    }
  }

  /**
   * With the handlers registered `copies` times, one lost-connection event
   * counts `copies` more attempts, up to the cap, and schedules one retry for
   * each attempt it counts; handlers past the cap only mark the connection lost.
   */
  lemma {:induction false} LostRunsEveryCopy(s: DbState, copies: nat)
    ensures var r := Lost(s, copies);
      var counted := if s.attempts >= MaxRetries then 0
                     else if s.attempts + copies <= MaxRetries then copies else MaxRetries - s.attempts;
      && r.attempts == s.attempts + counted
      && |r.retries| == |s.retries| + counted
      && r.retries[..|s.retries|] == s.retries
      && (copies > 0 ==> !r.isConnected)
      && r.(isConnected := s.isConnected, attempts := s.attempts, retries := s.retries) == s
  {
    if copies > 0 {
      var t := Lost(s, copies - 1);
      LostRunsEveryCopy(s, copies - 1);
      assert t.retries[..|s.retries|] == s.retries;
      if t.attempts < MaxRetries {
        var r := Lost(s, copies);
        assert r.retries == t.retries + [RetryDelay(t.attempts + 1)];
        assert r.retries[..|s.retries|] == t.retries[..|s.retries|];
      }
    }
  }

  /**
   * The handlers are registered again on every successful connect and never
   * removed: after two successful connects one disconnection counts two
   * attempts and schedules two retries, of 2 s and 4 s.
   */
  lemma DuplicateHandlersDoubleRetries()
    ensures var s := Step(Step(Step(Initial, ConnectCall(true)), DisconnectedEvent), ConnectCall(true));
      var r := Step(s, DisconnectedEvent);
      && s.handlers == 2 && s.metricsTimers == 2 && s.attempts == 0
      && r.attempts == 2 && r.retries == s.retries + [2000, 4000]
  {
    var s1 := Step(Initial, ConnectCall(true));
    assert Lost(s1, 1) == LostOnce(s1);
    var s := Step(Step(s1, DisconnectedEvent), ConnectCall(true));
    assert Lost(s, 2) == LostOnce(LostOnce(s)) by { assert Lost(s, 1) == LostOnce(s); }
    RetrySchedule();
  }

  /** A connect on a live connection changes nothing. */
  lemma ConnectWhenConnected(s: DbState, succeeds: bool)
    requires s.isConnected
    ensures Step(s, ConnectCall(succeeds)) == s
  {
  }

  /**
   * A failed connect under the cap counts one more attempt and schedules one
   * retry after `RetryDelay` of the new count; at the cap it exits with code 1
   * and schedules nothing.
   */
  lemma FailedConnect(s: DbState)
    requires s.exitCode.None? && !s.isConnected
    ensures var r := Step(s, ConnectCall(false));
      && !r.isConnected
      && (s.attempts < MaxRetries ==>
            r.attempts == s.attempts + 1 && r.retries == s.retries + [RetryDelay(r.attempts)] && r.exitCode.None?)
      && (s.attempts >= MaxRetries ==> r.exitCode == Some(1) && r.retries == s.retries)
  {
  }

  /** 'error' and 'disconnected' at the cap mark the connection lost and do nothing else: no retry, no exit. */
  lemma LostAtCap(s: DbState, e: Event)
    requires s.exitCode.None? && s.handlers > 0 && s.attempts >= MaxRetries
    requires e == ErrorEvent || e == DisconnectedEvent
    ensures Step(s, e) == s.(isConnected := false)
  {
    LostRunsEveryCopy(s, s.handlers);
  }

  /** `failures` connects in a row, each of which fails. */
  function FailRepeatedly(s: DbState, failures: nat): DbState
    decreases failures
  {
    if failures == 0 then s else FailRepeatedly(Step(s, ConnectCall(false)), failures - 1)
  }

  /**
   * From a disconnected state, failing connects use up the remaining retries,
   * scheduling one delay each, and the next failure exits with code 1.
   */
  lemma {:induction false} FailuresExhaust(s: DbState)
    requires s.exitCode.None? && !s.isConnected && s.attempts <= MaxRetries
    ensures var r := FailRepeatedly(s, MaxRetries - s.attempts + 1);
      && r.exitCode == Some(1)
      && r.attempts == MaxRetries
      && |r.retries| == |s.retries| + (MaxRetries - s.attempts)
    decreases MaxRetries - s.attempts
  {
    var t := Step(s, ConnectCall(false));
    if s.attempts < MaxRetries {
      FailuresExhaust(t);
    } else {
      assert FailRepeatedly(t, 0) == t;
    }
  }

  /** A successful connect, or 'reconnected', resets the counter, so a later outage gets all five retries again. */
  lemma SuccessResets(s: DbState)
    requires s.exitCode.None? && !s.isConnected
    ensures Step(s, ConnectCall(true)).attempts == 0 && Step(s, ConnectCall(true)).isConnected
    ensures s.handlers > 0 ==> Step(s, ReconnectedEvent).attempts == 0 && Step(s, ReconnectedEvent).isConnected
    ensures s.handlers > 0 ==> Step(s, ConnectedEvent) == s.(isConnected := true)
  {
  }

  /**
   * Shutdown clears the latest metrics interval only, closes only an open
   * connection (`readyState` 1) and exits 0, or 1 when the close fails.
   */
  lemma ShutdownOutcome(s: DbState, readyState: int, closeFails: bool)
    requires s.exitCode.None?
    ensures var r := Step(s, Signal(readyState, closeFails));
      && r.metricsTimers == (if s.metricsTimers > 0 then s.metricsTimers - 1 else 0)
      && (r.closed <==> s.closed || (readyState == 1 && !closeFails))
      && r.exitCode == Some(if readyState == 1 && closeFails then 1 else 0)
  {
  }

  /** The connection options of `connectDB` (db.js lines 59-68). */
  datatype ConnectOptions = ConnectOptions(
    autoIndex: bool,
    serverSelectionTimeoutMS: int,
    socketTimeoutMS: int,
    maxPoolSize: int,
    minPoolSize: int)

  /** `value || fallback` for a parsed number; NaN (`None`) and 0 are falsy. */
  function NumberOr(value: Option<int>, fallback: int): (r: int)
    ensures value.Some? && value.value != 0 ==> r == value.value
    ensures value.None? || value.value == 0 ==> r == fallback
  {
    if value.Some? && value.value != 0 then value.value else fallback
  }

  /** The options: index building only in development, and every number non-zero whatever the environment said. */
  function Options(c: Config.Settings): (o: ConnectOptions)
    ensures o.autoIndex <==> c.env == "development"
    ensures o.serverSelectionTimeoutMS != 0 && o.socketTimeoutMS != 0 && o.maxPoolSize != 0 && o.minPoolSize != 0
  {
    ConnectOptions(
      c.env == "development",
      NumberOr(c.connectTimeoutMS, 30000),
      NumberOr(c.socketTimeoutMS, 45000),
      NumberOr(c.maxPoolSize, 50),
      NumberOr(c.minPoolSize, 10))
  }

  /** The module-level variables of db.js, changed by its functions and handlers. */
  class Connection {
    var isConnected: bool
    var connectionAttempts: nat
    var handlerCopies: nat
    var metricsIntervals: nat
    var closed: bool
    var exitCode: Option<int>
    var retries: seq<nat>

    function State(): DbState
      reads this
    {
      DbState(isConnected, connectionAttempts, handlerCopies, metricsIntervals, closed, exitCode, retries)
    }

    ghost predicate Valid()
      reads this
    {
      Inv(State())
    }

    /** The state when the module is loaded. */
    constructor ()
      ensures State() == Initial && Valid()
    {
      isConnected := false;
      connectionAttempts := 0;
      handlerCopies := 0;
      metricsIntervals := 0;
      closed := false;
      exitCode := None;
      retries := [];
    }

    /** Schedule a retry if the cap allows it; report whether it did. */
    method Retry() returns (scheduled: bool)
      modifies this
      requires Valid()
      ensures Valid()
      ensures scheduled <==> old(connectionAttempts) < MaxRetries
      ensures scheduled ==> State() == Backoff(old(State())).value
      ensures !scheduled ==> State() == old(State())
    {
      scheduled := false;
      if connectionAttempts < MaxRetries {
        RetryDelayBounds(connectionAttempts + 1);
        connectionAttempts := connectionAttempts + 1;
        retries := retries + [RetryDelay(connectionAttempts)];
        scheduled := true;
      }
    }

    /** `connectDB()`, with the outcome of `mongoose.connect` given. */
    method ConnectDB(succeeds: bool)
      modifies this
      requires Valid()
      ensures Valid()
      ensures State() == Step(old(State()), ConnectCall(succeeds))
    {
      if exitCode.Some? || isConnected {
        return;
      }
      if succeeds {
        isConnected := true;
        connectionAttempts := 0;
        metricsIntervals := metricsIntervals + 1;
        handlerCopies := handlerCopies + 1;
      } else {
        isConnected := false;
        var scheduled := Retry();
        if !scheduled {
          exitCode := Some(1);
        }
      }
    }

    /** An 'error' or 'disconnected' event: every registered copy of the handler runs, in turn. */
    method OnLost(e: Event)
      modifies this
      requires e == ErrorEvent || e == DisconnectedEvent
      requires Valid()
      ensures Valid()
      ensures State() == Step(old(State()), e)
    {
      if exitCode.Some? {
        return;
      }
      var i := 0;
      while i < handlerCopies
        invariant 0 <= i <= handlerCopies && handlerCopies == old(handlerCopies)
        invariant State() == Lost(old(State()), i)
        invariant Valid()
      {
        isConnected := false;
        var _ := Retry();
        i := i + 1;
      }
    }

    /** A 'connected' event: every registered copy sets the same flag, so the copies act as one. */
    method OnConnected()
      modifies this
      requires Valid()
      ensures Valid()
      ensures State() == Step(old(State()), ConnectedEvent)
    {
      if exitCode.None? && handlerCopies > 0 {
        isConnected := true;
      }
    }

    /** A 'reconnected' event: every registered copy makes the same two assignments, so the copies act as one. */
    method OnReconnected()
      modifies this
      requires Valid()
      ensures Valid()
      ensures State() == Step(old(State()), ReconnectedEvent)
    {
      if exitCode.None? && handlerCopies > 0 {
        isConnected := true;
        connectionAttempts := 0;
      }
    }

    /** `gracefulShutdown()`, with the connection's `readyState` and whether `close()` rejects given. */
    method GracefulShutdown(readyState: int, closeFails: bool)
      modifies this
      requires Valid()
      ensures Valid()
      ensures State() == Step(old(State()), Signal(readyState, closeFails))
    {
      if exitCode.Some? {
        return;
      }
      if metricsIntervals > 0 {
        metricsIntervals := metricsIntervals - 1;
      }
      if readyState == 1 {
        if closeFails {
          exitCode := Some(1);
          return;
        }
        closed := true;
      }
      exitCode := Some(0);
    }
  }
}
