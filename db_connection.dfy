/** The connection manager itself: one pool handle and a readiness flag that its
    methods update in place. The driver's answers are parameters; what the manager
    does to the outside world (closing and opening pools, registering the error
    handler) is recorded in the ghost `trace`, and every backoff sleep in the ghost
    `sleeps`. */
module DbConnection {
  import opened Wrappers
  import opened RetryPolicy
  import opened ConnectionSpec

  class DatabaseConnection {
    var pool: Option<Handle>
    var poolReady: bool
    const maxRetries: int
    const baseDelay: int
    const maxDelay: int
    /** Every pool close, pool open and handler registration so far, in order. */
    ghost var trace: seq<Event>
    /** Every backoff delay slept so far, in milliseconds, in order. */
    ghost var sleeps: seq<int>

    /** The manager's state as a value of the reference model. */
    function State(): Conn
      reads this
    {
      Conn(pool, poolReady)
    }

    function Settings(): Policy
    {
      Policy(maxRetries, baseDelay, maxDelay)
    }

    ghost predicate Valid()
      reads this
    {
      State().Valid()
    }

    /** Reads the three retry settings (each `parseInt` of an environment variable,
        None for NaN) with their defaults; starts without a pool and not ready. */
    constructor (retriesSetting: Option<int>, baseDelaySetting: Option<int>, maxDelaySetting: Option<int>)
      ensures Valid()
      ensures pool == None && !poolReady && trace == [] && sleeps == []
      ensures Settings() == PolicyFromSettings(retriesSetting, baseDelaySetting, maxDelaySetting)
    {
      pool := None;
      poolReady := false;
      maxRetries := EnvOrDefault(retriesSetting, DefaultMaxRetries);
      baseDelay := EnvOrDefault(baseDelaySetting, DefaultBaseDelay);
      maxDelay := EnvOrDefault(maxDelaySetting, DefaultMaxDelay);
      trace := [];
      sleeps := [];
    }

    /** The liveness probe: false without a pool; otherwise true exactly when the
        probe query returned at least one row (a probe that throws gives false). */
    method VerifyConnection(probe: ProbeOutcome) returns (ok: bool)
      ensures ok <==> pool.Some? && ProbeOk(probe)
    {
      if pool.None? {
        return false;
      }
      match probe
      case ProbeThrew =>
        ok := false;
      case Rows(n) =>
        ok := n > 0;
    }

    /** Registers the pool-error handler on the current pool, if there is one. */
    method SetupErrorHandler()
      modifies this`trace
      ensures trace == old(trace) + (if pool.Some? then [Listen(pool.value)] else [])
    {
      if pool.Some? {
        trace := trace + [Listen(pool.value)];
      }
    }

    /** The body of the retry loop's `try` block, up to the point where it either
        returns or throws: close the previous pool (best effort), open a new one,
        which becomes `pool`, and probe it; on success become ready and register the
        error handler. `verified` tells which of the two happened. */
    method Attempt(o: AttemptOutcome) returns (verified: bool)
      modifies this`pool, this`poolReady, this`trace
      ensures var s := AttemptStep(old(State()), o);
        State() == s.conn && verified == s.verified && trace == old(trace) + s.events
    {
      ghost var before := State();
      if pool.Some? {
        // A failure to close the previous pool is only logged.
        var closed := o.closePrevious == Closed;
        trace := trace + [ClosePool(pool.value, closed)];
      }
      match o.open {
        case OpenFailed =>
          trace := trace + [OpenPool(None)];
          verified := false;
        case Opened(h) =>
          trace := trace + [OpenPool(Some(h))];
          pool := Some(h);
          verified := VerifyConnection(o.probe);
          if verified {
            poolReady := true;
            SetupErrorHandler();
          }
      }
    }

    /** Establishes the pool with bounded retries; the driver answers attempt number
        i with `outcomes(i)`. Does exactly what the reference model ConnectSpec says
        (whose properties are the lemmas of ConnectionSpec). */
    method Connect(outcomes: nat -> AttemptOutcome) returns (status: Outcome)
      requires Valid()
      modifies this
      ensures Valid()
      ensures var r := ConnectSpec(old(State()), Settings(), outcomes);
        && State() == r.conn && status == r.status
        && trace == old(trace) + r.events && sleeps == old(sleeps) + r.sleeps
    {
      ghost var p := Settings();
      ghost var goal := ConnectSpec(State(), p, outcomes);
      ghost var trace0 := trace;
      ghost var sleeps0 := sleeps;
      ValidFrom(State(), p, 0, outcomes);
      var attempts: nat := 0;
      while !poolReady && attempts < maxRetries
        invariant Valid()
        invariant RunFrom(State(), p, attempts, outcomes).conn == goal.conn
        invariant RunFrom(State(), p, attempts, outcomes).status == goal.status
        invariant trace + RunFrom(State(), p, attempts, outcomes).events == trace0 + goal.events
        invariant sleeps + RunFrom(State(), p, attempts, outcomes).sleeps == sleeps0 + goal.sleeps
        decreases maxRetries - attempts
      {
        RunTurn(State(), p, attempts, outcomes, trace, sleeps);
        var verified := Attempt(outcomes(attempts));
        if verified {
          return Pass;
        }
        attempts := attempts + 1;
        if attempts == maxRetries {
          return Fail(MaxAttemptsExceeded(maxRetries));
        }
        var delay := RetryDelay(p, attempts);
        sleeps := sleeps + [delay];
      }
      RunEnds(State(), p, attempts, outcomes);
      return Pass;
    }

    /** The pool-error handler: the driver reports a fatal error on `source`, a pool
        the handler was registered on. Readiness is cleared first, then the pool is
        re-established with `connect()`, whose failure is swallowed. */
    method OnPoolError(ghost source: Handle, outcomes: nat -> AttemptOutcome)
      requires Valid()
      requires Listen(source) in trace
      modifies this
      ensures Valid()
      ensures var r := PoolErrorSpec(old(State()), Settings(), outcomes);
        State() == r.conn && trace == old(trace) + r.events && sleeps == old(sleeps) + r.sleeps
    {
      poolReady := false;
      var _ := Connect(outcomes);
    }

    /** Lends the pool to a caller, failing fast when it is not ready. */
    function GetPool(): (r: Result<Handle, Error>)
      reads this
      ensures r.Ok? <==> IsReady()
      ensures r.Ok? ==> pool == Some(r.value)
      ensures r.Err? ==> r.error == NotReady
    {
      if !poolReady || pool.None? then Err(NotReady) else Ok(pool.value)
    }

    /** Whether callers may borrow the pool; under the invariant it is the flag itself. */
    function IsReady(): (r: bool)
      reads this
      ensures r ==> poolReady && pool.Some?
      ensures Valid() ==> (r <==> poolReady)
    {
      poolReady && pool != None
    }

    /** Shuts the pool down. Without a pool it does nothing. When the driver closes
        the pool, the manager drops it and is not ready; when the driver fails, the
        error is rethrown and the state is left as it was. */
    method Close(outcome: CloseOutcome) returns (status: Outcome)
      requires Valid()
      modifies this`pool, this`poolReady, this`trace
      ensures Valid()
      ensures old(pool).None? ==>
        status == Pass && pool == None && poolReady == old(poolReady) && trace == old(trace)
      ensures old(pool).Some? && outcome == Closed ==>
        status == Pass && pool == None && !poolReady
        && trace == old(trace) + [ClosePool(old(pool).value, true)]
      ensures old(pool).Some? && outcome == CloseFailed ==>
        status == Fail(CloseError) && pool == old(pool) && poolReady == old(poolReady)
        && trace == old(trace) + [ClosePool(old(pool).value, false)]
    {
      status := Pass;
      if pool.Some? {
        match outcome
        case Closed =>
          trace := trace + [ClosePool(pool.value, true)];
          pool := None;
          poolReady := false;
        case CloseFailed =>
          trace := trace + [ClosePool(pool.value, false)];
          status := Fail(CloseError);
      }
    }
  }
}
