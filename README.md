# HR service database connection manager, in Dafny

This project models `DatabaseConnection`, the class the HR service of
mssql-perf uses to own its single SQL Server connection pool
(`services/hr/src/db-connection.js`). The manager holds one pool handle and a
`poolReady` flag. Its members:

- `connect()` (re)establishes the pool with bounded retries and exponential
  backoff. Each attempt closes the previous pool (best effort), opens a new
  pool and verifies it with a probe query.
- On success, the error handler is registered on the new pool.
- When the pool reports a fatal error, the handler clears readiness and
  reconnects, swallowing a failed reconnect.
- `getPool()` lends the pool, failing fast when it is not ready.
- `isReady()` reports readiness.
- `close()` shuts the pool down.

The model has three layers:

- `retry_policy.dfy` (module `RetryPolicy`): how the three settings are read
  with their defaults (`DB_CONNECTION_RETRIES` 10, `DB_RETRY_BASE_DELAY` 5000 ms,
  `DB_RETRY_MAX_DELAY` 30000 ms), and the backoff delay
  `min(baseDelay * 2^(k-1), maxDelay)` after the k-th failure.
- `connection_spec.dfy` (module `ConnectionSpec`): a functional reference for
  the cycle. `AttemptStep` is one pass of the loop body and `RunFrom` is the
  whole loop. Together they describe the final state, whether `connect()`
  returned or threw, the driver calls made, the number of attempts, and the
  delays slept. The lemmas state what a cycle promises.
- `db_connection.dfy` (module `DbConnection`): the class itself, with fields
  `pool` and `poolReady` that its methods update in place. `Connect` runs the
  source's `while` loop and is proved, with loop invariants, to do exactly what
  `ConnectSpec` says.

The outside world becomes parameters:

- The driver's answers are parameters. Attempt number i is answered by
  `outcomes(i)`, which says whether the previous pool closed, whether a new
  pool opened (and its handle), and what the probe returned.
- What the manager does to the driver goes into the ghost log `trace`: closing
  a pool, opening one, and registering the error handler.
- The backoff waits go into the ghost log `sleeps`.

The model follows the code, including where it is less tidy than one might
expect:

- A failed `close()` rethrows and leaves `pool` and `poolReady` as they were.
- When every attempt fails, `pool` is not reset. It keeps the last pool that
  opened, so a scenario with three opened-but-unverified pools ends with a
  handle, not with no pool (`ExhaustsKeepingLastPool`).
- A negative `maxRetries` (a 0 setting falls back to 10) makes no attempt, and `connect()` returns
  normally without becoming ready.
- A setting of 0 or one that does not parse takes the default. A negative
  setting is kept. With a negative base delay the computed delays shrink from
  one failure to the next (`NegativeBaseShrinks`), so the monotonicity of the
  delays (`DelayMonotone`) holds only for a non-negative base.

## Model

| member | source | states |
|---|---|---|
| RetryPolicy.EnvOrDefault | mssql-perf/services/hr/src/db-connection.js:8-10 | `parseInt(x) \|\| d`: a parsed non-zero value is kept (negative ones too); NaN or 0 give the default; a non-zero default never yields 0 |
| RetryPolicy.PolicyFromSettings | mssql-perf/services/hr/src/db-connection.js:8-10 | all three settings are non-zero, and with no settings the policy is 10 attempts, 5000 ms base, 30000 ms ceiling |
| RetryPolicy.RetryDelay | mssql-perf/services/hr/src/db-connection.js:56 | the wait after a failure never exceeds `maxDelay` |
| RetryPolicy.ScheduleAt | mssql-perf/services/hr/src/db-connection.js:49-57 | the i-th wait of a run of failures is the delay for failure number `first + i` |
| RetryPolicy.DelayMonotone | mssql-perf/services/hr/src/db-connection.js:56 | with a non-negative base the waits never decrease from one failure to a later one |
| RetryPolicy.DelayDoubles | mssql-perf/services/hr/src/db-connection.js:56 | with a non-negative ceiling, each wait is the previous one doubled, capped at `maxDelay` |
| RetryPolicy.DelayStaysAtCap | mssql-perf/services/hr/src/db-connection.js:56 | with a non-negative base, once the uncapped wait `baseDelay * 2^(j-1)` reaches `maxDelay` at failure j, every later wait equals `maxDelay` |
| RetryPolicy.DefaultSchedule | mssql-perf/services/hr/src/db-connection.js:56 | with the defaults, the waits after failures 1..9 are 5000, 10000, 20000 ms, then 30000 ms from the fourth failure on |
| RetryPolicy.NegativeBaseShrinks | mssql-perf/services/hr/src/db-connection.js:9 | a base delay of -100 survives `parseInt(x) \|\| 5000`, and the wait after the second failure is then smaller than after the first |
| RetryPolicy.DelayReachesCap | mssql-perf/services/hr/src/db-connection.js:56 | with a positive base and a non-negative ceiling, every wait from failure `maxDelay + 1` on equals `maxDelay` |
| ConnectionSpec.AttemptStep | mssql-perf/services/hr/src/db-connection.js:30-47 | reference definition of one pass of the loop body; its contract: the attempt succeeds iff the pool opened and the probe returned rows, and then the manager is ready on that pool; the rest of its behaviour is stated by `StepShape` and `CloseIsBestEffort` |
| ConnectionSpec.StepShape | mssql-perf/services/hr/src/db-connection.js:31-47 | an attempt first closes the previous pool when there is one (recording whether that close succeeded) and otherwise starts with the open; it opens (or tries to open) exactly one pool; it ends with registering the handler on success and with the open on failure |
| ConnectionSpec.CloseIsBestEffort | mssql-perf/services/hr/src/db-connection.js:31-39 | a failed close of the previous pool changes neither the resulting state nor success; a failed attempt keeps `poolReady` and leaves `pool` at the new handle, or at the old one when the open threw |
| ConnectionSpec.RunFrom | mssql-perf/services/hr/src/db-connection.js:29-58 | reference definition of the `while` loop from a given attempt number; its contract: the only error it throws is the "Maximum connection attempts" one, and only when not ready; its other properties are stated by `ExhaustsFrom`, `SucceedsFrom`, `ReadyFrom`, `ShapeFrom`, `ValidFrom` and `LastEventFrom` |
| ConnectionSpec.ConnectSpec | mssql-perf/services/hr/src/db-connection.js:26-29 | `connect()` on a ready manager, or with `maxRetries <= 0`, does nothing and returns normally |
| ConnectionSpec.LastEventFrom | mssql-perf/services/hr/src/db-connection.js:41-54 | a cycle that attempts something ends with the handler registered on the verified pool, or else with the last attempt's open |
| ConnectionSpec.ConnectExhausts | mssql-perf/services/hr/src/db-connection.js:47-57 | from not ready, when every attempt fails: exactly `maxRetries` attempts, `maxRetries - 1` sleeps of `RetryDelay(1..maxRetries-1)` in order (none for the last failure), the last driver call is the last attempt's open, the "Maximum connection attempts" error, not ready, `pool` left at the last opened handle |
| ConnectionSpec.ConnectSucceeds | mssql-perf/services/hr/src/db-connection.js:39-45 | from not ready, when attempt k is the first verified one: normal return after k + 1 attempts and the first k backoff waits; ready; `pool` is that handle; the handler registered on it last |
| ConnectionSpec.ConnectReadyIff | mssql-perf/services/hr/src/db-connection.js:29-58 | from not ready, ready at the end iff some attempt within `maxRetries` opened a pool that verified, and `pool` is then such a handle; throws iff at least one attempt ran and none verified |
| ConnectionSpec.ConnectAttemptsBounded | mssql-perf/services/hr/src/db-connection.js:27-57 | from not ready and with `maxRetries >= 1`, between 1 and `maxRetries` attempts, each one open of a pool, and one sleep fewer than attempts |
| ConnectionSpec.ConnectKeepsValid | mssql-perf/services/hr/src/db-connection.js:39-43 | `connect()` keeps `poolReady ==> pool != null` and never sets a present pool back to null |
| ConnectionSpec.PoolErrorSpec | mssql-perf/services/hr/src/db-connection.js:67-75 | after a pool error the manager is ready iff the reconnect verified a pool within `maxRetries` attempts, and then holds such a pool; with attempts allowed and a pool present, the reconnect first closes the current pool (the broken one only when the error came from it), best effort |
| ConnectionSpec.RecoversOnThirdAttempt | mssql-perf/services/hr/src/db-connection.js:29-58 | with 3 attempts, base 100 and ceiling 1000, two unverified pools then a verified one: waits of 100 and 200 ms, ready on the third pool, exact sequence of closes, opens and handler registration |
| ConnectionSpec.ExhaustsKeepingLastPool | mssql-perf/services/hr/src/db-connection.js:29-58 | same settings, three unverified pools: the exhaustion error after waits of 100 and 200 ms, not ready, `pool` still the third pool |
| DbConnection.DatabaseConnection.constructor | mssql-perf/services/hr/src/db-connection.js:4-11 | starts with no pool and not ready, with the policy read from the three settings |
| DbConnection.DatabaseConnection.VerifyConnection | mssql-perf/services/hr/src/db-connection.js:13-24 | true iff there is a pool and the probe returned at least one row; a probe that throws gives false |
| DbConnection.DatabaseConnection.SetupErrorHandler | mssql-perf/services/hr/src/db-connection.js:62-76 | registers the handler on the current pool, or does nothing without one |
| DbConnection.DatabaseConnection.Attempt | mssql-perf/services/hr/src/db-connection.js:30-47 | one loop body on the fields: the new state, the verdict and the driver calls are those of `AttemptStep` |
| DbConnection.DatabaseConnection.Connect | mssql-perf/services/hr/src/db-connection.js:26-60 | the retry loop keeps `poolReady ==> pool != null` and ends in the state, outcome, driver calls and waits of `ConnectSpec`, whose properties are the lemmas above |
| DbConnection.DatabaseConnection.OnPoolError | mssql-perf/services/hr/src/db-connection.js:67-75 | fired on any pool the handler was registered on: clears readiness, reconnects, swallows the failure, as `PoolErrorSpec` |
| DbConnection.DatabaseConnection.GetPool | mssql-perf/services/hr/src/db-connection.js:78-83 | succeeds iff `isReady()`, then returns the pool; otherwise the "not ready" error; reads only |
| DbConnection.DatabaseConnection.IsReady | mssql-perf/services/hr/src/db-connection.js:85-87 | true only with `poolReady` and a pool; under the invariant, exactly `poolReady` |
| DbConnection.DatabaseConnection.Close | mssql-perf/services/hr/src/db-connection.js:89-100 | no pool: nothing changes; the driver closes it: pool dropped and not ready; the driver fails: the error is rethrown and the state is unchanged |

## Left out

- Logging (`console.log`, `console.warn`, `console.error`) is left out; it has no effect on the state.
- The `config` object and the `mssql` driver's internals are left out. The driver is reduced to the answers in `AttemptOutcome` and `CloseOutcome`. The SQL text of the probe is not modelled, only how many rows it returned or whether it threw.
- Waits and driver calls are two separate logs (`sleeps` and `trace`). The contracts give the number, values and order of the waits, and the order of the driver calls, but not where each wait falls among the attempts (that the wait after failure k comes between attempt k and attempt k + 1).
- Real time is left out. `setTimeout` is a recorded wait in `sleeps`, and Node's clamping of very large or negative delays is not modelled.
- Concurrency is left out. Each `connect()`, error-handler run and `close()` is atomic in the model. Interleavings are not modelled: overlapping reconnects, a pool error arriving in the middle of a cycle, and callers of `getPool()` during a reconnect.
- RetryDelay: `Math.pow` and the product are JavaScript doubles. The model uses exact integers, which agree with them while `baseDelay * 2^(k-1)` stays below 2^53.
- EnvOrDefault: the reading of the environment and `parseInt`'s digit scanning are not modelled. The parsed value (or NaN as `None`) is the input.
- OnPoolError: the error object the driver passes is not modelled. Handlers registered on earlier pools are never removed in the source, so the model lets the handler fire for any pool it was registered on.
