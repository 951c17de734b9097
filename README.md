# aiopg scope objects, modelled in Dafny

This project models the context managers in `aiopg/utils.py`. Each one takes a
resource from a pool or coroutine, keeps it in a field, and tears it down on
exit by making a fixed sequence of calls on its collaborators:

- `_ContextManager` stores what its coroutine produces in `_obj` and closes it
  on exit.
- `_PoolContextManager` governs a pool's lifetime. On exit it closes the pool,
  then waits for it to finish closing.
- `_TransactionContextManager` rolls back, commits or does nothing on exit.
- `_PoolAcquireContextManager` and `_PoolConnectionContextManager` check a
  connection out of a pool and release it back.
- `_PoolCursorContextManager` owns a (connection, cursor) pair. It acquires
  the pair once in `_init`. On exit it tears down the cursor before the
  connection.

Files:

- `collaborators.dfy` (module `Collaborators`): the collaborators.
  - Pool, connections, cursors, transactions, and the anything-with-`close()`
    resource are classes whose only property is their identity (plus
    `is_active` for a transaction).
  - A coroutine is modelled as a one-shot `Coroutine<T>`.
  - The `Trace` object logs every collaborator call in its ghost `events`.
  - Python's exceptions become `Result<T>` values whose `Error` can be
    `AssertionFailed` (an `assert` failed), `NoneAttribute` (an
    AttributeError from using a field that is None), `NotAwaitable`
    (`yield from None`), `CoroutineReused`, or `CallFailed(call)` (a
    collaborator raised).
  - The environment decides whether each collaborator call raises. It
    passes one flag per call (`ok`, `closeOk`, ...), or a `Reply` for a call
    that returns a value.
- `scopes.dfy` (module `Scopes`): `_ContextManager`, `_PoolContextManager`,
  `_TransactionContextManager`.
- `pool_connections.dfy` (module `PoolConnections`):
  `_PoolAcquireContextManager`, `_PoolConnectionContextManager`.
- `pool_cursors.dfy` (module `PoolCursors`): `_PoolCursorContextManager`.

Most Python methods have two parts in the model:

- A class method that updates the class's fields step by step, as the
  Python method does.
- A pure step function that specifies it. This function takes the fields
  before the call and returns a `Step`: the fields after the call, the
  collaborator calls made in order, and the value returned or the exception
  raised.

For these, the class method's `ensures` ties its new fields, the calls it
appended to the trace, and its result to that step function. The six
constructors have no step function; their `ensures` give the initial fields
directly. Three other methods have no step function of their own either:

- `PoolConnections.PoolConnectionContextManager.Enter` and
  `PoolCursors.PoolCursorContextManager.Enter` make no call and change
  nothing. Their `ensures` state the returned value directly.
- `PoolConnections.PoolAcquireContextManager.AEnter` ties its coroutine
  and trace to `Collaborators.Resume`. It states `_pool` and `_conn`
  directly.

The step functions' own `ensures` state the properties of one call. The lemmas relate several calls: enter then
exit, exit twice, and arbitrary sequences of calls.

Each `yield from` is one sequential call. `exc_type` becomes a flag saying
whether an exception is in flight.

## Guarantees the code does not give

A reading of these managers as "release exactly once on every path, and
exit twice harmlessly" promises more than `aiopg/utils.py` does. The model
follows the code:

- A second exit is not a no-op in any of the six managers. After an exit
  that cleared its fields, each one dereferences a field that is None and
  raises AttributeError, making no call.
  - `_ContextManager`, `_PoolContextManager` and `_TransactionContextManager`:
    `Scopes.SecondExitRaises`.
  - `_PoolAcquireContextManager`: `PoolConnections.AcquireSecondExitRaises`.
  - `_PoolConnectionContextManager`, where `_pool` is None at
    aiopg/utils.py:172 and 187: `PoolConnections.ConnSecondExitRaises`.
  - `_PoolCursorContextManager`, where `_cur` is None at line 223 after any
    synchronous exit, and `cur` and `conn` are None at lines 271 and 274
    after an asynchronous exit that cleared both:
    `PoolCursors.CursorSecondExitRaises`.
- The base, pool, transaction and acquire exits have no `finally`. A teardown
  call that raises leaves the field set. The base, pool and acquire exits
  then repeat the same call on a later exit
  (`PoolConnections.AcquireRetriesFailedRelease`).
- A transaction exit whose rollback or commit raised leaves the manager as
  it was before that exit. The next exit decides afresh, from its own
  exception flag and the `is_active` it then reads. With the same flag it
  makes the same call again. After a rollback that raised, an exit with no
  exception in flight commits an active transaction, and makes no call on
  an inactive one (`Scopes.FailedResolutionIsRetried`).
- In the cursor manager's asynchronous `__aexit__`, a cursor or connection
  `__aexit__` that raises skips `self._cur = None` or `self._conn = None`
  (aiopg/utils.py:271-275). That field stays set, so a later asynchronous
  exit calls the same `__aexit__` again
  (`PoolCursors.CursorFailedExitIsRetried`).
- In the cursor manager's synchronous `__exit__`, a `close()` that raises
  means the connection is never released to the pool
  (`PoolCursors.FailedCloseSkipsRelease`). The asynchronous exit does run the
  connection's exit after a failed cursor exit.
- What does hold: `_PoolConnectionContextManager` and
  `_PoolCursorContextManager` call the pool's `release` directly at most
  once over any sequence of calls (`PoolConnections.ConnReleasesAtMostOnce`,
  `PoolCursors.CursorReleasesAtMostOnce`). In the cursor manager's
  asynchronous exit the connection goes back to the pool through the
  connection's own `__aexit__` (aiopg/utils.py:268, 274). That call is an
  opaque `Exit` event and is not counted as a release.

## Model

| member | source | states |
|---|---|---|
| `Scopes.EnterObj` | aiopg/utils.py:76-78 | `__aenter__` awaits the coroutine once if it has not run; `_obj` is replaced by the produced value exactly when the coroutine returns, and that value is returned; otherwise the coroutine's error, or the reuse error for a finished coroutine, propagates |
| `Scopes.ContextManager.constructor` | aiopg/utils.py:32-34 | keeps the coroutine and starts with `_obj` None |
| `Scopes.ContextManager.AEnter` | aiopg/utils.py:76-78 | the new `_obj`, trace and result are those of `EnterObj` |
| `Scopes.CloseObj` | aiopg/utils.py:81-83 | exit calls `close()` on `_obj` and only on it; `_obj` is None afterwards iff it was None or the close returned; a None `_obj` raises AttributeError with no call |
| `Scopes.ContextManager.AExit` | aiopg/utils.py:81-83 | the new `_obj`, trace and result are those of `CloseObj` |
| `Scopes.PoolContextManager.constructor` | aiopg/utils.py:32-34 | the inherited `__init__`: keeps the coroutine, `_obj` starts None |
| `Scopes.PoolContextManager.AEnter` | aiopg/utils.py:76-78 | the inherited `__aenter__` for a pool: as `EnterObj` |
| `Scopes.ClosePool` | aiopg/utils.py:103-106 | exit calls the pool's `close()` strictly before `wait_closed()`, makes no `wait_closed()` after a failed close, and clears `_obj` iff both returned |
| `Scopes.PoolContextManager.AExit` | aiopg/utils.py:103-106 | the new `_obj`, trace and result are those of `ClosePool` |
| `Scopes.EnterThenClosePool` | aiopg/utils.py:103-106 | entering and then exiting, whatever the exit's calls raise, awaits the coroutine, closes exactly the pool it produced and waits for it only after a close that returned; `_obj` is None afterwards iff both calls returned |
| `Scopes.EnterThenCloseObj` | aiopg/utils.py:76-83 | entering and then exiting awaits the coroutine once and closes exactly the object it produced; `_obj` is None afterwards iff the close returned |
| `Scopes.TransactionContextManager.constructor` | aiopg/utils.py:32-34 | the inherited `__init__`: keeps the coroutine, `_obj` starts None |
| `Scopes.TransactionContextManager.AEnter` | aiopg/utils.py:76-78 | the inherited `__aenter__` for a transaction: as `EnterObj` |
| `Scopes.ResolveTransaction` | aiopg/utils.py:114-120 | with an exception in flight the only call is `rollback()`; without one it is `commit()` if `is_active` and nothing otherwise; the exit returns normally iff that call returned or none was needed, and then `_obj` is None; a raising call leaves it set and its error propagates |
| `Scopes.TransactionContextManager.AExit` | aiopg/utils.py:114-120 | the new `_obj`, trace and result are those of `ResolveTransaction`, with `is_active` read from the held transaction |
| `Scopes.TransactionDecision` | aiopg/utils.py:114-120 | with an exception: exactly one rollback and no commit, whatever `is_active` says; without one: one commit iff `is_active` and no rollback |
| `Scopes.SecondExitRaises` | aiopg/utils.py:81-120 | after a successful exit, a second exit of the base, pool or transaction scope raises AttributeError and makes no call, whatever that second exit's flags and `is_active` |
| `Scopes.FailedResolutionIsRetried` | aiopg/utils.py:114-120 | a rollback or commit that raises leaves the manager as before the exit, so any next exit behaves as if the failed one had not happened: the same call again with the same exception flag, a commit of an active transaction after a failed rollback when no exception is in flight |
| `PoolConnections.PoolAcquireContextManager.constructor` | aiopg/utils.py:127-130 | keeps the coroutine and the pool; `_conn` starts None |
| `PoolConnections.PoolAcquireContextManager.AEnter` | aiopg/utils.py:134-136 | awaits the coroutine; `_conn` becomes the produced connection exactly when it returns; `_pool` is unchanged |
| `PoolConnections.AcquireRelease` | aiopg/utils.py:139-142 | exit makes one `release(_conn)` call on `_pool`, then clears both fields; a release that raises leaves both set; a None `_pool` raises AttributeError with no call |
| `PoolConnections.PoolAcquireContextManager.AExit` | aiopg/utils.py:139-142 | the new fields, trace and result are those of `AcquireRelease` |
| `PoolConnections.AcquireReleasesWhatWasAcquired` | aiopg/utils.py:134-142 | enter then exit makes a single release call, of exactly the connection the coroutine produced, to the given pool; both fields are None afterwards iff it returned |
| `PoolConnections.AcquireRetriesFailedRelease` | aiopg/utils.py:139-142 | a failed release is made again, on the same connection, by the next exit |
| `PoolConnections.AcquireSecondExitRaises` | aiopg/utils.py:139-142 | after an exit whose release returned, a second exit raises AttributeError and makes no call |
| `PoolConnections.PoolConnectionContextManager.constructor` | aiopg/utils.py:162-164 | keeps the given pool and connection |
| `PoolConnections.PoolConnectionContextManager.Enter` | aiopg/utils.py:166-168 | `__enter__` returns the held connection unchanged, and fails its assertion iff none is held |
| `PoolConnections.ConnRelease` | aiopg/utils.py:170-175 | one `release(_conn)` call on `_pool`; both fields are None afterwards whether or not the release raised, and its failure propagates |
| `PoolConnections.PoolConnectionContextManager.Exit` | aiopg/utils.py:170-175 | the new fields, trace and result are those of `ConnRelease` |
| `PoolConnections.PoolConnectionContextManager.AExit` | aiopg/utils.py:185-190 | the same as the synchronous exit: the new fields, trace and result are those of `ConnRelease` |
| `PoolConnections.ConnAcquire` | aiopg/utils.py:179-182 | `__aenter__` fails its assertion if a connection is held; a None `_pool` raises AttributeError; otherwise it makes one `acquire()` call and stores and returns what it returned, or propagates its error; `_pool` never changes |
| `PoolConnections.PoolConnectionContextManager.AEnter` | aiopg/utils.py:179-182 | the new fields, trace and result are those of `ConnAcquire` |
| `PoolConnections.ConnReleasesAtMostOnce` | aiopg/utils.py:166-190 | over any sequence of enters and exits with any failures, release is called at most once, and never if `_pool` starts None |
| `PoolConnections.ConnSecondExitRaises` | aiopg/utils.py:170-190 | after any exit, whether the release raised or not, a second exit and an asynchronous enter both raise AttributeError and make no call |
| `PoolCursors.PoolCursorContextManager.constructor` | aiopg/utils.py:213-216 | keeps the pool and the pair coroutine; `_conn` and `_cur` start None |
| `PoolCursors.PoolCursorContextManager.Enter` | aiopg/utils.py:218-219 | `__enter__` returns `_cur` as it is, acquiring nothing |
| `PoolCursors.CloseAndRelease` | aiopg/utils.py:221-227 | `__exit__` closes the cursor and only then releases the connection; there is no release after a failed close; `_conn` and `_cur` are None afterwards in every case |
| `PoolCursors.PoolCursorContextManager.Exit` | aiopg/utils.py:221-227 | the new fields, trace and result are those of `CloseAndRelease` |
| `PoolCursors.FailedCloseSkipsRelease` | aiopg/utils.py:221-227 | a `close()` that raises means no release call, yet both fields are cleared |
| `PoolCursors.CursorSecondExitRaises` | aiopg/utils.py:221-275 | after any synchronous exit, a second one raises AttributeError with no call; after an asynchronous exit that cleared both fields, another raises AttributeError with no call |
| `PoolCursors.InitPair` | aiopg/utils.py:230-233 | `_init` fails its assertion unless `_conn` and `_cur` are both None; a None coroutine raises TypeError, a finished one the reuse error; otherwise it awaits the pair coroutine once and sets both fields from its result, or propagates its error; nothing else changes |
| `PoolCursors.PoolCursorContextManager.Init` | aiopg/utils.py:230-233 | the new fields, trace and result are those of `InitPair`; on success the manager itself is returned |
| `PoolCursors.InitIsOneShot` | aiopg/utils.py:230-233 | after a successful `_init`, a second one fails its assertion and makes no call |
| `PoolCursors.EnterPair` | aiopg/utils.py:258-262 | `__aenter__` runs `_init`, then the connection's enter, then the cursor's, and returns the cursor `_init` stored; the first failing step's error propagates |
| `PoolCursors.PoolCursorContextManager.AEnter` | aiopg/utils.py:258-262 | the new fields, trace and result are those of `EnterPair` |
| `PoolCursors.ExitPair` | aiopg/utils.py:265-275 | `_pool` is None first; the cursor's exit runs before the connection's, which runs even when the cursor's raised; `_cur` and `_conn` are each cleared iff their own exit returned; the connection's exception takes precedence, and a None `_cur` raises AttributeError even when the connection's exit returned |
| `PoolCursors.PoolCursorContextManager.AExit` | aiopg/utils.py:265-275 | the new fields, trace and result are those of `ExitPair` |
| `PoolCursors.CursorFailedExitIsRetried` | aiopg/utils.py:265-275 | a cursor or connection `__aexit__` that raised leaves its field set, so the next asynchronous exit calls exactly the exits that failed before, cursor first |
| `PoolCursors.CursorFailureStillExitsConnection` | aiopg/utils.py:265-275 | if the cursor's exit raises, the connection's exit still runs; `_cur` stays set, `_conn` is cleared, and the cursor's exception propagates |
| `PoolCursors.EnterThenExitPair` | aiopg/utils.py:258-275 | after an enter without failure, an exit with any failures: await the pair, enter the connection then the cursor, exit the cursor then the connection (both always run); `_pool` is None and each of `_cur`, `_conn` is None iff its own exit returned |
| `PoolCursors.InitThenCloseAndRelease` | aiopg/utils.py:221-233 | after `_init` stores a pair, the synchronous exit closes exactly that cursor and then, unless the close raised, releases exactly that connection to the pool; both fields end None |
| `PoolCursors.StepUsesPotential` | aiopg/utils.py:218-275 | no call on the cursor manager releases to the pool more than the potential it uses up (cursor held, pair not yet awaited) |
| `PoolCursors.CursorReleasesBounded` | aiopg/utils.py:218-275 | over any sequence of calls, the releases to the pool never exceed the starting potential |
| `PoolCursors.CursorReleasesAtMostOnce` | aiopg/utils.py:213-275 | a cursor manager that holds no pair calls the pool's `release` directly at most once over any sequence of calls and failures (the connection's own `__aexit__` is not counted) |

## Left out

- Coroutine-protocol delegation is not modelled: `send`, `throw`, `close`,
  the `gi_*` properties, `__next__`, `__iter__`, `__await__` and `__aiter__`
  (aiopg/utils.py:36-73, 86-96). These only forward to `_coro`.
- `_SAConnectionContextManager` (aiopg/utils.py:86-96) only adds `__aiter__`,
  so it is not modelled.
- The cursor manager's `__iter__` and `__await__` (aiopg/utils.py:235-254)
  only emit a DeprecationWarning and delegate to `_init`, which is modelled
  as `Init`. The warning is a side channel and is not modelled.
- Python-version switches and compatibility shims are not modelled: `PY_35`,
  `PY_352`, `ensure_future`, `create_future`, and the `_COROUTINE_TYPES`
  registration (aiopg/utils.py:5-25, 278-283).
- The internals of the pool, connection, cursor and transaction are not
  modelled. Each call on them is logged, and whether it raises comes from a
  parameter. Their own `__aenter__`/`__aexit__` and `release` are opaque
  calls. The definition of `pool.cursor()`, which builds the pair coroutine,
  is not part of this model.
- `commit()` and `rollback()` do not change `is_active` in the model. It is
  read once, at exit.
- Scheduling, suspension and cancellation are not modelled. Each
  `yield from` is a single sequential step.
- Awaiting a coroutine again after it has finished raises `CoroutineReused`
  in the model, without running it. This is what a native coroutine does.
  A bare generator would instead return None.
- Field truthiness (`assert self._conn`, `assert not self._conn`) is modelled
  as "is not None". This assumes collaborator objects are always truthy.
  Assertions are modelled as always enabled, i.e. without `python -O`.
- The exception argument of each exit is a flag saying whether an exception
  is in flight. Its type, value and traceback are not modelled. The base and
  pool exits ignore it in the source, so their methods do not take it.
- Re-raising the body's exception after `__aexit__` returns belongs to the
  `async with` statement, not to these classes. Only what `__aexit__` itself
  raises is modelled.
- A coroutine or `pool.acquire()` that returns None is not modelled: a
  `Reply` holds only non-null connections, cursors, pools and resources.
  In the source such a value would leave `_obj` or `_conn` None, and the
  exit would then raise AttributeError.
- `_PoolAcquireContextManager` inherits an unused `_obj` slot from
  `_ContextManager`. That slot is not modelled.
