/**
 * The two scopes that check a connection out of a pool and hand it back:
 * `_PoolAcquireContextManager` (used as `async with pool.acquire() as conn`)
 * and `_PoolConnectionContextManager` (used as `with (yield from pool) as conn`
 * or `async with pool as conn`). Both hold `_pool` and `_conn`; both clear the
 * two fields after releasing, but only the second does so in a `finally`.
 */
module PoolConnections {
  import opened Collaborators

  /** The fields `_pool` and `_conn` of either scope. */
  datatype Held = Held(pool: Pool?, conn: Connection?)

  // ----- _PoolAcquireContextManager -----

  /** `__aexit__`: `yield from self._pool.release(self._conn)`, then clear both fields. */
  function AcquireRelease(h: Held, ok: bool): (s: Step<Held, ()>)
    ensures h.pool == null ==> s == Step(h, [], Err(NoneAttribute))
    ensures h.pool != null ==> s.calls == [Release(h.pool, h.conn)] && s.result == Outcome(Release(h.pool, h.conn), ok)
    ensures s.result.Ok? <==> s.post == Held(null, null) && h.pool != null
    ensures s.result.Err? ==> s.post == h
  {
    if h.pool == null then Step(h, [], Err(NoneAttribute))
    else if ok then Step(Held(null, null), [Release(h.pool, h.conn)], Ok(()))
    else Step(h, [Release(h.pool, h.conn)], Err(CallFailed(Release(h.pool, h.conn))))
  }

  class PoolAcquireContextManager {
    const coro: Coroutine<Connection>
    var pool: Pool?
    var conn: Connection?

    constructor (coro: Coroutine<Connection>, pool: Pool?)
      ensures this.coro == coro && this.pool == pool && conn == null
    {
      this.coro := coro;
      this.pool := pool;
      conn := null;
    }

    function State(): Held
      reads this
    {
      Held(pool, conn)
    }

    /** `self._conn = yield from self._coro; return self._conn`. */
    method AEnter(trace: Trace, reply: Reply<Connection>) returns (r: Result<Connection>)
      modifies this, coro, trace
      ensures var s := Resume(coro, old(coro.done), reply);
        coro.done == s.post && trace.events == old(trace.events) + s.calls && r == s.result
      ensures pool == old(pool)
      ensures conn == if r.Ok? then r.value else old(conn)
    {
      r := coro.Await(trace, reply);
      if r.Ok? {
        conn := r.value;
      }
    }

    method AExit(trace: Trace, ok: bool) returns (r: Result<()>)
      modifies this, trace
      ensures var s := AcquireRelease(old(State()), ok);
        State() == s.post && trace.events == old(trace.events) + s.calls && r == s.result
    {
      if pool == null {
        return Err(NoneAttribute);
      }
      r := trace.Call(Release(pool, conn), ok);
      if r.Err? {
        return;
      }
      pool := null;
      conn := null;
    }
  }

  /**
   * Entered through its coroutine and then exited, the scope makes one
   * release call, of exactly the connection the coroutine produced (not the
   * `_conn` held before), to the pool it was given; it holds nothing
   * afterwards iff that release returned.
   */
  lemma AcquireReleasesWhatWasAcquired(coro: object, pool: Pool, conn: Connection?, c: Connection, ok: bool)
    ensures var e := Resume(coro, false, Returns(c));
      var x := AcquireRelease(Held(pool, if e.result.Ok? then e.result.value else conn), ok);
      e.calls + x.calls == [Await(coro), Release(pool, c)]
      && (x.post == Held(null, null) <==> ok)
  {
  }

  /**
   * A second exit after one that released is not a no-op: `_pool` is None,
   * so `self._pool.release` raises AttributeError and nothing is called.
   */
  lemma AcquireSecondExitRaises(h: Held, ok: bool)
    requires h.pool != null
    ensures AcquireRelease(AcquireRelease(h, true).post, ok) == Step(Held(null, null), [], Err(NoneAttribute))
  {
  }

  /**
   * Without a `finally`, a release that raises leaves both fields set, so a
   * second exit releases the same connection once more.
   */
  lemma AcquireRetriesFailedRelease(pool: Pool, c: Connection)
    ensures var first := AcquireRelease(Held(pool, c), false);
      var second := AcquireRelease(first.post, true);
      first.calls + second.calls == [Release(pool, c), Release(pool, c)]
  {
  }

  // ----- _PoolConnectionContextManager -----

  /**
   * `__exit__` and `__aexit__`: release `_conn` to `_pool`, and in `finally`
   * clear both fields; whatever the release raised propagates.
   */
  function ConnRelease(h: Held, ok: bool): (s: Step<Held, ()>)
    ensures s.post == Held(null, null)
    ensures h.pool == null ==> s.calls == [] && s.result == Err(NoneAttribute)
    ensures h.pool != null ==> s.calls == [Release(h.pool, h.conn)] && s.result == Outcome(Release(h.pool, h.conn), ok)
  {
    if h.pool == null then Step(Held(null, null), [], Err(NoneAttribute))
    else Step(Held(null, null), [Release(h.pool, h.conn)], Outcome(Release(h.pool, h.conn), ok))
  }

  /**
   * `__aenter__`: `assert not self._conn`, then store what `pool.acquire()`
   * returns. `_pool` never changes.
   */
  function ConnAcquire(h: Held, reply: Reply<Connection>): (s: Step<Held, Connection>)
    ensures s.post.pool == h.pool
    ensures h.conn != null ==> s == Step(h, [], Err(AssertionFailed))
    ensures h.conn == null && h.pool == null ==> s == Step(h, [], Err(NoneAttribute))
    ensures h.conn == null && h.pool != null ==> s.calls == [Acquire(h.pool)]
    ensures s.result.Ok? <==> h.conn == null && h.pool != null && reply.Returns?
    ensures s.result.Ok? ==> s.post.conn == s.result.value == reply.value
    ensures s.result.Err? ==> s.post == h
    ensures h.conn == null && h.pool != null && reply.Raises? ==> s.result == Err(CallFailed(Acquire(h.pool)))
  {
    if h.conn != null then Step(h, [], Err(AssertionFailed))
    else if h.pool == null then Step(h, [], Err(NoneAttribute))
    else
      var r := Answer(Acquire(h.pool), reply);
      Step(if r.Ok? then Held(h.pool, r.value) else h, [Acquire(h.pool)], r)
  }

  class PoolConnectionContextManager {
    var pool: Pool?
    var conn: Connection?

    constructor (pool: Pool?, conn: Connection?)
      ensures this.pool == pool && this.conn == conn
    {
      this.pool := pool;
      this.conn := conn;
    }

    function State(): Held
      reads this
    {
      Held(pool, conn)
    }

    /** `__enter__`: `assert self._conn; return self._conn`. Nothing changes. */
    method Enter() returns (r: Result<Connection>)
      ensures r.Ok? <==> conn != null
      ensures r.Ok? ==> r.value == conn
      ensures r.Err? ==> r.error == AssertionFailed
    {
      if conn == null {
        return Err(AssertionFailed);
      }
      r := Ok(conn);
    }

    method Exit(trace: Trace, ok: bool) returns (r: Result<()>)
      modifies this, trace
      ensures var s := ConnRelease(old(State()), ok);
        State() == s.post && trace.events == old(trace.events) + s.calls && r == s.result
    {
      if pool == null {
        r := Err(NoneAttribute);
      } else {
        r := trace.Call(Release(pool, conn), ok);
      }
      pool := null;
      conn := null;
    }

    method AEnter(trace: Trace, reply: Reply<Connection>) returns (r: Result<Connection>)
      modifies this, trace
      ensures var s := ConnAcquire(old(State()), reply);
        State() == s.post && trace.events == old(trace.events) + s.calls && r == s.result
    {
      if conn != null {
        return Err(AssertionFailed);
      }
      if pool == null {
        return Err(NoneAttribute);
      }
      r := trace.Request(Acquire(pool), reply);
      if r.Ok? {
        conn := r.value;
      }
    }

    method AExit(trace: Trace, ok: bool) returns (r: Result<()>)
      modifies this, trace
      ensures var s := ConnRelease(old(State()), ok);
        State() == s.post && trace.events == old(trace.events) + s.calls && r == s.result
    {
      if pool == null {
        r := Err(NoneAttribute);
      } else {
        r := trace.Call(Release(pool, conn), ok);
      }
      pool := null;
      conn := null;
    }
  }

  /**
   * Every exit of a `_PoolConnectionContextManager`, whether its release
   * returned or raised, leaves `_pool` None: a second exit, and an
   * asynchronous enter after it, raise AttributeError and call nothing.
   */
  lemma ConnSecondExitRaises(h: Held, ok: bool, ok2: bool, reply: Reply<Connection>)
    ensures var p := ConnRelease(h, ok).post;
      ConnRelease(p, ok2) == Step(Held(null, null), [], Err(NoneAttribute))
      && ConnAcquire(p, reply) == Step(p, [], Err(NoneAttribute))
  {
  }

  /** One call on a `_PoolConnectionContextManager`, with what its collaborator call does. */
  datatype ConnOp =
    | SyncEnter
    | SyncExit(ok: bool)
    | AsyncEnter(reply: Reply<Connection>)
    | AsyncExit(ok: bool)

  function ConnApply(h: Held, op: ConnOp): (Held, seq<Event>)
  {
    match op
    case SyncEnter => (h, [])
    case SyncExit(ok) => var s := ConnRelease(h, ok); (s.post, s.calls)
    case AsyncEnter(reply) => var s := ConnAcquire(h, reply); (s.post, s.calls)
    case AsyncExit(ok) => var s := ConnRelease(h, ok); (s.post, s.calls)
  }

  /** The calls made by running `ops` one after another from `h`, whatever each raised. */
  function ConnRun(h: Held, ops: seq<ConnOp>): seq<Event>
    decreases |ops|
  {
    if ops == [] then []
    else var (h', calls) := ConnApply(h, ops[0]); calls + ConnRun(h', ops[1..])
  }

  /**
   * Whatever the order of enters and exits, and whatever each collaborator
   * call raises, a `_PoolConnectionContextManager` releases a connection to
   * the pool at most once over its life: every exit clears `_pool` in its
   * `finally`, and nothing else reaches the pool's `release` once it is None.
   */
  lemma {:induction false} ConnReleasesAtMostOnce(h: Held, ops: seq<ConnOp>)
    ensures Releases(ConnRun(h, ops)) <= if h.pool != null then 1 else 0
    decreases |ops|
  {
    if ops != [] {
      var (h', calls) := ConnApply(h, ops[0]);
      ReleasesAppend(calls, ConnRun(h', ops[1..]));
      ConnReleasesAtMostOnce(h', ops[1..]);
    }
  }
}
