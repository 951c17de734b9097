/**
 * `_PoolCursorContextManager`: a scope that owns a (connection, cursor) pair
 * produced by the coroutine `_conn_cur_co`. The pair is acquired once by
 * `_init`; the synchronous exit closes the cursor and releases the connection
 * to the pool, the asynchronous one exits the cursor and then, in a `finally`,
 * the connection.
 */
module PoolCursors {
  import opened Collaborators

  /**
   * The fields `_pool`, `_conn`, `_cur` and `_conn_cur_co`, with whether that
   * coroutine has already run (`done`, meaningless while `co` is None).
   */
  datatype CursorHeld = CursorHeld(
    pool: Pool?, conn: Connection?, cur: Cursor?, co: Coroutine?<(Connection, Cursor)>, done: bool)

  /**
   * `_init`: `assert not self._conn and not self._cur`, then take both from
   * `yield from self._conn_cur_co`. Nothing but the pair and the coroutine's
   * flag changes.
   */
  function InitPair(h: CursorHeld, reply: Reply<(Connection, Cursor)>): (s: Step<CursorHeld, ()>)
    ensures h.conn != null || h.cur != null ==> s == Step(h, [], Err(AssertionFailed))
    ensures h.conn == null && h.cur == null && h.co == null ==> s == Step(h, [], Err(NotAwaitable))
    ensures s.calls == if h.conn == null && h.cur == null && h.co != null && !h.done then [Await(h.co)] else []
    ensures s.result.Ok? <==> h.conn == null && h.cur == null && h.co != null && !h.done && reply.Returns?
    ensures s.result.Ok? ==> s.post.conn == reply.value.0 && s.post.cur == reply.value.1
    ensures s.result.Err? ==> s.post.conn == h.conn && s.post.cur == h.cur
    ensures s.post.pool == h.pool && s.post.co == h.co
    ensures s.post.done == (h.done || (h.conn == null && h.cur == null && h.co != null))
    ensures h.conn == null && h.cur == null && h.co != null && h.done ==> s.result == Err(CoroutineReused)
    ensures h.conn == null && h.cur == null && h.co != null && !h.done && reply.Raises? ==>
      s.result == Err(CallFailed(Await(h.co)))
  {
    if h.conn != null || h.cur != null then Step(h, [], Err(AssertionFailed))
    else if h.co == null then Step(h, [], Err(NotAwaitable))
    else
      var r := Resume(h.co, h.done, reply);
      match r.result
      case Ok(pair) => Step(h.(conn := pair.0, cur := pair.1, done := true), r.calls, Ok(()))
      case Err(e) => Step(h.(done := true), r.calls, Err(e))
  }

  /**
   * `__aenter__`: `_init`, then the connection's `__aenter__`, then the
   * cursor's; returns the cursor. A failing enter propagates and leaves the
   * pair stored.
   */
  function EnterPair(h: CursorHeld, reply: Reply<(Connection, Cursor)>, connOk: bool, curOk: bool)
    : (s: Step<CursorHeld, Cursor>)
    ensures var i := InitPair(h, reply);
      s.post == i.post
      && (i.result.Err? ==> s == Step(i.post, i.calls, Err(i.result.error)))
      && (i.result.Ok? ==> s.calls == i.calls + (if connOk then [Enter(reply.value.0), Enter(reply.value.1)] else [Enter(reply.value.0)]))
    ensures s.result.Ok? <==> InitPair(h, reply).result.Ok? && connOk && curOk
    ensures s.result.Ok? ==> s.result.value == reply.value.1 == s.post.cur
    ensures InitPair(h, reply).result.Ok? && !connOk ==> s.result == Err(CallFailed(Enter(reply.value.0)))
    ensures InitPair(h, reply).result.Ok? && connOk && !curOk ==> s.result == Err(CallFailed(Enter(reply.value.1)))
  {
    var i := InitPair(h, reply);
    if i.result.Err? then Step(i.post, i.calls, Err(i.result.error))
    else
      var conn, cur := reply.value.0, reply.value.1;
      if !connOk then Step(i.post, i.calls + [Enter(conn)], Err(CallFailed(Enter(conn))))
      else if !curOk then Step(i.post, i.calls + [Enter(conn), Enter(cur)], Err(CallFailed(Enter(cur))))
      else Step(i.post, i.calls + [Enter(conn), Enter(cur)], Ok(cur))
  }

  /**
   * `__exit__`: `self._cur.close()` then `self._pool.release(self._conn)`,
   * and in `finally` clear `_conn` and `_cur`. The release is made only after
   * a close that returned.
   */
  function CloseAndRelease(h: CursorHeld, closeOk: bool, releaseOk: bool): (s: Step<CursorHeld, ()>)
    ensures s.post == h.(conn := null, cur := null)
    ensures h.cur == null ==> s.calls == [] && s.result == Err(NoneAttribute)
    ensures h.cur != null && !closeOk ==> s.calls == [Close(h.cur)] && s.result == Err(CallFailed(Close(h.cur)))
    ensures h.cur != null && closeOk && h.pool == null ==> s.calls == [Close(h.cur)] && s.result == Err(NoneAttribute)
    ensures h.cur != null && closeOk && h.pool != null ==>
      s.calls == [Close(h.cur), Release(h.pool, h.conn)] && s.result == Outcome(Release(h.pool, h.conn), releaseOk)
  {
    var post := h.(conn := null, cur := null);
    if h.cur == null then Step(post, [], Err(NoneAttribute))
    else if !closeOk then Step(post, [Close(h.cur)], Err(CallFailed(Close(h.cur))))
    else if h.pool == null then Step(post, [Close(h.cur)], Err(NoneAttribute))
    else Step(post, [Close(h.cur), Release(h.pool, h.conn)], Outcome(Release(h.pool, h.conn), releaseOk))
  }

  /**
   * `yield from target.__aexit__(...)` on a field that may be None; `post`
   * says whether the field is set to None after it.
   */
  function ExitField(target: object?, exc: bool, ok: bool): (s: Step<bool, ()>)
    ensures s.post <==> target != null && ok
    ensures s.result.Ok? <==> s.post
    ensures |s.calls| == (if target == null then 0 else 1)
    ensures target != null ==> s.calls[0] == Exit(target, exc)
    ensures s.result.Err? ==> s.result.error == (if target == null then NoneAttribute else CallFailed(Exit(target, exc)))
  {
    if target == null then Step(false, [], Err(NoneAttribute))
    else Step(ok, [Exit(target, exc)], Outcome(Exit(target, exc), ok))
  }

  /**
   * `__aexit__`: `_pool = None`; then `try`: the cursor's `__aexit__` and
   * `_cur = None`; `finally`: the connection's `__aexit__` and `_conn = None`.
   * An exception from the `finally` part replaces one from the `try` part.
   */
  function ExitPair(h: CursorHeld, exc: bool, curOk: bool, connOk: bool): (s: Step<CursorHeld, ()>)
    ensures s.post.pool == null && s.post.co == h.co && s.post.done == h.done
    ensures h.cur != null && h.conn != null ==> s.calls == [Exit(h.cur, exc), Exit(h.conn, exc)]
    ensures h.cur == null ==> s.calls == (if h.conn != null then [Exit(h.conn, exc)] else [])
    ensures h.conn == null ==> s.calls == (if h.cur != null then [Exit(h.cur, exc)] else [])
    ensures s.post.cur == (if curOk then null else h.cur)
    ensures s.post.conn == (if connOk then null else h.conn)
    ensures s.result.Ok? <==> h.cur != null && curOk && h.conn != null && connOk
    ensures h.conn != null && !connOk ==> s.result == Err(CallFailed(Exit(h.conn, exc)))
    ensures h.conn == null ==> s.result == Err(NoneAttribute)
    ensures h.conn != null && connOk && h.cur != null && !curOk ==> s.result == Err(CallFailed(Exit(h.cur, exc)))
    ensures h.conn != null && connOk && h.cur == null ==> s.result == Err(NoneAttribute)
  {
    var c := ExitField(h.cur, exc, curOk);
    var n := ExitField(h.conn, exc, connOk);
    Step(h.(pool := null, cur := if c.post then null else h.cur, conn := if n.post then null else h.conn),
         c.calls + n.calls,
         if n.result.Err? then n.result else c.result)
  }

  class PoolCursorContextManager {
    var pool: Pool?
    var conn: Connection?
    var cur: Cursor?
    const co: Coroutine?<(Connection, Cursor)>

    constructor (pool: Pool?, co: Coroutine?<(Connection, Cursor)>)
      ensures this.pool == pool && this.co == co && conn == null && cur == null
    {
      this.pool := pool;
      this.co := co;
      conn, cur := null, null;
    }

    function State(): CursorHeld
      reads this, co
    {
      CursorHeld(pool, conn, cur, co, co != null && co.done)
    }

    /** `__enter__`: returns whatever `_cur` holds; it acquires nothing. */
    method Enter() returns (r: Cursor?)
      ensures r == cur
    {
      r := cur;
    }

    method Exit(trace: Trace, closeOk: bool, releaseOk: bool) returns (r: Result<()>)
      modifies this, trace
      ensures var s := CloseAndRelease(old(State()), closeOk, releaseOk);
        State() == s.post && trace.events == old(trace.events) + s.calls && r == s.result
    {
      if cur == null {
        r := Err(NoneAttribute);
      } else {
        r := trace.Call(Close(cur), closeOk);
        if r.Ok? {
          if pool == null {
            r := Err(NoneAttribute);
          } else {
            r := trace.Call(Release(pool, conn), releaseOk);
          }
        }
      }
      conn := null;
      cur := null;
    }

    /** `_init`, which returns the manager itself. */
    method Init(trace: Trace, reply: Reply<(Connection, Cursor)>) returns (r: Result<PoolCursorContextManager>)
      modifies this, co, trace
      ensures var s := InitPair(old(State()), reply);
        State() == s.post && trace.events == old(trace.events) + s.calls
        && r == if s.result.Ok? then Ok(this) else Err(s.result.error)
    {
      if conn != null || cur != null {
        return Err(AssertionFailed);
      }
      if co == null {
        return Err(NotAwaitable);
      }
      var pair := co.Await(trace, reply);
      if pair.Err? {
        return Err(pair.error);
      }
      conn, cur := pair.value.0, pair.value.1;
      r := Ok(this);
    }

    method AEnter(trace: Trace, reply: Reply<(Connection, Cursor)>, connOk: bool, curOk: bool)
      returns (r: Result<Cursor>)
      modifies this, co, trace
      ensures var s := EnterPair(old(State()), reply, connOk, curOk);
        State() == s.post && trace.events == old(trace.events) + s.calls && r == s.result
    {
      var i := Init(trace, reply);
      if i.Err? {
        return Err(i.error);
      }
      var c, k := conn, cur;
      var entered := trace.Call(Event.Enter(c), connOk);
      if entered.Err? {
        return Err(entered.error);
      }
      entered := trace.Call(Event.Enter(k), curOk);
      if entered.Err? {
        return Err(entered.error);
      }
      r := Ok(k);
    }

    method AExit(trace: Trace, exc: bool, curOk: bool, connOk: bool) returns (r: Result<()>)
      modifies this, trace
      ensures var s := ExitPair(old(State()), exc, curOk, connOk);
        State() == s.post && trace.events == old(trace.events) + s.calls && r == s.result
    {
      var c, k := conn, cur;
      pool := null;
      var tried: Result<()>;
      if k == null {
        tried := Err(NoneAttribute);
      } else {
        tried := trace.Call(Event.Exit(k, exc), curOk);
        if tried.Ok? {
          cur := null;
        }
      }
      if c == null {
        return Err(NoneAttribute);
      }
      var closing := trace.Call(Event.Exit(c, exc), connOk);
      if closing.Err? {
        return closing;
      }
      conn := null;
      r := tried;
    }
  }

  /** `_init` is one-shot: once it has stored a pair, a second `_init` fails its assertion and makes no call. */
  lemma InitIsOneShot(h: CursorHeld, first: Reply<(Connection, Cursor)>, second: Reply<(Connection, Cursor)>)
    requires InitPair(h, first).result.Ok?
    ensures var p := InitPair(h, first).post;
      InitPair(p, second) == Step(p, [], Err(AssertionFailed))
  {
  }

  /**
   * A cursor scope entered without failure and then exited, whatever the two
   * exits raise: the pair is awaited, the connection entered before the
   * cursor, the cursor exited before the connection, and both exits run.
   * Afterwards `_pool` is None and each of `_cur` and `_conn` is None iff its
   * own exit returned.
   */
  lemma EnterThenExitPair(pool: Pool?, co: Coroutine<(Connection, Cursor)>, conn: Connection, cur: Cursor,
                          exc: bool, curOk: bool, connOk: bool)
    ensures var e := EnterPair(CursorHeld(pool, null, null, co, false), Returns((conn, cur)), true, true);
      var x := ExitPair(e.post, exc, curOk, connOk);
      e.result == Ok(cur)
      && e.calls + x.calls == [Await(co), Enter(conn), Enter(cur), Exit(cur, exc), Exit(conn, exc)]
      && x.post.pool == null
      && (x.post.cur == null <==> curOk) && (x.post.conn == null <==> connOk)
  {
  }

  /**
   * The synchronous idiom: after `_init` has stored a pair, `__exit__` closes
   * exactly that cursor, and then releases exactly that connection to the
   * pool, unless the close raised; both fields are None afterwards.
   */
  lemma InitThenCloseAndRelease(pool: Pool, co: Coroutine<(Connection, Cursor)>, conn: Connection, cur: Cursor,
                                closeOk: bool, releaseOk: bool)
    ensures var i := InitPair(CursorHeld(pool, null, null, co, false), Returns((conn, cur)));
      var x := CloseAndRelease(i.post, closeOk, releaseOk);
      i.result.Ok?
      && i.calls + x.calls == [Await(co), Close(cur)] + (if closeOk then [Release(pool, conn)] else [])
      && x.post.conn == null && x.post.cur == null
  {
  }

  /**
   * When the cursor's `__aexit__` raises, the connection's still runs; `_cur`
   * stays set, `_conn` is cleared once the connection's exit returns, and the
   * cursor's exception is the one that propagates.
   */
  lemma CursorFailureStillExitsConnection(h: CursorHeld, exc: bool)
    requires h.cur != null && h.conn != null
    ensures var s := ExitPair(h, exc, false, true);
      s.calls == [Exit(h.cur, exc), Exit(h.conn, exc)]
      && s.post.cur == h.cur && s.post.conn == null && s.post.pool == null
      && s.result == Err(CallFailed(Exit(h.cur, exc)))
  {
  }

  /**
   * A second exit raises AttributeError and calls nothing: every synchronous
   * exit clears `_cur`, so `self._cur.close()` fails on None; an asynchronous
   * exit that cleared both fields leaves `cur.__aexit__` and, in the
   * `finally`, `conn.__aexit__` to fail on None.
   */
  lemma CursorSecondExitRaises(h: CursorHeld, closeOk: bool, releaseOk: bool, exc: bool, exc2: bool,
                               ok1: bool, ok2: bool)
    ensures CloseAndRelease(CloseAndRelease(h, ok1, ok2).post, closeOk, releaseOk).calls == []
    ensures CloseAndRelease(CloseAndRelease(h, ok1, ok2).post, closeOk, releaseOk).result == Err(NoneAttribute)
    ensures var p := ExitPair(h, exc, true, true).post;
      ExitPair(p, exc2, ok1, ok2).calls == [] && ExitPair(p, exc2, ok1, ok2).result == Err(NoneAttribute)
  {
  }

  /**
   * The asynchronous exit has no `finally` around its field assignments:
   * a cursor or connection `__aexit__` that raises leaves that field set,
   * so the next asynchronous exit calls that `__aexit__` again.
   */
  lemma CursorFailedExitIsRetried(h: CursorHeld, exc: bool, exc2: bool, curOk: bool, connOk: bool,
                                  ok1: bool, ok2: bool)
    requires h.cur != null && h.conn != null
    ensures var p := ExitPair(h, exc, curOk, connOk).post;
      ExitPair(p, exc2, ok1, ok2).calls
        == (if curOk then [] else [Exit(h.cur, exc2)]) + (if connOk then [] else [Exit(h.conn, exc2)])
  {
  }

  /** In the synchronous exit a failed `close()` means the connection is never released to the pool. */
  lemma FailedCloseSkipsRelease(h: CursorHeld, releaseOk: bool)
    requires h.cur != null
    ensures var s := CloseAndRelease(h, false, releaseOk);
      Releases(s.calls) == 0 && s.post.conn == null && s.post.cur == null
  {
  }

  /** One call on a `_PoolCursorContextManager`, with what its collaborator calls do. */
  datatype CursorOp =
    | Initialise(reply: Reply<(Connection, Cursor)>)
    | AsyncEnter(reply: Reply<(Connection, Cursor)>, connOk: bool, curOk: bool)
    | SyncEnter
    | SyncExit(closeOk: bool, releaseOk: bool)
    | AsyncExit(exc: bool, curOk: bool, connOk: bool)

  function CursorApply(h: CursorHeld, op: CursorOp): (CursorHeld, seq<Event>)
  {
    match op
    case Initialise(reply) => var s := InitPair(h, reply); (s.post, s.calls)
    case AsyncEnter(reply, connOk, curOk) => var s := EnterPair(h, reply, connOk, curOk); (s.post, s.calls)
    case SyncEnter => (h, [])
    case SyncExit(closeOk, releaseOk) => var s := CloseAndRelease(h, closeOk, releaseOk); (s.post, s.calls)
    case AsyncExit(exc, curOk, connOk) => var s := ExitPair(h, exc, curOk, connOk); (s.post, s.calls)
  }

  /** The calls made by running `ops` one after another from `h`, whatever each raised. */
  function CursorRun(h: CursorHeld, ops: seq<CursorOp>): seq<Event>
    decreases |ops|
  {
    if ops == [] then []
    else var (h', calls) := CursorApply(h, ops[0]); calls + CursorRun(h', ops[1..])
  }

  /** How many more releases to the pool `h` can still lead to: the cursor held, and the pair not yet awaited. */
  function Potential(h: CursorHeld): nat
  {
    (if h.cur != null then 1 else 0) + (if h.co != null && !h.done then 1 else 0)
  }

  /** No single call releases more than it uses up of the potential. */
  lemma {:induction false} StepUsesPotential(h: CursorHeld, op: CursorOp)
    ensures var (h', calls) := CursorApply(h, op);
      Releases(calls) + Potential(h') <= Potential(h)
  {
    var (h', calls) := CursorApply(h, op);
    match op
    case Initialise(reply) =>
      ReleasesNone(calls);
    case AsyncEnter(reply, connOk, curOk) =>
      ReleasesNone(calls);
    case SyncEnter =>
    case SyncExit(closeOk, releaseOk) =>
      if h.cur != null && closeOk && h.pool != null {
        assert calls == [Close(h.cur), Release(h.pool, h.conn)];
        assert calls[1..] == [Release(h.pool, h.conn)] && calls[1..][1..] == [];
        assert Releases(calls) == Releases(calls[1..]) == 1;
      } else {
        ReleasesNone(calls);
      }
    case AsyncExit(exc, curOk, connOk) =>
      ReleasesNone(calls);
  }

  /**
   * Whatever the order of `_init`, enters and exits, and whatever each
   * collaborator call raises, the calls to the pool's `release` never exceed
   * the potential of the starting state.
   */
  lemma {:induction false} CursorReleasesBounded(h: CursorHeld, ops: seq<CursorOp>)
    ensures Releases(CursorRun(h, ops)) <= Potential(h)
    decreases |ops|
  {
    if ops != [] {
      var (h', calls) := CursorApply(h, ops[0]);
      StepUsesPotential(h, ops[0]);
      ReleasesAppend(calls, CursorRun(h', ops[1..]));
      CursorReleasesBounded(h', ops[1..]);
    }
  }

  /**
   * A `_PoolCursorContextManager` as constructed (no pair held) hands a
   * connection back to the pool at most once over its life: the assertion in
   * `_init` and the one-shot coroutine let at most one pair in, and each exit
   * lets go of the cursor.
   */
  lemma CursorReleasesAtMostOnce(pool: Pool?, co: Coroutine?<(Connection, Cursor)>, done: bool, ops: seq<CursorOp>)
    ensures Releases(CursorRun(CursorHeld(pool, null, null, co, done), ops)) <= 1
  {
    CursorReleasesBounded(CursorHeld(pool, null, null, co, done), ops);
  }
}
