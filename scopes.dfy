/**
 * `_ContextManager` and the two subclasses that only override `__aexit__`:
 * `_PoolContextManager` (the scope governs a pool's lifetime) and
 * `_TransactionContextManager` (the scope resolves a transaction).
 * Each stores in `_obj` what its coroutine produced and tears it down on exit.
 * Python's inheritance becomes three classes that share `EnterObj`, the
 * common `__aenter__` step.
 */
module Scopes {
  import opened Collaborators

  /**
   * `self._obj = yield from self._coro; return self._obj`: `_obj` is replaced
   * only when the coroutine returns. The post-state is the coroutine's
   * exhausted flag and `_obj`.
   */
  function EnterObj<R>(coro: object, done: bool, obj: R, reply: Reply<R>): (s: Step<(bool, R), R>)
    ensures s.post.0
    ensures s.calls == (if done then [] else [Await(coro)])
    ensures s.result.Ok? <==> !done && reply.Returns?
    ensures s.post.1 == (if s.result.Ok? then reply.value else obj)
    ensures s.result.Ok? ==> s.result.value == s.post.1
    ensures s.result.Err? ==> s.result.error == (if done then CoroutineReused else CallFailed(Await(coro)))
  {
    var r := Resume(coro, done, reply);
    Step((r.post, if r.result.Ok? then r.result.value else obj), r.calls, r.result)
  }

  /** `_ContextManager.__aexit__`: `self._obj.close(); self._obj = None`. */
  function CloseObj(obj: Resource?, ok: bool): (s: Step<Resource?, ()>)
    ensures obj == null ==> s == Step(null, [], Err(NoneAttribute))
    ensures obj != null ==> s.calls == [Close(obj)] && s.result == Outcome(Close(obj), ok)
    ensures s.post == null <==> obj == null || ok
    ensures s.post != null ==> s.post == obj
  {
    if obj == null then Step(null, [], Err(NoneAttribute))
    else if ok then Step(null, [Close(obj)], Ok(()))
    else Step(obj, [Close(obj)], Err(CallFailed(Close(obj))))
  }

  /**
   * `_PoolContextManager.__aexit__`: `close()`, then `yield from wait_closed()`,
   * then `_obj = None`. A failure of either call leaves `_obj` set.
   */
  function ClosePool(pool: Pool?, closeOk: bool, waitOk: bool): (s: Step<Pool?, ()>)
    ensures pool == null ==> s == Step(null, [], Err(NoneAttribute))
    ensures pool != null ==> s.calls == (if closeOk then [Close(pool), WaitClosed(pool)] else [Close(pool)])
    ensures s.post == null <==> pool == null || (closeOk && waitOk)
    ensures s.post != null ==> s.post == pool
    ensures s.result.Ok? <==> pool != null && closeOk && waitOk
    ensures pool != null && !closeOk ==> s.result == Err(CallFailed(Close(pool)))
    ensures pool != null && closeOk && !waitOk ==> s.result == Err(CallFailed(WaitClosed(pool)))
  {
    if pool == null then Step(null, [], Err(NoneAttribute))
    else if !closeOk then Step(pool, [Close(pool)], Err(CallFailed(Close(pool))))
    else if !waitOk then Step(pool, [Close(pool), WaitClosed(pool)], Err(CallFailed(WaitClosed(pool))))
    else Step(null, [Close(pool), WaitClosed(pool)], Ok(()))
  }

  /**
   * `_TransactionContextManager.__aexit__`: with an exception in flight, roll
   * back; otherwise commit if the transaction is still active; then clear
   * `_obj`. `active` is `tx.is_active` at the time of the call.
   */
  function ResolveTransaction(tx: Transaction?, active: bool, exc: bool, ok: bool): (s: Step<Transaction?, ()>)
    ensures tx == null ==> s == Step(null, [], Err(NoneAttribute))
    ensures tx != null && exc ==> s.calls == [Rollback(tx)]
    ensures tx != null && !exc ==> s.calls == (if active then [Commit(tx)] else [])
    ensures s.result.Ok? ==> s.post == null
    ensures s.post == null <==> tx == null || ok || (!exc && !active)
    ensures s.post != null ==> s.post == tx
    ensures s.result.Err? && tx != null ==> |s.calls| == 1 && s.result.error == CallFailed(s.calls[0])
    ensures s.result.Ok? <==> tx != null && (ok || (!exc && !active))
    ensures tx != null && exc ==> s.result == Outcome(Rollback(tx), ok)
    ensures tx != null && !exc && active ==> s.result == Outcome(Commit(tx), ok)
  {
    if tx == null then Step(null, [], Err(NoneAttribute))
    else if exc then
      (if ok then Step(null, [Rollback(tx)], Ok(())) else Step(tx, [Rollback(tx)], Err(CallFailed(Rollback(tx)))))
    else if active then
      (if ok then Step(null, [Commit(tx)], Ok(())) else Step(tx, [Commit(tx)], Err(CallFailed(Commit(tx)))))
    else Step(null, [], Ok(()))
  }

  /** `_ContextManager`: a scope around whatever its coroutine produces. */
  class ContextManager {
    const coro: Coroutine<Resource>
    var obj: Resource?

    constructor (coro: Coroutine<Resource>)
      ensures this.coro == coro && obj == null
    {
      this.coro := coro;
      obj := null;
    }

    method AEnter(trace: Trace, reply: Reply<Resource>) returns (r: Result<Resource>)
      modifies this, coro, trace
      ensures var s := EnterObj(coro, old(coro.done), old(obj), reply);
        (coro.done, obj) == s.post && trace.events == old(trace.events) + s.calls && r == s.result
    {
      r := coro.Await(trace, reply);
      if r.Ok? {
        obj := r.value;
      }
    }

    method AExit(trace: Trace, closeOk: bool) returns (r: Result<()>)
      modifies this, trace
      ensures var s := CloseObj(old(obj), closeOk);
        obj == s.post && trace.events == old(trace.events) + s.calls && r == s.result
    {
      if obj == null {
        return Err(NoneAttribute);
      }
      r := trace.Call(Close(obj), closeOk);
      if r.Err? {
        return;
      }
      obj := null;
    }
  }

  /** `_PoolContextManager`: the scope that governs a pool's own lifetime. */
  class PoolContextManager {
    const coro: Coroutine<Pool>
    var obj: Pool?

    constructor (coro: Coroutine<Pool>)
      ensures this.coro == coro && obj == null
    {
      this.coro := coro;
      obj := null;
    }

    method AEnter(trace: Trace, reply: Reply<Pool>) returns (r: Result<Pool>)
      modifies this, coro, trace
      ensures var s := EnterObj(coro, old(coro.done), old(obj), reply);
        (coro.done, obj) == s.post && trace.events == old(trace.events) + s.calls && r == s.result
    {
      r := coro.Await(trace, reply);
      if r.Ok? {
        obj := r.value;
      }
    }

    method AExit(trace: Trace, closeOk: bool, waitOk: bool) returns (r: Result<()>)
      modifies this, trace
      ensures var s := ClosePool(old(obj), closeOk, waitOk);
        obj == s.post && trace.events == old(trace.events) + s.calls && r == s.result
    {
      if obj == null {
        return Err(NoneAttribute);
      }
      r := trace.Call(Close(obj), closeOk);
      if r.Err? {
        return;
      }
      r := trace.Call(WaitClosed(obj), waitOk);
      if r.Err? {
        return;
      }
      obj := null;
    }
  }

  /** `_TransactionContextManager`: the scope that commits or rolls back a transaction. */
  class TransactionContextManager {
    const coro: Coroutine<Transaction>
    var obj: Transaction?

    constructor (coro: Coroutine<Transaction>)
      ensures this.coro == coro && obj == null
    {
      this.coro := coro;
      obj := null;
    }

    method AEnter(trace: Trace, reply: Reply<Transaction>) returns (r: Result<Transaction>)
      modifies this, coro, trace
      ensures var s := EnterObj(coro, old(coro.done), old(obj), reply);
        (coro.done, obj) == s.post && trace.events == old(trace.events) + s.calls && r == s.result
    {
      r := coro.Await(trace, reply);
      if r.Ok? {
        obj := r.value;
      }
    }

    /** `exc` is the truth of `exc_type`; `ok` decides whether the rollback or commit raises. */
    method AExit(trace: Trace, exc: bool, ok: bool) returns (r: Result<()>)
      modifies this, trace
      ensures var s := ResolveTransaction(old(obj), old(obj) != null && old(obj.isActive), exc, ok);
        obj == s.post && trace.events == old(trace.events) + s.calls && r == s.result
    {
      if obj == null {
        return Err(NoneAttribute);
      }
      if exc {
        r := trace.Call(Rollback(obj), ok);
        if r.Err? {
          return;
        }
      } else if obj.isActive {
        r := trace.Call(Commit(obj), ok);
        if r.Err? {
          return;
        }
      }
      obj := null;
      r := Ok(());
    }
  }

  /**
   * The commit/rollback decision on exit: with an exception in flight exactly
   * one rollback and no commit, whatever `is_active` says; otherwise a commit
   * exactly when the transaction is still active and never a rollback.
   */
  lemma TransactionDecision(tx: Transaction, active: bool, exc: bool, ok: bool)
    ensures var s := ResolveTransaction(tx, active, exc, ok);
      Count(s.calls, Rollback(tx)) == (if exc then 1 else 0)
      && Count(s.calls, Commit(tx)) == (if !exc && active then 1 else 0)
  {
  }

  /**
   * A scope entered through its coroutine and then exited has awaited the
   * coroutine once and called `close()` on exactly the object it produced;
   * it holds nothing again iff that close returned.
   */
  lemma EnterThenCloseObj(coro: object, obj: Resource?, r: Resource, closeOk: bool)
    ensures var e := EnterObj(coro, false, obj, Returns(r));
      var x := CloseObj(e.post.1, closeOk);
      e.result == Ok(r) && e.calls + x.calls == [Await(coro), Close(r)]
      && (x.post == null <==> closeOk) && (x.result.Ok? <==> closeOk)
  {
  }

  /**
   * The same for the pool-lifetime scope: the produced pool is closed, and
   * waited for only after its close returned; the scope lets go of it iff
   * both calls returned.
   */
  lemma EnterThenClosePool(coro: object, pool: Pool?, p: Pool, closeOk: bool, waitOk: bool)
    ensures var e := EnterObj(coro, false, pool, Returns(p));
      var x := ClosePool(e.post.1, closeOk, waitOk);
      e.calls + x.calls == [Await(coro), Close(p)] + (if closeOk then [WaitClosed(p)] else [])
      && (x.post == null <==> closeOk && waitOk)
  {
  }

  /**
   * Exiting twice is not a no-op: the first successful exit cleared `_obj`,
   * so the second raises AttributeError and makes no call.
   */
  lemma SecondExitRaises(obj: Resource, pool: Pool, tx: Transaction, active: bool, exc: bool,
                         closeOk2: bool, waitOk2: bool, active2: bool, exc2: bool, ok2: bool)
    ensures CloseObj(CloseObj(obj, true).post, closeOk2) == Step(null, [], Err(NoneAttribute))
    ensures ClosePool(ClosePool(pool, true, true).post, closeOk2, waitOk2) == Step(null, [], Err(NoneAttribute))
    ensures ResolveTransaction(ResolveTransaction(tx, active, exc, true).post, active2, exc2, ok2)
      == Step(null, [], Err(NoneAttribute))
  {
  }

  /**
   * A failed rollback or commit leaves the manager as it was before the
   * exit: the next exit resolves the transaction afresh, by its own
   * exception flag and the `is_active` it then reads. With the same flag it
   * makes the same call again; after a failed rollback, an exit without an
   * exception commits an active transaction instead.
   */
  lemma FailedResolutionIsRetried(tx: Transaction, active: bool, exc: bool, active2: bool, exc2: bool, ok2: bool)
    requires exc || active
    ensures var s := ResolveTransaction(tx, active, exc, false);
      s.post == tx
      && ResolveTransaction(s.post, active2, exc2, ok2) == ResolveTransaction(tx, active2, exc2, ok2)
      && (exc2 == exc && active2 == active ==> ResolveTransaction(s.post, active2, exc2, ok2).calls == s.calls)
      && (exc && !exc2 && active2 ==> ResolveTransaction(s.post, active2, exc2, ok2).calls == [Commit(tx)])
  {
  }
}
