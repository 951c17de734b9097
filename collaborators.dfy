/**
 * The collaborators of the context managers in aiopg/utils.py: the pool, its
 * connections, cursors and transactions, and the coroutines that produce them.
 * Their internals (free lists, networking, SQL) are not modelled: each is an
 * object whose identity matters, and every call made on one is appended to a
 * ghost trace. Whether a call raises is decided by the environment, passed in
 * as a flag per call.
 */
module Collaborators {

  /** Anything with a `close()` method that a coroutine can produce (a connection, an engine, ...). */
  class Resource {
    constructor () {}
  }

  class Pool {
    constructor () {}
  }

  class Connection {
    constructor () {}
  }

  class Cursor {
    constructor () {}
  }

  /** A transaction; `is_active` is the only part of its state the managers read. */
  class Transaction {
    var isActive: bool
    constructor (active: bool)
      ensures isActive == active
    {
      isActive := active;
    }
  }

  /** One call made on a collaborator. */
  datatype Event =
    | Await(coro: object)               // `yield from coro`
    | Close(target: object)             // `target.close()`
    | WaitClosed(pool: Pool)            // `yield from pool.wait_closed()`
    | Rollback(tx: Transaction)         // `yield from tx.rollback()`
    | Commit(tx: Transaction)           // `yield from tx.commit()`
    | Acquire(pool: Pool)               // `yield from pool.acquire()`
    | Release(pool: Pool, conn: Connection?)  // `pool.release(conn)`
    | Enter(target: object)             // `yield from target.__aenter__()`
    | Exit(target: object, exc: bool)   // `yield from target.__aexit__(...)`, exc: an exception is in flight

  /** The exceptions the managers raise or let through. */
  datatype Error =
    | AssertionFailed          // an `assert` on the manager's fields failed
    | NoneAttribute            // a method was looked up on None (AttributeError)
    | NotAwaitable             // `yield from None` (TypeError)
    | CoroutineReused          // a coroutine that already ran to its end was awaited again
    | CallFailed(call: Event)  // the collaborator raised during this call

  datatype Result<+T> = Ok(value: T) | Err(error: Error)

  /** What the environment makes a value-returning collaborator call do. */
  datatype Reply<+T> = Returns(value: T) | Raises

  /**
   * The effect of one operation given the state before it: the state after it,
   * the collaborator calls it made in order, and what it returned or raised.
   */
  datatype Step<+S, +T> = Step(post: S, calls: seq<Event>, result: Result<T>)

  /** The result of a call whose environment flag is `ok`. */
  function Outcome(c: Event, ok: bool): (r: Result<()>)
    ensures r.Ok? <==> ok
    ensures r.Err? ==> r.error == CallFailed(c)
  {
    if ok then Ok(()) else Err(CallFailed(c))
  }

  /** The result of a value-returning call that the environment answers with `reply`. */
  function Answer<T>(c: Event, reply: Reply<T>): (r: Result<T>)
    ensures r.Ok? <==> reply.Returns?
    ensures r.Ok? ==> r.value == reply.value
    ensures r.Err? ==> r.error == CallFailed(c)
  {
    match reply
    case Returns(v) => Ok(v)
    case Raises => Err(CallFailed(c))
  }

  /** The log of collaborator calls, shared by all managers and collaborators. */
  class Trace {
    ghost var events: seq<Event>

    constructor ()
      ensures events == []
    {
      events := [];
    }

    /** Makes the call `c`; it raises unless `ok`. */
    method Call(c: Event, ok: bool) returns (r: Result<()>)
      modifies this
      ensures events == old(events) + [c]
      ensures r == Outcome(c, ok)
    {
      events := events + [c];
      r := Outcome(c, ok);
    }

    /** Makes the value-returning call `c`, which returns or raises as `reply` says. */
    method Request<T>(c: Event, reply: Reply<T>) returns (r: Result<T>)
      modifies this
      ensures events == old(events) + [c]
      ensures r == Answer(c, reply)
    {
      events := events + [c];
      r := Answer(c, reply);
    }
  }

  /**
   * Resuming a coroutine to its end: a fresh one runs (one Await call) and
   * returns or raises as the environment says; an exhausted one raises at once
   * without running. Either way it is exhausted afterwards.
   */
  function Resume<T>(coro: object, done: bool, reply: Reply<T>): (s: Step<bool, T>)
    ensures s.post
    ensures done ==> s.calls == [] && s.result == Err(CoroutineReused)
    ensures !done ==> s.calls == [Await(coro)]
    ensures !done ==> (s.result.Ok? <==> reply.Returns?)
    ensures s.result.Ok? ==> reply == Returns(s.result.value)
  {
    if done then Step(true, [], Err(CoroutineReused))
    else Step(true, [Await(coro)], Answer(Await(coro), reply))
  }

  /** A coroutine that produces one value of type T. */
  class Coroutine<T> {
    var done: bool

    constructor ()
      ensures !done
    {
      done := false;
    }

    /** `yield from self`. */
    method Await(trace: Trace, reply: Reply<T>) returns (r: Result<T>)
      modifies this, trace
      ensures var s := Resume(this, old(done), reply);
        done == s.post && trace.events == old(trace.events) + s.calls && r == s.result
    {
      if done {
        r := Err(CoroutineReused);
      } else {
        r := trace.Request(Event.Await(this), reply);
        done := true;
      }
    }
  }

  /** Counts the calls equal to `e` in `calls`. */
  function Count(calls: seq<Event>, e: Event): nat
  {
    if calls == [] then 0
    else (if calls[0] == e then 1 else 0) + Count(calls[1..], e)
  }

  /** The number of calls in `calls` that release a connection to a pool. */
  function Releases(calls: seq<Event>): nat
  {
    if calls == [] then 0
    else (if calls[0].Release? then 1 else 0) + Releases(calls[1..])
  }

  /** Release calls of two consecutive stretches of a trace add up. */
  lemma {:induction false} ReleasesAppend(a: seq<Event>, b: seq<Event>)
    ensures Releases(a + b) == Releases(a) + Releases(b)
  {
    if a == [] {
      assert a + b == b;
    } else {
      assert (a + b)[1..] == a[1..] + b;
      ReleasesAppend(a[1..], b);
    }
  }

  /** A trace with no Release call in it. */
  lemma {:induction false} ReleasesNone(calls: seq<Event>)
    requires forall i :: 0 <= i < |calls| ==> !calls[i].Release?
    ensures Releases(calls) == 0
  {
    if calls != [] {
      ReleasesNone(calls[1..]);
    }
  }
}
