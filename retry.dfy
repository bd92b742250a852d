/**
 * The retry decision loop of `yield().fetch` in js/fetch.old.js (lines 207-290),
 * run against a scripted sequence of attempt outcomes. Timers and the promise
 * races are abstracted: an abort, a superseding fetch or the overall timeout
 * firing shows up as an `Aborted` outcome of the attempt it interrupts.
 */
module Retry {
  import opened Wrappers
  import opened JsValues
  import opened Backoff

  /** An opaque response object. */
  datatype Response = Response(id: nat)

  /** What aborted the call's signal: the runner's `abort()`, a later `fetch()`
      on the same runner (which calls `abort()` first), or the overall timeout. */
  datatype AbortCause = ExplicitAbort | Superseded | TimedOut

  /** The outcome of one attempt. `Aborted(_, true)` means the signal aborted
      while the attempt was still waiting out its delay, before `fetch` was called. */
  datatype Attempt =
    | Ok(response: Response)
    | NotOk(response: Response)
    | Failed(error: nat)
    | Aborted(cause: AbortCause, beforeRequest: bool)
  {
    /** A failure that is not an `AbortError`: a non-ok response or a network error. */
    predicate Retryable() {
      NotOk? || Failed?
    }
  }

  /** What a rejected call is rejected with: the non-ok response itself, or the error. */
  datatype Reason = BadResponse(response: Response) | Error(error: nat)

  /** The three outcomes a caller can tell apart: a value, `false` (declined), a rejection. */
  datatype Settlement = Resolved(response: Response) | Declined | Rejected(reason: Reason)

  /** What the caller can observe during a call: hook invocations and network requests. */
  datatype Event =
    | RetryHook(callback: Fn, count: nat, delay: nat, max: Option<nat>)
    | Request(delay: nat)
    | TimeoutHook(callback: Fn)
    | AbortHook(callback: Fn)

  datatype Tag = RetryTag | RequestTag | TimeoutTag | AbortTag

  predicate Tagged(e: Event, tag: Tag) {
    match tag
    case RetryTag => e.RetryHook?
    case RequestTag => e.Request?
    case TimeoutTag => e.TimeoutHook?
    case AbortTag => e.AbortHook?
  }

  /** The events of one kind, in order. */
  function Only(t: seq<Event>, tag: Tag): seq<Event>
  {
    if t == [] then []
    else (if Tagged(t[0], tag) then [t[0]] else []) + Only(t[1..], tag)
  }

  lemma {:induction false} OnlyAppend(a: seq<Event>, b: seq<Event>, tag: Tag)
    ensures Only(a + b, tag) == Only(a, tag) + Only(b, tag)
  {
    if a == [] {
      assert a + b == b;
    } else {
      var h := if Tagged(a[0], tag) then [a[0]] else [];
      var x, y := Only(a[1..], tag), Only(b, tag);
      assert (a + b)[0] == a[0] && (a + b)[1..] == a[1..] + b;
      OnlyAppend(a[1..], b, tag);
      assert Only(a + b, tag) == h + (x + y);
      assert Only(a, tag) == h + x;
      assert h + (x + y) == (h + x) + y;
    }
  }

  /** `Only` keeps exactly the events of its kind. */
  lemma {:induction false} OnlyMember(t: seq<Event>, tag: Tag, e: Event)
    ensures e in Only(t, tag) <==> e in t && Tagged(e, tag)
  {
    if t != [] {
      OnlyMember(t[1..], tag, e);
      assert t == [t[0]] + t[1..];
    }
  }

  lemma OnlySingle(e: Event, tag: Tag)
    ensures Only([e], tag) == if Tagged(e, tag) then [e] else []
  {
    assert [e][1..] == [];
  }

  /** The client settings a fetch reads (the closure variables of `Fetch`). */
  datatype Policy = Policy(
    maxRetries: Option<nat>,
    onRetry: Option<Fn>,
    onAbort: Option<Fn>,
    timeout: Option<nat>,
    onTimeout: Option<Fn>,
    sequence: Option<Kind>)

  /** A finished call: its events, its settlement, how many outcomes it consumed,
      and the runner's final `retries` and `delay`. */
  datatype Call = Call(trace: seq<Event>, settlement: Settlement, attempts: nat, retries: nat, delay: nat)

  /** `__maxRetries__` as the loop's guard reads it: unset and 0 both mean "no retry". */
  function RetryLimit(p: Policy): (n: nat)
    ensures n == 0 <==> p.maxRetries.None? || p.maxRetries.value == 0
  {
    if p.maxRetries.Some? then p.maxRetries.value else 0
  }

  /** How the last attempt settles the call (fetch.old.js:231, 283-290): an ok
      response resolves it, an abort declines it, and a retryable failure rejects it. */
  function Final(a: Attempt): (s: Settlement)
    ensures s.Resolved? <==> a.Ok?
    ensures s.Declined? <==> a.Aborted?
    ensures s.Rejected? <==> a.Retryable()
  {
    match a
    case Ok(r) => Resolved(r)
    case NotOk(r) => Rejected(BadResponse(r))
    case Failed(e) => Rejected(Error(e))
    case Aborted(_, _) => Declined
  }

  /** The events of one attempt once its delay is over: `onRetry` on a retry, then
      the request; nothing when the abort came while the attempt was waiting. */
  function Start(p: Policy, a: Attempt, retries: nat, delay: nat): seq<Event> {
    if a.Aborted? && a.beforeRequest then []
    else
      (if p.onRetry.Some? && retries > 0 then [RetryHook(p.onRetry.value, retries, delay, p.maxRetries)] else [])
      + [Request(delay)]
  }

  /** One attempt's own events: never an abort or timeout hook; the request unless
      the abort came first; `onRetry` before it on a retry. */
  lemma StartEvents(p: Policy, a: Attempt, r: nat, d: nat)
    ensures var s := Start(p, a, r, d);
      var requested := !(a.Aborted? && a.beforeRequest);
      && Only(s, AbortTag) == [] && Only(s, TimeoutTag) == []
      && Only(s, RequestTag) == (if requested then [Request(d)] else [])
      && Only(s, RetryTag) ==
           (if requested && p.onRetry.Some? && r > 0 then [RetryHook(p.onRetry.value, r, d, p.maxRetries)] else [])
  {
    var s := Start(p, a, r, d);
    if !(a.Aborted? && a.beforeRequest) {
      OnlySingle(Request(d), AbortTag);
      OnlySingle(Request(d), TimeoutTag);
      OnlySingle(Request(d), RequestTag);
      OnlySingle(Request(d), RetryTag);
      if p.onRetry.Some? && r > 0 {
        var hook := RetryHook(p.onRetry.value, r, d, p.maxRetries);
        assert s == [hook] + [Request(d)];
        OnlySingle(hook, AbortTag);
        OnlySingle(hook, TimeoutTag);
        OnlySingle(hook, RequestTag);
        OnlySingle(hook, RetryTag);
        OnlyAppend([hook], [Request(d)], AbortTag);
        OnlyAppend([hook], [Request(d)], TimeoutTag);
        OnlyAppend([hook], [Request(d)], RequestTag);
        OnlyAppend([hook], [Request(d)], RetryTag);
      } else {
        assert s == [Request(d)];
      }
    }
  }

  /** The hooks an abort runs: `onTimeout` right after the timeout's own `abort()`,
      then `onAbort` when the call settles to `false`. */
  function AbortHooks(p: Policy, cause: AbortCause): seq<Event> {
    (if cause == TimedOut && p.onTimeout.Some? then [TimeoutHook(p.onTimeout.value)] else [])
    + (if p.onAbort.Some? then [AbortHook(p.onAbort.value)] else [])
  }

  /** The call from attempt `retries` on, waiting `delay` first. A retryable failure
      is retried while `retries < __maxRetries__`; the post-increment in the guard
      still counts the failure that exhausts the retries. */
  function Run(p: Policy, o: nat -> Attempt, retries: nat, delay: nat): (c: Call)
    ensures retries < c.attempts
    decreases RetryLimit(p) - retries
  {
    var a := o(retries);
    var start := Start(p, a, retries, delay);
    if a.Retryable() && retries < RetryLimit(p) then
      var next := Run(p, o, retries + 1, SequenceDelay(p.sequence, retries + 1));
      next.(trace := start + next.trace)
    else
      var trace := if a.Aborted? then start + AbortHooks(p, a.cause) else start;
      var retries' := if a.Retryable() && RetryLimit(p) > 0 then retries + 1 else retries;
      Call(trace, Final(a), retries + 1, retries', delay)
  }

  /** A call with earlier events in front. */
  function Prepend(t: seq<Event>, c: Call): Call {
    c.(trace := t + c.trace)
  }

  lemma PrependTwice(t: seq<Event>, u: seq<Event>, c: Call)
    ensures Prepend(t, Prepend(u, c)) == Prepend(t + u, c)
  {
    assert t + (u + c.trace) == (t + u) + c.trace;
  }

  /** One attempt of a call: a retried failure hands over to the next attempt after
      its own events; otherwise the attempt ends the call. */
  lemma RunStep(p: Policy, o: nat -> Attempt, r: nat, d: nat)
    ensures var a := o(r);
      Run(p, o, r, d) ==
        if a.Retryable() && r < RetryLimit(p) then
          Prepend(Start(p, a, r, d), Run(p, o, r + 1, SequenceDelay(p.sequence, r + 1)))
        else
          Call(Start(p, a, r, d) + (if a.Aborted? then AbortHooks(p, a.cause) else []),
               Final(a), r + 1, if a.Retryable() && RetryLimit(p) > 0 then r + 1 else r, d)
  {
    var a := o(r);
    if !(a.Retryable() && r < RetryLimit(p)) && !a.Aborted? {
      assert Start(p, a, r, d) + [] == Start(p, a, r, d);
    }
  }

  /** A call seen after its first attempts: a retried attempt `k` hands over to attempt `k + 1`. */
  lemma RunContinues(p: Policy, o: nat -> Attempt, t: seq<Event>, k: nat, d: nat)
    requires Run(p, o, 0, 0) == Prepend(t, Run(p, o, k, d))
    requires o(k).Retryable() && k < RetryLimit(p)
    ensures Run(p, o, 0, 0) ==
      Prepend(t + Start(p, o(k), k, d), Run(p, o, k + 1, SequenceDelay(p.sequence, k + 1)))
  {
    RunStep(p, o, k, d);
    PrependTwice(t, Start(p, o(k), k, d), Run(p, o, k + 1, SequenceDelay(p.sequence, k + 1)));
  }

  /** A call seen after its first attempts: an attempt `k` that is not retried ends it. */
  lemma RunEnds(p: Policy, o: nat -> Attempt, t: seq<Event>, k: nat, d: nat)
    requires Run(p, o, 0, 0) == Prepend(t, Run(p, o, k, d))
    requires !(o(k).Retryable() && k < RetryLimit(p))
    ensures var a := o(k);
      Run(p, o, 0, 0) ==
        Call(t + (Start(p, a, k, d) + (if a.Aborted? then AbortHooks(p, a.cause) else [])),
             Final(a), k + 1, if a.Retryable() && RetryLimit(p) > 0 then k + 1 else k, d)
  {
    RunStep(p, o, k, d);
  }

  /** A call is a run of retryable failures ended by one final attempt; the final
      attempt alone decides the settlement, and a retryable failure ends the call
      only once the retries are used up. In particular an `AbortError` is never retried. */
  lemma {:induction false} RunShape(p: Policy, o: nat -> Attempt, r: nat, d: nat)
    ensures var c := Run(p, o, r, d);
      && r < c.attempts <= (if r < RetryLimit(p) then RetryLimit(p) else r) + 1
      && (forall k :: r <= k < c.attempts - 1 ==> o(k).Retryable() && k < RetryLimit(p))
      && c.settlement == Final(o(c.attempts - 1))
      && (o(c.attempts - 1).Retryable() ==> c.attempts - 1 >= RetryLimit(p))
    decreases RetryLimit(p) - r
  {
    var a := o(r);
    if a.Retryable() && r < RetryLimit(p) {
      RunShape(p, o, r + 1, SequenceDelay(p.sequence, r + 1));
    }
  }

  /** The runner's `retries` counter after a call: one per attempt that was
      followed by a retry, plus one for a final retryable failure when
      `maxRetries` is positive (the guard's post-increment); the delay left is
      the one the last attempt waited. */
  lemma {:induction false} RetriesCounted(p: Policy, o: nat -> Attempt, r: nat, d: nat)
    ensures var c := Run(p, o, r, d);
      c.retries == (if o(c.attempts - 1).Retryable() && RetryLimit(p) > 0 then c.attempts else c.attempts - 1)
    ensures var c := Run(p, o, r, d);
      c.delay == (if c.attempts - 1 == r then d else SequenceDelay(p.sequence, c.attempts - 1))
    decreases RetryLimit(p) - r
  {
    var a := o(r);
    if a.Retryable() && r < RetryLimit(p) {
      RetriesCounted(p, o, r + 1, SequenceDelay(p.sequence, r + 1));
    }
  }

  /** An attempt that ends in an `AbortError` is the last one, and the call declines. */
  lemma AbortedAttemptIsLast(p: Policy, o: nat -> Attempt, k: nat)
    requires k < Run(p, o, 0, 0).attempts && o(k).Aborted?
    ensures Run(p, o, 0, 0).attempts == k + 1
    ensures Run(p, o, 0, 0).settlement == Declined
  {
    RunShape(p, o, 0, 0);
  }

  /** With `maxRetries` unset or 0 there is exactly one attempt, with no delay and no `onRetry`. */
  lemma SingleAttempt(p: Policy, o: nat -> Attempt)
    requires RetryLimit(p) == 0
    ensures var c := Run(p, o, 0, 0);
      && c.attempts == 1
      && c.settlement == Final(o(0))
      && Only(c.trace, RetryTag) == []
      && Only(c.trace, RequestTag) == (if o(0).Aborted? && o(0).beforeRequest then [] else [Request(0)])
  {
    var a := o(0);
    var start := Start(p, a, 0, 0);
    StartEvents(p, a, 0, 0);
    if a.Aborted? {
      AbortHookEvents(p, a.cause);
      OnlyAppend(start, AbortHooks(p, a.cause), RetryTag);
      OnlyAppend(start, AbortHooks(p, a.cause), RequestTag);
    } else {
      assert Run(p, o, 0, 0).trace == start;
    }
  }

  /** The requests of retries r..N: each waits the sequence's delay for its count. */
  function Requests(s: Option<Kind>, r: nat, n: nat): (rq: seq<Event>)
    ensures |rq| == if r <= n then n - r + 1 else 0
    decreases n + 1 - r
  {
    if r > n then [] else [Request(SequenceDelay(s, r))] + Requests(s, r + 1, n)
  }

  /** The `onRetry` calls of retries r..N: count, delay and maximum. */
  function RetryHooks(cb: Fn, s: Option<Kind>, r: nat, n: nat): (rh: seq<Event>)
    ensures |rh| == if r <= n then n - r + 1 else 0
    decreases n + 1 - r
  {
    if r > n then [] else [RetryHook(cb, r, SequenceDelay(s, r), Some(n))] + RetryHooks(cb, s, r + 1, n)
  }

  lemma {:induction false} RequestsAt(s: Option<Kind>, r: nat, n: nat, i: nat)
    requires r + i <= n
    ensures Requests(s, r, n)[i] == Request(SequenceDelay(s, r + i))
    decreases i
  {
    if i > 0 {
      RequestsAt(s, r + 1, n, i - 1);
    }
  }

  lemma {:induction false} RetryHooksAt(cb: Fn, s: Option<Kind>, r: nat, n: nat, i: nat)
    requires r + i <= n
    ensures RetryHooks(cb, s, r, n)[i] == RetryHook(cb, r + i, SequenceDelay(s, r + i), Some(n))
    decreases i
  {
    if i > 0 {
      RetryHooksAt(cb, s, r + 1, n, i - 1);
    }
  }

  /** A failed retry r of N: its request and `onRetry` call, then the next retry's events. */
  lemma FailedRetryStep(p: Policy, o: nat -> Attempt, n: nat, r: nat, tag: Tag)
    requires p.maxRetries == Some(n) && 1 <= r <= n && o(r).Retryable()
    requires tag == RequestTag || tag == RetryTag
    ensures var d := SequenceDelay(p.sequence, r);
      Only(Run(p, o, r, d).trace, tag) ==
        (if tag == RequestTag then [Request(d)]
         else if p.onRetry.Some? then [RetryHook(p.onRetry.value, r, d, Some(n))] else [])
        + (if r < n then Only(Run(p, o, r + 1, SequenceDelay(p.sequence, r + 1)).trace, tag) else [])
  {
    var d := SequenceDelay(p.sequence, r);
    OnlyStep(p, o, r, d, tag);
    StartEvents(p, o(r), r, d);
  }

  /** Retries r..N when every attempt fails: one request per retry, in order. */
  lemma {:induction false} FailingRequests(p: Policy, o: nat -> Attempt, n: nat, r: nat)
    requires p.maxRetries == Some(n) && 1 <= r <= n
    requires forall k :: o(k).Retryable()
    ensures Only(Run(p, o, r, SequenceDelay(p.sequence, r)).trace, RequestTag) == Requests(p.sequence, r, n)
    decreases n - r
  {
    var d := SequenceDelay(p.sequence, r);
    var here := Only(Run(p, o, r, d).trace, RequestTag);
    FailedRetryStep(p, o, n, r, RequestTag);
    if r < n {
      var rest := Only(Run(p, o, r + 1, SequenceDelay(p.sequence, r + 1)).trace, RequestTag);
      FailingRequests(p, o, n, r + 1);
      assert here == [Request(d)] + rest;
      assert rest == Requests(p.sequence, r + 1, n);
    } else {
      assert here == [Request(d)] + [];
      assert Requests(p.sequence, r + 1, n) == [];
    }
  }

  /** Retries r..N when every attempt fails: each is announced to `onRetry`. */
  lemma {:induction false} FailingRetryHooks(p: Policy, o: nat -> Attempt, n: nat, r: nat)
    requires p.maxRetries == Some(n) && 1 <= r <= n
    requires forall k :: o(k).Retryable()
    ensures Only(Run(p, o, r, SequenceDelay(p.sequence, r)).trace, RetryTag) ==
      if p.onRetry.Some? then RetryHooks(p.onRetry.value, p.sequence, r, n) else []
    decreases n - r
  {
    var d := SequenceDelay(p.sequence, r);
    var here := Only(Run(p, o, r, d).trace, RetryTag);
    FailedRetryStep(p, o, n, r, RetryTag);
    if r < n {
      var rest := Only(Run(p, o, r + 1, SequenceDelay(p.sequence, r + 1)).trace, RetryTag);
      FailingRetryHooks(p, o, n, r + 1);
      if p.onRetry.Some? {
        assert here == [RetryHook(p.onRetry.value, r, d, Some(n))] + rest;
      } else {
        assert here == [] + rest;
      }
    } else if p.onRetry.Some? {
      assert here == [RetryHook(p.onRetry.value, r, d, Some(n))] + [];
      assert RetryHooks(p.onRetry.value, p.sequence, r + 1, n) == [];
    } else {
      assert here == [] + [];
    }
  }

  /** With `maxRetries` = N and every attempt failing there are exactly N + 1
      attempts: the first without delay or `onRetry`, then retries 1..N, each
      announced as {count, delay = sequence(count), max = N}; the call is rejected
      with the last failure and no abort or timeout hook runs. */
  lemma AllAttemptsFail(p: Policy, o: nat -> Attempt, n: nat)
    requires p.maxRetries == Some(n)
    requires forall k :: o(k).Retryable()
    ensures var c := Run(p, o, 0, 0);
      && c.attempts == n + 1
      && c.retries == (if n > 0 then n + 1 else 0)
      && c.settlement == Final(o(n))
      && Only(c.trace, RequestTag) == [Request(0)] + Requests(p.sequence, 1, n)
      && Only(c.trace, RetryTag) == (if p.onRetry.Some? then RetryHooks(p.onRetry.value, p.sequence, 1, n) else [])
      && Only(c.trace, TimeoutTag) == [] && Only(c.trace, AbortTag) == []
  {
    FailedCallShape(p, o, n);
    FailedCallEvents(p, o, n, RequestTag);
    FailedCallEvents(p, o, n, RetryTag);
  }

  /** The counts, the settlement and the absent abort hooks of a call whose every attempt fails. */
  lemma FailedCallShape(p: Policy, o: nat -> Attempt, n: nat)
    requires p.maxRetries == Some(n)
    requires forall k :: o(k).Retryable()
    ensures var c := Run(p, o, 0, 0);
      && c.attempts == n + 1
      && c.retries == (if n > 0 then n + 1 else 0)
      && c.settlement == Final(o(n))
      && Only(c.trace, TimeoutTag) == [] && Only(c.trace, AbortTag) == []
  {
    RunShape(p, o, 0, 0);
    RetriesCounted(p, o, 0, 0);
    AbortHookOnDecline(p, o, 0, 0);
    TimeoutHookOnTimeout(p, o, 0, 0);
    assert o(n).Retryable();
  }

  /** The requests and `onRetry` calls of a call whose every attempt fails. */
  lemma FailedCallEvents(p: Policy, o: nat -> Attempt, n: nat, tag: Tag)
    requires p.maxRetries == Some(n)
    requires forall k :: o(k).Retryable()
    requires tag == RequestTag || tag == RetryTag
    ensures Only(Run(p, o, 0, 0).trace, tag) ==
      if tag == RequestTag then [Request(0)] + Requests(p.sequence, 1, n)
      else if p.onRetry.Some? then RetryHooks(p.onRetry.value, p.sequence, 1, n) else []
  {
    assert o(0).Retryable();
    OnlyStep(p, o, 0, 0, tag);
    StartEvents(p, o(0), 0, 0);
    if n > 0 {
      if tag == RequestTag {
        FailingRequests(p, o, n, 1);
      } else {
        FailingRetryHooks(p, o, n, 1);
      }
    } else {
      assert Requests(p.sequence, 1, n) == [];
      assert p.onRetry.Some? ==> RetryHooks(p.onRetry.value, p.sequence, 1, n) == [];
    }
  }

  lemma AbortHookEvents(p: Policy, cause: AbortCause)
    ensures var h := AbortHooks(p, cause);
      && Only(h, RetryTag) == [] && Only(h, RequestTag) == []
      && Only(h, AbortTag) == (if p.onAbort.Some? then [AbortHook(p.onAbort.value)] else [])
      && Only(h, TimeoutTag) ==
           (if cause == TimedOut && p.onTimeout.Some? then [TimeoutHook(p.onTimeout.value)] else [])
  {
    var th := if cause == TimedOut && p.onTimeout.Some? then [TimeoutHook(p.onTimeout.value)] else [];
    var ah := if p.onAbort.Some? then [AbortHook(p.onAbort.value)] else [];
    forall tag: Tag
      ensures Only(th + ah, tag) == Only(th, tag) + Only(ah, tag)
      ensures th != [] ==> Only(th, tag) == Only([th[0]], tag)
      ensures ah != [] ==> Only(ah, tag) == Only([ah[0]], tag)
    {
      OnlyAppend(th, ah, tag);
    }
    if th != [] {
      OnlySingle(th[0], RetryTag);
      OnlySingle(th[0], RequestTag);
      OnlySingle(th[0], AbortTag);
      OnlySingle(th[0], TimeoutTag);
    }
    if ah != [] {
      OnlySingle(ah[0], RetryTag);
      OnlySingle(ah[0], RequestTag);
      OnlySingle(ah[0], AbortTag);
      OnlySingle(ah[0], TimeoutTag);
    }
  }

  /** `onAbort` runs only when the call declines, and then exactly once; it never
      runs on a resolved or rejected call. */
  lemma {:induction false} AbortHookOnDecline(p: Policy, o: nat -> Attempt, r: nat, d: nat)
    ensures var c := Run(p, o, r, d);
      Only(c.trace, AbortTag) ==
        (if c.settlement.Declined? && p.onAbort.Some? then [AbortHook(p.onAbort.value)] else [])
    decreases RetryLimit(p) - r
  {
    var a := o(r);
    var start := Start(p, a, r, d);
    var c := Run(p, o, r, d);
    RunStep(p, o, r, d);
    StartEvents(p, a, r, d);
    if a.Retryable() && r < RetryLimit(p) {
      var next := Run(p, o, r + 1, SequenceDelay(p.sequence, r + 1));
      AbortHookOnDecline(p, o, r + 1, SequenceDelay(p.sequence, r + 1));
      assert c.trace == start + next.trace && c.settlement == next.settlement;
      OnlyAppend(start, next.trace, AbortTag);
    } else if a.Aborted? {
      var hooks := AbortHooks(p, a.cause);
      assert c.trace == start + hooks && c.settlement == Declined;
      AbortHookEvents(p, a.cause);
      OnlyAppend(start, hooks, AbortTag);
    } else {
      assert c.trace == start + [] && !c.settlement.Declined?;
    }
  }

  /** A declined call's last event is `onAbort`, when one is set. */
  lemma {:induction false} AbortHookIsLast(p: Policy, o: nat -> Attempt, r: nat, d: nat)
    requires p.onAbort.Some? && Run(p, o, r, d).settlement.Declined?
    ensures var t := Run(p, o, r, d).trace; t != [] && t[|t| - 1] == AbortHook(p.onAbort.value)
    decreases RetryLimit(p) - r
  {
    var a := o(r);
    var start := Start(p, a, r, d);
    var c := Run(p, o, r, d);
    if a.Retryable() && r < RetryLimit(p) {
      var next := Run(p, o, r + 1, SequenceDelay(p.sequence, r + 1));
      AbortHookIsLast(p, o, r + 1, SequenceDelay(p.sequence, r + 1));
      assert c.trace == start + next.trace;
    } else {
      assert a.Aborted?;
      assert c.trace == start + AbortHooks(p, a.cause);
    }
  }

  /** The events of one tag in a call: the first attempt's, then those of the rest
      of the call or of the hooks its abort runs. */
  lemma OnlyStep(p: Policy, o: nat -> Attempt, r: nat, d: nat, tag: Tag)
    ensures var a := o(r);
      Only(Run(p, o, r, d).trace, tag) ==
        Only(Start(p, a, r, d), tag) +
        if a.Retryable() && r < RetryLimit(p) then Only(Run(p, o, r + 1, SequenceDelay(p.sequence, r + 1)).trace, tag)
        else if a.Aborted? then Only(AbortHooks(p, a.cause), tag)
        else []
  {
    var a := o(r);
    var start := Start(p, a, r, d);
    RunStep(p, o, r, d);
    if a.Retryable() && r < RetryLimit(p) {
      OnlyAppend(start, Run(p, o, r + 1, SequenceDelay(p.sequence, r + 1)).trace, tag);
    } else if a.Aborted? {
      OnlyAppend(start, AbortHooks(p, a.cause), tag);
    } else {
      assert start + [] == start;
    }
  }

  /** `onTimeout` runs exactly once when the timeout is what aborted the call's
      last attempt, and never otherwise. */
  lemma {:induction false} TimeoutHookOnTimeout(p: Policy, o: nat -> Attempt, r: nat, d: nat)
    ensures var c := Run(p, o, r, d);
      Only(c.trace, TimeoutTag) == TimeoutHooks(p, o(c.attempts - 1))
    decreases RetryLimit(p) - r
  {
    var c := Run(p, o, r, d);
    TimeoutStep(p, o, r, d);
    if o(r).Retryable() && r < RetryLimit(p) {
      var next := Run(p, o, r + 1, SequenceDelay(p.sequence, r + 1));
      TimeoutHookOnTimeout(p, o, r + 1, SequenceDelay(p.sequence, r + 1));
      assert c.attempts == next.attempts;
      assert Only(c.trace, TimeoutTag) == TimeoutHooks(p, o(next.attempts - 1));
    } else {
      assert c.attempts - 1 == r;
      assert Only(c.trace, TimeoutTag) == TimeoutHooks(p, o(r));
    }
  }

  /** The `onTimeout` hook a call ends with, given its last attempt. */
  function TimeoutHooks(p: Policy, last: Attempt): (h: seq<Event>)
    ensures h != [] <==> last.Aborted? && last.cause == TimedOut && p.onTimeout.Some?
    ensures h != [] ==> h == [TimeoutHook(p.onTimeout.value)]
  {
    if last.Aborted? && last.cause == TimedOut && p.onTimeout.Some? then [TimeoutHook(p.onTimeout.value)] else []
  }

  /** One attempt's share of the `onTimeout` hooks: none unless it ends the call. */
  lemma TimeoutStep(p: Policy, o: nat -> Attempt, r: nat, d: nat)
    ensures var c := Run(p, o, r, d);
      if o(r).Retryable() && r < RetryLimit(p) then
        var next := Run(p, o, r + 1, SequenceDelay(p.sequence, r + 1));
        Only(c.trace, TimeoutTag) == Only(next.trace, TimeoutTag) && c.attempts == next.attempts
      else
        Only(c.trace, TimeoutTag) == TimeoutHooks(p, o(r)) && c.attempts == r + 1
  {
    var a := o(r);
    OnlyStep(p, o, r, d, TimeoutTag);
    StartEvents(p, a, r, d);
    RunStep(p, o, r, d);
    if !(a.Retryable() && r < RetryLimit(p)) && a.Aborted? {
      AbortHookEvents(p, a.cause);
    }
  }

  /**
   * As written, the overall timeout's timer is cleared only on the rejection path
   * (fetch.old.js:273-280). After a resolved call it stays armed, and if it elapses
   * it still runs `this.abort()` and `onTimeout` (fetch.old.js:266-269): the hooks
   * that fire after settlement.
   */
  function LateHooksAsWritten(p: Policy, s: Settlement, elapses: bool): (late: seq<Event>)
    ensures late != [] <==> s.Resolved? && p.timeout.Some? && elapses && p.onTimeout.Some?
    ensures late != [] ==> late == [TimeoutHook(p.onTimeout.value)]
  {
    if s.Resolved? && p.timeout.Some? && elapses && p.onTimeout.Some? then [TimeoutHook(p.onTimeout.value)]
    else []
  }

  /** A resolved call whose timeout later elapses runs `onTimeout` anyway. */
  lemma TimeoutHookAfterSuccess()
    ensures var hook := Fn(1, NonInteger);
      var p := Policy(None, None, None, Some(200), Some(hook), None);
      var c := Run(p, _ => Ok(Response(0)), 0, 0);
      && c.settlement == Resolved(Response(0))
      && TimeoutHook(hook) in c.trace + LateHooksAsWritten(p, c.settlement, true)
  {
    var hook := Fn(1, NonInteger);
    var p := Policy(None, None, None, Some(200), Some(hook), None);
    var c := Run(p, _ => Ok(Response(0)), 0, 0);
    assert c.trace + LateHooksAsWritten(p, c.settlement, true) == [Request(0), TimeoutHook(hook)];
  }

  /** In the model (timer released at every settlement, so a call's events end
      with its settlement) `onTimeout` runs only for a call the timeout declined. */
  lemma TimeoutHookOnlyWhenDeclined(p: Policy, o: nat -> Attempt, cb: Fn)
    requires TimeoutHook(cb) in Run(p, o, 0, 0).trace
    ensures Run(p, o, 0, 0).settlement == Declined
    ensures var last := o(Run(p, o, 0, 0).attempts - 1); last.Aborted? && last.cause == TimedOut
    ensures p.onTimeout == Some(cb)
  {
    var c := Run(p, o, 0, 0);
    OnlyMember(c.trace, TimeoutTag, TimeoutHook(cb));
    TimeoutHookOnTimeout(p, o, 0, 0);
    assert TimeoutHook(cb) in TimeoutHooks(p, o(c.attempts - 1));
    RunShape(p, o, 0, 0);
  }
}
