/**
 * The `Fetch` client of js/fetch.old.js: its four setters (`abort`, `retry` and
 * its named sequences, `timeout`), `clone`, and the runner `yield()` hands out,
 * whose `fetch` is the retry loop specified by `Retry.Run`.
 */
module FetchClient {
  import opened Wrappers
  import opened JsValues
  import opened Backoff
  import opened Retry

  const DEFAULT_RETRIES: int := 1
  const DEFAULT_TIMEOUT: int := 5000

  /** The `i`th argument of a call; a missing one is `undefined`. */
  function ArgAt(args: seq<Arg>, i: nat): Arg {
    if i < |args| then args[i] else Undefined
  }

  /** The callback a setter keeps: a function, or nothing. */
  function Callback(a: Arg): (c: Option<Fn>)
    ensures c.Some? <==> a.Function?
    ensures c.Some? ==> c.value == a.f
  {
    if a.Function? then Some(a.f) else None
  }

  /** The retry count `retry` stores: `getNumber(count, 1)` clamped into the
      sequence's bounds, which are 0 and 12 for every sequence (fetch.old.js:114-118). */
  function RetryCount(count: Arg): (r: nat)
    ensures r <= DEFAULT_MAX_RETRIES
    ensures count.Null? ==> r == 0
    ensures count.Undefined? || count.Function? || count == Value(NonInteger) ==> r == DEFAULT_RETRIES
    ensures count.Value? && count.n.Integer? ==>
      r == (if count.n.value < 0 then 0 else if count.n.value > 12 then 12 else count.n.value)
  {
    var e := GetBoundedNumber(AsNum(GetNumber(ToNumber(count), Integer(DEFAULT_RETRIES))), Integer(0), Integer(DEFAULT_MAX_RETRIES));
    assert Leq(e, Finite(DEFAULT_MAX_RETRIES)) && Leq(Finite(0), e);
    e.value
  }

  /**
   * The retry policy `retry(count, callback)` stores, as written (fetch.old.js:106-123).
   * The swap at line 107 tests `arguments.length === 1`, but inside the two arrow
   * functions `arguments` is the one of the enclosing function at line 85, which
   * `.call(this)` at line 156 invokes with no arguments; so the arguments are
   * swapped only when both are functions.
   */
  function RetrySettingAsWritten(count: Arg, callback: Arg): (s: Option<(nat, Fn)>)
    ensures s.Some? <==> callback.Function?
    ensures count.Function? && callback.Function? ==> s == Some((DEFAULT_RETRIES, count.f))
    ensures !count.Function? && callback.Function? ==> s == Some((RetryCount(count), callback.f))
  {
    var (count', callback') := if count.Function? && callback.Function? then (callback, count) else (count, callback);
    if callback'.Function? then Some((RetryCount(count'), callback'.f)) else None
  }

  /**
   * The retry policy `retry(...args)` stores, with the swap the guard at
   * fetch.old.js:107 is written for: a lone function argument is the callback.
   * `None` clears both `maxRetries` and `onRetry`.
   */
  function RetrySetting(args: seq<Arg>): (s: Option<(nat, Fn)>)
    ensures s.Some? ==> s.value.0 <= DEFAULT_MAX_RETRIES
    ensures s.Some? <==> (|args| == 1 && args[0].Function?) || (|args| >= 2 && args[1].Function?)
    ensures |args| == 1 && args[0].Function? ==> s == Some((DEFAULT_RETRIES, args[0].f))
    ensures |args| >= 2 && args[0].Function? ==>
      s == (if args[1].Function? then Some((DEFAULT_RETRIES, args[0].f)) else None)
    ensures |args| >= 2 && !args[0].Function? ==>
      s == (if args[1].Function? then Some((RetryCount(args[0]), args[1].f)) else None)
  {
    var count, callback := ArgAt(args, 0), ArgAt(args, 1);
    var (count', callback') :=
      if count.Function? && (|args| == 1 || callback.Function?) then (callback, count) else (count, callback);
    if callback'.Function? then Some((RetryCount(count'), callback'.f)) else None
  }

  /** The first difference: `retry(callback)` alone drops the callback and clears the policy. */
  lemma RetryCallbackAloneAsWritten(f: Fn)
    ensures RetrySettingAsWritten(Function(f), Undefined) == None
    ensures RetrySetting([Function(f)]) == Some((1, f))
  {
  }

  /** Re-applying a stored retry policy, as `clone` does, stores it again. */
  lemma RetryRoundTrip(m: nat, f: Fn)
    requires m <= DEFAULT_MAX_RETRIES
    ensures RetrySetting([Value(Integer(m)), Function(f)]) == Some((m, f))
  {
  }

  /** The duration `timeout` stores for the (already swapped) first argument
      (fetch.old.js:163-171): a function is called for its value, `null` means 0,
      an integer is floored at 0, and anything else is 5000. */
  function TimeoutDuration(t: Arg): (d: nat)
    ensures t.Null? ==> d == 0
    ensures t.Undefined? || t == Value(NonInteger) ==> d == DEFAULT_TIMEOUT
    ensures t.Value? && t.n.Integer? ==> d == if t.n.value < 0 then 0 else t.n.value
    ensures t.Function? && t.f.output.Integer? ==> d == if t.f.output.value < 0 then 0 else t.f.output.value
    ensures t.Function? && t.f.output.NonInteger? ==> d == DEFAULT_TIMEOUT
  {
    var n := if t.Null? then Integer(0) else GetNumberAsNum(if t.Function? then t.f.output else ToNumber(t));
    var e := GetBoundedNumber(AsNum(GetNumber(n, Integer(DEFAULT_TIMEOUT))), Integer(0), NonInteger);
    assert Leq(Finite(0), e) && e.Finite?;
    e.value
  }

  /** `timeout = getNumber(timeout)` on the non-null path (fetch.old.js:167). */
  function GetNumberAsNum(n: Num): Num {
    AsNum(GetNumber(n, NonInteger))
  }

  /** The timeout `timeout(...args)` stores (fetch.old.js:158-178). A lone function
      argument is the callback; `None` clears both `__timeout__` and `__onTimeout__`. */
  function TimeoutSetting(args: seq<Arg>): (s: Option<(nat, Fn)>)
    ensures |args| == 1 && args[0].Function? ==> s == Some((DEFAULT_TIMEOUT, args[0].f))
    ensures |args| != 1 ==> s == if ArgAt(args, 1).Function? then Some((TimeoutDuration(args[0]), args[1].f)) else None
    ensures |args| == 1 && !args[0].Function? ==> s == None
  {
    var t, callback := ArgAt(args, 0), ArgAt(args, 1);
    var (t', callback') := if t.Function? && |args| == 1 then (callback, t) else (t, callback);
    if callback'.Function? then Some((TimeoutDuration(t'), callback'.f)) else None
  }

  /** Re-applying a stored timeout, as `clone` does, stores it again. */
  lemma TimeoutRoundTrip(t: nat, f: Fn)
    ensures TimeoutSetting([Value(Integer(t)), Function(f)]) == Some((t, f))
  {
  }

  /** Why `clone` fails: `__delaySequence__.type` read while no sequence was selected. */
  datatype CloneError = TypeError

  /** The settings of one `Fetch` instance: the six closure variables of lines 72-77. */
  class Fetch {
    var onAbort: Option<Fn>
    var timeout: Option<nat>
    var onTimeout: Option<Fn>
    var maxRetries: Option<nat>
    var onRetry: Option<Fn>
    var delaySequence: Option<Kind>

    /** What the setters keep true: each hook is set together with its number,
        the retry count is at most 12, and a retry count implies a selected sequence. */
    predicate Valid()
      reads this
    {
      && timeout.Some? == onTimeout.Some?
      && maxRetries.Some? == onRetry.Some?
      && (maxRetries.Some? ==> maxRetries.value <= DEFAULT_MAX_RETRIES && delaySequence.Some?)
    }

    /** The settings a call made through `yield()` reads. A valid client gives it
        each hook with its number, at most 12 retries, and a sequence whenever
        retries are on. */
    function Settings(): (p: Policy)
      reads this
      ensures Valid() ==> (p.timeout.Some? <==> p.onTimeout.Some?) && (p.maxRetries.Some? <==> p.onRetry.Some?)
      ensures Valid() ==> RetryLimit(p) <= DEFAULT_MAX_RETRIES && (RetryLimit(p) > 0 ==> p.sequence.Some?)
    {
      Policy(maxRetries, onRetry, onAbort, timeout, onTimeout, delaySequence)
    }

    /** `new Fetch` (fetch.old.js:71-77); every `$fetch` property getter makes one. */
    constructor ()
      ensures Valid()
      ensures Settings() == Policy(None, None, None, None, None, None)
    {
      onAbort, timeout, onTimeout := None, None, None;
      maxRetries, onRetry, delaySequence := None, None, None;
    }

    /** `abort(callback)`: keeps a function, clears anything else. */
    method Abort(callback: Arg)
      modifies this`onAbort
      ensures onAbort == Callback(callback)
    {
      onAbort := Callback(callback);
    }

    /** `retry(...)` and `retry.<kind>(...)`: selects the sequence in every case and
        stores or clears the retry policy; plain `retry` is `kind == Default`. */
    method Retry(kind: Kind, args: seq<Arg>)
      requires Valid()
      modifies this`maxRetries, this`onRetry, this`delaySequence
      ensures Valid()
      ensures delaySequence == Some(kind)
      ensures RetrySetting(args).Some? ==>
        maxRetries == Some(RetrySetting(args).value.0) && onRetry == Some(RetrySetting(args).value.1)
      ensures RetrySetting(args).None? ==> maxRetries.None? && onRetry.None?
    {
      var s := RetrySetting(args);
      delaySequence := Some(kind);
      if s.Some? {
        maxRetries, onRetry := Some(s.value.0), Some(s.value.1);
      } else {
        maxRetries, onRetry := None, None;
      }
    }

    /** `timeout(...)`: stores or clears the overall timeout and its hook. */
    method Timeout(args: seq<Arg>)
      requires Valid()
      modifies this`timeout, this`onTimeout
      ensures Valid()
      ensures TimeoutSetting(args).Some? ==>
        timeout == Some(TimeoutSetting(args).value.0) && onTimeout == Some(TimeoutSetting(args).value.1)
      ensures TimeoutSetting(args).None? ==> timeout.None? && onTimeout.None?
    {
      var s := TimeoutSetting(args);
      if s.Some? {
        timeout, onTimeout := Some(s.value.0), Some(s.value.1);
      } else {
        timeout, onTimeout := None, None;
      }
    }

    /**
     * `clone()` (fetch.old.js:180-199): a new instance configured through its own
     * setters. It fails when no sequence was ever selected; the clone selects the
     * sequence only when a retry policy is copied. The `typeof` tests' other
     * branches (a number without its hook) cannot occur, since the setters store both.
     */
    method Clone() returns (r: Result<Fetch, CloneError>)
      requires Valid()
      ensures r.Failure? <==> delaySequence.None?
      ensures r.Success? ==> fresh(r.value) && r.value.Valid()
      ensures r.Success? ==>
        (r.value.Settings() == Settings().(sequence := if maxRetries.Some? then delaySequence else None))
    {
      if delaySequence.None? {
        return Failure(TypeError);
      }
      var kind := delaySequence.value;
      var f := new Fetch();
      if onAbort.Some? {
        f.Abort(Function(onAbort.value));
      }
      if timeout.Some? {
        TimeoutRoundTrip(timeout.value, onTimeout.value);
        f.Timeout([Value(Integer(timeout.value)), Function(onTimeout.value)]);
      }
      if maxRetries.Some? {
        RetryRoundTrip(maxRetries.value, onRetry.value);
        f.Retry(kind, [Value(Integer(maxRetries.value)), Function(onRetry.value)]);
      }
      return Success(f);
    }

    /** `yield()` (fetch.old.js:201-298): a runner reading this instance's settings. */
    method Yield() returns (r: Runner)
      ensures fresh(r) && r.owner == this && r.controller == null
    {
      r := new Runner(this);
    }
  }

  /** An `AbortController`: only whether its signal has aborted. */
  class Controller {
    var aborted: bool

    constructor ()
      ensures !aborted
    {
      aborted := false;
    }
  }

  /** The object `yield()` returns: one call at a time, with its own counters. */
  class Runner {
    const owner: Fetch
    var controller: Controller?
    var delay: nat
    var retries: nat

    constructor (owner: Fetch)
      ensures this.owner == owner && controller == null
    {
      this.owner := owner;
      controller := null;
      delay, retries := 0, 0;
    }

    /** `abort()`: aborts the current call's signal, if there is one. */
    method Abort()
      modifies controller
      ensures controller != null ==> controller.aborted
    {
      if controller != null {
        controller.aborted := true;
      }
    }

    /**
     * `fetch(resource, init)` (fetch.old.js:207-290) against the scripted outcomes
     * `o`: it aborts the previous call, resets the counters, arms a fresh signal and
     * makes its attempts; the signal ends aborted exactly when the call declines.
     * The settings are read from the owner at call time, and the call is exactly
     * the one `Retry.Run` specifies.
     */
    method Fetch(o: nat -> Attempt) returns (c: Call)
      modifies this, controller
      ensures c == Run(owner.Settings(), o, 0, 0)
      ensures retries == c.retries && delay == c.delay
      ensures controller != null && fresh(controller) && controller.aborted == c.settlement.Declined?
      ensures old(controller) != null ==> old(controller).aborted
    {
      var p := owner.Settings();
      Abort();
      delay, retries := 0, 0;
      var signal := new Controller();
      controller := signal;
      c := Attempts(p, o);
      if c.settlement.Declined? {
        signal.aborted := true;
      }
    }

    /**
     * `__fetch__` and its retries (fetch.old.js:221-251): each attempt waits
     * `delay`, then a retryable failure bumps `retries` in the guard of line 233
     * and, while the guard allows, sets the next delay and tries again.
     */
    method Attempts(p: Policy, o: nat -> Attempt) returns (c: Call)
      requires retries == 0 && delay == 0
      modifies this`retries, this`delay
      ensures c == Run(p, o, 0, 0)
      ensures retries == c.retries && delay == c.delay
    {
      var trace: seq<Event> := [];
      while true
        invariant retries <= RetryLimit(p)
        invariant Run(p, o, 0, 0) == Prepend(trace, Run(p, o, retries, delay))
        decreases RetryLimit(p) - retries
      {
        var k := retries;
        var a := o(k);
        var start := Start(p, a, k, delay);
        if a.Retryable() && RetryLimit(p) > 0 {
          retries := retries + 1;
          if k < RetryLimit(p) {
            RunContinues(p, o, trace, k, delay);
            delay := SequenceDelay(p.sequence, retries);
            trace := trace + start;
            continue;
          }
        }
        RunEnds(p, o, trace, k, delay);
        var hooks := if a.Aborted? then AbortHooks(p, a.cause) else [];
        return Call(trace + (start + hooks), Final(a), k + 1, retries, delay);
      }
    }
  }
}
