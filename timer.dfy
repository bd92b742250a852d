/**
 * The countdown of js/timer.js: duration normalisation, the text the updater
 * writes, the ticking state of one timer and its set of watched elements, and
 * the remaining-time arithmetic of `createDelay`. Timers are a handle counter;
 * visibility changes arrive as method calls carrying the hidden time.
 */
module Countdown {
  import opened Wrappers
  import opened JsValues

  /** Seconds a timer runs when its duration is missing, zero or not a number. */
  const DEFAULT_TIMER_SECONDS: int := 60
  /** Milliseconds a delay waits when its duration is missing, zero or not a number. */
  const DEFAULT_DELAY_MS: int := 1000

  /** `Math.ceil` on a real. */
  function Ceil(x: real): (c: int)
    ensures c as real >= x && (c - 1) as real < x
  {
    -((-x).Floor)
  }

  /**
   * `Math.max(0, Math.ceil(duration) || fallback)` (timer.js:118, 170): a duration
   * rounding up to 0, or not a number, takes the fallback; a negative one is 0.
   */
  function NormalizeDuration(duration: Numeric, fallback: int): (d: int)
    requires fallback > 0
    ensures duration.NaN? ==> d == fallback
    ensures duration.Number? && duration.x > 0.0 ==> d == Ceil(duration.x) && d >= 1
    ensures duration.Number? && -1.0 < duration.x <= 0.0 ==> d == fallback
    ensures duration.Number? && duration.x <= -1.0 ==> d == 0
  {
    if duration.NaN? || Ceil(duration.x) == 0 then fallback
    else if Ceil(duration.x) < 0 then 0
    else Ceil(duration.x)
  }

  /** On integers: d > 0 is kept, 0 takes the fallback, d < 0 gives 0. */
  lemma NormalizeInteger(n: int, fallback: int)
    requires fallback > 0
    ensures NormalizeDuration(Number(n as real), fallback) ==
      if n > 0 then n else if n == 0 then fallback else 0
  {
    assert Ceil(n as real) == n;
  }

  /** An argument of `createTimer`: a function, or any other value as a number. */
  datatype TimerArg = Callable | Given(value: Numeric)

  /** The arguments `createTimer(callback, duration)` ends up with (timer.js:56-61,
      109-112, 117): a lone non-function argument is the duration. The flag says
      whether the caller's function runs at completion (otherwise `noop` does); the
      number is the duration before normalisation. */
  function TimerArguments(args: seq<TimerArg>): (r: (bool, Numeric))
    ensures r.0 <==> |args| > 0 && args[0].Callable?
    ensures |args| == 1 && args[0].Given? ==> r == (false, args[0].value)
    ensures |args| == 1 && args[0].Callable? ==> r == (true, NaN)
    ensures |args| >= 2 && args[1].Given? ==> r.1 == args[1].value
    ensures |args| >= 2 && args[1].Callable? ==> r.1 == NaN
    ensures args == [] ==> r == (false, NaN)
  {
    if |args| == 1 && args[0].Given? then (false, args[0].value)
    else
      var duration := if |args| >= 2 && args[1].Given? then args[1].value else NaN;
      (|args| > 0 && args[0].Callable?, duration)
  }

  /** A timer's normalised length, in seconds, from its arguments. */
  function TimerSeconds(args: seq<TimerArg>): (d: nat)
    ensures |args| == 1 && args[0].Callable? ==> d == DEFAULT_TIMER_SECONDS
  {
    NormalizeDuration(TimerArguments(args).1, DEFAULT_TIMER_SECONDS)
  }

  /** The `tick` predicate (timer.js:22-24): keep ticking while `current <= duration`. */
  predicate Ticking(current: int, duration: int)
    ensures Ticking(current, duration) <==> Remaining(current, duration) > 0 || current == duration
  {
    current <= duration
  }

  /** `Math.max(0, duration - current)`, in whole minutes and leftover seconds (timer.js:27-29). */
  function Remaining(current: int, duration: int): (r: nat)
    ensures r == 0 <==> current >= duration
    ensures r > 0 ==> r == duration - current
  {
    if duration - current > 0 then duration - current else 0
  }

  function Minutes(remaining: nat): nat {
    remaining / 60
  }

  function Seconds(remaining: nat): (s: nat)
    ensures s < 60 && Minutes(remaining) * 60 + s == remaining
  {
    remaining % 60
  }

  function DigitChar(k: nat): (c: char)
    requires k < 10
    ensures '0' <= c <= '9'
  {
    ('0' as int + k) as char
  }

  /** The decimal text of a non-negative integer, as string concatenation writes it. */
  function Digits(n: nat): (s: string)
    ensures |s| >= 1
    ensures '0' <= s[0] <= '9'
    ensures s[|s| - 1] == DigitChar(n % 10)
    ensures n >= 10 ==> |s| >= 2 && s[|s| - 2] == DigitChar(n / 10 % 10)
    ensures n < 10 <==> |s| == 1
  {
    if n < 10 then [DigitChar(n)] else Digits(n / 10) + [DigitChar(n % 10)]
  }

  /** `'00'.concat(piece || 0).slice(-2)`: the last two digits, zero-padded. */
  function Pad2(n: nat): (s: string)
    ensures |s| == 2
    ensures s == [DigitChar(n / 10 % 10), DigitChar(n % 10)]
  {
    var padded := "00" + Digits(n);
    padded[|padded| - 2..]
  }

  /** What a two-character digit string reads as. */
  function PairValue(s: string): int
    requires |s| == 2
  {
    (s[0] as int - '0' as int) * 10 + (s[1] as int - '0' as int)
  }

  /** A padded piece reads back as the value modulo 100: minutes from 100 on wrap. */
  lemma Pad2Value(n: nat)
    ensures PairValue(Pad2(n)) == n % 100
  {
    var s := Pad2(n);
    assert s[0] as int - '0' as int == n / 10 % 10;
    assert s[1] as int - '0' as int == n % 10;
    TensAndUnits(n);
  }

  /** The tens digit and the units digit make up the value modulo 100. */
  lemma TensAndUnits(n: nat)
    ensures n / 10 % 10 * 10 + n % 10 == n % 100
  {
    var q, m := n / 100, n % 100;
    var t, u := m / 10, m % 10;
    assert n == 10 * (10 * q + t) + u;
    assert n / 10 == 10 * q + t && n % 10 == u;
    assert (10 * q + t) % 10 == t;
  }

  /** The `innerText` the updater writes: "MM:SS", five characters, all digits
      but the colon. */
  function TimeString(remaining: nat): (t: string)
    ensures |t| == 5 && t[2] == ':'
    ensures forall i :: 0 <= i < 5 && i != 2 ==> '0' <= t[i] <= '9'
  {
    Pad2(Minutes(remaining)) + ":" + Pad2(Seconds(remaining))
  }

  /** The time string always has five characters, a colon in the middle, and
      reads back as the minutes (modulo 100) and the seconds. */
  lemma TimeStringShape(remaining: nat)
    ensures var t := TimeString(remaining);
      && |t| == 5 && t[2] == ':'
      && PairValue(t[..2]) == Minutes(remaining) % 100
      && PairValue(t[3..]) == Seconds(remaining)
  {
    var t := TimeString(remaining);
    assert t[..2] == Pad2(Minutes(remaining));
    assert t[3..] == Pad2(Seconds(remaining));
    Pad2Value(Minutes(remaining));
    Pad2Value(Seconds(remaining));
  }

  /** The `datetime` attribute the updater writes: "Xm Ys", either part omitted
      when zero, except that "0s" stands for no time left (timer.js:35-45). */
  function DurationString(remaining: nat): (s: string)
    ensures s != [] && '0' <= s[0] <= '9'
    ensures s[|s| - 1] == 'm' || s[|s| - 1] == 's'
  {
    var minutes, seconds := Minutes(remaining), Seconds(remaining);
    var parts :=
      (if minutes > 0 then [Digits(minutes) + "m"] else [])
      + (if seconds > 0 || minutes == 0 then [Digits(seconds) + "s"] else []);
    if |parts| == 2 then parts[0] + " " + parts[1] else if |parts| == 1 then parts[0] else ""
  }

  /** The decimal text holds digits only. */
  lemma {:induction false} DigitsHaveNoLetters(n: nat, c: char)
    requires !('0' <= c <= '9')
    ensures c !in Digits(n)
  {
    if n >= 10 {
      DigitsHaveNoLetters(n / 10, c);
      assert Digits(n) == Digits(n / 10) + [DigitChar(n % 10)];
    }
  }

  /** The duration string names minutes exactly when there are some, names seconds
      exactly when there are some or no minutes, is never empty, and is "0s" at the end. */
  lemma DurationStringShape(remaining: nat)
    ensures var s, minutes, seconds := DurationString(remaining), Minutes(remaining), Seconds(remaining);
      && ('m' in s <==> minutes > 0)
      && ('s' in s <==> seconds > 0 || minutes == 0)
      && s != []
      && (remaining == 0 ==> s == "0s")
  {
    var minutes, seconds := Minutes(remaining), Seconds(remaining);
    var m, sec := Digits(minutes), Digits(seconds);
    DigitsHaveNoLetters(minutes, 'm');
    DigitsHaveNoLetters(minutes, 's');
    DigitsHaveNoLetters(seconds, 'm');
    DigitsHaveNoLetters(seconds, 's');
    var s := DurationString(remaining);
    if minutes > 0 && seconds > 0 {
      assert s == m + ['m'] + [' '] + sec + ['s'];
    } else if minutes > 0 {
      assert s == m + ['m'];
    } else {
      assert s == sec + ['s'];
      if remaining == 0 {
        assert sec == "0";
      }
    }
  }

  /**
   * How many seconds a `datetime` value such as "12m 5s" stands for, read left to
   * right: digits build up a number, which an `m` counts as minutes and an `s` as
   * seconds; anything else is skipped.
   */
  function ReadDuration(s: string, pending: nat, total: nat): nat
    decreases |s|
  {
    if s == [] then total
    else if '0' <= s[0] <= '9' then ReadDuration(s[1..], pending * 10 + (s[0] as int - '0' as int), total)
    else if s[0] == 'm' then ReadDuration(s[1..], 0, total + 60 * pending)
    else if s[0] == 's' then ReadDuration(s[1..], 0, total + pending)
    else ReadDuration(s[1..], pending, total)
  }

  /** One digit read: it extends the pending number. */
  lemma ReadDigit(c: char, rest: string, pending: nat, total: nat)
    requires '0' <= c <= '9'
    ensures ReadDuration([c] + rest, pending, total) == ReadDuration(rest, pending * 10 + (c as int - '0' as int), total)
  {
    assert ([c] + rest)[0] == c && ([c] + rest)[1..] == rest;
  }

  /** One unit read: `m` counts the pending number as minutes, `s` as seconds. */
  lemma ReadUnit(c: char, rest: string, pending: nat, total: nat)
    requires c == 'm' || c == 's'
    ensures ReadDuration([c] + rest, pending, total) == ReadDuration(rest, 0, total + (if c == 'm' then 60 else 1) * pending)
  {
    assert ([c] + rest)[0] == c && ([c] + rest)[1..] == rest;
  }

  /** A space is skipped. */
  lemma ReadSpace(rest: string, pending: nat, total: nat)
    ensures ReadDuration([' '] + rest, pending, total) == ReadDuration(rest, pending, total)
  {
    assert ([' '] + rest)[0] == ' ' && ([' '] + rest)[1..] == rest;
  }

  /** The digits of `n` read as `n`, whatever follows them. */
  lemma {:induction false} ReadDigits(n: nat, rest: string, total: nat)
    ensures ReadDuration(Digits(n) + rest, 0, total) == ReadDuration(rest, n, total)
  {
    var c := DigitChar(n % 10);
    assert c as int - '0' as int == n % 10;
    if n < 10 {
      assert Digits(n) + rest == [c] + rest;
      ReadDigit(c, rest, 0, total);
    } else {
      assert Digits(n) + rest == Digits(n / 10) + ([c] + rest);
      ReadDigits(n / 10, [c] + rest, total);
      ReadDigit(c, rest, n / 10, total);
    }
  }

  /** The parts of the duration string: minutes with `m`, a space, seconds with `s`. */
  lemma DurationStringParts(remaining: nat)
    ensures var s, m, sec := DurationString(remaining), Digits(Minutes(remaining)), Digits(Seconds(remaining));
      && (Minutes(remaining) > 0 && Seconds(remaining) > 0 ==> s == m + (['m'] + ([' '] + (sec + ['s']))))
      && (Minutes(remaining) > 0 && Seconds(remaining) == 0 ==> s == m + ['m'])
      && (Minutes(remaining) == 0 ==> s == sec + ['s'])
  {
    var minutes, seconds := Minutes(remaining), Seconds(remaining);
    var m, sec := Digits(minutes), Digits(seconds);
    var s := DurationString(remaining);
    if minutes > 0 && seconds > 0 {
      assert s == m + ['m'] + [' '] + sec + ['s'];
      assert s == m + (['m'] + ([' '] + (sec + ['s'])));
    } else if minutes > 0 {
      assert s == m + ['m'];
    } else {
      assert s == sec + ['s'];
    }
  }

  /** "Ys" reads as Y seconds more. */
  lemma ReadSeconds(seconds: nat, total: nat)
    ensures ReadDuration(Digits(seconds) + ['s'], 0, total) == total + seconds
  {
    ReadDigits(seconds, ['s'], total);
    ReadUnit('s', [], seconds, total);
    assert ['s'] == ['s'] + [];
  }

  /** "Xm" followed by anything reads as X minutes more, then the rest. */
  lemma ReadMinutes(minutes: nat, rest: string, total: nat)
    ensures ReadDuration(Digits(minutes) + (['m'] + rest), 0, total) == ReadDuration(rest, 0, total + 60 * minutes)
  {
    ReadDigits(minutes, ['m'] + rest, total);
    ReadUnit('m', rest, minutes, total);
  }

  /** "Xm Ys" reads as 60·X + Y seconds. */
  lemma ReadMinutesSeconds(minutes: nat, seconds: nat)
    ensures ReadDuration(Digits(minutes) + (['m'] + ([' '] + (Digits(seconds) + ['s']))), 0, 0) == 60 * minutes + seconds
  {
    var secs := Digits(seconds) + ['s'];
    calc {
      ReadDuration(Digits(minutes) + (['m'] + ([' '] + secs)), 0, 0);
    == { ReadMinutes(minutes, [' '] + secs, 0); }
      ReadDuration([' '] + secs, 0, 60 * minutes);
    == { ReadSpace(secs, 0, 60 * minutes); }
      ReadDuration(secs, 0, 60 * minutes);
    == { ReadSeconds(seconds, 60 * minutes); }
      60 * minutes + seconds;
    }
  }

  /** The duration string reads back as the time remaining: the digits before `m`
      are the minutes and those before `s` the seconds. */
  lemma DurationStringReadsBack(remaining: nat)
    ensures ReadDuration(DurationString(remaining), 0, 0) == remaining
  {
    var minutes, seconds := Minutes(remaining), Seconds(remaining);
    DurationStringParts(remaining);
    if minutes > 0 && seconds > 0 {
      ReadMinutesSeconds(minutes, seconds);
    } else if minutes > 0 {
      assert Digits(minutes) + ['m'] == Digits(minutes) + (['m'] + []);
      ReadMinutes(minutes, [], 0);
    } else {
      ReadSeconds(seconds, 0);
    }
  }

  /** What the updater writes on a tick (timer.js:26-50): the "MM:SS" text and the
      `datetime` value, both from the time remaining. */
  datatype Display = Display(text: string, datetime: string)

  function Updater(current: int, duration: int): (d: Display)
    ensures |d.text| == 5 && d.text[2] == ':' && d.datetime != []
  {
    var remaining := Remaining(current, duration);
    Display(TimeString(remaining), DurationString(remaining))
  }

  /** Under 100 minutes left, the text reads back as exactly the seconds remaining;
      the `datetime` value always does. */
  lemma UpdaterReadsBack(current: int, duration: int)
    requires Remaining(current, duration) < 6000
    ensures var t := Updater(current, duration).text;
      |t| == 5 && t[2] == ':' && PairValue(t[..2]) * 60 + PairValue(t[3..]) == Remaining(current, duration)
    ensures ReadDuration(Updater(current, duration).datetime, 0, 0) == Remaining(current, duration)
  {
    var remaining := Remaining(current, duration);
    assert Updater(current, duration).text == TimeString(remaining);
    TimeStringReadsBack(remaining);
    DurationStringReadsBack(remaining);
  }

  /** Numbers below 100 are their own value modulo 100. */
  lemma BelowHundred(n: nat)
    requires n < 100
    ensures n % 100 == n
  {
  }

  lemma TimeStringReadsBack(remaining: nat)
    requires remaining < 6000
    ensures var t := TimeString(remaining);
      |t| == 5 && t[2] == ':' && PairValue(t[..2]) * 60 + PairValue(t[3..]) == remaining
  {
    var t, minutes, seconds := TimeString(remaining), Minutes(remaining), Seconds(remaining);
    TimeStringShape(remaining);
    assert minutes < 100;
    BelowHundred(minutes);
    assert PairValue(t[..2]) == minutes && PairValue(t[3..]) == seconds;
    assert minutes * 60 + seconds == remaining;
  }

  /** Once `current` reaches the duration the updater shows "00:00" and "0s". */
  lemma UpdaterAtEnd(current: int, duration: int)
    requires duration <= current
    ensures Updater(current, duration) == Display("00:00", "0s")
  {
    assert Remaining(current, duration) == 0;
    assert Pad2(0) == "00";
    DurationStringShape(0);
  }

  /** The updates of a countdown run to completion (`Countdown.Timer.RunToCompletion`)
      end on the "00:00" / "0s" display. */
  lemma CompletedRunShowsZero(start: nat, duration: nat)
    ensures var shown := Range(start, Larger(start, duration) + 1);
      shown != [] && Updater(shown[|shown| - 1], duration) == Display("00:00", "0s")
  {
    var shown := Range(start, Larger(start, duration) + 1);
    UpdaterAtEnd(shown[|shown| - 1], duration);
  }

  /** A page element a timer can be asked to watch. */
  datatype Element = Element(id: nat, isTimeElement: bool)

  /** One timer made by `createTimer` (timer.js:55-95, 106-165): its counters, its
      pending `setTimeout` handle, its watched elements, and what it has reported. */
  class Timer {
    const duration: nat
    var current: nat
    var timerID: nat
    var nextHandle: nat
    var elements: Option<set<Element>>
    /** The `current` value of each updater call, in order. */
    var updates: seq<nat>
    /** How often the completion callback has run. */
    var completions: nat
    /** Whether a function was passed as the callback, rather than replaced by `noop`. */
    const callsBack: bool
    /** How often the caller's function has run. */
    var callbacks: nat

    predicate Valid()
      reads this
    {
      && timerID < nextHandle
      && (completions == 0 || completions == 1)
      && callbacks == (if callsBack then completions else 0)
      && (completions == 1 <==> elements.None?)
      && (completions == 1 ==> timerID == 0 && current > duration)
      && (elements.Some? ==> forall e :: e in elements.value ==> e.isTimeElement)
    }

    predicate Finished()
      reads this
    {
      completions == 1
    }

    /** `createTimer(...args)`: the duration is normalised, the first tick is
        scheduled at once, and the element set starts empty. */
    constructor (args: seq<TimerArg>)
      ensures Valid() && !Finished()
      ensures duration == TimerSeconds(args) && callsBack == TimerArguments(args).0
      ensures callbacks == 0 && current == 0 && timerID != 0 && elements == Some({}) && updates == []
    {
      duration := TimerSeconds(args);
      callsBack := TimerArguments(args).0;
      callbacks := 0;
      current := 0;
      timerID := 1;
      nextHandle := 2;
      elements := Some({});
      updates := [];
      completions := 0;
    }

    /** `setTimeout`: a fresh, non-zero handle. */
    method Schedule()
      modifies this`timerID, this`nextHandle
      ensures timerID == old(nextHandle) && nextHandle == old(nextHandle) + 1
    {
      timerID := nextHandle;
      nextHandle := nextHandle + 1;
    }

    /** `stopTimer` (timer.js:153-156). */
    method Stop()
      modifies this`timerID
      ensures timerID == 0
    {
      timerID := 0;
    }

    /**
     * `tickTimer` (timer.js:135-146): report `current` to the updater, advance it,
     * and either schedule the next tick or stop, clear the watched elements and run
     * the completion callback.
     */
    method Tick()
      requires Valid() && !Finished() && timerID != 0
      modifies this
      ensures Valid()
      ensures updates == old(updates) + [old(current)] && current == old(current) + 1
      ensures Ticking(current, duration) ==>
        !Finished() && timerID != 0 && elements == old(elements)
      ensures !Ticking(current, duration) ==>
        Finished() && timerID == 0 && elements.None? && callbacks == (if callsBack then 1 else 0)
    {
      updates := updates + [current];
      current := current + 1;
      if Ticking(current, duration) {
        Schedule();
      } else {
        Stop();
        elements := None;
        completions := completions + 1;
        if callsBack {
          callbacks := callbacks + 1;
        }
      }
    }

    /** The page was hidden: `freezeTimerWhenInvisible` stops the pending tick. */
    method Freeze()
      requires Valid()
      modifies this`timerID
      ensures Valid() && timerID == 0
    {
      Stop();
    }

    /** The page is visible again after `hidden` seconds (timer.js:121-125): the
        hidden time counts as elapsed, and the next tick is scheduled at once.
        The callback is unregistered at completion, so it only reaches a running timer. */
    method Resume(hidden: nat)
      requires Valid() && !Finished()
      modifies this`current, this`timerID, this`nextHandle
      ensures Valid() && !Finished()
      ensures current == old(current) + hidden && timerID != 0
    {
      current := current + hidden;
      Schedule();
    }

    /** `addWatchElement` (timer.js:75-82): a time element is added once, while
        the timer runs. */
    method AddWatchElement(e: Element) returns (added: bool)
      requires Valid()
      modifies this`elements
      ensures Valid()
      ensures added <==> old(elements).Some? && e.isTimeElement
      ensures added ==> elements == Some(old(elements).value + {e})
      ensures !added ==> elements == old(elements)
    {
      if elements.Some? && e.isTimeElement {
        elements := Some(elements.value + {e});
        return true;
      }
      return false;
    }

    /** `removeWatchElement` (timer.js:87-89): true exactly when the element was watched. */
    method RemoveWatchElement(e: Element) returns (removed: bool)
      requires Valid()
      modifies this`elements
      ensures Valid()
      ensures removed <==> old(elements).Some? && e in old(elements).value
      ensures removed ==> elements == Some(old(elements).value - {e})
      ensures !removed ==> elements == old(elements)
    {
      if elements.Some? && e in elements.value {
        elements := Some(elements.value - {e});
        return true;
      }
      return false;
    }

    /**
     * The ticks the scheduler runs when the page stays visible: the updater sees
     * every value from `current` up to `duration`, in order, and the completion
     * callback runs exactly once, after `current` passes `duration`.
     */
    method RunToCompletion()
      requires Valid() && !Finished() && timerID != 0
      modifies this
      ensures Valid() && Finished() && elements.None? && timerID == 0
      ensures callbacks == (if callsBack then 1 else 0)
      ensures updates == old(updates) + Range(old(current), Larger(old(current), duration) + 1)
      ensures current == Larger(old(current), duration) + 1
    {
      ghost var start := current;
      while !Finished()
        invariant Valid()
        invariant !Finished() ==> timerID != 0 && current <= Larger(start, duration)
        invariant Finished() ==> current == Larger(start, duration) + 1
        invariant start <= current
        invariant updates == old(updates) + Range(start, current)
        decreases if Finished() then 0 else Larger(start, duration) + 1 - current
      {
        Tick();
        RangeSnoc(start, current - 1);
      }
    }
  }

  function Larger(a: int, b: int): int {
    if a < b then b else a
  }

  /** The integers `lo`, `lo + 1`, ..., `hi - 1`. */
  function Range(lo: int, hi: int): (r: seq<nat>)
    requires 0 <= lo
    ensures |r| == if lo <= hi then hi - lo else 0
    ensures forall i :: 0 <= i < |r| ==> r[i] == lo + i
  {
    if lo >= hi then [] else seq(hi - lo, i requires 0 <= i < hi - lo => lo + i)
  }

  lemma RangeSnoc(lo: nat, hi: nat)
    requires lo <= hi
    ensures Range(lo, hi + 1) == Range(lo, hi) + [hi]
  {
  }

  /**
   * `createDelay`'s visibility callback (timer.js:177-180) as written: each time
   * the page becomes visible at `now`, the time since creation is subtracted from
   * the duration, which an earlier resume has already shortened.
   */
  function DelayAfterResumesAsWritten(duration: int, start: int, resumes: seq<int>): (d: int)
    ensures resumes == [] ==> d == duration
  {
    if resumes == [] then duration
    else DelayAfterResumesAsWritten(duration, start, resumes[..|resumes| - 1]) - (resumes[|resumes| - 1] - start)
  }

  /** The time from creation to each show, summed over the shows. */
  function SinceStart(start: int, resumes: seq<int>): int {
    if resumes == [] then 0 else (resumes[0] - start) + SinceStart(start, resumes[1..])
  }

  lemma {:induction false} SinceStartSnoc(start: int, resumes: seq<int>, now: int)
    ensures SinceStart(start, resumes + [now]) == SinceStart(start, resumes) + (now - start)
    decreases |resumes|
  {
    if resumes == [] {
      assert resumes + [now] == [now];
      assert [now][1..] == [];
    } else {
      assert (resumes + [now])[1..] == resumes[1..] + [now];
      SinceStartSnoc(start, resumes[1..], now);
    }
  }

  /** As written, after k shows the duration has lost the time from creation to
      every one of them: duration - Σ (resume_i - start). */
  lemma {:induction false} DelayAfterResumesClosedForm(duration: int, start: int, resumes: seq<int>)
    ensures DelayAfterResumesAsWritten(duration, start, resumes) == duration - SinceStart(start, resumes)
    decreases |resumes|
  {
    if resumes != [] {
      var init, last := resumes[..|resumes| - 1], resumes[|resumes| - 1];
      assert resumes == init + [last];
      DelayAfterResumesClosedForm(duration, start, init);
      SinceStartSnoc(start, init, last);
    }
  }

  /** Two hide/show cycles: the delay made at 0 for 10 s is rescheduled at 5 s for
      2 s more, so it fires at 7 s; a single cycle keeps the 10 s deadline. */
  lemma DelayResumedTwiceFiresEarly()
    ensures 3000 + DelayAfterResumesAsWritten(10000, 0, [3000]) == 10000
    ensures 5000 + DelayAfterResumesAsWritten(10000, 0, [3000, 5000]) == 7000
  {
    assert [3000, 5000][..1] == [3000];
  }

  /** As written, after a second show the delay fires early, by the time that had
      passed between its creation and the first show. */
  lemma DelayResumedTwiceFiresBeforeDeadline(duration: int, start: int, first: int, second: int)
    requires start < first <= second
    ensures second + DelayAfterResumesAsWritten(duration, start, [first, second])
      == start + duration - (first - start)
    ensures second + DelayAfterResumesAsWritten(duration, start, [first, second]) < start + duration
  {
    assert [first, second][..1] == [first];
    assert [first][..0] == [];
  }

  /** The wait left after the page becomes visible at `now`, measured from the
      original duration: the time since creation, hidden or not, has elapsed. */
  function DelayAfterResume(duration: int, start: int, now: int): (d: int)
    ensures now + Larger(0, d) == Larger(now, start + duration)
  {
    duration - (now - start)
  }
}
