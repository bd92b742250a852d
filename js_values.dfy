/**
 * The JavaScript values that reach the modelled code, reduced to what the code
 * observes of them, and the two integer normalisers of js/fetch.old.js.
 */
module JsValues {

  /** A JavaScript number after unary `+` coercion, as far as `Number.isInteger`
      can tell: an integer, or any other number (NaN, an infinity, a fraction). */
  datatype Num = Integer(value: int) | NonInteger

  /** What `getNumber` can return: an integer or `Infinity`. */
  datatype Extended = Finite(value: int) | Infinity

  /** A caller-supplied function. `id` tells functions apart; `output` is the
      number (after `+` coercion) that calling it returns. */
  datatype Fn = Fn(id: nat, output: Num)

  /** An argument passed to a setter: missing/undefined, `null`, a function,
      or any other value, seen through its `+` coercion. */
  datatype Arg = Undefined | Null | Function(f: Fn) | Value(n: Num)

  /** A number already parsed from its input (`Number(...)`, `parseFloat`):
      a real value or NaN. Infinities are not modelled. */
  datatype Numeric = Number(x: real) | NaN

  predicate Leq(a: Extended, b: Extended) {
    b.Infinity? || (a.Finite? && a.value <= b.value)
  }

  function Min(a: Extended, b: Extended): Extended {
    if Leq(a, b) then a else b
  }

  function Max(a: Extended, b: Extended): Extended {
    if Leq(a, b) then b else a
  }

  /** An `Extended` fed back into `+` coercion. */
  function AsNum(e: Extended): Num {
    if e.Finite? then Integer(e.value) else NonInteger
  }

  /** Unary `+` on an argument: `+null` is 0, `+undefined` and `+function` are NaN. */
  function ToNumber(a: Arg): (n: Num)
    ensures a.Null? ==> n == Integer(0)
    ensures a.Undefined? || a.Function? ==> n == NonInteger
  {
    match a
    case Undefined => NonInteger
    case Null => Integer(0)
    case Function(_) => NonInteger
    case Value(n) => n
  }

  /** `getNumber(value, defaultNumber)` (fetch.old.js:23-27); a default that is
      not an integer, including the omitted one, stands for `Infinity`. */
  function GetNumber(value: Num, default: Num): (r: Extended)
    ensures value.Integer? ==> r == Finite(value.value)
    ensures value.NonInteger? ==> r == AsExtended(default)
  {
    if value.Integer? then Finite(value.value)
    else if default.Integer? then Finite(default.value)
    else Infinity
  }

  function AsExtended(n: Num): Extended {
    if n.Integer? then Finite(n.value) else Infinity
  }

  /** `getBoundedNumber(value, min, max)` (fetch.old.js:29-39): every argument goes
      through `getNumber`, inverted bounds are swapped, and the value is clamped. */
  function GetBoundedNumber(value: Num, min: Num, max: Num): (r: Extended)
    ensures var v, lo, hi := AsExtended(value), Lower(min, max), Upper(min, max);
      && Leq(lo, r) && Leq(r, hi)
      && (Leq(lo, v) && Leq(v, hi) ==> r == v)
      && (Leq(v, lo) ==> r == lo)
      && (Leq(hi, v) ==> r == hi)
  {
    var v := GetNumber(value, NonInteger);
    var lo := GetNumber(min, NonInteger);
    var hi := GetNumber(max, NonInteger);
    var (lo', hi') := if Leq(hi, lo) && hi != lo then (hi, lo) else (lo, hi);
    Min(Max(lo', v), hi')
  }

  /** The smaller of the two bounds after `getNumber`. */
  function Lower(min: Num, max: Num): Extended {
    Min(AsExtended(min), AsExtended(max))
  }

  /** The larger of the two bounds after `getNumber`. */
  function Upper(min: Num, max: Num): Extended {
    Max(AsExtended(min), AsExtended(max))
  }

  /** Swapping the bounds changes nothing: `getBoundedNumber` orders them itself. */
  lemma BoundedNumberSymmetric(value: Num, a: Num, b: Num)
    ensures GetBoundedNumber(value, a, b) == GetBoundedNumber(value, b, a)
  {
  }

  /** `getNumber` is the identity on what it returns: normalising twice, as the
      `retry` and `timeout` setters do, is the same as normalising once. */
  lemma GetNumberIdempotent(value: Num, default: Num)
    ensures GetNumber(AsNum(GetNumber(value, default)), NonInteger) == GetNumber(value, default)
  {
  }
}
