/**
 * The amounts of js/amount.js: the two validators, `Amount` and `ChargeAmount`,
 * and the `AmountManager` singleton that holds the initial currency, the initial
 * amount and the charge amount. Amounts are exact reals; a value that does not
 * parse is `NaN`.
 */
module Amounts {
  import opened Wrappers
  import opened JsValues

  /** The currencies a code is checked against by default (amount.js:7-14),
      written as the source's six rows. */
  const CURRENCIES: seq<string> :=
    CURRENCIES_ROW_1 + CURRENCIES_ROW_2 + CURRENCIES_ROW_3 + CURRENCIES_ROW_4 + CURRENCIES_ROW_5 + CURRENCIES_ROW_6

  const CURRENCIES_ROW_1: seq<string> := ["AED", "ARS", "AUD", "BIF", "CAD", "CDF", "CFA", "CHF", "CVE", "CZK"]
  const CURRENCIES_ROW_2: seq<string> := ["DKK", "DOP", "ETB", "EUR", "GBP", "GHS", "GMD", "GNF", "HKD", "IDR"]
  const CURRENCIES_ROW_3: seq<string> := ["ILS", "JPY", "KES", "KRW", "LKR", "LRD", "MOP", "MUR", "MWK", "MYR"]
  const CURRENCIES_ROW_4: seq<string> := ["MZN", "NGN", "NOK", "NZD", "PHP", "RUB", "RWF", "SAR", "SEK", "SGD"]
  const CURRENCIES_ROW_5: seq<string> := ["SLL", "STD", "THB", "TWD", "TZS", "UGX", "USD", "XAF", "XOF", "ZAR"]
  const CURRENCIES_ROW_6: seq<string> := ["ZMK", "ZMW", "ZWD"]

  /** The currencies shown without fraction digits (amount.js:16-19). */
  const ROUNDED_CURRENCIES: seq<string> := [
    "BIF", "CLP", "DJF", "GNF", "ISK", "JPY", "KMF", "KRW", "PYG", "RWF",
    "UGX", "UYI", "VND", "VUV", "XAF", "XOF", "XPF"
  ]

  /** The currencies a charge may be converted into, besides the initial one (amount.js:21-23). */
  const DCC_CURRENCIES: seq<string> := ["EUR", "GBP", "NGN", "USD", "ZAR"]

  /** The errors the module throws: two `TypeError`s and one `Error`. */
  datatype Error = InvalidAmount | InvalidCurrency | CurrencyNotDefined

  /** `parseAmount` (amount.js:28-36) on an already converted number. */
  function ParseAmount(value: Numeric): (r: Result<real, Error>)
    ensures r.Success? <==> value.Number? && value.x >= 0.0
    ensures r.Success? ==> r.value == value.x
    ensures r.Failure? ==> r.error == InvalidAmount
  {
    if value.NaN? || value.x < 0.0 then Failure(InvalidAmount) else Success(value.x)
  }

  /** The characters `String.prototype.trim` removes: white space and line terminators. */
  predicate IsWhite(c: char) {
    || c == '\t' || c == '\n' || c == '\U{000B}' || c == '\U{000C}' || c == '\r' || c == ' '
    || c == '\U{00A0}' || c == '\U{1680}' || ('\U{2000}' <= c <= '\U{200A}')
    || c == '\U{2028}' || c == '\U{2029}' || c == '\U{202F}' || c == '\U{205F}'
    || c == '\U{3000}' || c == '\U{FEFF}'
  }

  /** `s` without its leading white space. */
  function TrimStart(s: string): (r: string)
    ensures |r| <= |s| && r == s[|s| - |r|..]
    ensures forall k :: 0 <= k < |s| - |r| ==> IsWhite(s[k])
    ensures r == [] || !IsWhite(r[0])
  {
    if s != [] && IsWhite(s[0]) then
      var r := TrimStart(s[1..]);
      assert forall k :: 1 <= k < |s| - |r| ==> s[k] == s[1..][k - 1];
      r
    else s
  }

  /** `s` without its trailing white space. */
  function TrimEnd(s: string): (r: string)
    ensures |r| <= |s| && r == s[..|r|]
    ensures forall k :: |r| <= k < |s| ==> IsWhite(s[k])
    ensures r == [] || !IsWhite(r[|r| - 1])
  {
    if s != [] && IsWhite(s[|s| - 1]) then TrimEnd(s[..|s| - 1]) else s
  }

  /** `String.prototype.trim`. */
  function Trim(s: string): string {
    TrimEnd(TrimStart(s))
  }

  /** `toUpperCase` on one character; only the ASCII letters are mapped. */
  function UpperChar(c: char): (u: char)
    ensures !('a' <= u <= 'z')
  {
    if 'a' <= c <= 'z' then (c as int - 32) as char else c
  }

  function Upper(s: string): (r: string)
    ensures |r| == |s| && forall i :: 0 <= i < |s| ==> r[i] == UpperChar(s[i])
  {
    seq(|s|, i requires 0 <= i < |s| => UpperChar(s[i]))
  }

  /** The code `parseCurrency` looks up: trimmed, then upper-cased, so no longer
      than the input and free of lower-case ASCII letters. */
  function Normalize(s: string): (n: string)
    ensures |n| <= |s|
    ensures forall i :: 0 <= i < |n| ==> !('a' <= n[i] <= 'z')
  {
    Upper(Trim(s))
  }

  /** The list `parseCurrency` checks against: the given one unless missing or empty. */
  function ListOr(list: Option<seq<string>>): seq<string> {
    if list.Some? && |list.value| > 0 then list.value else CURRENCIES
  }

  /** `parseCurrency(value, list)` (amount.js:38-45); `None` stands for a value that
      is not a string. */
  function ParseCurrency(value: Option<string>, list: Option<seq<string>>): (r: Result<string, Error>)
    ensures r.Success? <==> value.Some? && Normalize(value.value) != [] && Normalize(value.value) in ListOr(list)
    ensures r.Success? ==> r.value == Normalize(value.value) && r.value in ListOr(list)
    ensures r.Failure? ==> r.error == InvalidCurrency
  {
    if value.Some? && Normalize(value.value) != [] && Normalize(value.value) in ListOr(list) then
      Success(Normalize(value.value))
    else
      Failure(InvalidCurrency)
  }

  /** A string with no white space at either end is its own trim. */
  lemma TrimTrimmed(s: string)
    requires s == [] || (!IsWhite(s[0]) && !IsWhite(s[|s| - 1]))
    ensures Trim(s) == s
  {
  }

  /** Upper-casing maps white space to white space and nothing else to it. */
  lemma UpperKeepsWhite(c: char)
    ensures IsWhite(UpperChar(c)) <==> IsWhite(c)
  {
  }

  /** A normalised code normalises to itself. */
  lemma {:induction false} NormalizeIdempotent(s: string)
    ensures Normalize(Normalize(s)) == Normalize(s)
  {
    var t := Trim(s);
    var u := Upper(t);
    TrimEnds(s);
    if u != [] {
      UpperKeepsWhite(t[0]);
      UpperKeepsWhite(t[|t| - 1]);
      assert u[0] == UpperChar(t[0]) && u[|u| - 1] == UpperChar(t[|t| - 1]);
    }
    TrimTrimmed(u);
    UpperIdempotent(t);
  }

  /** A trimmed string starts and ends with a character that is not white space. */
  lemma TrimEnds(s: string)
    ensures var t := Trim(s); t == [] || (!IsWhite(t[0]) && !IsWhite(t[|t| - 1]))
  {
    var r := TrimStart(s);
    var t := TrimEnd(r);
    if t != [] {
      assert t[0] == r[0];
    }
  }

  lemma UpperIdempotent(s: string)
    ensures Upper(Upper(s)) == Upper(s)
  {
    var u := Upper(s);
    forall i | 0 <= i < |u|
      ensures Upper(u)[i] == u[i]
    {
      assert u[i] == UpperChar(s[i]);
    }
  }

  /** Feeding an accepted code back in accepts it again, unchanged. */
  lemma ParseCurrencyIdempotent(value: Option<string>, list: Option<seq<string>>)
    requires ParseCurrency(value, list).Success?
    ensures ParseCurrency(Some(ParseCurrency(value, list).value), list) == ParseCurrency(value, list)
  {
    NormalizeIdempotent(value.value);
  }

  /** Blank input is always rejected, whatever the list. */
  lemma BlankCurrencyRejected(s: string, list: Option<seq<string>>)
    requires forall k :: 0 <= k < |s| ==> IsWhite(s[k])
    ensures ParseCurrency(Some(s), list) == Failure(InvalidCurrency)
  {
    assert Trim(s) == [];
  }

  /** A non-empty string of ASCII capitals. */
  predicate Capitals(s: string) {
    s != [] && forall k :: 0 <= k < |s| ==> 'A' <= s[k] <= 'Z'
  }

  /** A three-letter code of ASCII capitals, the shape of every listed currency. */
  predicate Code3(s: string) {
    |s| == 3 && 'A' <= s[0] <= 'Z' && 'A' <= s[1] <= 'Z' && 'A' <= s[2] <= 'Z'
  }

  /** A code of ASCII capitals normalises to itself. */
  lemma CapitalsNormal(code: string)
    requires Capitals(code)
    ensures Normalize(code) == code
  {
    TrimTrimmed(code);
    UpperCapitals(code);
  }

  /** Upper-casing leaves ASCII capitals alone. */
  lemma UpperCapitals(code: string)
    requires Capitals(code)
    ensures Upper(code) == code
  {
    var u := Upper(code);
    forall i | 0 <= i < |code|
      ensures u[i] == code[i]
    {
      assert 'A' <= code[i] <= 'Z';
    }
  }

  /** A three-letter code of capitals is non-empty and normalises to itself. */
  lemma Code3Normal(code: string)
    requires Code3(code)
    ensures code != [] && Normalize(code) == code
  {
    forall k | 0 <= k < |code|
      ensures 'A' <= code[k] <= 'Z'
    {
      assert k == 0 || k == 1 || k == 2;
    }
    CapitalsNormal(code);
  }

  lemma Row1Codes(code: string)
    requires code in CURRENCIES_ROW_1
    ensures Code3(code)
  {
  }

  lemma Row2Codes(code: string)
    requires code in CURRENCIES_ROW_2
    ensures Code3(code)
  {
  }

  lemma Row3Codes(code: string)
    requires code in CURRENCIES_ROW_3
    ensures Code3(code)
  {
  }

  lemma Row4Codes(code: string)
    requires code in CURRENCIES_ROW_4
    ensures Code3(code)
  {
  }

  lemma Row5Codes(code: string)
    requires code in CURRENCIES_ROW_5
    ensures Code3(code)
  {
  }

  lemma Row6Codes(code: string)
    requires code in CURRENCIES_ROW_6
    ensures Code3(code)
  {
  }

  /** Every listed currency is a three-letter code of capitals. */
  lemma ListedCode(code: string)
    requires code in CURRENCIES
    ensures Code3(code)
  {
    var rows12 := CURRENCIES_ROW_1 + CURRENCIES_ROW_2;
    var rows123 := rows12 + CURRENCIES_ROW_3;
    var rows1234 := rows123 + CURRENCIES_ROW_4;
    var rows12345 := rows1234 + CURRENCIES_ROW_5;
    assert CURRENCIES == rows12345 + CURRENCIES_ROW_6;
    if code in CURRENCIES_ROW_6 {
      Row6Codes(code);
    } else if code in CURRENCIES_ROW_5 {
      Row5Codes(code);
    } else if code in CURRENCIES_ROW_4 {
      Row4Codes(code);
    } else if code in CURRENCIES_ROW_3 {
      Row3Codes(code);
    } else if code in CURRENCIES_ROW_2 {
      Row2Codes(code);
    } else {
      Row1Codes(code);
    }
  }

  /** The conversion currencies are all listed. */
  lemma DccListed(code: string)
    requires code in DCC_CURRENCIES
    ensures code in CURRENCIES
  {
    if code == "EUR" || code == "GBP" {
      assert code in CURRENCIES_ROW_2;
    } else if code == "NGN" {
      assert code in CURRENCIES_ROW_4;
    } else {
      assert code in CURRENCIES_ROW_5;
    }
  }

  /** A listed code is accepted as itself. */
  lemma ListedAccepted(code: string)
    requires code in CURRENCIES
    ensures ParseCurrency(Some(code), None) == Success(code)
  {
    ListedCode(code);
    Code3Normal(code);
    NormalAccepted(code);
  }

  /** A listed code that is already in normal form is accepted as itself. */
  lemma NormalAccepted(code: string)
    requires code in CURRENCIES && code != [] && Normalize(code) == code
    ensures ParseCurrency(Some(code), None) == Success(code)
  {
    assert ListOr(None) == CURRENCIES;
    assert Normalize(code) in ListOr(None);
  }

  /** Every listed code, and every conversion currency, is accepted as itself. */
  lemma CurrenciesAccepted(code: string)
    requires code in CURRENCIES || code in DCC_CURRENCIES
    ensures ParseCurrency(Some(code), None) == Success(code)
  {
    if code !in CURRENCIES {
      DccListed(code);
    }
    ListedAccepted(code);
  }

  /** The number of fraction digits `valueOf` keeps (amount.js:92). */
  function FractionDigits(currency: string): (d: nat)
    ensures d == 0 <==> currency in ROUNDED_CURRENCIES
    ensures d == 2 <==> currency !in ROUNDED_CURRENCIES
  {
    if currency in ROUNDED_CURRENCIES then 0 else 2
  }

  /** 10 to the power of `digits`. */
  function Scale(digits: nat): (s: real)
    ensures s >= 1.0
  {
    if digits == 0 then 1.0 else 10.0 * Scale(digits - 1)
  }

  /** `valueOf` (amount.js:91-100): the computed value formatted with the currency's
      fraction digits, ties rounded away from zero, and read back as a number. */
  function ValueOf(computed: real, currency: string): (r: real)
    ensures var s := Scale(FractionDigits(currency));
      && (r * s).Floor as real == r * s
      && -0.5 <= (r - computed) * s <= 0.5
  {
    var s := Scale(FractionDigits(currency));
    var y := computed * s;
    var n := RoundHalfAway(y);
    RoundedBack(n, y, computed, s);
    n as real / s
  }

  /** Rounding to the nearest integer, ties away from zero, as `Intl.NumberFormat` does. */
  function RoundHalfAway(y: real): (n: int)
    ensures -0.5 <= n as real - y <= 0.5
    ensures n as real - y == 0.5 ==> y > 0.0
    ensures n as real - y == -0.5 ==> y < 0.0
  {
    if y >= 0.0 then (y + 0.5).Floor else -((-y + 0.5).Floor)
  }

  /** Rounding `y = computed * s` to the integer `n` and dividing back by `s`
      lands on a multiple of 1/s within half of it from `computed`. */
  lemma RoundedBack(n: int, y: real, computed: real, s: real)
    requires s >= 1.0 && y == computed * s
    requires -0.5 <= n as real - y <= 0.5
    ensures ((n as real / s) * s).Floor as real == (n as real / s) * s
    ensures -0.5 <= (n as real / s - computed) * s <= 0.5
  {
    var r := n as real / s;
    assert r * s == n as real;
    assert (r - computed) * s == r * s - computed * s;
  }

  /** An `Amount` (amount.js:79-85): a validated base and currency. */
  datatype Amount = Amount(base: real, currency: string)
  {
    /** `computed`: the base itself. */
    function Computed(): real {
      base
    }
  }

  /** `new Amount(amount, currency)`: the amount is checked first, then the currency
      against `CURRENCIES`. */
  function NewAmount(amount: Numeric, currency: Option<string>): (r: Result<Amount, Error>)
    ensures ParseAmount(amount).Failure? ==> r == Failure(InvalidAmount)
    ensures ParseAmount(amount).Success? && ParseCurrency(currency, None).Failure? ==> r == Failure(InvalidCurrency)
    ensures r.Success? <==> ParseAmount(amount).Success? && ParseCurrency(currency, None).Success?
    ensures r.Success? ==> r.value.Computed() == amount.x >= 0.0 && r.value.currency in CURRENCIES
  {
    var base :- ParseAmount(amount);
    var code :- ParseCurrency(currency, None);
    Success(Amount(base, code))
  }

  /** A `ChargeAmount` (amount.js:117-132): an amount with a fee and a discount
      that can be updated in place. */
  class ChargeAmount {
    const base: real
    const currency: string
    var fee: real
    var discount: real

    predicate Valid()
      reads this
    {
      base >= 0.0 && fee >= 0.0 && discount >= 0.0 && currency in CURRENCIES
    }

    /** `computed`: base plus fee minus discount. */
    function Computed(): real
      reads this
    {
      base + fee - discount
    }

    constructor (base: real, currency: string)
      requires base >= 0.0 && currency in CURRENCIES
      ensures Valid()
      ensures this.base == base && this.currency == currency
      ensures fee == 0.0 && discount == 0.0 && Computed() == base
    {
      this.base := base;
      this.currency := currency;
      fee, discount := 0.0, 0.0;
    }

    /** `new ChargeAmount(amount, currency)`: fails as `new Amount` does; a new
        charge starts with no fee and no discount. */
    static method New(amount: Numeric, currency: Option<string>) returns (r: Result<ChargeAmount, Error>)
      ensures r.Success? <==> NewAmount(amount, currency).Success?
      ensures r.Failure? ==> r.error == NewAmount(amount, currency).error
      ensures r.Success? ==> fresh(r.value) && r.value.Valid()
      ensures r.Success? ==>
        && r.value.base == NewAmount(amount, currency).value.base
        && r.value.currency == NewAmount(amount, currency).value.currency
        && r.value.Computed() == r.value.base
    {
      var a := NewAmount(amount, currency);
      if a.Failure? {
        return Failure(a.error);
      }
      var c := new ChargeAmount(a.value.base, a.value.currency);
      return Success(c);
    }

    /** `updateFee(amount)`: stores a valid amount, keeps the fee otherwise, and
        returns the charge itself; the error is swallowed by `finally`. */
    method UpdateFee(amount: Numeric) returns (self: ChargeAmount)
      requires Valid()
      modifies this`fee
      ensures self == this && Valid()
      ensures fee == if ParseAmount(amount).Success? then ParseAmount(amount).value else old(fee)
      ensures Computed() == base + fee - discount
    {
      var parsed := ParseAmount(amount);
      if parsed.Success? {
        fee := parsed.value;
      }
      return this;
    }

    /** `updateDiscount(amount)`: as `updateFee`, for the discount. */
    method UpdateDiscount(amount: Numeric) returns (self: ChargeAmount)
      requires Valid()
      modifies this`discount
      ensures self == this && Valid()
      ensures discount == if ParseAmount(amount).Success? then ParseAmount(amount).value else old(discount)
      ensures Computed() == base + fee - discount
    {
      var parsed := ParseAmount(amount);
      if parsed.Success? {
        discount := parsed.value;
      }
      return this;
    }
  }

  /** `s` without repeated elements, first occurrences kept in order: what
      `Array.from(new Set(s))` yields. */
  function Dedup(s: seq<string>): (r: seq<string>)
    ensures forall x :: x in r <==> x in s
    ensures forall i, j :: 0 <= i < j < |r| ==> r[i] != r[j]
  {
    if s == [] then []
    else
      var rest := Dedup(s[..|s| - 1]);
      if s[|s| - 1] in rest then rest else rest + [s[|s| - 1]]
  }

  /** Without repeats, `Dedup` changes nothing. */
  lemma {:induction false} DedupDistinct(s: seq<string>)
    requires forall i, j :: 0 <= i < j < |s| ==> s[i] != s[j]
    ensures Dedup(s) == s
  {
    if s != [] {
      DedupDistinct(s[..|s| - 1]);
      assert s == s[..|s| - 1] + [s[|s| - 1]];
    }
  }

  /** The currencies a charge may be converted into once `initial` is set
      (amount.js:159-161): the DCC currencies and the initial one, each once. */
  function Convertible(initial: string): (c: seq<string>)
    ensures forall x :: x in c <==> x in DCC_CURRENCIES || x == initial
    ensures forall i, j :: 0 <= i < j < |c| ==> c[i] != c[j]
  {
    Dedup(DCC_CURRENCIES + [initial])
  }

  /** The conversion list is the DCC list followed by the initial currency unless it
      is already one of them; every entry is a listed currency. */
  lemma ConvertibleShape(initial: string)
    requires initial in CURRENCIES
    ensures Convertible(initial) == if initial in DCC_CURRENCIES then DCC_CURRENCIES else DCC_CURRENCIES + [initial]
    ensures forall c :: c in Convertible(initial) ==> c in CURRENCIES
  {
    var s := DCC_CURRENCIES + [initial];
    DccDistinct();
    if initial in DCC_CURRENCIES {
      DedupDistinct(DCC_CURRENCIES);
      assert s[..|s| - 1] == DCC_CURRENCIES;
    } else {
      assert forall i, j :: 0 <= i < j < |s| ==> s[i] != s[j];
      DedupDistinct(s);
    }
    forall c | c in Convertible(initial)
      ensures c in CURRENCIES
    {
      assert c in s;
      if c != initial {
        DccListed(c);
      }
    }
  }

  lemma DccDistinct()
    ensures forall i, j :: 0 <= i < j < |DCC_CURRENCIES| ==> DCC_CURRENCIES[i] != DCC_CURRENCIES[j]
  {
  }

  /** The rate `currency` setter applies (amount.js:167-168): 1 for the initial
      currency and for any currency the table has no number for. */
  function Rate(table: map<string, real>, currency: string, initial: string): (r: real)
    ensures currency == initial || table == map[] ==> r == 1.0
    ensures r == 1.0 || (currency in table && r == table[currency])
  {
    if currency == initial || currency !in table then 1.0 else table[currency]
  }

  /** The `AmountManager` (amount.js:135-196): the state behind its three accessors. */
  class AmountManager {
    var initialCurrency: Option<string>
    var conversions: map<string, real>
    var convertible: seq<string>
    var initialAmount: Option<Amount>
    var chargeAmount: ChargeAmount?

    /** What every accessor keeps: nothing is set before the currency; the conversion
        table stays empty, so a charge is always the initial amount in some
        convertible currency. */
    predicate Valid()
      reads this, chargeAmount
    {
      && (initialCurrency.None? ==> initialAmount.None? && chargeAmount == null)
      && (initialCurrency.Some? ==>
            initialCurrency.value in CURRENCIES
            && conversions == map[]
            && convertible == Convertible(initialCurrency.value))
      && (initialAmount.Some? ==>
            initialAmount.value.currency == initialCurrency.value
            && initialAmount.value.base >= 0.0
            && chargeAmount != null)
      && (chargeAmount != null ==>
            initialAmount.Some?
            && chargeAmount.Valid()
            && chargeAmount.currency in convertible
            && chargeAmount.base == initialAmount.value.base)
    }

    /** `new AmountManager` on first use: nothing set. */
    constructor ()
      ensures Valid()
      ensures initialCurrency.None? && initialAmount.None? && chargeAmount == null
    {
      initialCurrency, conversions, convertible := None, map[], [];
      initialAmount, chargeAmount := None, null;
    }

    /**
     * The `currency` setter (amount.js:154-173). The first valid code fixes the
     * initial currency; an invalid first code throws. Later codes are checked
     * against the convertible list and, when accepted and an initial amount
     * exists, replace the charge with a fresh one; any failure there is swallowed.
     */
    method SetCurrency(currency: Option<string>) returns (thrown: Option<Error>)
      requires Valid()
      modifies this
      ensures Valid()
      ensures old(initialCurrency).None? ==>
        (if ParseCurrency(currency, None).Success? then
          thrown.None? && initialCurrency == Some(ParseCurrency(currency, None).value)
        else
          thrown == Some(InvalidCurrency) && initialCurrency.None?)
        && initialAmount.None? && chargeAmount == null
      ensures old(initialCurrency).Some? ==>
        thrown.None?
        && initialCurrency == old(initialCurrency)
        && convertible == old(convertible)
        && initialAmount == old(initialAmount)
      ensures old(initialCurrency).Some? && old(initialAmount).Some? && ParseCurrency(currency, Some(old(convertible))).Success? ==>
        && fresh(chargeAmount)
        && chargeAmount.currency == ParseCurrency(currency, Some(old(convertible))).value
        && chargeAmount.base == initialAmount.value.base
        && chargeAmount.fee == 0.0 && chargeAmount.discount == 0.0
      ensures old(initialCurrency).Some? && (old(initialAmount).None? || ParseCurrency(currency, Some(old(convertible))).Failure?) ==>
        chargeAmount == old(chargeAmount)
    {
      if initialCurrency.None? {
        thrown := FixCurrency(ParseCurrency(currency, None));
      } else {
        assert DCC_CURRENCIES[0] in convertible;
        ConvertCharge(ParseCurrency(currency, Some(convertible)));
        thrown := None;
      }
    }

    /** The first assignment, given the parsed code: a valid code fixes the currency
        and its conversion list; a failure is thrown and changes nothing. */
    method FixCurrency(code: Result<string, Error>) returns (thrown: Option<Error>)
      requires Valid() && initialCurrency.None?
      requires code.Success? ==> code.value in CURRENCIES
      modifies this`initialCurrency, this`conversions, this`convertible
      ensures Valid()
      ensures code.Success? ==> thrown.None? && initialCurrency == Some(code.value)
      ensures code.Failure? ==> thrown == Some(code.error) && initialCurrency.None?
    {
      if code.Failure? {
        return Some(code.error);
      }
      initialCurrency := Some(code.value);
      conversions := map[];
      convertible := Convertible(code.value);
      return None;
    }

    /** A later assignment, given the code parsed against the conversion list: an
        accepted code replaces the charge by the initial amount converted into it;
        a failure, or no initial amount, changes nothing. */
    method ConvertCharge(code: Result<string, Error>)
      requires Valid() && initialCurrency.Some?
      requires code.Success? ==> code.value in convertible
      modifies this`chargeAmount
      ensures Valid()
      ensures initialAmount.Some? && code.Success? ==>
        && fresh(chargeAmount)
        && chargeAmount.currency == code.value
        && chargeAmount.base == initialAmount.value.base
        && chargeAmount.fee == 0.0 && chargeAmount.discount == 0.0
      ensures initialAmount.None? || code.Failure? ==> chargeAmount == old(chargeAmount)
    {
      if code.Failure? || initialAmount.None? {
        return;
      }
      ConvertibleShape(initialCurrency.value);
      var amount := initialAmount.value.base;
      var rate := Rate(conversions, code.value, initialCurrency.value);
      var charge := new ChargeAmount(amount * rate, code.value);
      chargeAmount := charge;
    }

    /** The `initialAmount` setter (amount.js:178-185): needs the currency; a valid
        amount sets the initial amount and a fresh charge for it. */
    method SetInitialAmount(amount: Numeric) returns (thrown: Option<Error>)
      requires Valid()
      modifies this
      ensures Valid()
      ensures initialCurrency == old(initialCurrency) && convertible == old(convertible)
      ensures old(initialCurrency).None? ==> thrown == Some(CurrencyNotDefined)
      ensures old(initialCurrency).Some? && ParseAmount(amount).Failure? ==> thrown == Some(InvalidAmount)
      ensures thrown.Some? ==> initialAmount == old(initialAmount) && chargeAmount == old(chargeAmount)
      ensures thrown.None? <==> old(initialCurrency).Some? && ParseAmount(amount).Success?
      ensures thrown.None? ==>
        && initialAmount == Some(Amount(ParseAmount(amount).value, initialCurrency.value))
        && fresh(chargeAmount)
        && chargeAmount.base == ParseAmount(amount).value
        && chargeAmount.currency == initialCurrency.value
        && chargeAmount.fee == 0.0 && chargeAmount.discount == 0.0
    {
      if initialCurrency.None? {
        return Some(CurrencyNotDefined);
      }
      var parsed := ParseAmount(amount);
      if parsed.Failure? {
        return Some(parsed.error);
      }
      ConvertibleShape(initialCurrency.value);
      initialAmount := Some(Amount(parsed.value, initialCurrency.value));
      var charge := new ChargeAmount(parsed.value, initialCurrency.value);
      chargeAmount := charge;
      return None;
    }

    /** The `chargeAmount` setter (amount.js:190-194): it stores nothing, and throws
        only while the currency is unset. */
    method SetChargeAmount() returns (thrown: Option<Error>)
      ensures thrown.Some? <==> initialCurrency.None?
      ensures thrown.Some? ==> thrown.value == CurrencyNotDefined
    {
      if initialCurrency.None? {
        return Some(CurrencyNotDefined);
      }
      return None;
    }
  }

  /** The module-level `__instance__` (amount.js:5, 136-144): `AmountManager(...)`
      with or without `new` yields the one instance, whatever the argument. */
  class ManagerSlot {
    var instance: AmountManager?

    constructor ()
      ensures instance == null
    {
      instance := null;
    }

    method Get() returns (m: AmountManager)
      modifies this
      ensures old(instance) != null ==> m == old(instance)
      ensures old(instance) == null ==> fresh(m) && m.Valid() && m.initialCurrency.None?
      ensures instance == m
    {
      if instance != null {
        return instance;
      }
      m := new AmountManager();
      instance := m;
    }
  }
}
