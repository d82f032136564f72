/** The pieces of JavaScript's semantics that the handlers and the emote
    service rely on: `null`, awaited promises and `Promise.all`, truthiness
    tests (`!x`) and the unary `+` conversion of a user id to a number. */
module JsRuntime {

  /** `T | null`: a value or `null`. */
  datatype Option<+T> = None | Some(value: T)

  /** The outcome of awaiting a promise: its value, or the reason it was rejected
      (an `await` on a rejected promise throws that reason). */
  datatype Settled<+T> = Fulfilled(value: T) | Rejected(reason: string)

  /** `Promise.all(ps)`: fulfilled with every value, in the order of `ps`, when every
      promise is fulfilled; rejected as soon as one of them is. Which rejection wins
      depends on timing, which is not modelled: this picks the first by position. */
  function All<T>(ps: seq<Settled<T>>): (r: Settled<seq<T>>)
    ensures r.Fulfilled? <==> forall i | 0 <= i < |ps| :: ps[i].Fulfilled?
    ensures r.Fulfilled? ==>
      |r.value| == |ps| && forall i | 0 <= i < |ps| :: ps[i].Fulfilled? && r.value[i] == ps[i].value
    ensures r.Rejected? ==>
      exists i | 0 <= i < |ps| :: ps[i].Rejected? && ps[i].reason == r.reason
  {
    if ps == [] then Fulfilled([])
    else
      var rest := All(ps[1..]);
      if ps[0].Rejected? then Rejected(ps[0].reason)
      else if rest.Rejected? then Rejected(rest.reason)
      else Fulfilled([ps[0].value] + rest.value)
  }

  /** The same outcome, with a fulfilled value seen as a non-null `T | null`. */
  function AsNullable<T>(s: Settled<T>): (r: Settled<Option<T>>)
    ensures r.Rejected? <==> s.Rejected?
    ensures r.Rejected? ==> r.reason == s.reason
    ensures r.Fulfilled? ==> r.value == Some(s.value)
  {
    match s
    case Fulfilled(v) => Fulfilled(Some(v))
    case Rejected(e) => Rejected(e)
  }

  /** A JavaScript number as far as this model needs one: NaN or an integer. */
  datatype JsNumber = NaN | Num(n: int)

  /** `!!x` for a number: false for 0 and NaN. */
  predicate NumberTruthy(x: JsNumber) {
    x.Num? && x.n != 0
  }

  /** `!!s` for a string: false only for the empty string. */
  predicate StringTruthy(s: string) {
    s != ""
  }

  /** `!!o` for an object or `null`: every object, an empty array included, is truthy. */
  predicate ObjectTruthy<T>(o: Option<T>) {
    o.Some?
  }

  predicate IsDigit(c: char) {
    '0' <= c <= '9'
  }

  predicate AllDigits(s: string) {
    forall i | 0 <= i < |s| :: IsDigit(s[i])
  }

  function DigitValue(c: char): (d: nat)
    requires IsDigit(c)
    ensures d < 10
    ensures d == 0 <==> c == '0'
  {
    (c as int) - ('0' as int)
  }

  /** The value of a string of decimal digits; the empty string is 0. */
  function DecimalValue(s: string): (v: nat)
    requires AllDigits(s)
    ensures v == 0 <==> forall i | 0 <= i < |s| :: s[i] == '0'
  {
    if s == [] then 0
    else
      var init := s[..|s| - 1];
      assert forall i | 0 <= i < |init| :: init[i] == s[i];
      10 * DecimalValue(init) + DigitValue(s[|s| - 1])
  }

  /** `+s`: the empty string and strings of decimal digits convert to their value,
      anything else to NaN. */
  function ToNumber(s: string): (x: JsNumber)
    ensures x == NaN <==> exists i | 0 <= i < |s| :: !IsDigit(s[i])
    ensures x == Num(0) <==> forall i | 0 <= i < |s| :: s[i] == '0'
    ensures x.Num? ==> x.n >= 0
  {
    if AllDigits(s) then Num(DecimalValue(s)) else NaN
  }

  function DigitChar(d: nat): (c: char)
    requires d < 10
    ensures IsDigit(c) && DigitValue(c) == d
  {
    ('0' as int + d) as char
  }

  /** The decimal form of `n`, without leading zeros: how a numeric id is written. */
  function DecimalString(n: nat): (s: string)
    ensures |s| > 0 && AllDigits(s)
  {
    if n < 10 then [DigitChar(n)] else DecimalString(n / 10) + [DigitChar(n % 10)]
  }

  /** Converting the decimal form of `n` back with `+` gives `n`. */
  lemma {:induction false} ToNumberOfDecimalString(n: nat)
    ensures ToNumber(DecimalString(n)) == Num(n)
  {
    var s := DecimalString(n);
    if n < 10 {
      assert s[..|s| - 1] == [];
    } else {
      ToNumberOfDecimalString(n / 10);
      assert s[..|s| - 1] == DecimalString(n / 10);
    }
  }
}
