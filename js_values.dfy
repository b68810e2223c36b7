/** The JavaScript value rules that the relay's logic leans on: absent
    values, truthiness, `Math.round`, `toUpperCase` on ASCII text,
    `Array.prototype.slice` with one argument, and the decimal rendering
    of a non-negative integer by `toString()`. */
module JsValues {

  /** `undefined` or `null` on one side, a present value on the other. */
  datatype Option<T> = None | Some(value: T)

  /** A possibly absent string is truthy: present and not empty. */
  predicate IsTruthyString(s: Option<string>) {
    s.Some? && s.value != ""
  }

  /** A possibly absent integer is truthy: present and not zero. */
  predicate IsTruthyInt(n: Option<int>) {
    n.Some? && n.value != 0
  }

  /** `a || b` for two possibly absent strings. */
  function OrElse(a: Option<string>, b: Option<string>): Option<string> {
    if IsTruthyString(a) then a else b
  }

  /** `Math.round(x)` over the reals: the nearest integer, halves upwards. */
  function RoundHalfUp(x: real): (r: int)
    ensures x - 0.5 < r as real <= x + 0.5
  {
    (x + 0.5).Floor
  }

  lemma RoundHalfUpMonotone(x: real, y: real)
    requires x <= y
    ensures RoundHalfUp(x) <= RoundHalfUp(y)
  {
  }

  function UpperChar(c: char): char {
    if 'a' <= c <= 'z' then (c as int - 32) as char else c
  }

  /** `toUpperCase()`, restricted to the ASCII letters. */
  function Upper(s: string): (r: string)
    ensures |r| == |s|
    ensures forall i :: 0 <= i < |s| ==> r[i] == UpperChar(s[i])
  {
    if s == [] then [] else [UpperChar(s[0])] + Upper(s[1..])
  }

  /** `s.slice(start)`: a negative start counts from the end, and a start
      past either end is clamped to it. */
  function SliceFrom<T>(s: seq<T>, start: int): (r: seq<T>)
    ensures |r| == if start < 0 then (if -start < |s| then -start else |s|)
                   else (if start < |s| then |s| - start else 0)
    ensures r == s[|s| - |r|..]
  {
    if start < 0 then s[(if |s| + start < 0 then 0 else |s| + start)..]
    else s[(if start < |s| then start else |s|)..]
  }

  function DigitChar(d: nat): (c: char)
    requires d < 10
    ensures '0' <= c <= '9'
  {
    ('0' as int + d) as char
  }

  predicate IsDigits(s: string) {
    forall i :: 0 <= i < |s| ==> '0' <= s[i] <= '9'
  }

  /** The decimal text of `n`, as `toString()` writes an integer below 10^21. */
  function Decimal(n: nat): (r: string)
    ensures |r| >= 1 && IsDigits(r)
    ensures r[0] == '0' ==> n == 0
    decreases n
  {
    if n < 10 then [DigitChar(n)] else Decimal(n / 10) + [DigitChar(n % 10)]
  }

  /** The number a string of decimal digits denotes. */
  function DecimalValue(s: string): nat
    requires IsDigits(s)
  {
    if s == [] then 0
    else DecimalValue(s[..|s| - 1]) * 10 + (s[|s| - 1] as int - '0' as int)
  }

  /** Rendering an id in decimal loses nothing: the text gives the id back. */
  lemma {:induction false} DecimalRoundTrip(n: nat)
    ensures DecimalValue(Decimal(n)) == n
  {
    if n >= 10 {
      var prefix := Decimal(n / 10);
      assert Decimal(n) == prefix + [DigitChar(n % 10)];
      assert Decimal(n)[..|Decimal(n)| - 1] == prefix;
      DecimalRoundTrip(n / 10);
    }
  }

  /** Hence two different ids never render to the same text. */
  lemma DecimalInjective(m: nat, n: nat)
    requires Decimal(m) == Decimal(n)
    ensures m == n
  {
    DecimalRoundTrip(m);
    DecimalRoundTrip(n);
  }
}
