/**
 * The few JavaScript value semantics the client relies on: truthiness and
 * the `||` defaulting operator, `String.prototype.startsWith`, `toLowerCase`
 * and the decimal rendering of a status code inside a template literal.
 */
module Js {
  import opened Wrappers

  /** A JavaScript number: a finite value or NaN (the infinities are not modelled). */
  datatype Number = Finite(value: real) | NaN

  /** `!!s` for an optional string: absent and `""` are falsy. */
  predicate TruthyString(s: Option<string>)
  {
    s.Some? && s.value != ""
  }

  /** `!!b` for an optional boolean. */
  predicate TruthyBool(b: Option<bool>)
  {
    b == Some(true)
  }

  /** `!!n` for an optional number: absent, `0` (and `-0`) and NaN are falsy. */
  predicate TruthyNumber(n: Option<Number>)
  {
    n.Some? && n.value.Finite? && n.value.value != 0.0
  }

  /** `s || fallback` on an optional string. */
  function OrString(s: Option<string>, fallback: string): string
  {
    if TruthyString(s) then s.value else fallback
  }

  /** `b || fallback` on an optional boolean. */
  function OrBool(b: Option<bool>, fallback: bool): bool
  {
    if TruthyBool(b) then true else fallback
  }

  /** `n || fallback` on an optional number; a truthy number is finite. */
  function OrNumber(n: Option<Number>, fallback: real): real
  {
    if TruthyNumber(n) then n.value.value else fallback
  }

  /** `s.startsWith(prefix)`. */
  predicate StartsWith(s: string, prefix: string)
  {
    |prefix| <= |s| && s[..|prefix|] == prefix
  }

  /** A string starts with `prefix` exactly when it is `prefix` followed by its own remainder. */
  lemma StartsWithIff(s: string, prefix: string)
    ensures StartsWith(s, prefix) <==> |prefix| <= |s| && s == prefix + s[|prefix|..]
  {
  }

  /** `toLowerCase` on one character; only the ASCII letters are mapped. */
  function LowerChar(c: char): char
  {
    if 'A' <= c <= 'Z' then (c as int + 32) as char else c
  }

  /**
   * `s.toLowerCase()`, restricted to ASCII case folding: no upper-case
   * letter is left, each one is replaced by its lower-case partner, and
   * every other character is kept in place.
   */
  function ToLower(s: string): (r: string)
    ensures |r| == |s|
    ensures forall i :: 0 <= i < |r| ==> !('A' <= r[i] <= 'Z')
    ensures forall i :: 0 <= i < |s| && 'A' <= s[i] <= 'Z' ==> r[i] as int == s[i] as int + 32
    ensures forall i :: 0 <= i < |s| && !('A' <= s[i] <= 'Z') ==> r[i] == s[i]
  {
    seq(|s|, i requires 0 <= i < |s| => LowerChar(s[i]))
  }

  /** Lower-casing is idempotent: a name already in lower case is its own lookup key. */
  lemma ToLowerIdempotent(s: string)
    ensures ToLower(ToLower(s)) == ToLower(s)
  {
  }

  /** The digit character of `d`. */
  function DigitChar(d: nat): char
    requires d < 10
  {
    ('0' as int + d) as char
  }

  /** The value of a digit character. */
  function DigitValue(c: char): int
  {
    c as int - '0' as int
  }

  predicate IsDigit(c: char)
  {
    '0' <= c <= '9'
  }

  /** `${n}` for a non-negative integer: its decimal digits, no sign and no leading zero. */
  function DecimalString(n: nat): (r: string)
    ensures r != []
    ensures forall i :: 0 <= i < |r| ==> IsDigit(r[i])
    ensures (r[0] == '0') <==> n == 0
    decreases n
  {
    if n < 10 then [DigitChar(n)] else DecimalString(n / 10) + [DigitChar(n % 10)]
  }

  /** Reads a string of decimal digits back as a number. */
  function ParseDecimal(s: string): int
  {
    if s == [] then 0 else 10 * ParseDecimal(s[..|s| - 1]) + DigitValue(s[|s| - 1])
  }

  /** Rendering a status code and reading it back gives the same code. */
  lemma {:induction false} ParseDecimalString(n: nat)
    ensures ParseDecimal(DecimalString(n)) == n
    decreases n
  {
    var r := DecimalString(n);
    if n >= 10 {
      ParseDecimalString(n / 10);
      assert r[..|r| - 1] == DecimalString(n / 10);
    }
  }

  /** Distinct codes render as distinct strings. */
  lemma DecimalStringInjective(m: nat, n: nat)
    requires DecimalString(m) == DecimalString(n)
    ensures m == n
  {
    ParseDecimalString(m);
    ParseDecimalString(n);
  }
}
