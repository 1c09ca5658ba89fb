/**
 The parts of Ruby's core behaviour that kafo's validator relies on: the shapes
 of value a validation function receives, truthiness, `to_s`, `inspect`,
 `Array#join`, `Kernel#Integer` on a string and `String#to_i`.
 */
module RubyValues {

  datatype Option<T> = None | Some(value: T)

  /** A Ruby value as a validation function receives it. A hash keeps its
      entries in insertion order, which is the order `inspect` prints them.
      Nothing rules out a repeated key, which no Ruby hash holds; no check
      looks inside a hash beyond printing it, so the extra values change no
      property stated here. */
  datatype Value =
    | VNil
    | VBool(b: bool)
    | VInt(i: int)
    | VStr(s: string)
    | VArr(elems: seq<Value>)
    | VHash(entries: seq<(Value, Value)>)

  /** Only `nil` and `false` are falsy. */
  predicate Truthy(v: Value) {
    !v.VNil? && v != VBool(false)
  }

  /** `String#start_with?` */
  predicate StartsWith(s: string, prefix: string) {
    |prefix| <= |s| && s[..|prefix|] == prefix
  }

  /** Joins already-rendered parts with a separator. */
  function JoinWith(parts: seq<string>, sep: string): string {
    if |parts| == 0 then ""
    else if |parts| == 1 then parts[0]
    else parts[0] + sep + JoinWith(parts[1..], sep)
  }

  // ---------------------------------------------------------------------------
  // Decimal numerals

  predicate IsDigit(c: char) {
    '0' <= c <= '9'
  }

  predicate AllDigits(s: string) {
    forall i :: 0 <= i < |s| ==> IsDigit(s[i])
  }

  function DigitChar(d: nat): (c: char)
    requires d < 10
    ensures IsDigit(c) && c as int - '0' as int == d
  {
    ('0' as int + d) as char
  }

  /** The decimal digits of a natural number, most significant first. */
  function NatToDecimal(n: nat): (r: string)
    ensures |r| > 0 && AllDigits(r)
  {
    if n < 10 then [DigitChar(n)] else NatToDecimal(n / 10) + [DigitChar(n % 10)]
  }

  /** The number a string of decimal digits denotes. */
  function DecimalValue(s: string): nat
    requires AllDigits(s)
  {
    if |s| == 0 then 0
    else DecimalValue(s[..|s| - 1]) * 10 + (s[|s| - 1] as int - '0' as int)
  }

  /** `Integer#to_s` */
  function IntToDecimal(i: int): string {
    if i < 0 then "-" + NatToDecimal(-i) else NatToDecimal(i)
  }

  /** `Kernel#Integer` applied to a string, restricted to signed decimal
      literals: an optional sign followed by at least one digit and nothing
      else. `None` stands for the `ArgumentError` Ruby raises. */
  function ParseInteger(s: string): Option<int> {
    if |s| > 0 && (s[0] == '-' || s[0] == '+') then
      if |s| > 1 && AllDigits(s[1..]) then
        var m: int := DecimalValue(s[1..]);
        Some(if s[0] == '-' then -m else m)
      else None
    else if |s| > 0 && AllDigits(s) then Some(DecimalValue(s))
    else None
  }

  /** The longest run of digits at the start of `s`. */
  function DigitPrefix(s: string): (p: string)
    ensures p <= s && AllDigits(p)
    ensures |p| < |s| ==> !IsDigit(s[|p|])
  {
    if |s| > 0 && IsDigit(s[0]) then [s[0]] + DigitPrefix(s[1..]) else ""
  }

  /** `String#to_i`: the signed decimal number the string starts with, or 0. */
  function LeadingInteger(s: string): int {
    if |s| > 0 && (s[0] == '-' || s[0] == '+') then
      var m: int := DecimalValue(DigitPrefix(s[1..]));
      if s[0] == '-' then -m else m
    else DecimalValue(DigitPrefix(s))
  }

  /** `to_i` sent to a value: integers, strings and nil define it; booleans,
      arrays and hashes do not (`None` is the `NoMethodError`). */
  function ToI(v: Value): Option<int> {
    match v
    case VInt(i) => Some(i)
    case VStr(s) => Some(LeadingInteger(s))
    case VNil => Some(0)
    case _ => None
  }

  // ---------------------------------------------------------------------------
  // Rendering

  /** Backslash-escapes double quotes and backslashes. */
  function EscapeQuoted(s: string): string {
    if |s| == 0 then ""
    else (if s[0] == '"' || s[0] == '\\' then ['\\', s[0]] else [s[0]]) + EscapeQuoted(s[1..])
  }

  /** `inspect` */
  function Inspect(v: Value): string
    decreases v
  {
    match v
    case VNil => "nil"
    case VBool(b) => if b then "true" else "false"
    case VInt(i) => IntToDecimal(i)
    case VStr(s) => "\"" + EscapeQuoted(s) + "\""
    case VArr(es) =>
      "[" + JoinWith(seq(|es|, k requires 0 <= k < |es| => Inspect(es[k])), ", ") + "]"
    case VHash(kvs) =>
      "{" + JoinWith(seq(|kvs|, k requires 0 <= k < |kvs| =>
                           Inspect(kvs[k].0) + "=>" + Inspect(kvs[k].1)), ", ") + "}"
  }

  /** `to_s`, which is also what string interpolation uses. Arrays and hashes
      print as their `inspect`; nil prints as the empty string. */
  function ToS(v: Value): string {
    match v
    case VNil => ""
    case VStr(s) => s
    case _ => Inspect(v)
  }

  /** `Array#join(sep)` on the elements of an array value: a nested array is
      joined recursively with the same separator, anything else by `to_s`. */
  function JoinValue(v: Value, sep: string): string
    decreases v
  {
    match v
    case VArr(es) =>
      JoinWith(seq(|es|, k requires 0 <= k < |es| => JoinValue(es[k], sep)), sep)
    case _ => ToS(v)
  }
  // ---------------------------------------------------------------------------
  // Round trips between rendering and parsing

  /** Reading back the digits of `n` gives `n`. */
  lemma {:induction false} DecimalRoundTrip(n: nat)
    ensures DecimalValue(NatToDecimal(n)) == n
  {
    var s := NatToDecimal(n);
    if n < 10 {
      assert s[..|s| - 1] == [];
    } else {
      assert s[..|s| - 1] == NatToDecimal(n / 10);
      DecimalRoundTrip(n / 10);
    }
  }

  /** `Integer(i.to_s) == i` for every integer. */
  lemma IntegerRoundTrip(i: int)
    ensures ParseInteger(IntToDecimal(i)) == Some(i)
  {
    var s := IntToDecimal(i);
    if i < 0 {
      assert s[1..] == NatToDecimal(-i);
      DecimalRoundTrip(-i);
    } else {
      DecimalRoundTrip(i);
    }
  }

  /** A string of digits is its own longest digit prefix. */
  lemma {:induction false} DigitPrefixOfDigits(s: string)
    requires AllDigits(s)
    ensures DigitPrefix(s) == s
  {
    if |s| > 0 {
      DigitPrefixOfDigits(s[1..]);
      assert s == [s[0]] + s[1..];
    }
  }

  /** On a string that `Integer()` accepts, `to_i` reads the same number. */
  lemma LeadingIntegerAgrees(s: string)
    requires ParseInteger(s).Some?
    ensures LeadingInteger(s) == ParseInteger(s).value
  {
    if s[0] == '-' || s[0] == '+' {
      DigitPrefixOfDigits(s[1..]);
    } else {
      DigitPrefixOfDigits(s);
    }
  }

  /** A bound written as the decimal string of `i` converts to `i`, just as
      the integer `i` does. */
  lemma RenderedBoundConverts(i: int)
    ensures ToI(VStr(IntToDecimal(i))) == Some(i)
    ensures ToI(VInt(i)) == Some(i)
  {
    IntegerRoundTrip(i);
    LeadingIntegerAgrees(IntToDecimal(i));
  }
}
