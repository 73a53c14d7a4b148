/**
 * The Ruby values that appear in an import specification and in client options,
 * with the parts of Ruby's semantics the transfer subsystem depends on:
 * truthiness, `||`, `to_s` and ActiveSupport's `present?`.
 */
module RubyValues {

  import opened Wrappers

  datatype Value = Nil | Bool(b: bool) | Str(s: string) | Int(i: int)

  /** Everything is truthy in Ruby except `nil` and `false`. */
  predicate Truthy(v: Value) {
    !(v.Nil? || v == Bool(false))
  }

  /** Ruby's `a || b`: the first operand when it is truthy, the second otherwise. */
  function Or(a: Value, b: Value): (r: Value)
    ensures Truthy(r) <==> Truthy(a) || Truthy(b)
    ensures Truthy(a) ==> r == a
    ensures !Truthy(a) ==> r == b
  {
    if Truthy(a) then a else b
  }

  /** `true.to_s` and `false.to_s`. */
  function BoolText(b: bool): string {
    if b then "true" else "false"
  }

  function Digit(d: nat): char
    requires d < 10
  {
    "0123456789"[d]
  }

  predicate IsDigits(s: string) {
    forall k :: 0 <= k < |s| ==> '0' <= s[k] <= '9'
  }

  /** The decimal digits of `n`, most significant first, as `Integer#to_s` writes them. */
  function NatText(n: nat): (s: string)
    ensures |s| > 0 && IsDigits(s)
    ensures |s| > 1 ==> s[0] != '0'
    decreases n
  {
    if n < 10 then [Digit(n)] else NatText(n / 10) + [Digit(n % 10)]
  }

  /** The number a string of decimal digits denotes. */
  function DigitsValue(s: string): nat
    requires IsDigits(s)
  {
    if s == [] then 0 else DigitsValue(s[..|s| - 1]) * 10 + (s[|s| - 1] as int - '0' as int)
  }

  /** Reading back the digits that `NatText` writes gives the number again. */
  lemma {:induction false} NatTextRoundTrip(n: nat)
    ensures DigitsValue(NatText(n)) == n
    decreases n
  {
    if n >= 10 {
      NatTextRoundTrip(n / 10);
      var s := NatText(n);
      assert s[..|s| - 1] == NatText(n / 10);
    }
  }

  /** `Integer#to_s`: an optional minus sign followed by the digits of the magnitude. */
  function IntText(i: int): string {
    if i < 0 then "-" + NatText(-i) else NatText(i)
  }

  /** `to_s` on the values this model admits (`nil.to_s` is the empty string). */
  function ToS(v: Value): string {
    match v
    case Nil => ""
    case Bool(b) => BoolText(b)
    case Str(s) => s
    case Int(i) => IntText(i)
  }

  /** The ASCII whitespace characters that `blank?` skips. */
  predicate IsSpace(c: char) {
    c == ' ' || c == '\t' || c == '\n' || c == '\r' || c as int == 0x0B || c as int == 0x0C
  }

  /** ActiveSupport's `present?` on a scalar: not nil, not false, not a blank string. */
  predicate Present(v: Value) {
    match v
    case Nil => false
    case Bool(b) => b
    case Str(s) => exists k :: 0 <= k < |s| && !IsSpace(s[k])
    case Int(_) => true
  }

  /** ActiveSupport's `present?` on a collection value: neither nil nor empty. */
  predicate PresentList<T>(c: Option<seq<T>>) {
    c.Some? && |c.value| > 0
  }
}
