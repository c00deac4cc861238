/**
 * Inline-style values as the style composer sees them: JavaScript values
 * that may be undefined, a string, a number or a boolean, and JavaScript's
 * notion of truthiness, which decides whether a value overrides another.
 */
module Values {

  /** A style value. Numbers are integers here (see README, "Left out"). */
  datatype Value = Undefined | Str(s: string) | Num(n: int) | Bool(b: bool)

  /** JavaScript truthiness: undefined, "", 0 and false are falsy. */
  predicate Truthy(v: Value)
    ensures Truthy(v) <==> v !in {Undefined, Str(""), Num(0), Bool(false)}
  {
    match v
    case Undefined => false
    case Str(s) => s != ""
    case Num(n) => n != 0
    case Bool(b) => b
  }

  /** `v ?? fallback`: the fallback replaces only an undefined value. */
  function Coalesce(v: Value, fallback: Value): Value {
    if v.Undefined? then fallback else v
  }

  function Digit(d: nat): char
    requires d < 10
  {
    "0123456789"[d]
  }

  predicate IsDigits(s: string) {
    forall i :: 0 <= i < |s| ==> '0' <= s[i] <= '9'
  }

  /** Decimal text of a natural number, most significant digit first. */
  function NatText(n: nat): (s: string)
    ensures |s| >= 1 && IsDigits(s)
  {
    if n < 10 then [Digit(n)] else NatText(n / 10) + [Digit(n % 10)]
  }

  /** Value of a string of decimal digits; the inverse of NatText. */
  function DigitsValue(s: string): nat
    requires IsDigits(s)
  {
    if s == [] then 0
    else DigitsValue(s[..|s| - 1]) * 10 + (s[|s| - 1] as int - '0' as int)
  }

  lemma {:induction false} DigitsValueOfNatText(n: nat)
    ensures DigitsValue(NatText(n)) == n
  {
    if n >= 10 {
      var s := NatText(n);
      assert s[..|s| - 1] == NatText(n / 10);
      DigitsValueOfNatText(n / 10);
    }
  }

  /**
   * How a template literal renders an integer: the same text JavaScript
   * prints for every integer of magnitude at most 2^53.
   */
  function IntText(n: int): string {
    if n < 0 then "-" + NatText(-n) else NatText(n)
  }

  /** `String(v)`, the text a template literal inserts for `${v}`. */
  function ValueText(v: Value): string {
    match v
    case Undefined => "undefined"
    case Str(s) => s
    case Num(n) => IntText(n)
    case Bool(b) => if b then "true" else "false"
  }

  /**
   * The template literal `${v}<suffix>`. With a non-empty suffix the result
   * is a non-empty string, hence truthy, whatever `v` is, undefined included.
   */
  function Template(v: Value, suffix: string): (r: Value)
    ensures r.Str? && |r.s| >= |suffix| && r.s[|r.s| - |suffix|..] == suffix
    ensures suffix != "" ==> Truthy(r)
  {
    Str(ValueText(v) + suffix)
  }
}
