/**
 * The few Python string operations the library relies on, over ASCII:
 * `str.lower()`, decimal digits, and `str()` of the scalar JSON values.
 */
module PyText {
  import opened JsonValues
  import Case

  /** `s.lower()`. */
  function LowerAll(s: string): string {
    seq(|s|, i requires 0 <= i < |s| => Case.Lower(s[i]))
  }

  predicate AllDigits(s: string) {
    forall i :: 0 <= i < |s| ==> Case.IsDigit(s[i])
  }

  function DigitValue(c: char): nat
    requires Case.IsDigit(c)
  {
    c as int - '0' as int
  }

  function DigitChar(d: nat): (c: char)
    requires d < 10
    ensures Case.IsDigit(c) && DigitValue(c) == d
  {
    ('0' as int + d) as char
  }

  /** The decimal numeral of `n`. */
  function NatText(n: nat): (s: string)
    ensures |s| > 0 && AllDigits(s)
  {
    if n < 10 then [DigitChar(n)] else NatText(n / 10) + [DigitChar(n % 10)]
  }

  /** The decimal numeral of an integer, with a leading `-` when negative. */
  function IntText(i: int): (s: string)
    ensures |s| > 0
    ensures (s[0] == '-') <==> i < 0
  {
    if i < 0 then "-" + NatText(-i) else NatText(i)
  }

  /**
   * `str(x)` for the values a message takes: a string is itself, `None`,
   * `True` and `False` their names, an integer its numeral. The rendering of
   * floats, lists and dicts is not part of this model (they give "").
   */
  function PyStr(j: Json): string {
    match j
    case JStr(s) => s
    case JNull => "None"
    case JBool(b) => if b then "True" else "False"
    case JInt(i) => IntText(i)
    case _ => ""
  }
}
