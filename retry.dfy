/**
 * Retry advice per error category (errors/retry.py), including the
 * conversion of a `Retry-After` header in seconds to milliseconds.
 */
module Retry {
  import opened Wrappers
  import opened Categorize
  import Case
  import opened PyText

  datatype RetryAction = RetryNow | RetryAfter | FixAndRetry | DoNotRetry | RefreshToken

  /** The action's wire name. */
  function ActionName(a: RetryAction): string {
    match a
    case RetryNow => "retry"
    case RetryAfter => "retry_after"
    case FixAndRetry => "fix_and_retry"
    case DoNotRetry => "do_not_retry"
    case RefreshToken => "refresh_token"
  }

  /** Reads a wire name back; every other string is not an action. */
  function ParseAction(s: string): (r: Option<RetryAction>)
    ensures r.Some? ==> ActionName(r.value) == s
  {
    if s == "retry" then Some(RetryNow)
    else if s == "retry_after" then Some(RetryAfter)
    else if s == "fix_and_retry" then Some(FixAndRetry)
    else if s == "do_not_retry" then Some(DoNotRetry)
    else if s == "refresh_token" then Some(RefreshToken)
    else None
  }

  /** Every action has its own name, and the name reads back to it. */
  lemma ActionNameRoundTrip(a: RetryAction)
    ensures ParseAction(ActionName(a)) == Some(a)
  {
    match a
    case RetryNow =>
    case RetryAfter =>
    case FixAndRetry =>
    case DoNotRetry =>
    case RefreshToken =>
  }

  /** `RetryHint(action, retry_after_ms=None)`. */
  datatype RetryHint = RetryHint(action: RetryAction, retryAfterMs: Option<int>)

  /**
   * `_CATEGORY_RETRY`, one entry for each of the 15 categories: only
   * throttling waits, only an authorization error asks for a new token.
   */
  function CategoryRetry(c: ErrorCategory): (r: RetryAction)
    ensures r == RetryAfter <==> c == Throttling
    ensures r == RefreshToken <==> c == Authorization
    ensures r == DoNotRetry <==> c in {Integrity, BusinessEligibility, ReengagementWindow}
    ensures r == RetryNow <==> c in {Synchronization, Server, Unknown}
  {
    match c
    case Authorization => RefreshToken
    case Permission => FixAndRetry
    case Parameter => FixAndRetry
    case Throttling => RetryAfter
    case Template => FixAndRetry
    case Media => FixAndRetry
    case PhoneRegistration => FixAndRetry
    case Integrity => DoNotRetry
    case BusinessEligibility => DoNotRetry
    case ReengagementWindow => DoNotRetry
    case WabaConfig => FixAndRetry
    case Flow => FixAndRetry
    case Synchronization => RetryNow
    case Server => RetryNow
    case Unknown => RetryNow
  }

  // ---------------------------------------------------------------------
  // float(text): the decimal subset
  // ---------------------------------------------------------------------

  /** What `float(text)` produces: a finite value, an infinity, a NaN, or a ValueError. */
  datatype FloatText = Finite(value: real) | Infinite | NotANumber | Invalid

  /** ASCII characters `str.isspace` accepts. */
  predicate IsSpace(c: char) {
    9 <= c as int <= 13 || 28 <= c as int <= 32
  }

  function TrimLeft(s: string): (r: string)
    ensures |r| <= |s| && r == s[|s| - |r|..]
    ensures |r| > 0 ==> !IsSpace(r[0])
  {
    if |s| > 0 && IsSpace(s[0]) then TrimLeft(s[1..]) else s
  }

  function TrimRight(s: string): (r: string)
    ensures |r| <= |s| && r == s[..|r|]
    ensures |r| > 0 ==> !IsSpace(r[|r| - 1])
  {
    if |s| > 0 && IsSpace(s[|s| - 1]) then TrimRight(s[..|s| - 1]) else s
  }

  /** Surrounding whitespace is ignored. */
  function Strip(s: string): string {
    TrimRight(TrimLeft(s))
  }

  /** The number a string of decimal digits denotes. */
  function DigitsValue(s: string): nat
    requires AllDigits(s)
  {
    if |s| == 0 then 0 else 10 * DigitsValue(s[..|s| - 1]) + DigitValue(s[|s| - 1])
  }

  function Pow10(n: nat): (r: nat)
    ensures r > 0
  {
    if n == 0 then 1 else 10 * Pow10(n - 1)
  }

  /** Length of the leading run of digits. */
  function DigitRun(s: string): (k: nat)
    ensures k <= |s| && AllDigits(s[..k])
    ensures k < |s| ==> !Case.IsDigit(s[k])
  {
    if |s| > 0 && Case.IsDigit(s[0]) then
      var k := 1 + DigitRun(s[1..]);
      assert forall i :: 0 < i < k ==> s[..k][i] == s[1..][..k - 1][i - 1];
      k
    else 0
  }

  /** The value of `places` digits after the point that spell `digits`. */
  function Fraction(digits: nat, places: nat): (r: real)
    ensures r >= 0.0
  {
    digits as real / Pow10(places) as real
  }

  /** `digits`, `digits.`, `.digits` or `digits.digits`, with at least one digit. */
  function ParseDecimal(b: string): (r: Option<real>)
    ensures r.Some? ==> r.value >= 0.0
  {
    var k := DigitRun(b);
    var whole := DigitsValue(b[..k]) as real;
    if k == |b| then
      if k > 0 then Some(whole) else None
    else if b[k] == '.' && AllDigits(b[k + 1..]) && (k > 0 || k + 1 < |b|) then
      Some(whole + Fraction(DigitsValue(b[k + 1..]), |b| - k - 1))
    else None
  }

  /** `w` in any letter case (`w` itself is lower case). */
  predicate IsWord(b: string, w: string) {
    |b| == |w| && LowerAll(b) == w
  }

  function FromDecimal(d: Option<real>): FloatText {
    match d
    case Some(x) => Finite(x)
    case None => Invalid
  }

  /** An unsigned body: `inf`, `infinity` or `nan` in any letter case, or a decimal numeral. */
  function ParseWord(b: string): FloatText {
    if IsWord(b, "inf") || IsWord(b, "infinity") then Infinite
    else if IsWord(b, "nan") then NotANumber
    else FromDecimal(ParseDecimal(b))
  }

  /** A leading `-` negates; infinities and NaN keep their kind. */
  function Negate(f: FloatText): FloatText {
    match f
    case Finite(x) => Finite(-x)
    case _ => f
  }

  /** An optional sign before the body. */
  function ParseSigned(t: string): FloatText {
    if |t| > 0 && t[0] == '-' then Negate(ParseWord(t[1..]))
    else if |t| > 0 && t[0] == '+' then ParseWord(t[1..])
    else ParseWord(t)
  }

  /**
   * `float(text)`: surrounding whitespace, an optional sign, then the body.
   * Blank text is no number, and a value is negative only after a `-`.
   */
  function ParseFloat(text: string): (r: FloatText)
    ensures Strip(text) == [] ==> r == Invalid
    ensures r.Finite? && r.value < 0.0 ==> Strip(text)[0] == '-'
  {
    ParseSigned(Strip(text))
  }

  /** `int(x)` on a finite float: truncation toward zero. */
  function TruncateTowardZero(x: real): (r: int)
    ensures x >= 0.0 ==> r as real <= x < r as real + 1.0
    ensures x < 0.0 ==> r as real - 1.0 < x <= r as real
  {
    if x >= 0.0 then x.Floor else -((-x).Floor)
  }

  /**
   * The smallest magnitude an IEEE 754 double rounds to infinity,
   * 2^1024 - 2^970: a product at least this large is `inf`.
   */
  const DoubleOverflow: int := 179769313486231580793728971405303415079934132710037826936173778980444968292764750946649017977587207096330286416692887910946555547851940402630657488671505820681908902000708383676273854845817711531764475730270069855571366959622842914819860834936475292719074168444365510704342711559699508093042880177904174497792

  /** `x` is below the double overflow in magnitude. */
  predicate InDoubleRange(x: real) {
    -(DoubleOverflow as real) < x < DoubleOverflow as real
  }

  /**
   * `int(float(text) * 1000)` raises OverflowError: the text is an infinity,
   * or its value times 1000 leaves the double range.
   */
  predicate Overflows(f: FloatText) {
    f.Infinite? || (f.Finite? && !InDoubleRange(f.value * 1000.0))
  }

  /**
   * The guarded `int(float(header) * 1000)`: ValueError (not a number, NaN)
   * is suppressed and leaves no value; an infinite product makes `int`
   * raise OverflowError, which the guard does not catch.
   */
  function HeaderMillis(header: Option<string>): (r: Result<Option<int>>)
    ensures r.Err? <==> header.Some? && Overflows(ParseFloat(header.value))
    ensures r.Err? ==> r.fault == OverflowError
    ensures header.None? ==> r == Ok(None)
  {
    match header
    case None => Ok(None)
    case Some(text) =>
      match ParseFloat(text)
      case Finite(x) =>
        if InDoubleRange(x * 1000.0) then Ok(Some(TruncateTowardZero(x * 1000.0))) else Err(OverflowError)
      case Infinite => Err(OverflowError)
      case NotANumber => Ok(None)
      case Invalid => Ok(None)
  }

  /** The delay a throttled request waits when the header gives none. */
  const DefaultRetryAfterMs := 60000

  /** `get_retry_hint(category, retry_after_header)`. */
  function GetRetryHint(category: ErrorCategory, header: Option<string>): (r: Result<RetryHint>)
    ensures r.Err? <==> header.Some? && Overflows(ParseFloat(header.value))
    ensures r.Ok? ==> r.value.action == CategoryRetry(category)
    ensures r.Ok? && r.value.action == RetryAfter ==> r.value.retryAfterMs.Some?
  {
    var action := CategoryRetry(category);
    var ms :- HeaderMillis(header);
    Ok(RetryHint(action, if action == RetryAfter && ms.None? then Some(DefaultRetryAfterMs) else ms))
  }

  /**
   * A finite value in range becomes truncated milliseconds; anything else
   * that does not overflow gives none.
   */
  lemma HeaderMillisSpec(header: Option<string>)
    ensures HeaderMillis(header).Ok? && HeaderMillis(header).value.Some? <==>
      header.Some? && ParseFloat(header.value).Finite? && InDoubleRange(ParseFloat(header.value).value * 1000.0)
    ensures HeaderMillis(header).Ok? && HeaderMillis(header).value.Some? ==>
      HeaderMillis(header).value.value == TruncateTowardZero(ParseFloat(header.value).value * 1000.0)
  {
  }

  /**
   * A parsed header value is kept whatever the action; only a throttled
   * request without one gets the default.
   */
  lemma RetryHintSpec(category: ErrorCategory, header: Option<string>)
    ensures GetRetryHint(category, header).Ok? && CategoryRetry(category) != RetryAfter ==>
      GetRetryHint(category, header).value.retryAfterMs == HeaderMillis(header).value
    ensures HeaderMillis(header).Ok? && HeaderMillis(header).value.Some? ==>
      GetRetryHint(category, header) == Ok(RetryHint(CategoryRetry(category), HeaderMillis(header).value))
    ensures HeaderMillis(header) == Ok(None) ==>
      GetRetryHint(category, header) ==
        Ok(RetryHint(CategoryRetry(category), if category == Throttling then Some(DefaultRetryAfterMs) else None))
  {
  }

  // ---------------------------------------------------------------------
  // Headers written as decimal numerals
  // ---------------------------------------------------------------------

  lemma {:induction false} NatTextValue(n: nat)
    ensures DigitsValue(NatText(n)) == n
  {
    var s := NatText(n);
    if n < 10 {
      assert s[..|s| - 1] == [];
    } else {
      NatTextValue(n / 10);
      assert s[..|s| - 1] == NatText(n / 10);
    }
  }

  lemma {:induction false} DigitRunAll(s: string)
    requires AllDigits(s)
    ensures DigitRun(s) == |s|
  {
    if |s| > 0 {
      DigitRunAll(s[1..]);
    }
  }

  /** A body that starts with a digit is no special word. */
  lemma PlainWord(b: string)
    requires |b| > 0 && Case.IsDigit(b[0])
    ensures ParseWord(b) == FromDecimal(ParseDecimal(b))
  {
    assert LowerAll(b)[0] == b[0];
    assert "inf"[0] == 'i' && "infinity"[0] == 'i' && "nan"[0] == 'n';
  }

  /** Text without surrounding whitespace is its own stripped form. */
  lemma StripNoSpace(s: string)
    requires |s| > 0 && !IsSpace(s[0]) && !IsSpace(s[|s| - 1])
    ensures Strip(s) == s
  {
    assert TrimLeft(s) == s;
  }

  /** Stripped text that starts with a digit is read as a decimal numeral. */
  lemma ParseFloatDigitFirst(text: string)
    requires |Strip(text)| > 0 && Case.IsDigit(Strip(text)[0])
    ensures ParseFloat(text) == FromDecimal(ParseDecimal(Strip(text)))
  {
    PlainWord(Strip(text));
  }

  /** A numeral that starts with a digit is neither signed nor a special word. */
  lemma ParseFloatPlain(s: string)
    requires |s| > 0 && Case.IsDigit(s[0]) && !IsSpace(s[|s| - 1])
    ensures ParseFloat(s) == FromDecimal(ParseDecimal(s))
  {
    StripNoSpace(s);
    PlainWord(s);
  }

  /** A string of digits is a plain numeral. */
  lemma ParseDigits(s: string)
    requires |s| > 0 && AllDigits(s)
    ensures ParseFloat(s) == Finite(DigitsValue(s) as real)
  {
    ParseFloatPlain(s);
    DigitRunAll(s);
    assert s[..|s|] == s;
  }

  /** A header parsed to a value gives that value in the hint, whatever the action. */
  lemma HintOfParsedHeader(category: ErrorCategory, header: Option<string>, ms: int)
    requires HeaderMillis(header) == Ok(Some(ms))
    ensures GetRetryHint(category, header) == Ok(RetryHint(CategoryRetry(category), Some(ms)))
  {
  }

  lemma TruncateWhole(n: int)
    ensures TruncateTowardZero(n as real) == n
  {
  }

  /** A value that is a whole number of milliseconds is kept exactly, unless it overflows. */
  lemma MillisOfValue(text: string, x: real, ms: int)
    requires ParseFloat(text) == Finite(x) && x * 1000.0 == ms as real
    ensures HeaderMillis(Some(text)) == if InDoubleRange(ms as real) then Ok(Some(ms)) else Err(OverflowError)
  {
    var y := x * 1000.0;
    assert HeaderMillis(Some(text)) == if InDoubleRange(y) then Ok(Some(TruncateTowardZero(y))) else Err(OverflowError);
    TruncateWhole(ms);
  }

  /** A whole number of milliseconds well inside the double range is kept exactly. */
  lemma WholeMillis(text: string, x: real, ms: int)
    requires ParseFloat(text) == Finite(x) && x * 1000.0 == ms as real && -1000000000 <= ms <= 1000000000
    ensures HeaderMillis(Some(text)) == Ok(Some(ms))
  {
    assert InDoubleRange(ms as real);
    MillisOfValue(text, x, ms);
  }

  /**
   * A header read as `x` seconds, `x * 1000` whole, advises exactly that
   * many ms, or raises OverflowError beyond the double range.
   */
  lemma HintOfValue(category: ErrorCategory, text: string, x: real, ms: int)
    requires ParseFloat(text) == Finite(x) && x * 1000.0 == ms as real
    ensures GetRetryHint(category, Some(text)) ==
      if InDoubleRange(ms as real) then Ok(RetryHint(CategoryRetry(category), Some(ms))) else Err(OverflowError)
  {
    MillisOfValue(text, x, ms);
    if InDoubleRange(ms as real) {
      HintOfParsedHeader(category, Some(text), ms);
    }
  }

  lemma SecondsToMillis(n: int)
    ensures (n as real) * 1000.0 == (1000 * n) as real
  {
  }

  /**
   * A header read as a whole number `n` of seconds, of either sign, advises
   * `1000 n` ms, or raises OverflowError beyond the double range.
   */
  lemma HintOfSeconds(category: ErrorCategory, text: string, n: int)
    requires ParseFloat(text) == Finite(n as real)
    ensures GetRetryHint(category, Some(text)) ==
      if InDoubleRange((1000 * n) as real) then Ok(RetryHint(CategoryRetry(category), Some(1000 * n)))
      else Err(OverflowError)
  {
    SecondsToMillis(n);
    HintOfValue(category, text, n as real, 1000 * n);
  }

  /**
   * A header of `n` whole seconds advises `n * 1000` ms, whatever the
   * category, while `n * 1000` is below the double overflow; from there on
   * the finite header raises OverflowError.
   */
  lemma WholeSecondsHeader(category: ErrorCategory, n: nat)
    ensures GetRetryHint(category, Some(NatText(n))) ==
      if 1000 * n < DoubleOverflow then Ok(RetryHint(CategoryRetry(category), Some(1000 * n)))
      else Err(OverflowError)
  {
    NatTextValue(n);
    ParseDigits(NatText(n));
    HintOfSeconds(category, NatText(n), n);
  }

  /** Without a header only throttling gets a delay: the 60 s default. */
  lemma NoHeader(category: ErrorCategory)
    ensures GetRetryHint(category, None) ==
      Ok(RetryHint(CategoryRetry(category), if category == Throttling then Some(DefaultRetryAfterMs) else None))
  {
  }

  /** The digit run of a numeral followed by a non-digit ends where the numeral does. */
  lemma {:induction false} DigitRunPrefix(a: string, b: string)
    requires AllDigits(a) && |b| > 0 && !Case.IsDigit(b[0])
    ensures DigitRun(a + b) == |a|
  {
    if |a| > 0 {
      assert (a + b)[1..] == a[1..] + b;
      DigitRunPrefix(a[1..], b);
    } else {
      assert a + b == b;
    }
  }

  /** `n.d` reads as n + d/10. */
  lemma OneDecimalValue(n: nat, d: nat)
    requires d < 10
    ensures ParseFloat(NatText(n) + "." + [DigitChar(d)]) == Finite(n as real + d as real / 10.0)
  {
    var w := NatText(n);
    var t := w + "." + [DigitChar(d)];
    assert t == w + ("." + [DigitChar(d)]);
    DigitRunPrefix(w, "." + [DigitChar(d)]);
    var k := |w|;
    assert t[..k] == w && t[k] == '.' && t[k + 1..] == [DigitChar(d)];
    NatTextValue(n);
    assert DigitsValue([DigitChar(d)]) == d by {
      assert [DigitChar(d)][..0] == [];
    }
    PointDecimal(t, k);
    assert Fraction(d, 1) == d as real / 10.0 by {
      assert Pow10(1) == 10;
    }
    ParseFloatPlain(t);
  }

  /** A digit run, a point and digits: the whole part plus the scaled fraction. */
  lemma PointDecimal(b: string, k: nat)
    requires k == DigitRun(b) && 0 < k < |b| && b[k] == '.' && AllDigits(b[k + 1..])
    ensures ParseDecimal(b) == Some(DigitsValue(b[..k]) as real + Fraction(DigitsValue(b[k + 1..]), |b| - k - 1))
  {
  }

  /** A body with a character that is neither a digit nor a point is no number. */
  lemma NotANumeral(b: string, i: nat)
    requires i < |b| && !Case.IsDigit(b[i]) && b[i] != '.'
    ensures ParseDecimal(b) == None
  {
  }

  /** A header that is not a number is ignored: a throttled request gets the 60 s default. */
  lemma InvalidHeader(text: string)
    requires ParseFloat(text) == Invalid
    ensures GetRetryHint(Throttling, Some(text)) == Ok(RetryHint(RetryAfter, Some(DefaultRetryAfterMs)))
  {
  }

  /** An infinite header escapes the guard: `int(inf)` raises OverflowError. */
  lemma InfinityRaises(category: ErrorCategory, text: string)
    requires ParseFloat(text) == Infinite
    ensures GetRetryHint(category, Some(text)) == Err(OverflowError)
  {
  }

  /**
   * A finite header escapes the guard too: `float(text) * 1000` beyond the
   * double range is `inf`, and `int(inf)` raises OverflowError.
   */
  lemma FiniteOverflowRaises(category: ErrorCategory, text: string, x: real)
    requires ParseFloat(text) == Finite(x) && x * 1000.0 >= DoubleOverflow as real
    ensures GetRetryHint(category, Some(text)) == Err(OverflowError)
  {
  }
}
