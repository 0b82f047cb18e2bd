/** Concrete `Retry-After` headers and the hints they give. */
module RetryExamples {
  import opened Wrappers
  import opened Categorize
  import opened Retry
  import opened PyText
  import Case

  lemma OneAndAHalfText()
    ensures NatText(1) + "." + [DigitChar(5)] == "1.5"
  {
  }

  /** The header "1.5" reads as 1.5 s. */
  lemma ParseOneAndAHalf()
    ensures ParseFloat("1.5") == Finite(1.5)
  {
    OneDecimalValue(1, 5);
    OneAndAHalfText();
  }

  /** "Retry-After: 1.5" is 1500 ms. */
  lemma OneAndAHalfSeconds()
    ensures HeaderMillis(Some("1.5")) == Ok(Some(1500))
  {
    ParseOneAndAHalf();
    WholeMillis("1.5", 1.5, 1500);
  }

  lemma NotAWordExample()
    ensures ParseWord("n/a") == Invalid
  {
    assert LowerAll("n/a")[1] == '/';
    NotANumeral("n/a", 1);
  }

  lemma NotASignedExample()
    ensures ParseSigned("n/a") == Invalid
  {
    NotAWordExample();
  }

  /** The header "n/a" is not a number. */
  lemma NotANumberText()
    ensures ParseFloat("n/a") == Invalid
  {
    StripNoSpace("n/a");
    NotASignedExample();
  }

  lemma InfWord()
    ensures ParseWord("Inf") == Infinite
  {
    assert LowerAll("Inf") == "inf";
  }

  lemma MinusInfSigned()
    ensures ParseSigned("-Inf") == Infinite
  {
    assert "-Inf"[1..] == "Inf";
    InfWord();
  }

  /** "-Inf" is an infinity: letter case and sign do not matter. */
  lemma InfinityText()
    ensures ParseFloat("-Inf") == Infinite
  {
    StripNoSpace("-Inf");
    MinusInfSigned();
  }

  /** Negative values are not clamped: a minus sign before a numeral of `x` seconds makes it `-x`. */
  lemma NegatedNumeral(t: string, x: real)
    requires |t| > 1 && t[0] == '-' && Case.IsDigit(t[1]) && !IsSpace(t[|t| - 1])
    requires ParseFloat(t[1..]) == Finite(x)
    ensures ParseFloat(t) == Finite(-x)
  {
    MinusSign(t);
    DigitBody(t[1..]);
    NegateFinite(ParseWord(t[1..]), x);
  }

  /** Text that starts with `-` and ends in no space is the negated body. */
  lemma MinusSign(t: string)
    requires |t| > 1 && t[0] == '-' && !IsSpace(t[|t| - 1])
    ensures ParseFloat(t) == Negate(ParseWord(t[1..]))
  {
    StripNoSpace(t);
  }

  /** A body that starts with a digit reads as itself. */
  lemma DigitBody(w: string)
    requires |w| > 0 && Case.IsDigit(w[0]) && !IsSpace(w[|w| - 1])
    ensures ParseFloat(w) == ParseWord(w)
  {
    StripNoSpace(w);
    PlainWord(w);
  }

  lemma NegateFinite(f: FloatText, x: real)
    requires f == Finite(x)
    ensures Negate(f) == Finite(-x)
  {
  }
}
