/**
 * snake_case <-> camelCase conversion of keys (utils/case.py), restricted to
 * ASCII letters, and its recursive application to decoded JSON.
 */
module Case {
  import opened JsonValues

  predicate IsLower(c: char) { 'a' <= c <= 'z' }
  predicate IsUpper(c: char) { 'A' <= c <= 'Z' }
  predicate IsDigit(c: char) { '0' <= c <= '9' }
  predicate IsLowerOrDigit(c: char) { IsLower(c) || IsDigit(c) }

  function Upper(c: char): (r: char)
    ensures IsLower(c) ==> IsUpper(r)
    ensures !IsLower(c) ==> r == c
  {
    if IsLower(c) then (c as int - 32) as char else c
  }

  function Lower(c: char): (r: char)
    ensures IsUpper(c) ==> IsLower(r)
    ensures !IsUpper(c) ==> r == c
  {
    if IsUpper(c) then (c as int + 32) as char else c
  }

  lemma UpperLower(c: char)
    ensures IsUpper(c) ==> Upper(Lower(c)) == c
    ensures IsLower(c) ==> Lower(Upper(c)) == c
  {
  }

  // ---------------------------------------------------------------------
  // to_camel: re.sub(r"_([a-z0-9])", upper of group 1, s)
  // ---------------------------------------------------------------------

  /** True when a regex match of `_([a-z0-9])` starts at the front of `s`. */
  predicate CamelMatchAtFront(s: string) {
    |s| >= 2 && s[0] == '_' && IsLowerOrDigit(s[1])
  }

  /** Left-to-right, non-overlapping replacement of `_x` by upper(x). */
  function ToCamel(s: string): (r: string)
    ensures |r| <= |s|
    ensures |s| > 0 ==> |r| > 0
  {
    if |s| == 0 then ""
    else if CamelMatchAtFront(s) then [Upper(s[1])] + ToCamel(s[2..])
    else [s[0]] + ToCamel(s[1..])
  }

  /** A string without "_" is returned unchanged. */
  lemma {:induction false} ToCamelNoUnderscore(s: string)
    requires '_' !in s
    ensures ToCamel(s) == s
  {
    if |s| > 0 {
      assert s[0] != '_';
      assert '_' !in s[1..] by { assert forall i :: 0 <= i < |s[1..]| ==> s[1..][i] == s[i + 1]; }
      ToCamelNoUnderscore(s[1..]);
    }
  }

  /** The first character of the result. */
  lemma ToCamelFirst(s: string)
    requires |s| > 0
    ensures ToCamel(s)[0] == if CamelMatchAtFront(s) then Upper(s[1]) else s[0]
  {
  }

  /**
   * In the result no "_" is ever followed by a lowercase letter: every such
   * pair of the input was rewritten, and rewriting creates none.
   */
  lemma {:induction false} ToCamelLeavesNoUnderscoreLower(s: string)
    ensures forall i :: 0 <= i < |ToCamel(s)| - 1 && ToCamel(s)[i] == '_' ==> !IsLower(ToCamel(s)[i + 1])
  {
    if |s| > 0 {
      var r := ToCamel(s);
      if CamelMatchAtFront(s) {
        ToCamelLeavesNoUnderscoreLower(s[2..]);
        assert r == [Upper(s[1])] + ToCamel(s[2..]);
        assert r[0] != '_';
        assert forall i :: 1 <= i < |r| ==> r[i] == ToCamel(s[2..])[i - 1];
      } else {
        ToCamelLeavesNoUnderscoreLower(s[1..]);
        var t := ToCamel(s[1..]);
        assert r == [s[0]] + t;
        assert forall i :: 1 <= i < |r| ==> r[i] == t[i - 1];
        if s[0] == '_' && |t| > 0 {
          // s[1] is not a lowercase letter or digit, so t starts with s[1]
          // itself or with the upper-cased letter of a match at s[1..].
          ToCamelFirst(s[1..]);
          assert !IsLower(t[0]);
        }
      }
    }
  }

  // ---------------------------------------------------------------------
  // to_snake: re.sub(r"(?<=[a-z0-9])([A-Z])", r"_\1", s).lower()
  // ---------------------------------------------------------------------

  /**
   * The substitution followed by lower-casing, scanning left to right;
   * `afterLowerOrDigit` says whether the previous INPUT character matches
   * the look-behind `[a-z0-9]`.
   */
  function SnakeFrom(afterLowerOrDigit: bool, s: string): (r: string)
    ensures |s| <= |r| <= 2 * |s|
    decreases |s|
  {
    if |s| == 0 then ""
    else
      (if afterLowerOrDigit && IsUpper(s[0]) then "_" else "")
      + [Lower(s[0])] + SnakeFrom(IsLowerOrDigit(s[0]), s[1..])
  }

  /** `to_snake`: the result is lower case and at most twice as long. */
  function ToSnake(s: string): (r: string)
    ensures |s| <= |r| <= 2 * |s|
    ensures forall i :: 0 <= i < |r| ==> !IsUpper(r[i])
  {
    SnakeFromFacts(false, s);
    SnakeFrom(false, s)
  }

  /** Number of lowercase-or-digit then uppercase pairs in `s`. */
  function Boundaries(s: string): nat {
    if |s| < 2 then 0
    else (if IsLowerOrDigit(s[0]) && IsUpper(s[1]) then 1 else 0) + Boundaries(s[1..])
  }

  lemma {:induction false} SnakeFromFacts(p: bool, s: string)
    ensures |SnakeFrom(p, s)| == |s| + (if p && |s| > 0 && IsUpper(s[0]) then 1 else 0) + Boundaries(s)
    ensures forall i :: 0 <= i < |SnakeFrom(p, s)| ==> !IsUpper(SnakeFrom(p, s)[i])
    decreases |s|
  {
    if |s| > 0 {
      SnakeFromFacts(IsLowerOrDigit(s[0]), s[1..]);
      var head := (if p && IsUpper(s[0]) then "_" else "") + [Lower(s[0])];
      var tail := SnakeFrom(IsLowerOrDigit(s[0]), s[1..]);
      assert SnakeFrom(p, s) == head + tail;
      assert forall i :: 0 <= i < |head| ==> !IsUpper(head[i]);
      assert forall i :: |head| <= i < |head + tail| ==> (head + tail)[i] == tail[i - |head|];
    }
  }

  /** Output length is input length plus the number of lower/digit-to-upper boundaries. */
  lemma ToSnakeLength(s: string)
    ensures |ToSnake(s)| == |s| + Boundaries(s)
  {
    SnakeFromFacts(false, s);
  }

  lemma {:induction false} SnakeFromNoUpper(p: bool, s: string)
    requires forall i :: 0 <= i < |s| ==> !IsUpper(s[i])
    ensures SnakeFrom(p, s) == s
    decreases |s|
  {
    if |s| > 0 {
      SnakeFromNoUpper(IsLowerOrDigit(s[0]), s[1..]);
    }
  }

  /** A string with no uppercase letter comes back unchanged: to_snake is idempotent. */
  lemma ToSnakeNoUpper(s: string)
    requires forall i :: 0 <= i < |s| ==> !IsUpper(s[i])
    ensures ToSnake(s) == s
  {
    SnakeFromNoUpper(false, s);
  }

  lemma ToSnakeIdempotent(s: string)
    ensures ToSnake(ToSnake(s)) == ToSnake(s)
  {
    ToSnakeNoUpper(ToSnake(s));
  }

  // ---------------------------------------------------------------------
  // Round trips
  // ---------------------------------------------------------------------

  /**
   * camelCase identifiers: ASCII letters and digits, and every uppercase
   * letter directly follows a lowercase letter or digit.
   */
  predicate IsCamelCase(s: string) {
    && (forall i :: 0 <= i < |s| ==> IsLowerOrDigit(s[i]) || IsUpper(s[i]))
    && (forall i :: 0 <= i < |s| && IsUpper(s[i]) ==> i > 0 && IsLowerOrDigit(s[i - 1]))
  }

  /** One step of to_snake on a string split into its first character and the rest. */
  lemma SnakeFromCons(p: bool, c: char, t: string)
    ensures SnakeFrom(p, [c] + t) ==
      (if p && IsUpper(c) then ['_', Lower(c)] else [Lower(c)]) + SnakeFrom(IsLowerOrDigit(c), t)
  {
    var s := [c] + t;
    assert s[0] == c && s[1..] == t;
  }

  /** One step of to_camel at a match `_x`. */
  lemma ToCamelMatchCons(c: char, t: string)
    requires IsLowerOrDigit(c)
    ensures ToCamel(['_', c] + t) == [Upper(c)] + ToCamel(t)
  {
    var s := ['_', c] + t;
    assert s[0] == '_' && s[1] == c && s[2..] == t;
  }

  /** One step of to_camel at a character that does not start a match. */
  lemma ToCamelPlainCons(c: char, t: string)
    requires c != '_'
    ensures ToCamel([c] + t) == [c] + ToCamel(t)
  {
    var s := [c] + t;
    assert s[0] == c && s[1..] == t;
  }

  lemma {:induction false} CamelAfterSnake(p: bool, s: string)
    requires forall i :: 0 <= i < |s| ==> IsLowerOrDigit(s[i]) || IsUpper(s[i])
    requires |s| > 0 && IsUpper(s[0]) ==> p
    requires forall i :: 0 < i < |s| && IsUpper(s[i]) ==> IsLowerOrDigit(s[i - 1])
    ensures ToCamel(SnakeFrom(p, s)) == s
    decreases |s|
  {
    if |s| > 0 {
      var c, t := s[0], s[1..];
      var q := IsLowerOrDigit(c);
      assert s == [c] + t;
      assert forall i :: 0 <= i < |t| ==> t[i] == s[i + 1];
      CamelAfterSnake(q, t);
      var tail := SnakeFrom(q, t);
      SnakeFromCons(p, c, t);
      if IsUpper(c) {
        ToCamelMatchCons(Lower(c), tail);
        UpperLower(c);
      } else {
        ToCamelPlainCons(c, tail);
      }
    }
  }

  /** to_camel undoes to_snake on camelCase identifiers: "phoneNumberId" round-trips. */
  lemma CamelSnakeRoundTrip(s: string)
    requires IsCamelCase(s)
    ensures ToCamel(ToSnake(s)) == s
  {
    CamelAfterSnake(false, s);
  }

  /**
   * snake_case identifiers that survive a round trip: lowercase letters,
   * digits and "_", where every "_" sits between a lowercase letter or digit
   * and a lowercase letter, and no one-letter word is followed by another "_"
   * ("a_b_c" -> "aBC" -> "a_bc" does not round-trip).
   */
  predicate IsSnakeCase(s: string) {
    && (forall i :: 0 <= i < |s| ==> IsLowerOrDigit(s[i]) || s[i] == '_')
    && (forall i :: 0 <= i < |s| && s[i] == '_' ==>
          && 0 < i < |s| - 1 && IsLowerOrDigit(s[i - 1]) && IsLower(s[i + 1])
          && (i + 2 < |s| ==> s[i + 2] != '_'))
  }

  lemma {:induction false} SnakeAfterCamel(p: bool, s: string)
    requires forall i :: 0 <= i < |s| ==> IsLowerOrDigit(s[i]) || s[i] == '_'
    requires |s| > 0 && s[0] == '_' ==> p
    requires forall i :: 0 <= i < |s| && s[i] == '_' ==>
      && i < |s| - 1 && IsLower(s[i + 1])
      && (i > 0 ==> IsLowerOrDigit(s[i - 1]))
      && (i + 2 < |s| ==> s[i + 2] != '_')
    ensures SnakeFrom(p, ToCamel(s)) == s
    decreases |s|
  {
    if |s| > 0 {
      if s[0] == '_' {
        var c, t := s[1], s[2..];
        assert s == ['_', c] + t;
        assert forall i :: 0 <= i < |t| ==> t[i] == s[i + 2];
        assert |t| > 0 ==> t[0] != '_';
        SnakeAfterCamel(false, t);
        SnakeAfterCamelMatch(p, c, t);
      } else {
        var c, t := s[0], s[1..];
        assert s == [c] + t;
        assert forall i :: 0 <= i < |t| ==> t[i] == s[i + 1];
        SnakeAfterCamel(IsLowerOrDigit(c), t);
        SnakeAfterCamelPlain(p, c, t);
      }
    }
  }

  /** One `_x` step of the inverse: the upper-cased letter gets its underscore back. */
  lemma SnakeAfterCamelMatch(p: bool, c: char, t: string)
    requires p && IsLower(c) && SnakeFrom(false, ToCamel(t)) == t
    ensures SnakeFrom(p, ToCamel(['_', c] + t)) == ['_', c] + t
  {
    ToCamelMatchCons(c, t);
    SnakeFromCons(p, Upper(c), ToCamel(t));
    UpperLower(c);
  }

  /** One plain step of the inverse: a lower-case letter or digit is copied. */
  lemma SnakeAfterCamelPlain(p: bool, c: char, t: string)
    requires IsLowerOrDigit(c) && SnakeFrom(IsLowerOrDigit(c), ToCamel(t)) == t
    ensures SnakeFrom(p, ToCamel([c] + t)) == [c] + t
  {
    ToCamelPlainCons(c, t);
    SnakeFromCons(p, c, ToCamel(t));
  }

  /** to_snake undoes to_camel on such identifiers: "phone_number_id" round-trips. */
  lemma SnakeCamelRoundTrip(s: string)
    requires IsSnakeCase(s)
    ensures ToSnake(ToCamel(s)) == s
  {
    SnakeAfterCamel(false, s);
  }

  /** The condition on one-letter words is needed. */
  lemma SingleLetterWordsDoNotRoundTrip()
    ensures ToCamel("a_b_c") == "aBC"
    ensures ToSnake("aBC") == "a_bc"
  {
  }

  /** A digit after "_" is absorbed too ("error_code_2" -> "errorCode2"). */
  lemma ToCamelDigitExample()
    ensures ToCamel("e_2") == "e2"
  {
  }

  /** A leading "_" is consumed with the letter it precedes ("_private" -> "Private"). */
  lemma ToCamelLeadingExample()
    ensures ToCamel("_p") == "P"
  {
  }

  /** A digit is a valid look-behind for to_snake ("errorCode2" -> "error_code2"). */
  lemma ToSnakeDigitExample()
    ensures ToSnake("e2Id") == "e2_id"
  {
  }

  /** An all-capital word has no lower-to-upper boundary. */
  lemma ToSnakeAcronymExample()
    ensures ToSnake("URL") == "url"
  {
  }
}
