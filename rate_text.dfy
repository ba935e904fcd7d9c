/** `parse_rate_from_string`: reading the first decimal number out of a rate as it is
    displayed ("1.5 mpd", "5%", "Up to 10"). */
module RateText {
  import opened Common

  function DigitValue(c: char): nat {
    if IsDigit(c) then (c as int - '0' as int) as nat else 0
  }

  ghost predicate AllDigits(s: string) {
    forall i :: 0 <= i < |s| ==> IsDigit(s[i])
  }

  /** The number the decimal digits `s[i..j]` spell. */
  function Digits(s: string, i: nat, j: nat): nat
    requires i <= j <= |s|
    decreases j - i
  {
    if i == j then 0 else Digits(s, i, j - 1) * 10 + DigitValue(s[j - 1])
  }

  /** The number a string of decimal digits spells. */
  function DigitsValue(s: string): nat {
    Digits(s, 0, |s|)
  }

  function Pow10(n: nat): (r: nat)
    ensures r >= 1
  {
    if n == 0 then 1 else 10 * Pow10(n - 1)
  }

  /** The index of the first digit at or after `i`, or `|s|` when there is none. */
  function FirstDigit(s: string, i: nat): (r: nat)
    requires i <= |s|
    decreases |s| - i
    ensures i <= r <= |s|
    ensures forall k :: i <= k < r ==> !IsDigit(s[k])
    ensures r < |s| ==> IsDigit(s[r])
  {
    if i == |s| || IsDigit(s[i]) then i else FirstDigit(s, i + 1)
  }

  /** The end of the run of digits that starts at `i`. */
  function RunEnd(s: string, i: nat): (r: nat)
    requires i <= |s|
    decreases |s| - i
    ensures i <= r <= |s|
    ensures forall k :: i <= k < r ==> IsDigit(s[k])
    ensures r < |s| ==> !IsDigit(s[r])
  {
    if i == |s| || !IsDigit(s[i]) then i else RunEnd(s, i + 1)
  }

  /** A match of `\d+(?:\.\d+)?`: the whole part, and the fraction part with the
      number of digits it was written with (0 digits when there is no fraction). */
  datatype Literal = Literal(whole: nat, frac: nat, fracDigits: nat)

  /** `float(match)`. */
  function Value(l: Literal): real {
    l.whole as real + l.frac as real / Pow10(l.fracDigits) as real
  }

  /** The match of `\d+(?:\.\d+)?` at index `i`, where a digit stands. */
  function MatchAt(s: string, i: nat): Literal
    requires i < |s| && IsDigit(s[i])
  {
    var j := RunEnd(s, i);
    if j + 1 < |s| && s[j] == '.' && IsDigit(s[j + 1]) then
      var e := RunEnd(s, j + 1);
      Literal(Digits(s, i, j), Digits(s, j + 1, e), e - j - 1)
    else Literal(Digits(s, i, j), 0, 0)
  }

  /** `re.search(r'(\d+(?:\.\d+)?)', s)`: the match at the first digit. */
  function FirstMatch(s: string): (r: Option<Literal>)
    ensures r.None? <==> forall k :: 0 <= k < |s| ==> !IsDigit(s[k])
  {
    var i := FirstDigit(s, 0);
    if i == |s| then None else Some(MatchAt(s, i))
  }

  /** The first number of `s`, read as a float. */
  function FirstNumber(s: string): (r: Option<real>)
    ensures r.None? <==> forall k :: 0 <= k < |s| ==> !IsDigit(s[k])
  {
    match FirstMatch(s)
    case None => None
    case Some(l) => Some(Value(l))
  }

  /** `parse_rate_from_string`: None for NaN, for the empty string and for text without
      a digit; otherwise the first unsigned decimal number in the text (a sign in front
      of it is ignored). */
  function ParseRate(text: Option<string>): (r: Option<real>)
    ensures r.None? <==> text.None? || forall k :: 0 <= k < |text.value| ==> !IsDigit(text.value[k])
    ensures r.Some? ==> r == FirstNumber(text.value)
  {
    if text.None? || text.value == "" then None
    else
      var t := Strip(text.value);
      FirstNumberOfStrip(text.value);
      FirstNumber(t)
  }

  /** `t` sits in `s` at offset `a`. */
  ghost predicate EmbeddedAt(t: string, s: string, a: nat) {
    a + |t| <= |s| && forall k :: 0 <= k < |t| ==> s[a + k] == t[k]
  }

  /** The digits `i..j` of `t` read the same inside `s`. */
  lemma {:induction false} DigitsShift(t: string, s: string, a: nat, i: nat, j: nat)
    requires EmbeddedAt(t, s, a) && i <= j <= |t|
    ensures Digits(s, a + i, a + j) == Digits(t, i, j)
    decreases j - i
  {
    if i < j {
      assert s[a + (j - 1)] == t[j - 1];
      DigitsShift(t, s, a, i, j - 1);
    }
  }

  /** What follows position `j` of `t` inside `s` when `t` is followed by whitespace. */
  lemma AfterShift(t: string, s: string, a: nat, j: nat)
    requires EmbeddedAt(t, s, a) && j <= |t|
    requires forall k :: a + |t| <= k < |s| ==> IsSpace(s[k])
    ensures a + j < |s| ==> (IsDigit(s[a + j]) <==> j < |t| && IsDigit(t[j]))
    ensures a + j < |s| ==> (s[a + j] == '.' <==> j < |t| && t[j] == '.')
  {
    if j < |t| {
      assert s[a + j] == t[j];
    }
  }

  /** The number at a digit of `t` is the number at the same digit inside `s`, when `t`
      is followed in `s` by whitespace or nothing. */
  lemma MatchAtShift(t: string, s: string, a: nat, i: nat)
    requires EmbeddedAt(t, s, a) && i < |t| && IsDigit(t[i])
    requires forall k :: a + |t| <= k < |s| ==> IsSpace(s[k])
    ensures s[a + i] == t[i]
    ensures MatchAt(s, a + i) == MatchAt(t, i)
  {
    var j := RunEnd(t, i);
    if j + 1 < |t| && t[j] == '.' && IsDigit(t[j + 1]) {
      MatchAtShiftFraction(t, s, a, i, j, RunEnd(t, j + 1));
    } else {
      MatchAtShiftWhole(t, s, a, i, j);
    }
  }

  lemma MatchAtShiftWhole(t: string, s: string, a: nat, i: nat, j: nat)
    requires EmbeddedAt(t, s, a) && i < |t| && IsDigit(t[i])
    requires forall k :: a + |t| <= k < |s| ==> IsSpace(s[k])
    requires i < j <= |t| && forall k :: i <= k < j ==> IsDigit(t[k])
    requires j < |t| ==> !IsDigit(t[j])
    requires !(j + 1 < |t| && t[j] == '.' && IsDigit(t[j + 1]))
    ensures s[a + i] == t[i]
    ensures MatchAt(s, a + i) == MatchAt(t, i)
  {
    assert forall k :: a + i <= k < a + j ==> s[k] == t[k - a];
    DigitsShift(t, s, a, i, j);
    AfterShift(t, s, a, j);
    if j < |t| {
      AfterShift(t, s, a, j + 1);
    }
    MatchAtWhole(t, i, j);
    MatchAtWhole(s, a + i, a + j);
  }

  lemma MatchAtShiftFraction(t: string, s: string, a: nat, i: nat, j: nat, e: nat)
    requires EmbeddedAt(t, s, a) && i < |t| && IsDigit(t[i])
    requires forall k :: a + |t| <= k < |s| ==> IsSpace(s[k])
    requires i < j && j + 1 < e <= |t| && t[j] == '.'
    requires forall k :: i <= k < j ==> IsDigit(t[k])
    requires forall k :: j + 1 <= k < e ==> IsDigit(t[k])
    requires e < |t| ==> !IsDigit(t[e])
    ensures s[a + i] == t[i]
    ensures MatchAt(s, a + i) == MatchAt(t, i)
  {
    FractionShift(t, s, a, i, j, e);
    MatchAtFraction(t, i, j, e);
    MatchAtFraction(s, a + i, a + j, a + e);
  }

  /** The shape of a number with a fraction in `t` carries over to `s`. */
  lemma FractionShift(t: string, s: string, a: nat, i: nat, j: nat, e: nat)
    requires EmbeddedAt(t, s, a)
    requires forall k :: a + |t| <= k < |s| ==> IsSpace(s[k])
    requires i < j && j + 1 < e <= |t| && t[j] == '.'
    requires forall k :: i <= k < j ==> IsDigit(t[k])
    requires forall k :: j + 1 <= k < e ==> IsDigit(t[k])
    requires e < |t| ==> !IsDigit(t[e])
    ensures a + e <= |s| && s[a + i] == t[i] && s[a + j] == '.'
    ensures forall k :: a + i <= k < a + j ==> IsDigit(s[k])
    ensures forall k :: a + j + 1 <= k < a + e ==> IsDigit(s[k])
    ensures a + e < |s| ==> !IsDigit(s[a + e])
    ensures Digits(s, a + i, a + j) == Digits(t, i, j)
    ensures Digits(s, a + j + 1, a + e) == Digits(t, j + 1, e)
  {
    assert forall k :: a + i <= k < a + j ==> s[k] == t[k - a];
    assert forall k :: a + j + 1 <= k < a + e ==> s[k] == t[k - a];
    DigitsShift(t, s, a, i, j);
    DigitsShift(t, s, a, j + 1, e);
    AfterShift(t, s, a, j);
    AfterShift(t, s, a, e);
  }

  /** Surrounding a text with whitespace does not change its first number. */
  lemma FirstMatchEmbedded(t: string, s: string, a: nat)
    requires EmbeddedAt(t, s, a)
    requires forall k :: 0 <= k < a ==> IsSpace(s[k])
    requires forall k :: a + |t| <= k < |s| ==> IsSpace(s[k])
    ensures FirstMatch(t) == FirstMatch(s)
  {
    var q := FirstDigit(t, 0);
    NoDigitBefore(t, s, a, q);
    if q < |t| {
      assert s[a + q] == t[q];
      MatchAtShift(t, s, a, q);
      FirstDigitAt(s, a + q);
    }
  }

  /** Whitespace and the non-digits of `t` in front of index `q` of `t` hold no digit of `s`. */
  lemma NoDigitBefore(t: string, s: string, a: nat, q: nat)
    requires EmbeddedAt(t, s, a) && q <= |t|
    requires forall k :: 0 <= k < a ==> IsSpace(s[k])
    requires forall k :: a + |t| <= k < |s| ==> IsSpace(s[k])
    requires forall k :: 0 <= k < q ==> !IsDigit(t[k])
    ensures forall k :: 0 <= k < a + q ==> !IsDigit(s[k])
    ensures q == |t| ==> forall k :: 0 <= k < |s| ==> !IsDigit(s[k])
  {
    assert forall k :: a <= k < a + q ==> s[k] == t[k - a];
  }

  /** Stripping surrounding whitespace does not change the first number of a text. */
  lemma FirstNumberOfStrip(s: string)
    ensures FirstMatch(Strip(s)) == FirstMatch(s)
    ensures FirstNumber(Strip(s)) == FirstNumber(s)
  {
    var a := StripSlice(s);
    FirstMatchEmbedded(Strip(s), s, a);
  }

  /** The first digit of `s` is at `i` when nothing before it is a digit. */
  lemma FirstDigitAt(s: string, i: nat)
    requires i < |s| && IsDigit(s[i])
    requires forall k :: 0 <= k < i ==> !IsDigit(s[k])
    ensures FirstDigit(s, 0) == i
  {
  }

  /** The run of digits from `i` ends at `j` when `i..j` are digits and `j` is not. */
  lemma {:induction false} RunEndAt(s: string, i: nat, j: nat)
    requires i <= j <= |s| && forall k :: i <= k < j ==> IsDigit(s[k])
    requires j < |s| ==> !IsDigit(s[j])
    ensures RunEnd(s, i) == j
    decreases j - i
  {
    if i < j {
      RunEndAt(s, i + 1, j);
    }
  }

  /** The number at `i` when the digits `i..j` are followed by neither a digit nor a
      point with a digit after it. */
  lemma MatchAtWhole(s: string, i: nat, j: nat)
    requires i < j <= |s| && forall k :: i <= k < j ==> IsDigit(s[k])
    requires j < |s| ==> !IsDigit(s[j])
    requires j + 1 < |s| && s[j] == '.' ==> !IsDigit(s[j + 1])
    ensures MatchAt(s, i) == Literal(Digits(s, i, j), 0, 0)
  {
    RunEndAt(s, i, j);
  }

  /** The number at `i` when the digits `i..j` are followed by a point and the digits
      `j + 1..e`, and then by no digit. */
  lemma MatchAtFraction(s: string, i: nat, j: nat, e: nat)
    requires i < j && j + 1 < e <= |s|
    requires forall k :: i <= k < j ==> IsDigit(s[k])
    requires s[j] == '.'
    requires forall k :: j + 1 <= k < e ==> IsDigit(s[k])
    requires e < |s| ==> !IsDigit(s[e])
    ensures MatchAt(s, i) == Literal(Digits(s, i, j), Digits(s, j + 1, e), e - j - 1)
  {
    RunEndAt(s, i, j);
    RunEndAt(s, j + 1, e);
  }

  /** Text without digits in front of a number does not change the match. */
  lemma FirstMatchAfter(prefix: string, rest: string)
    requires forall k :: 0 <= k < |prefix| ==> !IsDigit(prefix[k])
    requires rest != [] && IsDigit(rest[0])
    ensures FirstMatch(prefix + rest) == Some(MatchAt(rest, 0))
  {
    var s := prefix + rest;
    var a := |prefix|;
    assert EmbeddedAt(rest, s, a);
    assert forall k :: 0 <= k < a ==> s[k] == prefix[k];
    MatchAtShift(rest, s, a, 0);
    FirstDigitAt(s, a);
  }

  /** Digits followed by neither a digit nor a point are matched as a whole number. */
  lemma MatchWhole(digits: string, suffix: string)
    requires digits != [] && AllDigits(digits)
    requires suffix == [] || (!IsDigit(suffix[0]) && suffix[0] != '.')
    ensures MatchAt(digits + suffix, 0) == Literal(DigitsValue(digits), 0, 0)
  {
    var r := digits + suffix;
    var j := |digits|;
    assert forall k :: 0 <= k < j ==> r[k] == digits[k];
    assert j < |r| ==> r[j] == suffix[0];
    MatchAtWhole(r, 0, j);
    assert EmbeddedAt(digits, r, 0);
    DigitsShift(digits, r, 0, 0, j);
  }

  /** Digits, a point and digits are matched with both parts and the number of
      fraction digits. */
  lemma MatchFraction(whole: string, frac: string, suffix: string)
    requires whole != [] && AllDigits(whole)
    requires frac != [] && AllDigits(frac)
    requires suffix == [] || !IsDigit(suffix[0])
    ensures MatchAt(whole + "." + frac + suffix, 0)
         == Literal(DigitsValue(whole), DigitsValue(frac), |frac|)
  {
    var r := whole + "." + frac + suffix;
    var j := |whole|;
    var e := j + 1 + |frac|;
    assert forall k :: 0 <= k < j ==> r[k] == whole[k];
    assert forall k :: 0 <= k < |frac| ==> r[j + 1 + k] == frac[k];
    assert r[j] == '.';
    assert e < |r| ==> r[e] == suffix[0];
    MatchAtFraction(r, 0, j, e);
    assert EmbeddedAt(whole, r, 0);
    DigitsShift(whole, r, 0, 0, j);
    assert EmbeddedAt(frac, r, j + 1);
    DigitsShift(frac, r, j + 1, 0, |frac|);
  }

  /** A number written plainly after text without digits is matched whole. */
  lemma FirstMatchWhole(prefix: string, digits: string, suffix: string)
    requires forall k :: 0 <= k < |prefix| ==> !IsDigit(prefix[k])
    requires digits != [] && AllDigits(digits)
    requires suffix == [] || (!IsDigit(suffix[0]) && suffix[0] != '.')
    ensures FirstMatch(prefix + (digits + suffix)) == Some(Literal(DigitsValue(digits), 0, 0))
  {
    MatchWhole(digits, suffix);
    assert (digits + suffix)[0] == digits[0];
    FirstMatchAfter(prefix, digits + suffix);
  }

  /** A number with a fraction, written after text without digits, is matched with
      both its parts and the number of fraction digits. */
  lemma FirstMatchFraction(prefix: string, whole: string, frac: string, suffix: string)
    requires forall k :: 0 <= k < |prefix| ==> !IsDigit(prefix[k])
    requires whole != [] && AllDigits(whole)
    requires frac != [] && AllDigits(frac)
    requires suffix == [] || !IsDigit(suffix[0])
    ensures FirstMatch(prefix + (whole + "." + frac + suffix))
         == Some(Literal(DigitsValue(whole), DigitsValue(frac), |frac|))
  {
    var r := whole + "." + frac + suffix;
    MatchFraction(whole, frac, suffix);
    assert r[0] == whole[0];
    FirstMatchAfter(prefix, r);
  }

  /** A text with a digit parses to the value of its first match. */
  lemma ParseRateMatch(s: string)
    requires FirstMatch(s).Some?
    ensures ParseRate(Some(s)) == Some(Value(FirstMatch(s).value))
  {
    var r := ParseRate(Some(s));
    assert r.Some? ==> r == FirstNumber(s);
  }

  lemma ValueWhole(n: nat)
    ensures Value(Literal(n, 0, 0)) == n as real
  {
    assert Pow10(0) == 1;
  }

  /** `n` decimal digits spell a number below 10^n. */
  lemma {:induction false} DigitsBound(s: string, i: nat, j: nat)
    requires i <= j <= |s|
    ensures Digits(s, i, j) < Pow10(j - i)
    decreases j - i
  {
    if i < j {
      DigitsBound(s, i, j - 1);
      var d, p := Digits(s, i, j - 1), Pow10(j - 1 - i);
      assert d + 1 <= p;
      assert d * 10 + 10 <= p * 10;
    }
  }

  /** The fraction digits of a match add less than one to its whole part. */
  lemma MatchAtBounds(s: string, i: nat)
    requires i < |s| && IsDigit(s[i])
    ensures var l := MatchAt(s, i);
      l.frac < Pow10(l.fracDigits) && l.whole as real <= Value(l) < l.whole as real + 1.0
  {
    var l := MatchAt(s, i);
    var j := RunEnd(s, i);
    if j + 1 < |s| && s[j] == '.' && IsDigit(s[j + 1]) {
      DigitsBound(s, j + 1, RunEnd(s, j + 1));
    }
    FractionBelowOne(l.frac, Pow10(l.fracDigits));
  }

  lemma FractionBelowOne(f: nat, p: nat)
    requires f < p
    ensures 0.0 <= f as real / p as real < 1.0
  {
  }

  /** A whole number after text without digits is parsed back exactly. */
  lemma ParseRateWhole(prefix: string, digits: string, suffix: string)
    requires forall k :: 0 <= k < |prefix| ==> !IsDigit(prefix[k])
    requires digits != [] && AllDigits(digits)
    requires suffix == [] || (!IsDigit(suffix[0]) && suffix[0] != '.')
    ensures ParseRate(Some(prefix + (digits + suffix))) == Some(DigitsValue(digits) as real)
  {
    var s := prefix + (digits + suffix);
    FirstMatchWhole(prefix, digits, suffix);
    ParseRateMatch(s);
    ValueWhole(DigitsValue(digits));
  }

  /** A decimal fraction is parsed as its whole part plus its fraction digits over 10^n. */
  lemma ParseRateFraction(prefix: string, whole: string, frac: string, suffix: string)
    requires forall k :: 0 <= k < |prefix| ==> !IsDigit(prefix[k])
    requires whole != [] && AllDigits(whole)
    requires frac != [] && AllDigits(frac)
    requires suffix == [] || !IsDigit(suffix[0])
    ensures ParseRate(Some(prefix + (whole + "." + frac + suffix)))
         == Some(Value(Literal(DigitsValue(whole), DigitsValue(frac), |frac|)))
  {
    FirstMatchFraction(prefix, whole, frac, suffix);
    ParseRateMatch(prefix + (whole + "." + frac + suffix));
  }

}
