/** Small helpers used across the application: relative differences, the boolean
    spending check, card-name clean-up and the annual figure. Reading a rate out of
    display text, from the same source file, is the module `RateText`. */
module Helpers {
  import opened Common
  import CardValidator

  // ---------------------------------------------------------------------
  // calculate_percentage_difference, calculate_annual_benefit

  /** `calculate_percentage_difference`: 0 against a zero base, else the change in percent. */
  function PercentageDifference(value1: real, value2: real): (r: real)
    ensures value2 == 0.0 ==> r == 0.0
    ensures value2 != 0.0 ==> value2 + value2 * r / 100.0 == value1
    ensures value1 == value2 ==> r == 0.0
  {
    if value2 == 0.0 then 0.0 else (value1 - value2) / value2 * 100.0
  }

  /** `calculate_annual_benefit`: twelve months of the monthly reward. */
  function AnnualBenefit(monthly: real): (r: real)
    ensures r / 12.0 == monthly
  {
    monthly * 12.0
  }

  // ---------------------------------------------------------------------
  // validate_spending_data (boolean form)

  /** The helper's spending check: the verdict of the data layer's validator, without
      the reason. */
  function ValidateSpendingData(d: CardValidator.RawDict): (ok: bool)
    ensures ok <==> CardValidator.SpendingValid(d)
  {
    CardValidator.FirstMissing(RequiredCategories, d).None? && CardValidator.FirstBadValue(d).None?
  }

  /** The helper's own copy of the thirteen category names. */
  const RequiredCategories: seq<string> := [
    "dining", "groceries", "petrol", "transport", "streaming", "entertainment",
    "utilities", "online", "travel", "overseas", "retail", "departmental", "other"]

  lemma SpendingValidatorsAgree(d: CardValidator.RawDict)
    ensures ValidateSpendingData(d) == CardValidator.ValidateSpendingData(d).0
  {
  }

  // ---------------------------------------------------------------------
  // sanitize_card_name

  /** `\w` on ASCII: letters, digits and underscore. */
  predicate IsWordChar(c: char) {
    IsAlpha(c) || IsDigit(c) || c == '_'
  }

  predicate Kept(c: char) {
    IsWordChar(c) || IsSpace(c) || c == '-'
  }

  /** `re.sub(r'[^\w\s-]', '', s)`. */
  function RemoveSpecial(s: string): (r: string)
    ensures |r| <= |s|
    ensures forall k :: 0 <= k < |r| ==> Kept(r[k])
    ensures (forall k :: 0 <= k < |s| ==> Kept(s[k])) ==> r == s
  {
    if s == [] then []
    else (if Kept(s[0]) then [s[0]] else []) + RemoveSpecial(s[1..])
  }

  /** Every whitespace character is a plain space, and no two are adjacent. */
  ghost predicate SingleSpaced(s: string) {
    && (forall k :: 0 <= k < |s| ==> IsSpace(s[k]) ==> s[k] == ' ')
    && (forall k :: 0 <= k < |s| - 1 ==> !SpacePairAt(s, k))
  }

  predicate SpacePairAt(s: string, k: nat)
    requires k + 1 < |s|
  {
    IsSpace(s[k]) && IsSpace(s[k + 1])
  }

  lemma SingleSpacedCons(c: char, t: string)
    requires SingleSpaced(t)
    requires IsSpace(c) ==> c == ' ' && (t == [] || !IsSpace(t[0]))
    ensures SingleSpaced([c] + t)
  {
    var s := [c] + t;
    forall k | 0 <= k < |s| - 1
      ensures !SpacePairAt(s, k)
    {
      if k > 0 {
        assert !SpacePairAt(t, k - 1);
      }
    }
  }

  lemma SingleSpacedSlice(s: string, a: nat, b: nat)
    requires SingleSpaced(s) && a <= b <= |s|
    ensures SingleSpaced(s[a..b])
  {
    var t := s[a..b];
    forall k | 0 <= k < |t| - 1
      ensures !SpacePairAt(t, k)
    {
      assert !SpacePairAt(s, a + k);
    }
  }

  /** `re.sub(r'\s+', ' ', s)`. */
  function CollapseSpaces(s: string): (r: string)
    decreases |s|
    ensures |r| <= |s|
    ensures r == [] <==> s == []
    ensures r != [] ==> (IsSpace(r[0]) <==> IsSpace(s[0]))
  {
    if s == [] then []
    else if IsSpace(s[0]) then [' '] + CollapseSpaces(StripLeft(s[1..]))
    else [s[0]] + CollapseSpaces(s[1..])
  }

  /** Collapsing leaves only single plain spaces. */
  lemma {:induction false} CollapseSpacesSingle(s: string)
    ensures SingleSpaced(CollapseSpaces(s))
    decreases |s|
  {
    if s != [] {
      if IsSpace(s[0]) {
        CollapseSpacesSingle(StripLeft(s[1..]));
        SingleSpacedCons(' ', CollapseSpaces(StripLeft(s[1..])));
      } else {
        CollapseSpacesSingle(s[1..]);
        SingleSpacedCons(s[0], CollapseSpaces(s[1..]));
      }
    }
  }

  /** Collapsing introduces no character that the first clean-up step removes. */
  lemma {:induction false} CollapseSpacesKept(s: string)
    requires forall k :: 0 <= k < |s| ==> Kept(s[k])
    ensures forall k :: 0 <= k < |CollapseSpaces(s)| ==> Kept(CollapseSpaces(s)[k])
    decreases |s|
  {
    if s != [] {
      var rest := if IsSpace(s[0]) then StripLeft(s[1..]) else s[1..];
      assert rest == s[|s| - |rest|..];
      assert forall k :: 0 <= k < |rest| ==> rest[k] == s[|s| - |rest| + k];
      CollapseSpacesKept(rest);
    }
  }

  lemma {:induction false} CollapseSingleSpaced(s: string)
    requires SingleSpaced(s)
    ensures CollapseSpaces(s) == s
  {
    if s != [] {
      SingleSpacedSlice(s, 1, |s|);
      assert s[1..|s|] == s[1..];
      if IsSpace(s[0]) {
        if |s| > 1 {
          assert !SpacePairAt(s, 0);
        }
        assert StripLeft(s[1..]) == s[1..];
      }
      CollapseSingleSpaced(s[1..]);
    }
  }

  /** `sanitize_card_name`. */
  function SanitizeCardName(name: string): (r: string)
    ensures |r| <= |name|
  {
    Strip(CollapseSpaces(RemoveSpecial(name)))
  }

  /** A character a sanitised name may hold. */
  predicate CleanChar(c: char) {
    IsWordChar(c) || c == ' ' || c == '-'
  }

  /** Only word characters, hyphens and single plain spaces. */
  ghost predicate CleanText(s: string) {
    (forall k :: 0 <= k < |s| ==> CleanChar(s[k])) && SingleSpaced(s)
  }

  /** The shape of a sanitised name: clean, and no space at either end. */
  ghost predicate Sanitized(s: string) {
    CleanText(s) && (s == [] || (s[0] != ' ' && s[|s| - 1] != ' '))
  }

  lemma CleanSlice(s: string, a: nat, b: nat)
    requires CleanText(s) && a <= b <= |s|
    ensures CleanText(s[a..b])
  {
    SingleSpacedSlice(s, a, b);
    assert forall k :: 0 <= k < b - a ==> s[a..b][k] == s[a + k];
  }

  /** What collapsing leaves, before the final strip. */
  lemma CollapsedClean(name: string)
    ensures CleanText(CollapseSpaces(RemoveSpecial(name)))
  {
    CollapseSpacesSingle(RemoveSpecial(name));
    CollapseSpacesKept(RemoveSpecial(name));
  }

  /** Stripping a clean text leaves a sanitised one. */
  lemma StripClean(c: string)
    requires CleanText(c)
    ensures Sanitized(Strip(c))
  {
    var a := StripSlice(c);
    CleanSlice(c, a, a + |Strip(c)|);
  }

  /** A sanitised name holds only word characters, hyphens and single spaces, and does
      not begin or end with a space. */
  lemma SanitizeShape(name: string)
    ensures Sanitized(SanitizeCardName(name))
  {
    CollapsedClean(name);
    StripClean(CollapseSpaces(RemoveSpecial(name)));
  }

  /** A name of that shape is left as it is. */
  lemma SanitizeFixed(y: string)
    requires Sanitized(y)
    ensures SanitizeCardName(y) == y
  {
    assert RemoveSpecial(y) == y;
    CollapseSingleSpaced(y);
    StripUnchanged(y);
  }

  /** Sanitising a sanitised name changes nothing. */
  lemma SanitizeIdempotent(name: string)
    ensures SanitizeCardName(SanitizeCardName(name)) == SanitizeCardName(name)
  {
    SanitizeShape(name);
    SanitizeFixed(SanitizeCardName(name));
  }
}
