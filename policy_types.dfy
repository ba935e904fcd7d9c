/** What the special reward policies share: the tier fields they read, and sums over
    the breakdown lines they return. Each policy takes the spending as an ordered
    dictionary of category amounts (`UserSpending.to_dict()`, so it holds a 'total'
    key as well). */
module PolicyTypes {
  import opened Common
  import opened CardModel

  /** The fields of a card tier the policies read: the bonus rates by category, and
      the optional cap, base rate and minimum spend. */
  datatype PolicyTier = PolicyTier(
    rewardRates: SpendDict, cap: Option<real>, baseRate: Option<real>, minSpend: Option<real>)

  /** Miles earned on `amount` at `rate` miles per dollar, valued at `milesRate`. */
  function MilesValue(amount: real, rate: real, milesRate: real): real {
    amount * rate * milesRate
  }

  /** What the loop has earned and listed, and what its allowance has left. */
  datatype Run = Run(reward: real, details: seq<Detail>, left: real)

  /** A breakdown line at a rate in miles per dollar. */
  function MilesLine(cat: string, amount: real, rate: real, milesRate: real): Detail {
    Line(cat, amount, rate, MilesValue(amount, rate, milesRate))
  }

  /** The sum of the `Reward` fields of a breakdown. */
  function SumRewards(details: seq<Detail>): real {
    if details == [] then 0.0
    else SumRewards(details[..|details| - 1]) + LineReward(details[|details| - 1])
  }

  function LineReward(d: Detail): real {
    if d.Line? then d.reward else 0.0
  }

  /** The sum of the `Amount` fields of a breakdown. */
  function SumAmounts(details: seq<Detail>): real {
    if details == [] then 0.0
    else SumAmounts(details[..|details| - 1]) + LineAmount(details[|details| - 1])
  }

  function LineAmount(d: Detail): real {
    if d.Line? then d.spend else 0.0
  }

  lemma {:induction false} SumRewardsAppend(a: seq<Detail>, b: seq<Detail>)
    ensures SumRewards(a + b) == SumRewards(a) + SumRewards(b)
    decreases |b|
  {
    if b != [] {
      var n := |b| - 1;
      assert (a + b)[..|a + b| - 1] == a + b[..n];
      SumRewardsAppend(a, b[..n]);
    } else {
      assert a + b == a;
    }
  }

  lemma {:induction false} SumAmountsAppend(a: seq<Detail>, b: seq<Detail>)
    ensures SumAmounts(a + b) == SumAmounts(a) + SumAmounts(b)
    decreases |b|
  {
    if b != [] {
      var n := |b| - 1;
      assert (a + b)[..|a + b| - 1] == a + b[..n];
      SumAmountsAppend(a, b[..n]);
    } else {
      assert a + b == a;
    }
  }

  /** Every line is about one of `cats`. */
  ghost predicate LinesWithin(details: seq<Detail>, cats: seq<string>) {
    forall k :: 0 <= k < |details| ==> details[k].Line? && details[k].category in cats
  }

  /** Every line is at `rate`. */
  ghost predicate LinesAtRate(details: seq<Detail>, rate: real) {
    forall k :: 0 <= k < |details| ==> details[k].Line? && details[k].rate == rate
  }

  /** The amounts of the lines at `rate`. */
  function AmountAtRate(details: seq<Detail>, rate: real): real {
    if details == [] then 0.0
    else
      var d := details[|details| - 1];
      AmountAtRate(details[..|details| - 1], rate) + (if d.Line? && d.rate == rate then d.spend else 0.0)
  }

  /** A sum of amounts with no negative term. */
  ghost predicate NonNegativeAmounts(d: SpendDict) {
    forall k :: 0 <= k < |d| ==> d[k].amount >= 0.0
  }

  lemma {:induction false} GetNonNegative(d: SpendDict, k: string)
    requires NonNegativeAmounts(d)
    ensures Get(d, k) >= 0.0
  {
    if d != [] && d[0].key != k {
      GetNonNegative(d[1..], k);
    }
  }

  /** One more line adds its reward, its amount, and its amount at `rate`. */
  lemma AppendLine(details: seq<Detail>, line: Detail, rate: real)
    ensures SumRewards(details + [line]) == SumRewards(details) + LineReward(line)
    ensures SumAmounts(details + [line]) == SumAmounts(details) + LineAmount(line)
    ensures AmountAtRate(details + [line], rate)
         == AmountAtRate(details, rate) + (if line.Line? && line.rate == rate then line.spend else 0.0)
  {
    assert (details + [line])[..|details|] == details;
  }

  /** `sum(user_spending.get(cat, 0) for cat in cats)`. */
  function SumGets(d: SpendDict, cats: seq<string>): real {
    if cats == [] then 0.0 else SumGets(d, cats[..|cats| - 1]) + Get(d, cats[|cats| - 1])
  }

  lemma {:induction false} SumGetsNonNegative(d: SpendDict, cats: seq<string>)
    requires NonNegativeAmounts(d)
    ensures SumGets(d, cats) >= 0.0
  {
    if cats != [] {
      SumGetsNonNegative(d, cats[..|cats| - 1]);
      GetNonNegative(d, cats[|cats| - 1]);
    }
  }

  lemma {:induction false} SumGetsAppend(d: SpendDict, a: seq<string>, b: seq<string>)
    ensures SumGets(d, a + b) == SumGets(d, a) + SumGets(d, b)
    decreases |b|
  {
    if b != [] {
      var n := |b| - 1;
      assert (a + b)[..|a + b| - 1] == a + b[..n];
      SumGetsAppend(d, a, b[..n]);
    } else {
      assert a + b == a;
    }
  }

  lemma {:induction false} AmountAtRateAppend(a: seq<Detail>, b: seq<Detail>, rate: real)
    ensures AmountAtRate(a + b, rate) == AmountAtRate(a, rate) + AmountAtRate(b, rate)
    decreases |b|
  {
    if b != [] {
      var n := |b| - 1;
      assert (a + b)[..|a + b| - 1] == a + b[..n];
      AmountAtRateAppend(a, b[..n], rate);
    } else {
      assert a + b == a;
    }
  }

  lemma {:induction false} AmountAtOtherRate(details: seq<Detail>, base: real, rate: real)
    requires LinesAtRate(details, base) && base != rate
    ensures AmountAtRate(details, rate) == 0.0
    decreases |details|
  {
    if details != [] {
      AmountAtOtherRate(details[..|details| - 1], base, rate);
    }
  }

  /** No category is listed twice. */
  ghost predicate DistinctCats(cats: seq<string>) {
    forall a, b :: 0 <= a < b < |cats| ==> cats[a] != cats[b]
  }

  /** The lines about the categories `cats`, in breakdown order. */
  function LinesAbout(details: seq<Detail>, cats: seq<string>): seq<Detail> {
    if details == [] then []
    else
      var x := details[|details| - 1];
      LinesAbout(details[..|details| - 1], cats) + (if x.Line? && x.category in cats then [x] else [])
  }

  lemma {:induction false} LinesAboutAppend(a: seq<Detail>, b: seq<Detail>, cats: seq<string>)
    ensures LinesAbout(a + b, cats) == LinesAbout(a, cats) + LinesAbout(b, cats)
    decreases |b|
  {
    if b != [] {
      var n := |b| - 1;
      assert (a + b)[..|a + b| - 1] == a + b[..n];
      LinesAboutAppend(a, b[..n], cats);
    } else {
      assert a + b == a;
    }
  }

  /** Lines none of which is about `cats` leave nothing about them. */
  lemma {:induction false} LinesAboutNone(details: seq<Detail>, cats: seq<string>)
    requires forall k :: 0 <= k < |details| ==> details[k].Line? ==> details[k].category !in cats
    ensures LinesAbout(details, cats) == []
    decreases |details|
  {
    if details != [] {
      LinesAboutNone(details[..|details| - 1], cats);
    }
  }

  /** Lines all about `cats` are kept whole. */
  lemma {:induction false} LinesAboutAll(details: seq<Detail>, cats: seq<string>)
    requires LinesWithin(details, cats)
    ensures LinesAbout(details, cats) == details
    decreases |details|
  {
    if details != [] {
      var n := |details| - 1;
      assert LinesWithin(details[..n], cats);
      LinesAboutAll(details[..n], cats);
    }
  }

  /** Filtering twice is filtering by the narrower list. */
  lemma {:induction false} LinesAboutNarrower(details: seq<Detail>, wide: seq<string>, narrow: seq<string>)
    requires forall c :: c in narrow ==> c in wide
    ensures LinesAbout(LinesAbout(details, wide), narrow) == LinesAbout(details, narrow)
    decreases |details|
  {
    if details != [] {
      var n := |details| - 1;
      var x := details[n];
      LinesAboutNarrower(details[..n], wide, narrow);
      var h := if x.Line? && x.category in wide then [x] else [];
      LinesAboutAppend(LinesAbout(details[..n], wide), h, narrow);
      if x.Line? && x.category in wide {
        assert LinesAbout(h, narrow) == LinesAbout([] + h, narrow);
      }
    }
  }

  /** Lines each at one of two different rates: their amounts are the amount at the
      one plus the amount at the other. */
  lemma {:induction false} AmountsAtTwoRates(details: seq<Detail>, a: real, b: real)
    requires a != b && forall k :: 0 <= k < |details| ==> details[k].Line? && (details[k].rate == a || details[k].rate == b)
    ensures SumAmounts(details) == AmountAtRate(details, a) + AmountAtRate(details, b)
    decreases |details|
  {
    if details != [] {
      AmountsAtTwoRates(details[..|details| - 1], a, b);
    }
  }

  // ---------------------------------------------------------------------
  // The categories outside every bonus group

  /** A key the base-rate loop passes over: 'total', or one of `skip`. */
  predicate Skipped(key: string, skip: seq<string>) {
    key == "total" || key in skip
  }

  /** The loop over the whole spending dict that pays the base rate on every
      category not skipped and with a non-zero amount. */
  function OtherCats(d: SpendDict, skip: seq<string>, base: real, milesRate: real): Run {
    if d == [] then Run(0.0, [], 0.0)
    else
      var r := OtherCats(d[..|d| - 1], skip, base, milesRate);
      var e := d[|d| - 1];
      if Skipped(e.key, skip) || e.amount == 0.0 then r
      else Run(r.reward + MilesValue(e.amount, base, milesRate), r.details + [MilesLine(e.key, e.amount, base, milesRate)], 0.0)
  }

  /** The spend of the categories not skipped. */
  function OtherSpend(d: SpendDict, skip: seq<string>): real {
    if d == [] then 0.0
    else OtherSpend(d[..|d| - 1], skip) + (if Skipped(d[|d| - 1].key, skip) then 0.0 else d[|d| - 1].amount)
  }

  /** A line of the base-rate loop: not about a skipped key, not for a zero amount,
      and at the base rate. */
  ghost predicate OtherLine(x: Detail, skip: seq<string>, base: real) {
    x.Line? && !Skipped(x.category, skip) && x.spend != 0.0 && x.rate == base
  }

  /** The base-rate loop's reward is the sum of its lines, each an `OtherLine`, and
      they account for all the spend it does not skip. */
  lemma {:induction false} OtherCatsFacts(d: SpendDict, skip: seq<string>, base: real, milesRate: real)
    ensures var r := OtherCats(d, skip, base, milesRate);
            && r.reward == SumRewards(r.details)
            && SumAmounts(r.details) == OtherSpend(d, skip)
            && (forall k :: 0 <= k < |r.details| ==> OtherLine(r.details[k], skip, base))
    decreases |d|
  {
    if d != [] {
      var n := |d| - 1;
      OtherCatsFacts(d[..n], skip, base, milesRate);
      var r := OtherCats(d[..n], skip, base, milesRate);
      var e := d[n];
      if !(Skipped(e.key, skip) || e.amount == 0.0) {
        var line := MilesLine(e.key, e.amount, base, milesRate);
        AppendLine(r.details, line, base);
        var ds := r.details + [line];
        forall k | 0 <= k < |ds| ensures OtherLine(ds[k], skip, base) {
          if k < |r.details| {
            assert ds[k] == r.details[k];
          }
        }
      }
    }
  }

  lemma OtherCatsAtBase(d: SpendDict, skip: seq<string>, base: real, milesRate: real)
    ensures LinesAtRate(OtherCats(d, skip, base, milesRate).details, base)
  {
    OtherCatsFacts(d, skip, base, milesRate);
    var r := OtherCats(d, skip, base, milesRate);
    forall k | 0 <= k < |r.details| ensures r.details[k].Line? && r.details[k].rate == base {
      assert OtherLine(r.details[k], skip, base);
    }
  }

  /** `for cat, amt in user_spending.items()`: the base-rate loop. */
  method OtherLoop(d: SpendDict, skip: seq<string>, base: real, milesRate: real)
    returns (reward: real, details: seq<Detail>)
    ensures reward == OtherCats(d, skip, base, milesRate).reward
    ensures details == OtherCats(d, skip, base, milesRate).details
  {
    reward, details := 0.0, [];
    var i := 0;
    while i < |d|
      invariant 0 <= i <= |d|
      invariant reward == OtherCats(d[..i], skip, base, milesRate).reward
      invariant details == OtherCats(d[..i], skip, base, milesRate).details
    {
      assert d[..i + 1][..i] == d[..i];
      var cat, amt := d[i].key, d[i].amount;
      if !(cat == "total" || cat in skip) && amt != 0.0 {
        var rewardCat := MilesValue(amt, base, milesRate);
        reward := reward + rewardCat;
        details := details + [Line(cat, amt, base, rewardCat)];
      }
      i := i + 1;
    }
    assert d[..i] == d;
  }
}
