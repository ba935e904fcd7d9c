/** The generic policy for a miles card with a cap on its bonus categories: the bonus
    categories share a window of `min(total bonus spend, cap)` dollars at the bonus
    rate, split between them in proportion; the rest of their spend and every other
    category earn the base rate. The shared copy in
    `components/card_calculation_utils.py` differs only in comments and line breaks. */
module MilesBonusCap {
  import opened Common
  import opened CardModel
  import opened PolicyTypes

  /** The rate of the first bonus category that the tier lists, if any. */
  function FirstListedRate(rates: SpendDict, cats: seq<string>): (r: Option<real>)
    ensures r.None? <==> forall i :: 0 <= i < |cats| ==> !HasKey(rates, cats[i])
    ensures r.Some? ==> exists i :: 0 <= i < |cats| && HasKey(rates, cats[i]) && r.value == Get(rates, cats[i])
                                    && forall j :: 0 <= j < i ==> !HasKey(rates, cats[j])
  {
    if cats == [] then None
    else if HasKey(rates, cats[0]) then Some(Get(rates, cats[0]))
    else
      var r := FirstListedRate(rates, cats[1..]);
      assert forall i :: 1 <= i < |cats| ==> cats[i] == cats[1..][i - 1];
      r
  }

  function CapBase(tier: PolicyTier): real { Truthy(tier.baseRate, 0.0) }

  /** `bonus_rate`: the first listed bonus category's rate, else the base rate. */
  function CapBonusRate(tier: PolicyTier, bonusCats: seq<string>): real {
    OrElse(FirstListedRate(tier.rewardRates, bonusCats), CapBase(tier))
  }

  /** `bonus_within_cap`: the total bonus spend, up to the cap; no cap is unlimited. */
  function Window(total: real, cap: Option<real>): (w: real)
    ensures w <= total
    ensures cap.None? || total <= cap.value ==> w == total
  {
    match cap
    case None => total
    case Some(c) => Min(total, c)
  }

  /** `amt_within` as written: the category's spend up to the window, as a share of
      the total bonus spend, times the window. */
  function Within(amt: real, total: real, window: real): real
    requires total > 0.0
  {
    if window > 0.0 then Scaled(Min(amt, window), total, window) else 0.0
  }

  /** `m` as a share of `total`, times `window`. */
  function Scaled(m: real, total: real, window: real): real
    requires total > 0.0
  {
    m / total * window
  }

  /** One bonus category: its share of the window at the bonus rate, the rest at the
      base rate; both rewards are added, and a line is listed for each positive part. */
  function CapStep(r: Run, cat: string, amt: real, within: real, bonusRate: real, base: real, milesRate: real): Run {
    var above := amt - within;
    Run(r.reward + (MilesValue(within, bonusRate, milesRate) + MilesValue(above, base, milesRate)),
        r.details + (if within > 0.0 then [MilesLine(cat, within, bonusRate, milesRate)] else [])
                  + (if above > 0.0 then [MilesLine(cat, above, base, milesRate)] else []),
        0.0)
  }

  /** The loop over the bonus categories, skipping zero amounts. */
  function CapCats(d: SpendDict, cats: seq<string>, total: real, window: real, bonusRate: real, base: real,
                   milesRate: real): Run
    requires total > 0.0
  {
    if cats == [] then Run(0.0, [], 0.0)
    else
      var r := CapCats(d, cats[..|cats| - 1], total, window, bonusRate, base, milesRate);
      var cat := cats[|cats| - 1];
      if Get(d, cat) == 0.0 then r else CapStep(r, cat, Get(d, cat), Within(Get(d, cat), total, window), bonusRate, base, milesRate)
  }

  /** `calculate_miles_card_with_bonus_cap`. */
  function CapRewards(d: SpendDict, milesRate: real, tier: PolicyTier, bonusCats: seq<string>): Run {
    var base := CapBase(tier);
    var total := SumGets(d, bonusCats);
    var b := if total > 0.0 then CapCats(d, bonusCats, total, Window(total, tier.cap), CapBonusRate(tier, bonusCats), base, milesRate)
             else Run(0.0, [], 0.0);
    var o := OtherCats(d, bonusCats, base, milesRate);
    Run(b.reward + o.reward, b.details + o.details, 0.0)
  }

  /** The search for the bonus rate, stopping at the first listed bonus category. */
  method FindBonusRate(tier: PolicyTier, bonusCats: seq<string>) returns (rate: real)
    ensures rate == CapBonusRate(tier, bonusCats)
  {
    var found := false;
    rate := 0.0;
    var i := 0;
    while i < |bonusCats| && !found
      invariant 0 <= i <= |bonusCats|
      invariant !found ==> FirstListedRate(tier.rewardRates, bonusCats) == FirstListedRate(tier.rewardRates, bonusCats[i..])
      invariant found ==> FirstListedRate(tier.rewardRates, bonusCats) == Some(rate)
    {
      assert bonusCats[i..][1..] == bonusCats[i + 1..];
      if HasKey(tier.rewardRates, bonusCats[i]) {
        rate := Get(tier.rewardRates, bonusCats[i]);
        found := true;
      }
      i := i + 1;
    }
    if !found {
      rate := CapBase(tier);
    }
  }

  lemma CapCatsStep(d: SpendDict, cats: seq<string>, k: nat, total: real, window: real, bonusRate: real, base: real,
                    milesRate: real)
    requires k < |cats| && total > 0.0
    ensures CapCats(d, cats[..k + 1], total, window, bonusRate, base, milesRate)
         == (var r := CapCats(d, cats[..k], total, window, bonusRate, base, milesRate);
             if Get(d, cats[k]) == 0.0 then r else CapStep(r, cats[k], Get(d, cats[k]), Within(Get(d, cats[k]), total, window), bonusRate, base, milesRate))
  {
    assert cats[..k + 1][..k] == cats[..k];
  }

  /** The bonus categories' loop. */
  method CapLoop(d: SpendDict, cats: seq<string>, total: real, window: real, bonusRate: real, base: real,
                 milesRate: real)
    returns (reward: real, details: seq<Detail>)
    requires total > 0.0
    ensures reward == CapCats(d, cats, total, window, bonusRate, base, milesRate).reward
    ensures details == CapCats(d, cats, total, window, bonusRate, base, milesRate).details
  {
    reward, details := 0.0, [];
    var k := 0;
    while k < |cats|
      invariant 0 <= k <= |cats|
      invariant Run(reward, details, 0.0) == CapCats(d, cats[..k], total, window, bonusRate, base, milesRate)
    {
      CapCatsStep(d, cats, k, total, window, bonusRate, base, milesRate);
      var cat := cats[k];
      var amt := Get(d, cat);
      if amt != 0.0 {
        ghost var r0 := Run(reward, details, 0.0);
        var amtWithin := Within(amt, total, window);
        var amtAbove := amt - amtWithin;
        ghost var s := CapStep(r0, cat, amt, amtWithin, bonusRate, base, milesRate);
        ghost var mid := r0.details + (if amtWithin > 0.0 then [MilesLine(cat, amtWithin, bonusRate, milesRate)] else []);
        var rewardWithin := MilesValue(amtWithin, bonusRate, milesRate);
        var rewardAbove := MilesValue(amtAbove, base, milesRate);
        reward := reward + (rewardWithin + rewardAbove);
        if amtWithin > 0.0 {
          details := details + [Line(cat, amtWithin, bonusRate, rewardWithin)];
        }
        assert details == mid;
        if amtAbove > 0.0 {
          details := details + [Line(cat, amtAbove, base, rewardAbove)];
        }
        assert details == s.details && reward == s.reward;
      }
      k := k + 1;
    }
    assert cats[..k] == cats;
  }

  method CalculateMilesCardWithBonusCap(d: SpendDict, milesRate: real, tier: PolicyTier, bonusCats: seq<string>)
    returns (reward: real, details: seq<Detail>)
    ensures reward == CapRewards(d, milesRate, tier, bonusCats).reward
    ensures details == CapRewards(d, milesRate, tier, bonusCats).details
  {
    var base := CapBase(tier);
    var bonusRate := FindBonusRate(tier, bonusCats);
    var total := SumGets(d, bonusCats);
    var window := Window(total, tier.cap);
    reward, details := 0.0, [];
    if total > 0.0 {
      reward, details := CapLoop(d, bonusCats, total, window, bonusRate, base, milesRate);
    }
    var r, ds := OtherLoop(d, bonusCats, base, milesRate);
    reward, details := reward + r, details + ds;
  }

  // ---------------------------------------------------------------------
  // How much of the bonus spend earns the bonus rate

  /** `sum(amt_within)` over the bonus categories, as written. */
  function SumWithin(d: SpendDict, cats: seq<string>, total: real, window: real): real
    requires total > 0.0
  {
    if cats == [] then 0.0
    else SumWithin(d, cats[..|cats| - 1], total, window) + Within(Get(d, cats[|cats| - 1]), total, window)
  }

  /** The bonus categories' spend, each counted up to the window. */
  function SumMin(d: SpendDict, cats: seq<string>, window: real): real {
    if cats == [] then 0.0 else SumMin(d, cats[..|cats| - 1], window) + Min(Get(d, cats[|cats| - 1]), window)
  }

  /** Scaling a sum is scaling its terms. */
  lemma ScaleSum(a: real, b: real, total: real, window: real)
    requires total > 0.0
    ensures Scaled(a + b, total, window) == Scaled(a, total, window) + Scaled(b, total, window)
  {
    assert (a + b) / total == a / total + b / total;
  }

  /** Scaling by `window / total` with `0 < window <= total` keeps a non-negative
      amount between nothing and itself. */
  lemma ScaleBelow(m: real, total: real, window: real)
    requires total > 0.0 && 0.0 < window <= total && m >= 0.0
    ensures 0.0 <= Scaled(m, total, window) <= m
  {
    var f := window / total;
    assert f * total == window;
    assert f <= 1.0;
    assert m / total * window == m * f;
    assert m * f <= m * 1.0;
  }

  /** `m / total * window` reaches `window` exactly when `m` reaches `total`. */
  lemma ScaleReaches(m: real, total: real, window: real)
    requires total > 0.0 && window > 0.0 && m <= total
    ensures Scaled(m, total, window) <= window
    ensures Scaled(m, total, window) == window <==> m == total
  {
    var q := m / total;
    assert q * total == m;
    assert q <= 1.0;
    assert q * window <= 1.0 * window;
    if q * window == window {
      assert q == 1.0;
    }
  }

  /** With no negative spend, a category's share of the window is between nothing
      and its whole spend. */
  lemma WithinBounds(amt: real, total: real, window: real)
    requires total > 0.0 && amt >= 0.0 && window <= total
    ensures 0.0 <= Within(amt, total, window) <= amt
  {
    if window > 0.0 {
      ScaleBelow(Min(amt, window), total, window);
    }
  }

  /** A window as large as the whole bonus spend gives every category all of its spend. */
  lemma WithinAll(amt: real, total: real)
    requires total > 0.0 && 0.0 <= amt <= total
    ensures Within(amt, total, total) == amt
  {
  }

  lemma {:induction false} SumWithinShare(d: SpendDict, cats: seq<string>, total: real, window: real)
    requires total > 0.0 && window > 0.0
    ensures SumWithin(d, cats, total, window) == Scaled(SumMin(d, cats, window), total, window)
    decreases |cats|
  {
    if cats != [] {
      var n := |cats| - 1;
      SumWithinShare(d, cats[..n], total, window);
      ScaleSum(SumMin(d, cats[..n], window), Min(Get(d, cats[n]), window), total, window);
    }
  }

  lemma {:induction false} GetAtMostSumGets(d: SpendDict, cats: seq<string>, i: nat)
    requires NonNegativeAmounts(d) && i < |cats|
    ensures Get(d, cats[i]) <= SumGets(d, cats)
    decreases |cats|
  {
    var n := |cats| - 1;
    SumGetsNonNegative(d, cats[..n]);
    GetNonNegative(d, cats[n]);
    if i < n {
      GetAtMostSumGets(d, cats[..n], i);
      assert cats[..n][i] == cats[i];
    }
  }

  /** Counting each category only up to the window loses spend exactly when some
      category is above the window. */
  lemma {:induction false} SumMinBound(d: SpendDict, cats: seq<string>, window: real)
    requires NonNegativeAmounts(d)
    ensures SumMin(d, cats, window) <= SumGets(d, cats)
    ensures SumMin(d, cats, window) == SumGets(d, cats) <==> forall i :: 0 <= i < |cats| ==> Get(d, cats[i]) <= window
    decreases |cats|
  {
    if cats != [] {
      var n := |cats| - 1;
      SumMinBound(d, cats[..n], window);
      assert forall i :: 0 <= i < n ==> cats[..n][i] == cats[i];
      if SumMin(d, cats, window) == SumGets(d, cats) {
        assert Min(Get(d, cats[n]), window) == Get(d, cats[n]);
      }
    }
  }

  /** As written, the amounts at the bonus rate add up to the window scaled by the
      share of the spend below it: never more than `min(total, cap)`, and exactly that
      only when no single bonus category is above it. When the whole bonus spend is
      within the cap, all of it earns the bonus rate. */
  lemma CapWithinTotal(d: SpendDict, cats: seq<string>, cap: Option<real>)
    requires NonNegativeAmounts(d) && SumGets(d, cats) > 0.0
    ensures var total := SumGets(d, cats);
            var window := Window(total, cap);
            && (window > 0.0 ==> SumWithin(d, cats, total, window) <= window)
            && (window > 0.0 ==> (SumWithin(d, cats, total, window) == window
                                  <==> forall i :: 0 <= i < |cats| ==> Get(d, cats[i]) <= window))
            && ((cap.None? || total <= cap.value) ==> SumWithin(d, cats, total, window) == total)
  {
    var total := SumGets(d, cats);
    var window := Window(total, cap);
    SumMinBound(d, cats, window);
    if window > 0.0 {
      SumWithinShare(d, cats, total, window);
      ScaleReaches(SumMin(d, cats, window), total, window);
    }
    if cap.None? || total <= cap.value {
      forall i | 0 <= i < |cats| ensures Get(d, cats[i]) <= window {
        GetAtMostSumGets(d, cats, i);
      }
    }
  }

  /** The split as written falls short of the cap: 700, 200 and 100 dollars in three
      bonus categories with a 600 cap earn the bonus on 540 dollars, not 600. */
  lemma CapFallsShort()
    ensures var d := [Entry("dining", 700.0), Entry("retail", 200.0), Entry("travel", 100.0)];
            var cats := ["dining", "retail", "travel"];
            && SumGets(d, cats) == 1000.0
            && Window(1000.0, Some(600.0)) == 600.0
            && SumWithin(d, cats, 1000.0, 600.0) == 540.0
  {
    var d := [Entry("dining", 700.0), Entry("retail", 200.0), Entry("travel", 100.0)];
    var cats := ["dining", "retail", "travel"];
    assert Get(d, "dining") == 700.0;
    assert Get(d, "retail") == 200.0;
    assert Get(d, "travel") == 100.0;
    assert cats[..2] == ["dining", "retail"] && cats[..2][..1] == ["dining"] && cats[..2][..1][..0] == [];
    assert Within(700.0, 1000.0, 600.0) == 360.0;
    assert Within(200.0, 1000.0, 600.0) == 120.0;
    assert Within(100.0, 1000.0, 600.0) == 60.0;
    assert SumWithin(d, ["dining"], 1000.0, 600.0) == 360.0;
    assert SumWithin(d, ["dining", "retail"], 1000.0, 600.0) == 480.0;
    assert SumGets(d, ["dining", "retail"]) == 900.0;
  }

  /** One bonus category with non-negative spend: its reward is that of its lines,
      which list all of its spend, its share of the window at the bonus rate. */
  lemma CapStepFacts(r: Run, cat: string, amt: real, within: real, bonusRate: real, base: real, milesRate: real)
    requires 0.0 <= within <= amt
    ensures var s := CapStep(r, cat, amt, within, bonusRate, base, milesRate);
            && (r.reward == SumRewards(r.details) ==> s.reward == SumRewards(s.details))
            && SumAmounts(s.details) == SumAmounts(r.details) + amt
            && (base != bonusRate ==> AmountAtRate(s.details, bonusRate) == AmountAtRate(r.details, bonusRate) + within)
  {
    var above := amt - within;
    var ds1 := r.details + (if within > 0.0 then [MilesLine(cat, within, bonusRate, milesRate)] else []);
    if within > 0.0 {
      AppendLine(r.details, MilesLine(cat, within, bonusRate, milesRate), bonusRate);
    } else {
      assert ds1 == r.details;
    }
    if above > 0.0 {
      AppendLine(ds1, MilesLine(cat, above, base, milesRate), bonusRate);
    } else {
      assert ds1 + [] == ds1;
    }
  }

  /** The bonus categories' lines, with no negative spend: they add up to the reward,
      list every dollar of the bonus spend, and those at the bonus rate add up to the
      shares of the window. */
  lemma {:induction false} CapCatsFacts(d: SpendDict, cats: seq<string>, total: real, window: real, bonusRate: real,
                                        base: real, milesRate: real)
    requires NonNegativeAmounts(d) && total > 0.0 && window <= total
    ensures var r := CapCats(d, cats, total, window, bonusRate, base, milesRate);
            && r.reward == SumRewards(r.details)
            && SumAmounts(r.details) == SumGets(d, cats)
            && (base != bonusRate ==> AmountAtRate(r.details, bonusRate) == SumWithin(d, cats, total, window))
    decreases |cats|
  {
    if cats != [] {
      var n := |cats| - 1;
      CapCatsFacts(d, cats[..n], total, window, bonusRate, base, milesRate);
      var r := CapCats(d, cats[..n], total, window, bonusRate, base, milesRate);
      var amt := Get(d, cats[n]);
      var within := Within(amt, total, window);
      GetNonNegative(d, cats[n]);
      WithinBounds(amt, total, window);
      assert SumWithin(d, cats, total, window) == SumWithin(d, cats[..n], total, window) + within;
      assert SumGets(d, cats) == SumGets(d, cats[..n]) + amt;
      if amt != 0.0 {
        assert CapCats(d, cats, total, window, bonusRate, base, milesRate) == CapStep(r, cats[n], amt, within, bonusRate, base, milesRate);
        CapStepFacts(r, cats[n], amt, within, bonusRate, base, milesRate);
      } else {
        assert within == 0.0;
      }
    }
  }

  /** `calculate_miles_card_with_bonus_cap`, with no negative spend: the reward is the
      sum of the breakdown, the breakdown lists every dollar of the bonus categories
      and of every other category not named 'total', and when the bonus rate differs
      from the base rate the amount at the bonus rate is the sum of the shares. */
  lemma CapRewardsFacts(d: SpendDict, milesRate: real, tier: PolicyTier, bonusCats: seq<string>)
    requires NonNegativeAmounts(d)
    ensures var r := CapRewards(d, milesRate, tier, bonusCats);
            && r.reward == SumRewards(r.details)
            && SumAmounts(r.details) == SumGets(d, bonusCats) + OtherSpend(d, bonusCats)
    ensures var total := SumGets(d, bonusCats);
            CapBase(tier) != CapBonusRate(tier, bonusCats) ==>
              AmountAtRate(CapRewards(d, milesRate, tier, bonusCats).details, CapBonusRate(tier, bonusCats))
              == if total > 0.0 then SumWithin(d, bonusCats, total, Window(total, tier.cap)) else 0.0
  {
    var base := CapBase(tier);
    var rate := CapBonusRate(tier, bonusCats);
    var total := SumGets(d, bonusCats);
    var b := if total > 0.0 then CapCats(d, bonusCats, total, Window(total, tier.cap), rate, base, milesRate)
             else Run(0.0, [], 0.0);
    var o := OtherCats(d, bonusCats, base, milesRate);
    SumGetsNonNegative(d, bonusCats);
    if total > 0.0 {
      CapCatsFacts(d, bonusCats, total, Window(total, tier.cap), rate, base, milesRate);
    }
    OtherCatsFacts(d, bonusCats, base, milesRate);
    OtherCatsAtBase(d, bonusCats, base, milesRate);
    SumRewardsAppend(b.details, o.details);
    SumAmountsAppend(b.details, o.details);
    if base != rate {
      AmountAtOtherRate(o.details, base, rate);
      AmountAtRateAppend(b.details, o.details, rate);
    }
  }

  // ---------------------------------------------------------------------
  // The split the docstring describes

  /** Each category's share of the window in proportion to its whole spend. */
  function WithinShare(amt: real, total: real, window: real): real
    requires total > 0.0
  {
    if window > 0.0 then Scaled(amt, total, window) else 0.0
  }

  function SumShare(d: SpendDict, cats: seq<string>, total: real, window: real): real
    requires total > 0.0
  {
    if cats == [] then 0.0
    else SumShare(d, cats[..|cats| - 1], total, window) + WithinShare(Get(d, cats[|cats| - 1]), total, window)
  }

  lemma {:induction false} SumShareScaled(d: SpendDict, cats: seq<string>, total: real, window: real)
    requires total > 0.0 && window > 0.0
    ensures SumShare(d, cats, total, window) == Scaled(SumGets(d, cats), total, window)
    decreases |cats|
  {
    if cats != [] {
      var n := |cats| - 1;
      SumShareScaled(d, cats[..n], total, window);
      ScaleSum(SumGets(d, cats[..n]), Get(d, cats[n]), total, window);
    }
  }

  /** The proportional split fills the window exactly: the bonus categories together
      earn the bonus rate on `min(total, cap)` dollars. */
  lemma ShareFillsWindow(d: SpendDict, cats: seq<string>, cap: Option<real>)
    requires SumGets(d, cats) > 0.0
    ensures var total := SumGets(d, cats);
            var window := Window(total, cap);
            window > 0.0 ==> SumShare(d, cats, total, window) == window
  {
    var total := SumGets(d, cats);
    var window := Window(total, cap);
    if window > 0.0 {
      SumShareScaled(d, cats, total, window);
      ScaleReaches(total, total, window);
    }
  }

  /** With no negative spend, each category's proportional share is between nothing
      and its whole spend. */
  lemma ShareWithinSpend(amt: real, total: real, window: real)
    requires total > 0.0 && amt >= 0.0 && window <= total
    ensures 0.0 <= WithinShare(amt, total, window) <= amt
  {
    if window > 0.0 {
      ScaleBelow(amt, total, window);
    }
  }
}
