/** The spend-down of a bonus allowance shared by the UOB Lady's and the UOB Visa
    Signature policies: the categories of a bonus group are taken in order; each
    earns 4 miles per dollar on as much of it as the allowance still covers, and the
    base rate on the rest. */
module BonusSplit {
  import opened Common
  import opened CardModel
  import opened PolicyTypes

  const BonusRate: real := 4.0

  /** The bonus part of a category: as much of it as the allowance has
      left, if that is positive. */
  function TakeBonus(r: Run, cat: string, amt: real, milesRate: real): Run {
    var bonus := Min(amt, r.left);
    if bonus > 0.0 then
      Run(r.reward + MilesValue(bonus, BonusRate, milesRate),
          r.details + [MilesLine(cat, bonus, BonusRate, milesRate)], r.left - bonus)
    else r
  }

  /** The rest of the category, at the base rate, if it is positive. */
  function TakeBase(r: Run, cat: string, rest: real, base: real, milesRate: real): Run {
    if rest > 0.0 then
      Run(r.reward + MilesValue(rest, base, milesRate), r.details + [MilesLine(cat, rest, base, milesRate)], r.left)
    else r
  }

  /** One category: the bonus on as much as the allowance has left,
      the base rate on the rest. */
  function BonusStep(r: Run, cat: string, amt: real, base: real, milesRate: real): Run {
    TakeBase(TakeBonus(r, cat, amt, milesRate), cat, amt - Min(amt, r.left), base, milesRate)
  }

  /** The categories, in order, drawing on `allowance`. */
  function BonusCats(d: SpendDict, cats: seq<string>, allowance: real, base: real, milesRate: real): Run {
    if cats == [] then Run(0.0, [], allowance)
    else
      var r := BonusCats(d, cats[..|cats| - 1], allowance, base, milesRate);
      var cat := cats[|cats| - 1];
      if Get(d, cat) == 0.0 then r else BonusStep(r, cat, Get(d, cat), base, milesRate)
  }

  /** Taking one more category of a chosen group is one more step. */
  lemma BonusCatsStep(d: SpendDict, cats: seq<string>, k: nat, allowance: real, base: real, milesRate: real)
    requires k < |cats|
    ensures BonusCats(d, cats[..k + 1], allowance, base, milesRate)
         == (var r := BonusCats(d, cats[..k], allowance, base, milesRate);
             if Get(d, cats[k]) == 0.0 then r else BonusStep(r, cats[k], Get(d, cats[k]), base, milesRate))
  {
    assert cats[..k + 1][..k] == cats[..k];
  }

  /** A line about one of `cats` whose spend in `d` is not zero, at the bonus rate
      or at `base`. */
  ghost predicate LineOk(x: Detail, d: SpendDict, cats: seq<string>, base: real) {
    x.Line? && x.category in cats && Get(d, x.category) != 0.0 && (x.rate == BonusRate || x.rate == base)
  }

  ghost predicate LinesOk(details: seq<Detail>, d: SpendDict, cats: seq<string>, base: real) {
    forall k :: 0 <= k < |details| ==> LineOk(details[k], d, cats, base)
  }

  /** The lines so far add up to the reward so far, and each is a line of `cats`. */
  ghost predicate Sound(r: Run, d: SpendDict, cats: seq<string>, base: real) {
    r.reward == SumRewards(r.details) && LinesOk(r.details, d, cats, base)
  }

  lemma LinesOkWiden(details: seq<Detail>, d: SpendDict, ca: seq<string>, cb: seq<string>, base: real)
    requires LinesOk(details, d, ca, base) && forall c :: c in ca ==> c in cb
    ensures LinesOk(details, d, cb, base)
  {
    forall k | 0 <= k < |details| ensures LineOk(details[k], d, cb, base) {
      assert LineOk(details[k], d, ca, base);
    }
  }

  lemma LinesOkAppend(a: seq<Detail>, b: seq<Detail>, d: SpendDict, ca: seq<string>, cb: seq<string>, base: real)
    requires LinesOk(a, d, ca, base) && LinesOk(b, d, cb, base)
    ensures LinesOk(a + b, d, ca + cb, base)
  {
    LinesOkWiden(a, d, ca, ca + cb, base);
    LinesOkWiden(b, d, cb, ca + cb, base);
    forall k | 0 <= k < |a + b| ensures LineOk((a + b)[k], d, ca + cb, base) {
      if k < |a| {
        assert (a + b)[k] == a[k];
      } else {
        assert (a + b)[k] == b[k - |a|];
      }
    }
  }

  lemma TakeLineSound(r: Run, d: SpendDict, cats: seq<string>, line: Detail, base: real)
    requires Sound(r, d, cats, base) && line.Line? && line.category in cats && Get(d, line.category) != 0.0
    requires line.rate == BonusRate || line.rate == base
    ensures Sound(Run(r.reward + line.reward, r.details + [line], r.left), d, cats, base)
  {
    AppendLine(r.details, line, BonusRate);
    var ds := r.details + [line];
    forall k | 0 <= k < |ds| ensures LineOk(ds[k], d, cats, base) {
      if k < |r.details| {
        assert ds[k] == r.details[k];
      }
    }
  }

  lemma BonusStepSound(r: Run, d: SpendDict, cats: seq<string>, cat: string, base: real, milesRate: real)
    requires Sound(r, d, cats, base) && cat in cats && Get(d, cat) != 0.0
    ensures Sound(BonusStep(r, cat, Get(d, cat), base, milesRate), d, cats, base)
  {
    var amt := Get(d, cat);
    TakeBonusSound(r, d, cats, cat, amt, base, milesRate);
    var r1 := TakeBonus(r, cat, amt, milesRate);
    TakeBaseSound(r1, d, cats, cat, amt - Min(amt, r.left), base, milesRate);
  }

  lemma TakeBonusSound(r: Run, d: SpendDict, cats: seq<string>, cat: string, amt: real, base: real, milesRate: real)
    requires Sound(r, d, cats, base) && cat in cats && Get(d, cat) != 0.0
    ensures Sound(TakeBonus(r, cat, amt, milesRate), d, cats, base)
  {
    var bonus := Min(amt, r.left);
    if bonus > 0.0 {
      var line := MilesLine(cat, bonus, BonusRate, milesRate);
      TakeLineSound(r, d, cats, line, base);
      assert TakeBonus(r, cat, amt, milesRate).details == r.details + [line];
      assert TakeBonus(r, cat, amt, milesRate).reward == r.reward + line.reward;
    }
  }

  lemma TakeBaseSound(r: Run, d: SpendDict, cats: seq<string>, cat: string, rest: real, base: real, milesRate: real)
    requires Sound(r, d, cats, base) && cat in cats && Get(d, cat) != 0.0
    ensures Sound(TakeBase(r, cat, rest, base, milesRate), d, cats, base)
  {
    if rest > 0.0 {
      var line := MilesLine(cat, rest, base, milesRate);
      TakeLineSound(r, d, cats, line, base);
      assert TakeBase(r, cat, rest, base, milesRate).details == r.details + [line];
      assert TakeBase(r, cat, rest, base, milesRate).reward == r.reward + line.reward;
    }
  }

  /** A chosen group's lines add up to its reward, are about its categories with
      spend, and are at the bonus rate or the base rate. */
  lemma {:induction false} BonusCatsSound(d: SpendDict, cats: seq<string>, allowance: real, base: real, milesRate: real)
    ensures Sound(BonusCats(d, cats, allowance, base, milesRate), d, cats, base)
    decreases |cats|
  {
    if cats != [] {
      var n := |cats| - 1;
      BonusCatsSound(d, cats[..n], allowance, base, milesRate);
      var r := BonusCats(d, cats[..n], allowance, base, milesRate);
      LinesOkWiden(r.details, d, cats[..n], cats, base);
      if Get(d, cats[n]) != 0.0 {
        BonusStepSound(r, d, cats, cats[n], base, milesRate);
      }
    }
  }

  /** The bonus taken by a chosen group: what it has left only goes down, never
      below zero, and the amounts at the bonus rate are exactly what it used up. */
  lemma {:induction false} BonusCatsLeft(d: SpendDict, cats: seq<string>, allowance: real, base: real, milesRate: real)
    requires base != BonusRate
    ensures var r := BonusCats(d, cats, allowance, base, milesRate);
            && r.left <= allowance
            && (allowance >= 0.0 ==> r.left >= 0.0)
            && (allowance <= 0.0 ==> r.left == allowance)
            && AmountAtRate(r.details, BonusRate) == allowance - r.left
    decreases |cats|
  {
    if cats != [] {
      var n := |cats| - 1;
      BonusCatsLeft(d, cats[..n], allowance, base, milesRate);
      var r := BonusCats(d, cats[..n], allowance, base, milesRate);
      var amt := Get(d, cats[n]);
      if amt != 0.0 {
        var r1 := TakeBonus(r, cats[n], amt, milesRate);
        if Min(amt, r.left) > 0.0 {
          AppendLine(r.details, MilesLine(cats[n], Min(amt, r.left), BonusRate, milesRate), BonusRate);
        }
        if amt - Min(amt, r.left) > 0.0 {
          AppendLine(r1.details, MilesLine(cats[n], amt - Min(amt, r.left), base, milesRate), BonusRate);
        }
      }
    }
  }

  /** With no negative spend and a non-negative allowance, a chosen group's lines
      account for every dollar of its categories: bonus and base add up to the spend. */
  lemma {:induction false} BonusCatsAmounts(d: SpendDict, cats: seq<string>, allowance: real, base: real, milesRate: real)
    requires NonNegativeAmounts(d) && allowance >= 0.0
    ensures var r := BonusCats(d, cats, allowance, base, milesRate);
            SumAmounts(r.details) == SumGets(d, cats) && r.left >= 0.0
    decreases |cats|
  {
    if cats != [] {
      var n := |cats| - 1;
      BonusCatsAmounts(d, cats[..n], allowance, base, milesRate);
      var r := BonusCats(d, cats[..n], allowance, base, milesRate);
      var amt := Get(d, cats[n]);
      GetNonNegative(d, cats[n]);
      if amt != 0.0 {
        var r1 := TakeBonus(r, cats[n], amt, milesRate);
        if Min(amt, r.left) > 0.0 {
          AppendLine(r.details, MilesLine(cats[n], Min(amt, r.left), BonusRate, milesRate), BonusRate);
        }
        if amt - Min(amt, r.left) > 0.0 {
          AppendLine(r1.details, MilesLine(cats[n], amt - Min(amt, r.left), base, milesRate), BonusRate);
        }
      }
    }
  }

  /** One category with spend and a non-negative allowance left: its lines, bonus
      and base, are about it and add up to its spend. */
  lemma BonusStepLines(r: Run, cat: string, amt: real, base: real, milesRate: real) returns (step: seq<Detail>)
    requires r.left >= 0.0 && amt > 0.0
    ensures BonusStep(r, cat, amt, base, milesRate).details == r.details + step
    ensures forall k :: 0 <= k < |step| ==> step[k].Line? && step[k].category == cat
    ensures SumAmounts(step) == amt
  {
    var bonus := Min(amt, r.left);
    var bonusLine := if bonus > 0.0 then [MilesLine(cat, bonus, BonusRate, milesRate)] else [];
    var baseLine := if amt - bonus > 0.0 then [MilesLine(cat, amt - bonus, base, milesRate)] else [];
    step := bonusLine + baseLine;
    assert TakeBonus(r, cat, amt, milesRate).details == r.details + bonusLine;
    assert BonusStep(r, cat, amt, base, milesRate).details == r.details + bonusLine + baseLine;
    SumAmountsAppend(bonusLine, baseLine);
    AppendLine([], MilesLine(cat, bonus, BonusRate, milesRate), BonusRate);
    AppendLine([], MilesLine(cat, amt - bonus, base, milesRate), BonusRate);
  }

  /** With no negative spend and a non-negative allowance, the lines of a chosen group
      about one of its categories, bonus and base, add up to that category's spend. */
  lemma {:induction false} BonusCatsPerCategory(d: SpendDict, cats: seq<string>, allowance: real, base: real,
                                                milesRate: real, c: string)
    requires NonNegativeAmounts(d) && allowance >= 0.0 && DistinctCats(cats) && c in cats
    ensures SumAmounts(LinesAbout(BonusCats(d, cats, allowance, base, milesRate).details, [c])) == Get(d, c)
    decreases |cats|
  {
    var n := |cats| - 1;
    var r := BonusCats(d, cats[..n], allowance, base, milesRate);
    var amt := Get(d, cats[n]);
    BonusCatsAmounts(d, cats[..n], allowance, base, milesRate);
    GetNonNegative(d, cats[n]);
    var step: seq<Detail> := [];
    if amt != 0.0 {
      step := BonusStepLines(r, cats[n], amt, base, milesRate);
    }
    assert BonusCats(d, cats, allowance, base, milesRate).details == r.details + step;
    if cats[n] == c {
      BonusCatsSound(d, cats[..n], allowance, base, milesRate);
      LinesOkWithin(r.details, d, cats[..n], base);
      LastCategoryLines(r.details, step, cats, c);
    } else {
      EarlierCategoryLines(r.details, step, cats, c);
      BonusCatsPerCategory(d, cats[..n], allowance, base, milesRate, c);
    }
  }

  lemma LinesOkWithin(details: seq<Detail>, d: SpendDict, cats: seq<string>, base: real)
    requires LinesOk(details, d, cats, base)
    ensures LinesWithin(details, cats)
  {
    forall k | 0 <= k < |details| ensures details[k].Line? && details[k].category in cats {
      assert LineOk(details[k], d, cats, base);
    }
  }

  /** The lines of the last category, after those of the earlier ones: filtering by
      it keeps just its own. */
  lemma LastCategoryLines(prev: seq<Detail>, step: seq<Detail>, cats: seq<string>, c: string)
    requires |cats| > 0 && DistinctCats(cats) && cats[|cats| - 1] == c
    requires LinesWithin(prev, cats[..|cats| - 1])
    requires forall k :: 0 <= k < |step| ==> step[k].Line? && step[k].category == c
    ensures LinesAbout(prev + step, [c]) == step
  {
    var n := |cats| - 1;
    forall k | 0 <= k < |prev| ensures prev[k].Line? ==> prev[k].category !in [c] {
      var a :| 0 <= a < n && cats[..n][a] == prev[k].category;
      assert cats[a] != cats[n];
    }
    LinesAboutNone(prev, [c]);
    LinesAboutAll(step, [c]);
    LinesAboutAppend(prev, step, [c]);
  }

  /** The lines of the last category say nothing about an earlier one. */
  lemma EarlierCategoryLines(prev: seq<Detail>, step: seq<Detail>, cats: seq<string>, c: string)
    requires |cats| > 0 && DistinctCats(cats) && c in cats && cats[|cats| - 1] != c
    requires forall k :: 0 <= k < |step| ==> step[k].Line? && step[k].category == cats[|cats| - 1]
    ensures LinesAbout(prev + step, [c]) == LinesAbout(prev, [c])
    ensures c in cats[..|cats| - 1] && DistinctCats(cats[..|cats| - 1])
  {
    var n := |cats| - 1;
    var a :| 0 <= a < |cats| && cats[a] == c;
    assert a < n && cats[..n][a] == c;
    LinesAboutNone(step, [c]);
    LinesAboutAppend(prev, step, [c]);
  }

  /** The loop over the categories, with `left` the allowance still unused. */
  method SpendDown(d: SpendDict, cats: seq<string>, allowance: real, base: real, milesRate: real)
    returns (reward: real, details: seq<Detail>, left: real)
    ensures reward == BonusCats(d, cats, allowance, base, milesRate).reward
    ensures details == BonusCats(d, cats, allowance, base, milesRate).details
    ensures left == BonusCats(d, cats, allowance, base, milesRate).left
  {
    reward, details, left := 0.0, [], allowance;
    var k := 0;
    while k < |cats|
      invariant 0 <= k <= |cats|
      invariant Run(reward, details, left) == BonusCats(d, cats[..k], allowance, base, milesRate)
    {
      BonusCatsStep(d, cats, k, allowance, base, milesRate);
      var cat := cats[k];
      var amt := Get(d, cat);
      if amt != 0.0 {
        ghost var r0 := Run(reward, details, left);
        var amtBonus := Min(amt, left);
        var amtBase := amt - amtBonus;
        if amtBonus > 0.0 {
          var rewardBonus := MilesValue(amtBonus, BonusRate, milesRate);
          reward := reward + rewardBonus;
          details := details + [Line(cat, amtBonus, BonusRate, rewardBonus)];
          left := left - amtBonus;
        }
        ghost var r1 := TakeBonus(r0, cat, amt, milesRate);
        assert Run(reward, details, left) == r1;
        if amtBase > 0.0 {
          var rewardBase := MilesValue(amtBase, base, milesRate);
          reward := reward + rewardBase;
          details := details + [Line(cat, amtBase, base, rewardBase)];
        }
        assert Run(reward, details, left) == TakeBase(r1, cat, amtBase, base, milesRate);
      }
      k := k + 1;
    }
    assert cats[..k] == cats;
  }
}
