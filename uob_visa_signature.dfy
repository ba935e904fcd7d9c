/** The UOB Visa Signature policy: two buckets, foreign-currency spend and a group of
    local categories, each earn 4 miles per dollar on up to `cap` of their spend, but
    only once the bucket's spend reaches the minimum; the rest of a bucket and every
    other category earn the base rate. The shared copy in
    `components/card_calculation_utils.py` differs only in comments and line breaks. */
module UobVisaSignature {
  import opened Common
  import opened CardModel
  import opened PolicyTypes
  import opened BonusSplit

  const FcyGroup: seq<string> := ["fcy"]
  const NonFcyGroup: seq<string> := ["dining", "groceries", "petrol", "simplygo", "entertainment", "retail"]

  /** The tier fields, each with its default when it is falsy. */
  function VisaBase(tier: PolicyTier): real { Truthy(tier.baseRate, 0.4) }
  function VisaMinSpend(tier: PolicyTier): real { Truthy(tier.minSpend, 1000.0) }
  function VisaCap(tier: PolicyTier): real { Truthy(tier.cap, 1200.0) }

  /** A bucket's bonus spend: nothing below the minimum spend, otherwise the spend up
      to the cap. */
  function BucketBonus(spend: real, minSpend: real, cap: real): (b: real)
    ensures spend < minSpend ==> b == 0.0
    ensures spend >= minSpend ==> b <= cap && b <= spend && (b == cap || b == spend)
  {
    if spend >= minSpend then Min(spend, cap) else 0.0
  }

  /** The foreign-currency bucket: its bonus at 4 mpd, the rest at the base rate. */
  function FcyRun(spend: real, bonus: real, base: real, milesRate: real): Run {
    var r := if bonus > 0.0 then Run(MilesValue(bonus, BonusRate, milesRate), [MilesLine("fcy", bonus, BonusRate, milesRate)], 0.0)
             else Run(0.0, [], 0.0);
    TakeBase(r, "fcy", spend - bonus, base, milesRate)
  }

  /** `calculate_uob_visa_signature_rewards`: the two buckets, then every other
      category. */
  function VisaRewards(d: SpendDict, milesRate: real, tier: PolicyTier): Run {
    var base := VisaBase(tier);
    var fcySpend := SumGets(d, FcyGroup);
    var nonFcySpend := SumGets(d, NonFcyGroup);
    var fcy := FcyRun(fcySpend, BucketBonus(fcySpend, VisaMinSpend(tier), VisaCap(tier)), base, milesRate);
    var nonFcy := BonusCats(d, NonFcyGroup, BucketBonus(nonFcySpend, VisaMinSpend(tier), VisaCap(tier)), base, milesRate);
    var other := OtherCats(d, FcyGroup + NonFcyGroup, base, milesRate);
    Run(fcy.reward + nonFcy.reward + other.reward, fcy.details + nonFcy.details + other.details, 0.0)
  }

  method CalculateUobVisaSignatureRewards(d: SpendDict, milesRate: real, tier: PolicyTier)
    returns (reward: real, details: seq<Detail>)
    ensures reward == VisaRewards(d, milesRate, tier).reward
    ensures details == VisaRewards(d, milesRate, tier).details
  {
    var base := VisaBase(tier);
    var minSpend := VisaMinSpend(tier);
    var cap := VisaCap(tier);
    reward, details := 0.0, [];
    var fcySpend := SumGets(d, FcyGroup);
    var fcyBonus := if fcySpend >= minSpend then Min(fcySpend, cap) else 0.0;
    var fcyBase := fcySpend - fcyBonus;
    if fcyBonus > 0.0 {
      var rewardFcyBonus := MilesValue(fcyBonus, BonusRate, milesRate);
      reward := reward + rewardFcyBonus;
      details := details + [Line("fcy", fcyBonus, BonusRate, rewardFcyBonus)];
    }
    if fcyBase > 0.0 {
      var rewardFcyBase := MilesValue(fcyBase, base, milesRate);
      reward := reward + rewardFcyBase;
      details := details + [Line("fcy", fcyBase, base, rewardFcyBase)];
    }
    assert Run(reward, details, 0.0) == FcyRun(fcySpend, fcyBonus, base, milesRate);
    var nonFcySpend := SumGets(d, NonFcyGroup);
    var nonFcyBonus := if nonFcySpend >= minSpend then Min(nonFcySpend, cap) else 0.0;
    var r, ds, left := SpendDown(d, NonFcyGroup, nonFcyBonus, base, milesRate);
    reward, details := reward + r, details + ds;
    r, ds := OtherLoop(d, FcyGroup + NonFcyGroup, base, milesRate);
    reward, details := reward + r, details + ds;
  }

  // ---------------------------------------------------------------------
  // What the breakdown promises

  lemma FcyRunFacts(spend: real, bonus: real, base: real, milesRate: real)
    ensures var r := FcyRun(spend, bonus, base, milesRate);
            && r.reward == SumRewards(r.details)
            && (base != BonusRate ==> AmountAtRate(r.details, BonusRate) == Max(0.0, bonus))
            && (bonus >= 0.0 && spend - bonus >= 0.0 ==> SumAmounts(r.details) == spend)
  {
    var r0 := if bonus > 0.0 then Run(MilesValue(bonus, BonusRate, milesRate), [MilesLine("fcy", bonus, BonusRate, milesRate)], 0.0)
              else Run(0.0, [], 0.0);
    if bonus > 0.0 {
      AppendLine([], MilesLine("fcy", bonus, BonusRate, milesRate), BonusRate);
      assert [] + [MilesLine("fcy", bonus, BonusRate, milesRate)] == r0.details;
    }
    if spend - bonus > 0.0 {
      AppendLine(r0.details, MilesLine("fcy", spend - bonus, base, milesRate), BonusRate);
    }
  }

  /** The reward is the sum of the breakdown, and with no negative spend and no
      negative cap the lines account for both buckets and every other category not
      named 'total'. */
  lemma VisaRewardsSums(d: SpendDict, milesRate: real, tier: PolicyTier)
    ensures var r := VisaRewards(d, milesRate, tier);
            r.reward == SumRewards(r.details)
    ensures NonNegativeAmounts(d) && VisaCap(tier) >= 0.0 ==>
              SumAmounts(VisaRewards(d, milesRate, tier).details)
              == SumGets(d, FcyGroup) + SumGets(d, NonFcyGroup) + OtherSpend(d, FcyGroup + NonFcyGroup)
  {
    var base := VisaBase(tier);
    var fcySpend := SumGets(d, FcyGroup);
    var nonFcySpend := SumGets(d, NonFcyGroup);
    var fcyBonus := BucketBonus(fcySpend, VisaMinSpend(tier), VisaCap(tier));
    var nonFcyBonus := BucketBonus(nonFcySpend, VisaMinSpend(tier), VisaCap(tier));
    var fcy := FcyRun(fcySpend, fcyBonus, base, milesRate);
    var nonFcy := BonusCats(d, NonFcyGroup, nonFcyBonus, base, milesRate);
    var other := OtherCats(d, FcyGroup + NonFcyGroup, base, milesRate);
    FcyRunFacts(fcySpend, fcyBonus, base, milesRate);
    BonusCatsSound(d, NonFcyGroup, nonFcyBonus, base, milesRate);
    OtherCatsFacts(d, FcyGroup + NonFcyGroup, base, milesRate);
    SumRewardsAppend(fcy.details, nonFcy.details);
    SumRewardsAppend(fcy.details + nonFcy.details, other.details);
    SumAmountsAppend(fcy.details, nonFcy.details);
    SumAmountsAppend(fcy.details + nonFcy.details, other.details);
    if NonNegativeAmounts(d) && VisaCap(tier) >= 0.0 {
      SumGetsNonNegative(d, FcyGroup);
      SumGetsNonNegative(d, NonFcyGroup);
      BonusCatsAmounts(d, NonFcyGroup, nonFcyBonus, base, milesRate);
    }
  }

  /** The two buckets are paid independently: the amount at 4 mpd is the FCY bucket's
      bonus plus what the non-FCY categories drew from their own bucket's bonus, and
      neither draws more than its bucket's bonus, which is nothing below the minimum
      spend and never more than the cap. */
  lemma VisaRewardsBonus(d: SpendDict, milesRate: real, tier: PolicyTier)
    requires VisaBase(tier) != BonusRate
    ensures var fcyBonus := BucketBonus(SumGets(d, FcyGroup), VisaMinSpend(tier), VisaCap(tier));
            var nonFcyBonus := BucketBonus(SumGets(d, NonFcyGroup), VisaMinSpend(tier), VisaCap(tier));
            var nonFcyUsed := AmountAtRate(BonusCats(d, NonFcyGroup, nonFcyBonus, VisaBase(tier), milesRate).details, BonusRate);
            && AmountAtRate(VisaRewards(d, milesRate, tier).details, BonusRate) == Max(0.0, fcyBonus) + nonFcyUsed
            && 0.0 <= nonFcyUsed <= Max(0.0, nonFcyBonus)
  {
    var base := VisaBase(tier);
    var fcySpend := SumGets(d, FcyGroup);
    var nonFcySpend := SumGets(d, NonFcyGroup);
    var fcyBonus := BucketBonus(fcySpend, VisaMinSpend(tier), VisaCap(tier));
    var nonFcyBonus := BucketBonus(nonFcySpend, VisaMinSpend(tier), VisaCap(tier));
    var fcy := FcyRun(fcySpend, fcyBonus, base, milesRate);
    var nonFcy := BonusCats(d, NonFcyGroup, nonFcyBonus, base, milesRate);
    var other := OtherCats(d, FcyGroup + NonFcyGroup, base, milesRate);
    FcyRunFacts(fcySpend, fcyBonus, base, milesRate);
    BonusCatsLeft(d, NonFcyGroup, nonFcyBonus, base, milesRate);
    OtherCatsAtBase(d, FcyGroup + NonFcyGroup, base, milesRate);
    AmountAtOtherRate(other.details, base, BonusRate);
    AmountAtRateAppend(fcy.details, nonFcy.details, BonusRate);
    AmountAtRateAppend(fcy.details + nonFcy.details, other.details, BonusRate);
  }
}
