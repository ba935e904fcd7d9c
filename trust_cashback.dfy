/** The Trust Cashback policy: once the month's spend reaches the tier's minimum, the
    categories the tier lists earn the high cashback rate and every other category 1%;
    below the minimum every category earns 1%. The shared copy in
    `components/card_calculation_utils.py` differs only in comments and line breaks. */
module TrustCashback {
  import opened Common
  import opened CardModel
  import opened PolicyTypes

  const BaseCashback: real := 1.0
  const DefaultHighRate: real := 5.0

  /** The first rate above 1% in the tier's table, in its order. */
  function FirstAbove(rates: SpendDict): (r: Option<real>)
    ensures r.None? <==> forall i :: 0 <= i < |rates| ==> rates[i].amount <= BaseCashback
    ensures r.Some? ==> exists i :: 0 <= i < |rates| && r.value == rates[i].amount && rates[i].amount > BaseCashback
                                    && forall j :: 0 <= j < i ==> rates[j].amount <= BaseCashback
  {
    if rates == [] then None
    else if rates[0].amount > BaseCashback then Some(rates[0].amount)
    else
      var r := FirstAbove(rates[1..]);
      assert forall i :: 1 <= i < |rates| ==> rates[i] == rates[1..][i - 1];
      r
  }

  /** `high_rate`. */
  function HighRate(tier: PolicyTier): real {
    OrElse(FirstAbove(tier.rewardRates), DefaultHighRate)
  }

  /** `total_spend`: every amount except the 'total' key. */
  function NonTotalSpend(d: SpendDict): real {
    if d == [] then 0.0
    else NonTotalSpend(d[..|d| - 1]) + (if d[|d| - 1].key == "total" then 0.0 else d[|d| - 1].amount)
  }

  /** `min_spend_met`: the tier sets no minimum, or the spend outside 'total' reaches it. */
  function MinSpendMet(d: SpendDict, tier: PolicyTier): (met: bool)
    ensures met <==> tier.minSpend.None? || NonTotalSpend(d) >= tier.minSpend.value
  {
    tier.minSpend.None? || NonTotalSpend(d) >= Truthy(tier.minSpend, 0.0)
  }

  /** The entries the loop lists: every key but 'total', in dict order. */
  function NonTotal(d: SpendDict): seq<Entry> {
    if d == [] then []
    else NonTotal(d[..|d| - 1]) + (if d[|d| - 1].key == "total" then [] else [d[|d| - 1]])
  }

  /** The rate of a category: the high rate for a listed category once the minimum is
      met, 1% otherwise. */
  function CatRate(met: bool, tier: PolicyTier, high: real, cat: string): real {
    if met && HasKey(tier.rewardRates, cat) then high else BaseCashback
  }

  /** A cashback line: `amount * rate / 100`. */
  function CashLine(cat: string, amount: real, rate: real): Detail {
    Line(cat, amount, rate, amount * (rate / 100.0))
  }

  /** The loop over the spending dict. */
  function TrustLines(d: SpendDict, met: bool, tier: PolicyTier, high: real): Run {
    if d == [] then Run(0.0, [], 0.0)
    else
      var r := TrustLines(d[..|d| - 1], met, tier, high);
      var e := d[|d| - 1];
      if e.key == "total" then r
      else
        var line := CashLine(e.key, e.amount, CatRate(met, tier, high, e.key));
        Run(r.reward + line.reward, r.details + [line], 0.0)
  }

  /** `calculate_trust_cashback_rewards`. */
  function TrustRewards(d: SpendDict, tier: PolicyTier): Run {
    TrustLines(d, MinSpendMet(d, tier), tier, HighRate(tier))
  }

  /** The search for the high rate, stopping at the first rate above 1%. */
  method FindHighRate(tier: PolicyTier) returns (high: real)
    ensures high == HighRate(tier)
  {
    var rates := tier.rewardRates;
    var found := false;
    high := 0.0;
    var i := 0;
    while i < |rates| && !found
      invariant 0 <= i <= |rates|
      invariant !found ==> FirstAbove(rates) == FirstAbove(rates[i..])
      invariant found ==> FirstAbove(rates) == Some(high)
    {
      assert rates[i..][1..] == rates[i + 1..];
      if rates[i].amount > BaseCashback {
        high := rates[i].amount;
        found := true;
      }
      i := i + 1;
    }
    if !found {
      high := DefaultHighRate;
    }
  }

  method CalculateTrustCashbackRewards(d: SpendDict, tier: PolicyTier) returns (reward: real, details: seq<Detail>)
    ensures reward == TrustRewards(d, tier).reward
    ensures details == TrustRewards(d, tier).details
  {
    var high := FindHighRate(tier);
    var met := MinSpendMet(d, tier);
    reward, details := 0.0, [];
    var i := 0;
    while i < |d|
      invariant 0 <= i <= |d|
      invariant reward == TrustLines(d[..i], met, tier, high).reward
      invariant details == TrustLines(d[..i], met, tier, high).details
    {
      assert d[..i + 1][..i] == d[..i];
      var cat, amount := d[i].key, d[i].amount;
      if cat != "total" {
        var rate := if met && HasKey(tier.rewardRates, cat) then high else BaseCashback;
        reward := reward + amount * (rate / 100.0);
        details := details + [Line(cat, amount, rate, amount * (rate / 100.0))];
      }
      i := i + 1;
    }
    assert d[..i] == d;
  }

  // ---------------------------------------------------------------------
  // What the breakdown promises

  /** Exactly one line per key other than 'total', zero amounts included, in dict
      order, each for the key's whole amount at the rate `CatRate` gives it; the reward
      is their sum, and their amounts add up to the spend outside 'total'. */
  lemma {:induction false} TrustLinesShape(d: SpendDict, met: bool, tier: PolicyTier, high: real)
    ensures var r := TrustLines(d, met, tier, high);
            var es := NonTotal(d);
            && |r.details| == |es|
            && (forall k :: 0 <= k < |es| ==> r.details[k] == CashLine(es[k].key, es[k].amount, CatRate(met, tier, high, es[k].key)))
            && r.reward == SumRewards(r.details)
            && SumAmounts(r.details) == NonTotalSpend(d)
    decreases |d|
  {
    if d != [] {
      var n := |d| - 1;
      TrustLinesShape(d[..n], met, tier, high);
      var r := TrustLines(d[..n], met, tier, high);
      var e := d[n];
      if e.key != "total" {
        var line := CashLine(e.key, e.amount, CatRate(met, tier, high, e.key));
        AppendLine(r.details, line, 0.0);
      }
    }
  }

  /** The rates of `calculate_trust_cashback_rewards`: once the minimum is met a
      category the tier lists earns the high rate and any other 1%; below the minimum
      every category earns 1%, whatever the tier's base rate. */
  lemma TrustRewardsRates(d: SpendDict, tier: PolicyTier)
    ensures var r := TrustRewards(d, tier);
            var es := NonTotal(d);
            && |r.details| == |es|
            && r.reward == SumRewards(r.details)
            && (forall k :: 0 <= k < |es| ==>
                  r.details[k].Line? && r.details[k].category == es[k].key && r.details[k].spend == es[k].amount
                  && r.details[k].rate == (if MinSpendMet(d, tier) && HasKey(tier.rewardRates, es[k].key) then HighRate(tier) else 1.0))
  {
    TrustLinesShape(d, MinSpendMet(d, tier), tier, HighRate(tier));
  }

  /** No key named 'total' is listed. */
  lemma {:induction false} NonTotalKeys(d: SpendDict)
    ensures forall k :: 0 <= k < |NonTotal(d)| ==> NonTotal(d)[k].key != "total" && NonTotal(d)[k] in d
    decreases |d|
  {
    if d != [] {
      NonTotalKeys(d[..|d| - 1]);
    }
  }
}
