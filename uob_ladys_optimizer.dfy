/** The UOB Lady's optimiser of the service layer: it picks the one category that earns
    4 miles per dollar (every other category earns 0.4), for the card alone or beside
    a second card, and computes the card's result with that choice, each category's
    spend capped at $1000 on its own. */
module UobLadysOptimizer {
  import opened Common
  import opened CardModel
  import opened PolicyTypes
  import CardLoader
  import RewardsCalculator

  /** The categories that can be selected, in the order they are scanned. */
  const Eligible: seq<string> := ["Dining", "Transport", "Entertainment", "Retail", "Travel"]

  const SelectedRate: real := 4.0
  const OtherRate: real := 0.4
  const SpendCap: real := 1000.0

  /** `getattr(spending, category.lower(), 0.0)`. */
  function CatSpend(s: UserSpending, cat: string): real {
    Attr(s, Lower(cat))
  }

  /** The spending as the scans read it, one category at a time; the scans, and what
      is proved about them, take any such lookup. */
  function SpendOf(s: UserSpending): string -> real {
    cat => CatSpend(s, cat)
  }

  /** A category and the amount the scan keeps for it. */
  datatype Pick = Pick(category: string, amount: real)

  // ---------------------------------------------------------------------
  // find_largest_eligible_category

  /** The scan after `cats`: a category replaces the one kept only when its spend is
      strictly larger, starting from ('Other', 0.0). */
  function LargestOf(spend: string -> real, cats: seq<string>): Pick {
    if cats == [] then Pick("Other", 0.0)
    else
      var p := LargestOf(spend, cats[..|cats| - 1]);
      var c := cats[|cats| - 1];
      if spend(c) > p.amount then Pick(c, spend(c)) else p
  }

  function Largest(spend: string -> real): Pick {
    LargestOf(spend, Eligible)
  }

  method FindLargestEligibleCategory(spend: string -> real) returns (largestCategory: string, largestSpending: real)
    ensures Pick(largestCategory, largestSpending) == Largest(spend)
  {
    largestCategory, largestSpending := "Other", 0.0;
    var i := 0;
    while i < |Eligible|
      invariant 0 <= i <= |Eligible|
      invariant Pick(largestCategory, largestSpending) == LargestOf(spend, Eligible[..i])
    {
      assert Eligible[..i + 1][..i] == Eligible[..i];
      var categorySpending := spend(Eligible[i]);
      if categorySpending > largestSpending {
        largestSpending := categorySpending;
        largestCategory := Eligible[i];
      }
      i := i + 1;
    }
    assert Eligible[..i] == Eligible;
  }

  /** The kept amount is never negative and no scanned category spends more; a positive
      amount belongs to the first scanned category that spends exactly that much, and
      a zero amount leaves 'Other' in place. */
  lemma {:induction false} LargestOfFacts(spend: string -> real, cats: seq<string>)
    ensures var p := LargestOf(spend, cats);
            && p.amount >= 0.0
            && (forall k :: 0 <= k < |cats| ==> spend(cats[k]) <= p.amount)
            && (p.amount == 0.0 ==> p.category == "Other")
            && (p.amount > 0.0 ==> exists i :: 0 <= i < |cats| && cats[i] == p.category && spend(cats[i]) == p.amount
                                             && forall j :: 0 <= j < i ==> spend(cats[j]) < p.amount)
    decreases |cats|
  {
    if cats != [] {
      var n := |cats| - 1;
      LargestOfFacts(spend, cats[..n]);
      var p := LargestOf(spend, cats[..n]);
      assert forall k :: 0 <= k < n ==> cats[k] == cats[..n][k];
      if spend(cats[n]) > p.amount {
        assert forall j :: 0 <= j < n ==> spend(cats[j]) < spend(cats[n]);
      } else if p.amount > 0.0 {
        var i :| 0 <= i < n && cats[..n][i] == p.category && spend(cats[..n][i]) == p.amount
                 && forall j :: 0 <= j < i ==> spend(cats[..n][j]) < p.amount;
        assert cats[i] == p.category && spend(cats[i]) == p.amount;
      }
    }
  }

  /** `find_largest_eligible_category`: the kept category is one of the five eligible
      ones exactly when its spend is positive, and 'Other' exactly when it is zero. */
  lemma LargestFacts(spend: string -> real)
    ensures var p := Largest(spend);
            && p.amount >= 0.0
            && (p.amount == 0.0 <==> p.category == "Other")
            && (p.amount > 0.0 <==> p.category in Eligible)
  {
    LargestOfFacts(spend, Eligible);
  }

  // ---------------------------------------------------------------------
  // find_optimal_category_for_single_card

  /** The fallback scan: a category with positive spend replaces the one kept when its
      4 mpd value is strictly larger, starting from ('Other', 0.0). */
  function FallbackOf(spend: string -> real, milesRate: real, cats: seq<string>): Pick {
    if cats == [] then Pick("Other", 0.0)
    else
      var p := FallbackOf(spend, milesRate, cats[..|cats| - 1]);
      var c := cats[|cats| - 1];
      var v := MilesValue(spend(c), SelectedRate, milesRate);
      if spend(c) > 0.0 && v > p.amount then Pick(c, v) else p
  }

  /** `find_optimal_category_for_single_card`. */
  function SingleCard(spend: string -> real, milesRate: real): string {
    var p := Largest(spend);
    if p.amount > 0.0 then p.category else FallbackOf(spend, milesRate, Eligible).category
  }

  method FindOptimalCategoryForSingleCard(spend: string -> real, milesRate: real) returns (category: string)
    ensures category == SingleCard(spend, milesRate)
  {
    var largestCategory, largestSpending := FindLargestEligibleCategory(spend);
    if largestSpending > 0.0 {
      return largestCategory;
    }
    var bestCategory, bestReward := "Other", 0.0;
    var i := 0;
    while i < |Eligible|
      invariant 0 <= i <= |Eligible|
      invariant Pick(bestCategory, bestReward) == FallbackOf(spend, milesRate, Eligible[..i])
    {
      assert Eligible[..i + 1][..i] == Eligible[..i];
      var categorySpending := spend(Eligible[i]);
      if categorySpending > 0.0 {
        var potentialReward := MilesValue(categorySpending, SelectedRate, milesRate);
        if potentialReward > bestReward {
          bestReward := potentialReward;
          bestCategory := Eligible[i];
        }
      }
      i := i + 1;
    }
    assert Eligible[..i] == Eligible;
    category := bestCategory;
  }

  /** With no positive spend among the scanned categories the fallback keeps 'Other'. */
  lemma {:induction false} FallbackNone(spend: string -> real, milesRate: real, cats: seq<string>)
    requires forall k :: 0 <= k < |cats| ==> spend(cats[k]) <= 0.0
    ensures FallbackOf(spend, milesRate, cats) == Pick("Other", 0.0)
    decreases |cats|
  {
    if cats != [] {
      var n := |cats| - 1;
      assert forall k :: 0 <= k < n ==> cats[..n][k] == cats[k];
      FallbackNone(spend, milesRate, cats[..n]);
    }
  }

  /** The fallback never changes the answer: the single-card choice is always the
      largest eligible category, 'Other' when none of the five has positive spend. */
  lemma SingleCardIsLargest(spend: string -> real, milesRate: real)
    ensures SingleCard(spend, milesRate) == Largest(spend).category
    ensures SingleCard(spend, milesRate) in Eligible || SingleCard(spend, milesRate) == "Other"
  {
    LargestFacts(spend);
    LargestOfFacts(spend, Eligible);
    if Largest(spend).amount <= 0.0 {
      FallbackNone(spend, milesRate, Eligible);
    }
  }

  // ---------------------------------------------------------------------
  // find_optimal_category_with_other_card

  /** 80% of the Lady's value: below this the other card does not cover a category well. */
  function WellCovered(value: real): real {
    value * 0.8
  }

  /** The scan for a better category: one with positive spend that the other card does
      not cover well replaces the one kept when its 4 mpd value is strictly larger. */
  function BetterOf(other: SpendDict, spend: string -> real, milesRate: real, cats: seq<string>, start: Pick): Pick {
    if cats == [] then start
    else
      var p := BetterOf(other, spend, milesRate, cats[..|cats| - 1], start);
      var c := cats[|cats| - 1];
      var v := MilesValue(spend(c), SelectedRate, milesRate);
      if spend(c) > 0.0 && Get(other, c) < WellCovered(v) && v > p.amount then Pick(c, v) else p
  }

  /** `find_optimal_category_with_other_card`, given the other card's rewards by category
      (the `category_rewards` of its detailed breakdown). */
  function WithOtherCard(other: SpendDict, spend: string -> real, milesRate: real): string {
    var p := Largest(spend);
    if p.amount == 0.0 then SingleCard(spend, milesRate)
    else
      var uob := MilesValue(p.amount, SelectedRate, milesRate);
      if Get(other, p.category) < WellCovered(uob) then p.category
      else BetterOf(other, spend, milesRate, Eligible, Pick(p.category, uob)).category
  }

  method FindOptimalCategoryWithOtherCard(other: SpendDict, spend: string -> real, milesRate: real)
    returns (category: string)
    ensures category == WithOtherCard(other, spend, milesRate)
  {
    var largestCategory, largestSpending := FindLargestEligibleCategory(spend);
    if largestSpending == 0.0 {
      category := FindOptimalCategoryForSingleCard(spend, milesRate);
      return;
    }
    var uobPotentialReward := MilesValue(largestSpending, SelectedRate, milesRate);
    if Get(other, largestCategory) < WellCovered(uobPotentialReward) {
      return largestCategory;
    }
    var bestCategory, bestValue := largestCategory, uobPotentialReward;
    var i := 0;
    while i < |Eligible|
      invariant 0 <= i <= |Eligible|
      invariant Pick(bestCategory, bestValue) == BetterOf(other, spend, milesRate, Eligible[..i], Pick(largestCategory, uobPotentialReward))
    {
      assert Eligible[..i + 1][..i] == Eligible[..i];
      var categorySpending := spend(Eligible[i]);
      if categorySpending > 0.0 {
        var otherCardRate := Get(other, Eligible[i]);
        var potentialReward := MilesValue(categorySpending, SelectedRate, milesRate);
        if otherCardRate < WellCovered(potentialReward) && potentialReward > bestValue {
          bestValue := potentialReward;
          bestCategory := Eligible[i];
        }
      }
      i := i + 1;
    }
    assert Eligible[..i] == Eligible;
    category := bestCategory;
  }

  lemma MilesValueMonotone(a: real, b: real, rate: real, milesRate: real)
    requires a <= b && rate >= 0.0 && milesRate >= 0.0
    ensures MilesValue(a, rate, milesRate) <= MilesValue(b, rate, milesRate)
  {
    assert a * rate <= b * rate;
    assert (a * rate) * milesRate <= (b * rate) * milesRate;
  }

  /** No category whose 4 mpd value is at most the kept one can replace it. */
  lemma {:induction false} BetterOfKeeps(other: SpendDict, spend: string -> real, milesRate: real, cats: seq<string>, start: Pick)
    requires forall k :: 0 <= k < |cats| ==> MilesValue(spend(cats[k]), SelectedRate, milesRate) <= start.amount
    ensures BetterOf(other, spend, milesRate, cats, start) == start
    decreases |cats|
  {
    if cats != [] {
      var n := |cats| - 1;
      assert forall k :: 0 <= k < n ==> cats[..n][k] == cats[k];
      BetterOfKeeps(other, spend, milesRate, cats[..n], start);
    }
  }

  /** With a non-negative miles rate the other card never changes the choice: the
      answer is the largest eligible category whatever the other card earns, because
      no category can strictly beat the 4 mpd value of the largest one. */
  lemma WithOtherCardIsLargest(other: SpendDict, spend: string -> real, milesRate: real)
    requires milesRate >= 0.0
    ensures WithOtherCard(other, spend, milesRate) == Largest(spend).category
  {
    var p := Largest(spend);
    LargestOfFacts(spend, Eligible);
    if p.amount == 0.0 {
      SingleCardIsLargest(spend, milesRate);
    } else {
      forall k | 0 <= k < |Eligible|
        ensures MilesValue(spend(Eligible[k]), SelectedRate, milesRate) <= MilesValue(p.amount, SelectedRate, milesRate)
      {
        MilesValueMonotone(spend(Eligible[k]), p.amount, SelectedRate, milesRate);
      }
      BetterOfKeeps(other, spend, milesRate, Eligible, Pick(p.category, MilesValue(p.amount, SelectedRate, milesRate)));
    }
  }

  /** With no eligible spend the other card is not consulted at all. */
  lemma WithOtherCardDelegates(other: SpendDict, spend: string -> real, milesRate: real)
    requires Largest(spend).amount == 0.0
    ensures WithOtherCard(other, spend, milesRate) == SingleCard(spend, milesRate) == "Other"
  {
    SingleCardIsLargest(spend, milesRate);
    LargestFacts(spend);
  }

  // ---------------------------------------------------------------------
  // calculate_uob_ladys_rewards

  /** 4 mpd for the selected category, 0.4 mpd for every other. */
  function LadyRate(cat: string, selected: string): (r: real)
    ensures r == SelectedRate <==> cat == selected
  {
    if cat == selected then SelectedRate else OtherRate
  }

  /** What the loop has accumulated. */
  datatype LadyTally = LadyTally(total: real, original: real, reached: bool, difference: real, details: seq<Detail>)

  /** The line of a category: its whole spend and rate, and the reward on the spend
      up to the cap. */
  function LadyLine(cat: string, spend: real, selected: string, milesRate: real): Detail {
    Line(cat, spend, LadyRate(cat, selected), MilesValue(Min(spend, SpendCap), LadyRate(cat, selected), milesRate))
  }

  /** One category of the loop: nothing for no spend; otherwise its capped reward, its
      uncapped reward, and the cap status when the spend passes the cap. */
  function AddCategory(t: LadyTally, cat: string, spend: string -> real, selected: string, milesRate: real): LadyTally {
    var v := spend(cat);
    if v > 0.0 then
      var line := LadyLine(cat, v, selected, milesRate);
      LadyTally(t.total + line.reward, t.original + MilesValue(v, LadyRate(cat, selected), milesRate),
                t.reached || v > SpendCap, if v > SpendCap then v - SpendCap else t.difference,
                t.details + [line])
    else t
  }

  /** The loop over the card's categories. */
  function LadyLines(cats: seq<string>, spend: string -> real, selected: string, milesRate: real): LadyTally {
    if cats == [] then LadyTally(0.0, 0.0, false, 0.0, [])
    else AddCategory(LadyLines(cats[..|cats| - 1], spend, selected, milesRate), cats[|cats| - 1], spend, selected, milesRate)
  }

  /** The category the result is for: the one given, or the single-card choice. */
  function Selection(selected: Option<string>, spend: string -> real, milesRate: real): string {
    if selected.Some? then selected.value else SingleCard(spend, milesRate)
  }

  /** The result once the tier is known. */
  function SelectedResult(cardName: string, tier: CardTier, cats: seq<string>, spend: string -> real, selected: string,
                          milesRate: real): RewardCalculation
  {
    var t := LadyLines(cats, spend, selected, milesRate);
    RewardCalculation(cardName, tier.description + " (Selected: " + selected + ")", t.total, t.reached,
                      if t.reached then Some(t.difference) else None, t.original, true, t.details)
  }

  /** `calculate_uob_ladys_rewards`, as a function of the catalog and the spending. */
  function LadysRewards(c: CardLoader.Catalog, cardId: int, s: UserSpending, milesRate: real, selected: Option<string>)
    : (r: Result<RewardCalculation>)
    ensures CardLoader.FirstRow(c.cards, cardId).None? ==> r.Err?
    ensures r.Ok? && CardLoader.GetBestTierForSpending(c, cardId, Total(s)).None? ==>
              r.value.monthlyReward == 0.0 && !r.value.minSpendMet && !r.value.capReached
    ensures r.Ok? && CardLoader.GetBestTierForSpending(c, cardId, Total(s)).Some? ==>
              && r.value.minSpendMet
              && r.value.details == LadyLines(CardLoader.CategoriesOf(c.categories, cardId), SpendOf(s),
                                              Selection(selected, SpendOf(s), milesRate), milesRate).details
  {
    match CardLoader.GetCardInfo(c.cards, cardId)
    case Err(e) => Err(e)
    case Ok(None) => Err("Card not found")
    case Ok(Some(card)) =>
      match CardLoader.GetBestTierForSpending(c, cardId, Total(s))
      case None => Ok(RewardsCalculator.NoTier(card.name))
      case Some(tier) =>
        Ok(SelectedResult(card.name, tier, CardLoader.CategoriesOf(c.categories, cardId), SpendOf(s),
                          Selection(selected, SpendOf(s), milesRate), milesRate))
  }

  method LadyLoop(cats: seq<string>, spend: string -> real, selected: string, milesRate: real) returns (t: LadyTally)
    ensures t == LadyLines(cats, spend, selected, milesRate)
  {
    var totalReward, originalReward := 0.0, 0.0;
    var reached, difference := false, 0.0;
    var details: seq<Detail> := [];
    var i := 0;
    while i < |cats|
      invariant 0 <= i <= |cats|
      invariant LadyTally(totalReward, originalReward, reached, difference, details)
             == LadyLines(cats[..i], spend, selected, milesRate)
    {
      assert cats[..i + 1][..i] == cats[..i];
      var category := cats[i];
      var categorySpending := spend(category);
      if categorySpending > 0.0 {
        var rateValue := if category == selected then SelectedRate else OtherRate;
        var reward := MilesValue(categorySpending, rateValue, milesRate);
        originalReward := originalReward + reward;
        if categorySpending > SpendCap {
          reward := MilesValue(SpendCap, rateValue, milesRate);
          reached := true;
          difference := categorySpending - SpendCap;
        }
        totalReward := totalReward + reward;
        details := details + [Line(category, categorySpending, rateValue, reward)];
      }
      i := i + 1;
    }
    assert cats[..i] == cats;
    t := LadyTally(totalReward, originalReward, reached, difference, details);
  }

  method CalculateUobLadysRewards(c: CardLoader.Catalog, cardId: int, s: UserSpending, milesRate: real,
                                  selected: Option<string>)
    returns (r: Result<RewardCalculation>)
    ensures r == LadysRewards(c, cardId, s, milesRate, selected)
  {
    var info := CardLoader.GetCardInfo(c.cards, cardId);
    if info.Err? {
      return Err(info.error);
    }
    if info.value.None? {
      return Err("Card not found");
    }
    var card := info.value.value;
    var bestTier := CardLoader.GetBestTierForSpending(c, cardId, Total(s));
    if bestTier.None? {
      return Ok(RewardsCalculator.NoTier(card.name));
    }
    var selectedCategory: string;
    if selected.None? {
      selectedCategory := FindOptimalCategoryForSingleCard(SpendOf(s), milesRate);
    } else {
      selectedCategory := selected.value;
    }
    var cats := CardLoader.CategoriesOf(c.categories, cardId);
    var t := LadyLoop(cats, SpendOf(s), selectedCategory, milesRate);
    r := Ok(RewardCalculation(card.name, bestTier.value.description + " (Selected: " + selectedCategory + ")",
                              t.total, t.reached, if t.reached then Some(t.difference) else None,
                              t.original, true, t.details));
  }

  // ---------------------------------------------------------------------
  // What the result promises

  /** The categories with positive spend, in the card's order. */
  function Spent(cats: seq<string>, spend: string -> real): (r: seq<string>)
    ensures |r| <= |cats|
  {
    if cats == [] then []
    else Spent(cats[..|cats| - 1], spend) + (if spend(cats[|cats| - 1]) > 0.0 then [cats[|cats| - 1]] else [])
  }

  /** One line per category with positive spend, in order, each at the category's rate
      for its whole spend and paying on the spend up to $1000; the reward is the sum of
      the lines. */
  lemma {:induction false} LadyLinesShape(cats: seq<string>, spend: string -> real, selected: string, milesRate: real)
    ensures var t := LadyLines(cats, spend, selected, milesRate);
            var sp := Spent(cats, spend);
            && |t.details| == |sp|
            && (forall k :: 0 <= k < |sp| ==>
                  spend(sp[k]) > 0.0 && t.details[k] == LadyLine(sp[k], spend(sp[k]), selected, milesRate))
            && t.total == SumRewards(t.details)
    decreases |cats|
  {
    if cats != [] {
      var n := |cats| - 1;
      var init := cats[..n];
      LadyLinesShape(init, spend, selected, milesRate);
      var t := LadyLines(init, spend, selected, milesRate);
      var u := LadyLines(cats, spend, selected, milesRate);
      var spInit := Spent(init, spend);
      var sp := Spent(cats, spend);
      AddCategoryLines(t, cats[n], spend, selected, milesRate);
      assert u == AddCategory(t, cats[n], spend, selected, milesRate);
      var v := spend(cats[n]);
      if v > 0.0 {
        var line := LadyLine(cats[n], v, selected, milesRate);
        assert sp == spInit + [cats[n]];
        assert u.details == t.details + [line];
        AppendLine(t.details, line, 0.0);
        forall k | 0 <= k < |sp|
          ensures spend(sp[k]) > 0.0 && u.details[k] == LadyLine(sp[k], spend(sp[k]), selected, milesRate)
        {
          if k < |spInit| {
            assert sp[k] == spInit[k] && u.details[k] == t.details[k];
          }
        }
      } else {
        assert sp == spInit && u == t;
      }
    }
  }

  /** The lines after one category: a line at its rate when it has spend, and the
      reward grows by that line's reward. */
  lemma AddCategoryLines(t: LadyTally, cat: string, spend: string -> real, selected: string, milesRate: real)
    ensures var u := AddCategory(t, cat, spend, selected, milesRate);
            var line := LadyLine(cat, spend(cat), selected, milesRate);
            && u.details == t.details + (if spend(cat) > 0.0 then [line] else [])
            && u.total == t.total + (if spend(cat) > 0.0 then line.reward else 0.0)
  {
  }

  /** The cap status: reached exactly when some category spends more than $1000, and
      the difference is the excess of the last such category in the card's order. */
  lemma {:induction false} LadyLinesCap(cats: seq<string>, spend: string -> real, selected: string, milesRate: real)
    ensures var t := LadyLines(cats, spend, selected, milesRate);
            && (t.reached <==> exists k :: 0 <= k < |cats| && spend(cats[k]) > SpendCap)
            && (t.reached ==> exists j :: 0 <= j < |cats| && spend(cats[j]) > SpendCap
                                        && t.difference == spend(cats[j]) - SpendCap
                                        && forall k :: j < k < |cats| ==> spend(cats[k]) <= SpendCap)
    decreases |cats|
  {
    if cats != [] {
      var n := |cats| - 1;
      var init := cats[..n];
      LadyLinesCap(init, spend, selected, milesRate);
      var t := LadyLines(init, spend, selected, milesRate);
      var u := LadyLines(cats, spend, selected, milesRate);
      AddCategoryStatus(t, cats[n], spend, selected, milesRate);
      assert u == AddCategory(t, cats[n], spend, selected, milesRate);
      if spend(cats[n]) > SpendCap {
        assert u.reached && u.difference == spend(cats[n]) - SpendCap;
      } else {
        assert u.reached == t.reached && u.difference == t.difference;
        if t.reached {
          var j :| 0 <= j < n && spend(init[j]) > SpendCap
                   && t.difference == spend(init[j]) - SpendCap
                   && forall k :: j < k < n ==> spend(init[k]) <= SpendCap;
          assert init[j] == cats[j];
          assert forall k :: j < k < |cats| ==> spend(cats[k]) <= SpendCap by {
            forall k | j < k < |cats| ensures spend(cats[k]) <= SpendCap {
              if k < n {
                assert init[k] == cats[k];
              }
            }
          }
        } else {
          forall k | 0 <= k < |cats| ensures spend(cats[k]) <= SpendCap {
            if k < n {
              assert init[k] == cats[k];
            }
          }
        }
      }
    }
  }

  /** The cap status after one category: reached once a spend passes the cap, and the
      difference is that spend's excess. */
  lemma AddCategoryStatus(t: LadyTally, cat: string, spend: string -> real, selected: string, milesRate: real)
    ensures var u := AddCategory(t, cat, spend, selected, milesRate);
            && u.reached == (t.reached || spend(cat) > SpendCap)
            && u.difference == (if spend(cat) > SpendCap then spend(cat) - SpendCap else t.difference)
  {
  }

  /** The uncapped reward bounds the capped one when miles are worth something. */
  lemma {:induction false} LadyLinesOriginal(cats: seq<string>, spend: string -> real, selected: string, milesRate: real)
    requires milesRate >= 0.0
    ensures var t := LadyLines(cats, spend, selected, milesRate);
            0.0 <= t.total <= t.original
    decreases |cats|
  {
    if cats != [] {
      var n := |cats| - 1;
      LadyLinesOriginal(cats[..n], spend, selected, milesRate);
      var v := spend(cats[n]);
      if v > 0.0 {
        var rate := LadyRate(cats[n], selected);
        MilesValueMonotone(0.0, Min(v, SpendCap), rate, milesRate);
        MilesValueMonotone(Min(v, SpendCap), v, rate, milesRate);
      }
    }
  }

  /** With a tier: the selected category earns 4 mpd and every other category with
      spend 0.4 mpd, on at most $1000 each; the reward is the sum of the lines, never
      more than the uncapped reward, a cap difference is reported exactly when the cap
      is reached, and the minimum spend counts as met. */
  lemma SelectedResultFacts(cardName: string, tier: CardTier, cats: seq<string>, spend: string -> real,
                            selected: string, milesRate: real)
    requires milesRate >= 0.0
    ensures var r := SelectedResult(cardName, tier, cats, spend, selected, milesRate);
            && r.minSpendMet
            && r.monthlyReward == SumRewards(r.details)
            && 0.0 <= r.monthlyReward <= r.originalReward
            && (r.capDifference.Some? <==> r.capReached)
            && forall k :: 0 <= k < |r.details| ==>
                 && r.details[k].Line?
                 && r.details[k].spend > 0.0
                 && (r.details[k].rate == SelectedRate <==> r.details[k].category == selected)
                 && r.details[k].reward == MilesValue(Min(r.details[k].spend, SpendCap), r.details[k].rate, milesRate)
  {
    LadyLinesShape(cats, spend, selected, milesRate);
    LadyLinesOriginal(cats, spend, selected, milesRate);
  }

  /** Without a given category the result is for the largest eligible category. */
  lemma LadysRewardsSelection(spend: string -> real, milesRate: real)
    ensures Selection(None, spend, milesRate) == Largest(spend).category
  {
    SingleCardIsLargest(spend, milesRate);
  }
}
