/** The two-card optimiser of the service layer: every unordered pair of the cards on
    offer is scored by splitting the spending between the two cards, one whole category
    at a time, and the pairs that earn something are listed with those holding the UOB
    Lady's card first, each group by descending reward. */
module CombinationOptimizer {
  import opened Common
  import opened CardModel
  import CardLoader
  import RewardsCalculator
  import UobLadysOptimizer
  import Ranking
  import opened Pairs

  /** The catalog id of the UOB Lady's card, the only way the optimiser recognises it. */
  const LadysCardId: int := 15
  const LadysMarker: string := "UOB Lady"
  const MilesRate: real := 0.02
  const Shown: nat := 10

  // ---------------------------------------------------------------------
  // calculate_category_value_for_card

  /** A rate row is for the category, regardless of case. */
  predicate Matches(row: CardLoader.RateRow, category: string) {
    Lower(row.category) == Lower(category)
  }

  /** The position of the first row for the category, `|rows|` when there is none. */
  function CategoryIndex(rows: seq<CardLoader.RateRow>, category: string): (i: nat)
    ensures i <= |rows|
    ensures i < |rows| ==> Matches(rows[i], category)
    ensures forall j :: 0 <= j < i ==> !Matches(rows[j], category)
  {
    if rows == [] || Matches(rows[0], category) then 0
    else
      var i := CategoryIndex(rows[1..], category) + 1;
      assert forall j :: 1 <= j < i ==> rows[j] == rows[1..][j - 1];
      i
  }

  /** The first rate row of the tier, among those above zero, whose category matches
      regardless of case. */
  function CategoryRow(rows: seq<CardLoader.RateRow>, category: string): (r: Option<CardLoader.RateRow>)
    ensures r.None? <==> forall k :: 0 <= k < |rows| ==> !Matches(rows[k], category)
    ensures r.Some? ==> r.value in rows && Matches(r.value, category)
    ensures r.Some? ==> exists i :: 0 <= i < |rows| && rows[i] == r.value
                          && forall j :: 0 <= j < i ==> !Matches(rows[j], category)
  {
    var i := CategoryIndex(rows, category);
    if i < |rows| then Some(rows[i]) else None
  }

  /** The value of a category's spend on a card: 4 or 0.4 miles per dollar for the
      Lady's card with its chosen category, else the first matching positive rate of
      the card's tier for the whole spending, and nothing without a tier or a rate. */
  function CategoryValue(c: CardLoader.Catalog, cardId: int, category: string, spend: real, milesRate: real,
                         isLadys: bool, ladysCategory: Option<string>, total: real): (v: real)
    ensures spend <= 0.0 ==> v == 0.0
    ensures milesRate >= 0.0 ==> v >= 0.0
    ensures spend > 0.0 && isLadys && IsTruthy(ladysCategory) ==>
              v == spend * UobLadysOptimizer.LadyRate(Title(category), ladysCategory.value) * milesRate
    ensures (spend > 0.0 && !(isLadys && IsTruthy(ladysCategory))
             && CardLoader.GetBestTierForSpending(c, cardId, total).None?) ==> v == 0.0
  {
    if spend <= 0.0 then 0.0
    else if isLadys && IsTruthy(ladysCategory) then
      var rate := if Title(category) == ladysCategory.value then 4.0 else 0.4;
      RewardsCalculator.CategoryRewardNonNegative(spend, rate, "mpd", milesRate);
      RewardsCalculator.CategoryReward(spend, rate, "mpd", milesRate)
    else
      match CardLoader.GetBestTierForSpending(c, cardId, total)
      case None => RewardsCalculator.CategoryReward(spend, 0.0, "mpd", milesRate)
      case Some(tier) =>
        match CategoryRow(RewardsCalculator.PositiveRates(CardLoader.RatesOf(c.rates, tier.tierId)), category)
        case None => RewardsCalculator.CategoryReward(spend, 0.0, "mpd", milesRate)
        case Some(row) =>
          RewardsCalculator.CategoryRewardNonNegative(spend, row.rateValue, row.rateType, milesRate);
          RewardsCalculator.CategoryReward(spend, row.rateValue, row.rateType, milesRate)
  }

  /** A row in front that is not for the category does not change the row found. */
  lemma CategoryRowSkip(ps: seq<CardLoader.RateRow>, rest: seq<CardLoader.RateRow>, category: string)
    requires ps == rest || (ps != [] && ps[1..] == rest && !Matches(ps[0], category))
    ensures CategoryRow(ps, category) == CategoryRow(rest, category)
  {
    if ps != rest {
      var k := CategoryIndex(rest, category);
      assert CategoryIndex(ps, category) == k + 1;
      if k < |rest| {
        assert ps[k + 1] == rest[k];
      }
    }
  }

  /** A first row that is not a positive row for the category does not change the row found. */
  lemma PositiveRowSkip(rows: seq<CardLoader.RateRow>, category: string)
    requires rows != [] && !(rows[0].rateValue > 0.0 && Matches(rows[0], category))
    ensures CategoryRow(RewardsCalculator.PositiveRates(rows), category)
         == CategoryRow(RewardsCalculator.PositiveRates(rows[1..]), category)
  {
    var ps := RewardsCalculator.PositiveRates(rows);
    var rest := RewardsCalculator.PositiveRates(rows[1..]);
    assert ps == (if rows[0].rateValue > 0.0 then [rows[0]] else []) + rest;
    if rows[0].rateValue > 0.0 {
      assert ps[0] == rows[0] && ps[1..] == rest;
    }
    CategoryRowSkip(ps, rest, category);
  }

  /** The row `CategoryRow` finds among the positive rows is the first row of the whole
      tier that has a positive rate and the category. */
  lemma {:induction false} FirstPositiveRow(rows: seq<CardLoader.RateRow>, category: string) returns (i: nat)
    requires CategoryRow(RewardsCalculator.PositiveRates(rows), category).Some?
    ensures i < |rows| && rows[i] == CategoryRow(RewardsCalculator.PositiveRates(rows), category).value
    ensures rows[i].rateValue > 0.0 && Matches(rows[i], category)
    ensures forall j :: 0 <= j < i && rows[j].rateValue > 0.0 ==> !Matches(rows[j], category)
  {
    var ps := RewardsCalculator.PositiveRates(rows);
    assert rows != [];
    if rows[0].rateValue > 0.0 && Matches(rows[0], category) {
      assert ps[0] == rows[0];
      i := 0;
    } else {
      PositiveRowSkip(rows, category);
      var i' := FirstPositiveRow(rows[1..], category);
      i := i' + 1;
      assert rows[i] == rows[1..][i'];
      forall j | 0 <= j < i && rows[j].rateValue > 0.0
        ensures !Matches(rows[j], category)
      {
        if j > 0 {
          assert rows[j] == rows[1..][j - 1];
        }
      }
    }
  }

  /** Outside the Lady's case, a category's value on a card is the reward of the first
      row of its best tier that has a positive rate and the category, and nothing when
      the tier has no such row. */
  lemma CategoryValueOfTier(c: CardLoader.Catalog, cardId: int, category: string, spend: real, milesRate: real,
                            isLadys: bool, ladysCategory: Option<string>, total: real,
                            tier: CardTier, rows: seq<CardLoader.RateRow>)
    requires spend > 0.0 && !(isLadys && IsTruthy(ladysCategory))
    requires CardLoader.GetBestTierForSpending(c, cardId, total) == Some(tier)
    requires rows == CardLoader.RatesOf(c.rates, tier.tierId)
    ensures (forall k :: 0 <= k < |rows| && rows[k].rateValue > 0.0 ==> !Matches(rows[k], category)) ==>
              CategoryValue(c, cardId, category, spend, milesRate, isLadys, ladysCategory, total) == 0.0
    ensures forall i :: (0 <= i < |rows| && rows[i].rateValue > 0.0 && Matches(rows[i], category)
                         && forall j :: 0 <= j < i && rows[j].rateValue > 0.0 ==> !Matches(rows[j], category)) ==>
              CategoryValue(c, cardId, category, spend, milesRate, isLadys, ladysCategory, total)
              == RewardsCalculator.CategoryReward(spend, rows[i].rateValue, rows[i].rateType, milesRate)
  {
    var ps := RewardsCalculator.PositiveRates(rows);
    var v := CategoryValue(c, cardId, category, spend, milesRate, isLadys, ladysCategory, total);
    if CategoryRow(ps, category).Some? {
      var i0 := FirstPositiveRow(rows, category);
      assert v == RewardsCalculator.CategoryReward(spend, rows[i0].rateValue, rows[i0].rateType, milesRate);
      forall i | 0 <= i < |rows| && rows[i].rateValue > 0.0 && Matches(rows[i], category)
                 && (forall j :: 0 <= j < i && rows[j].rateValue > 0.0 ==> !Matches(rows[j], category))
        ensures v == RewardsCalculator.CategoryReward(spend, rows[i].rateValue, rows[i].rateType, milesRate)
      {
        assert i == i0;
      }
    } else {
      forall k | 0 <= k < |rows| && rows[k].rateValue > 0.0
        ensures !Matches(rows[k], category)
      {
        assert rows[k] in ps;
      }
    }
  }

  /** With a non-negative conversion rate, more spend in a category is never worth less. */
  lemma CategoryValueMonotone(c: CardLoader.Catalog, cardId: int, category: string, s1: real, s2: real,
                              milesRate: real, isLadys: bool, ladysCategory: Option<string>, total: real)
    requires s1 <= s2 && milesRate >= 0.0
    ensures CategoryValue(c, cardId, category, s1, milesRate, isLadys, ladysCategory, total)
         <= CategoryValue(c, cardId, category, s2, milesRate, isLadys, ladysCategory, total)
  {
    if s1 > 0.0 {
      if isLadys && IsTruthy(ladysCategory) {
        var rate := if Title(category) == ladysCategory.value then 4.0 else 0.4;
        RewardsCalculator.CategoryRewardMonotone(s1, s2, rate, "mpd", milesRate);
      } else {
        match CardLoader.GetBestTierForSpending(c, cardId, total)
        case None =>
        case Some(tier) =>
          match CategoryRow(RewardsCalculator.PositiveRates(CardLoader.RatesOf(c.rates, tier.tierId)), category)
          case None =>
          case Some(row) =>
            RewardsCalculator.CategoryRewardMonotone(s1, s2, row.rateValue, row.rateType, milesRate);
      }
    }
  }

  // ---------------------------------------------------------------------
  // calculate_optimal_spending_allocation

  /** How a card values a category's spend. */
  type Valuer = (string, real) -> real

  /** The two cards' amounts, category by category. */
  datatype Split = Split(card1: seq<real>, card2: seq<real>)

  /** The whole of a positive amount goes to the first card when it values it at least
      as much as the second, otherwise to the second; the other card gets nothing. */
  function Allocate(cats: seq<string>, amounts: seq<real>, value1: Valuer, value2: Valuer): (r: Split)
    requires |cats| == |amounts|
    ensures |r.card1| == |amounts| && |r.card2| == |amounts|
  {
    if cats == [] then Split([], [])
    else
      var n := |cats| - 1;
      var p := Allocate(cats[..n], amounts[..n], value1, value2);
      var v := amounts[n];
      var first := value1(cats[n], v) >= value2(cats[n], v);
      Split(p.card1 + [if v > 0.0 && first then v else 0.0], p.card2 + [if v > 0.0 && !first then v else 0.0])
  }

  /** A spending object from its thirteen amounts. */
  function FromAmounts(a: seq<real>): (s: UserSpending)
    requires |a| == |Categories|
    ensures Amounts(s) == a
  {
    UserSpending(a[0], a[1], a[2], a[3], a[4], a[5], a[6], a[7], a[8], a[9], a[10], a[11], a[12])
  }

  /** The split of the spending and the Lady's category of each card, if it is one. */
  datatype Allocation = Allocation(card1Spending: UserSpending, card2Spending: UserSpending,
                                   ladysCategory1: Option<string>, ladysCategory2: Option<string>)

  /** The Lady's category of a card beside another, given the other card's rewards by
      category (the `category_rewards` of its detailed breakdown). */
  function LadysChoice(isLadys: bool, otherRewards: SpendDict, s: UserSpending, milesRate: real): Option<string> {
    if isLadys then Some(UobLadysOptimizer.WithOtherCard(otherRewards, UobLadysOptimizer.SpendOf(s), milesRate)) else None
  }

  function ValueOn(c: CardLoader.Catalog, cardId: int, milesRate: real, isLadys: bool, ladysCategory: Option<string>,
                   total: real): Valuer
  {
    (cat: string, amt: real) => CategoryValue(c, cardId, cat, amt, milesRate, isLadys, ladysCategory, total)
  }

  /** `calculate_optimal_spending_allocation`; `breakdown` gives a card's rewards by
      category for the same spending. */
  function OptimalAllocation(c: CardLoader.Catalog, card1Id: int, card2Id: int, s: UserSpending, milesRate: real,
                             isLadys1: bool, isLadys2: bool, breakdown: int -> SpendDict): Allocation
  {
    var l1 := LadysChoice(isLadys1, breakdown(card2Id), s, milesRate);
    var l2 := LadysChoice(isLadys2, breakdown(card1Id), s, milesRate);
    var a := Allocate(Categories, Amounts(s), ValueOn(c, card1Id, milesRate, isLadys1, l1, Total(s)),
                      ValueOn(c, card2Id, milesRate, isLadys2, l2, Total(s)));
    Allocation(FromAmounts(a.card1), FromAmounts(a.card2), l1, l2)
  }

  /** The loop over the categories, with the two cards' valuations as parameters. */
  method AllocateCategories(cats: seq<string>, amounts: seq<real>, value1: Valuer, value2: Valuer)
    returns (card1: seq<real>, card2: seq<real>)
    requires |cats| == |amounts|
    ensures Split(card1, card2) == Allocate(cats, amounts, value1, value2)
  {
    card1, card2 := [], [];
    var i := 0;
    while i < |cats|
      invariant 0 <= i <= |cats|
      invariant Split(card1, card2) == Allocate(cats[..i], amounts[..i], value1, value2)
    {
      assert cats[..i + 1][..i] == cats[..i];
      assert amounts[..i + 1][..i] == amounts[..i];
      var category := cats[i];
      var categorySpending := amounts[i];
      var card1Share, card2Share := 0.0, 0.0;
      if categorySpending > 0.0 {
        var card1Value := value1(category, categorySpending);
        var card2Value := value2(category, categorySpending);
        if card1Value >= card2Value {
          card1Share := categorySpending;
        } else {
          card2Share := categorySpending;
        }
      }
      card1, card2 := card1 + [card1Share], card2 + [card2Share];
      i := i + 1;
    }
    assert cats[..i] == cats && amounts[..i] == amounts;
  }

  method CalculateOptimalSpendingAllocation(c: CardLoader.Catalog, card1Id: int, card2Id: int, s: UserSpending,
                                            milesRate: real, isLadys1: bool, isLadys2: bool,
                                            breakdown: int -> SpendDict)
    returns (a: Allocation)
    ensures a == OptimalAllocation(c, card1Id, card2Id, s, milesRate, isLadys1, isLadys2, breakdown)
  {
    var ladys1: Option<string> := None;
    var ladys2: Option<string> := None;
    if isLadys1 {
      var cat := UobLadysOptimizer.FindOptimalCategoryWithOtherCard(breakdown(card2Id), UobLadysOptimizer.SpendOf(s), milesRate);
      ladys1 := Some(cat);
    }
    if isLadys2 {
      var cat := UobLadysOptimizer.FindOptimalCategoryWithOtherCard(breakdown(card1Id), UobLadysOptimizer.SpendOf(s), milesRate);
      ladys2 := Some(cat);
    }
    var value1 := ValueOn(c, card1Id, milesRate, isLadys1, ladys1, Total(s));
    var value2 := ValueOn(c, card2Id, milesRate, isLadys2, ladys2, Total(s));
    var amounts := Amounts(s);
    var card1, card2 := AllocateCategories(Categories, amounts, value1, value2);
    a := Allocation(FromAmounts(card1), FromAmounts(card2), ladys1, ladys2);
  }

  /** The split keeps one entry per category, and every positive amount goes whole to
      exactly one card: the first when it values the category at least as much as the
      second (so ties go to the first), the second otherwise; no card gets anything of
      an amount that is not positive. */
  lemma {:induction false} AllocationShape(cats: seq<string>, amounts: seq<real>, value1: Valuer, value2: Valuer)
    requires |cats| == |amounts|
    ensures var a := Allocate(cats, amounts, value1, value2);
            && |a.card1| == |amounts| && |a.card2| == |amounts|
            && forall k :: 0 <= k < |amounts| ==>
                 if amounts[k] <= 0.0 then a.card1[k] == 0.0 && a.card2[k] == 0.0
                 else if value1(cats[k], amounts[k]) >= value2(cats[k], amounts[k]) then
                   a.card1[k] == amounts[k] && a.card2[k] == 0.0
                 else a.card1[k] == 0.0 && a.card2[k] == amounts[k]
    decreases |cats|
  {
    if cats != [] {
      var n := |cats| - 1;
      AllocationShape(cats[..n], amounts[..n], value1, value2);
      assert forall k :: 0 <= k < n ==> cats[..n][k] == cats[k] && amounts[..n][k] == amounts[k];
    }
  }

  /** Spend is neither lost nor counted twice: for every category the two cards' amounts
      add up to the spend when it is positive and to nothing otherwise, one of the two
      is always zero, and a tie in value goes to the first card. */
  lemma AllocationConserves(c: CardLoader.Catalog, card1Id: int, card2Id: int, s: UserSpending, milesRate: real,
                            isLadys1: bool, isLadys2: bool, breakdown: int -> SpendDict, k: nat)
    requires k < |Categories|
    ensures var a := OptimalAllocation(c, card1Id, card2Id, s, milesRate, isLadys1, isLadys2, breakdown);
            var x1 := Amounts(a.card1Spending)[k];
            var x2 := Amounts(a.card2Spending)[k];
            && x1 + x2 == Max(0.0, Amounts(s)[k])
            && (x1 == 0.0 || x2 == 0.0)
            && (Amounts(s)[k] > 0.0 &&
                CategoryValue(c, card1Id, Categories[k], Amounts(s)[k], milesRate, isLadys1, a.ladysCategory1, Total(s))
                == CategoryValue(c, card2Id, Categories[k], Amounts(s)[k], milesRate, isLadys2, a.ladysCategory2, Total(s))
                ==> x1 == Amounts(s)[k])
  {
    var l1 := LadysChoice(isLadys1, breakdown(card2Id), s, milesRate);
    var l2 := LadysChoice(isLadys2, breakdown(card1Id), s, milesRate);
    AllocationShape(Categories, Amounts(s), ValueOn(c, card1Id, milesRate, isLadys1, l1, Total(s)),
                    ValueOn(c, card2Id, milesRate, isLadys2, l2, Total(s)));
  }

  /** With miles worth something, a Lady's card beside another always takes the largest
      of its five eligible categories, whatever the other card earns. */
  lemma LadysChoiceIsLargest(otherRewards: SpendDict, s: UserSpending, milesRate: real)
    requires milesRate >= 0.0
    ensures LadysChoice(true, otherRewards, s, milesRate)
         == Some(UobLadysOptimizer.Largest(UobLadysOptimizer.SpendOf(s)).category)
  {
    UobLadysOptimizer.WithOtherCardIsLargest(otherRewards, UobLadysOptimizer.SpendOf(s), milesRate);
  }

  // ---------------------------------------------------------------------
  // combine_two_cards_rewards

  /** `calculate_card_rewards_with_allocation`. */
  function CardResult(c: CardLoader.Catalog, cardId: int, share: UserSpending, milesRate: real, isLadys: bool,
                      ladysCategory: Option<string>): Result<RewardCalculation>
  {
    if isLadys then UobLadysOptimizer.LadysRewards(c, cardId, share, milesRate, ladysCategory)
    else RewardsCalculator.CardRewards(c, cardId, share, milesRate)
  }

  /** The position of the last card with the name. */
  function LastByName(cards: seq<CreditCard>, name: string): (r: Option<nat>)
    ensures r.None? <==> forall k :: 0 <= k < |cards| ==> cards[k].name != name
    ensures r.Some? ==> r.value < |cards| && cards[r.value].name == name
                        && forall j :: r.value < j < |cards| ==> cards[j].name != name
  {
    if cards == [] then None
    else
      var n := |cards| - 1;
      if cards[n].name == name then Some(n)
      else
        var r := LastByName(cards[..n], name);
        assert forall k :: 0 <= k < n ==> cards[..n][k] == cards[k];
        r
  }

  /** The id the scan over all cards settles on: a later card with the same name
      overrides an earlier one. */
  function LastIdByName(cards: seq<CreditCard>, name: string): Option<int> {
    match LastByName(cards, name)
    case None => None
    case Some(k) => Some(cards[k].cardId)
  }

  /** A card's entry in the allocation dict. */
  datatype CardShare = CardShare(name: string, reward: real, categories: seq<string>, details: seq<Detail>)

  /** The result of a pair: its total, one entry per card name, the categories the two
      cards list (a set: the text joins it in no particular order) and both breakdowns. */
  datatype Combined = Combined(totalReward: real, allocation: seq<CardShare>, categories: set<string>,
                               details: seq<Detail>)

  const NoCombination: Combined := Combined(0.0, [], {}, [])

  /** `set(cats)`: the categories without repeats. */
  function Distinct(cats: seq<string>): (r: set<string>)
    ensures forall x :: x in r <==> x in cats
  {
    set x | x in cats
  }

  /** The allocation dict: a second entry with the same name replaces the first. */
  function Shares(a: CardShare, b: CardShare): seq<CardShare> {
    if a.name == b.name then [b] else [a, b]
  }

  /** The result dict of a pair from the two cards' results and category lists. */
  function Joined(name1: string, name2: string, r1: RewardCalculation, r2: RewardCalculation,
                  cats1: seq<string>, cats2: seq<string>): Combined
  {
    Combined(r1.monthlyReward + r2.monthlyReward,
             Shares(CardShare(name1, r1.monthlyReward, cats1, r1.details),
                    CardShare(name2, r2.monthlyReward, cats2, r2.details)),
             Distinct(cats1 + cats2), r1.details + r2.details)
  }

  /** `combine_two_cards_rewards` once both ids are known. */
  function CombineIds(c: CardLoader.Catalog, name1: string, name2: string, id1: int, id2: int, s: UserSpending,
                      milesRate: real, breakdown: int -> SpendDict): Result<Combined>
  {
    var a := OptimalAllocation(c, id1, id2, s, milesRate, id1 == LadysCardId, id2 == LadysCardId, breakdown);
    match CardResult(c, id1, a.card1Spending, milesRate, id1 == LadysCardId, a.ladysCategory1)
    case Err(e) => Err(e)
    case Ok(r1) =>
      match CardResult(c, id2, a.card2Spending, milesRate, id2 == LadysCardId, a.ladysCategory2)
      case Err(e) => Err(e)
      case Ok(r2) =>
        Ok(Joined(name1, name2, r1, r2, CardLoader.CategoriesOf(c.categories, id1),
                  CardLoader.CategoriesOf(c.categories, id2)))
  }

  /** `combine_two_cards_rewards`: the spending comes from a dict of category amounts,
      the cards from their names. */
  function CombineTwo(c: CardLoader.Catalog, name1: string, name2: string, d: SpendDict, milesRate: real,
                      breakdown: int -> SpendDict): (r: Result<Combined>)
    ensures CardLoader.GetAllCards(c.cards).Err? ==> r.Err?
    ensures CardLoader.GetAllCards(c.cards).Ok? ==>
              var all := CardLoader.GetAllCards(c.cards).value;
              (LastIdByName(all, name1).None? || LastIdByName(all, name2).None?) ==> r == Ok(NoCombination)
  {
    match CardLoader.GetAllCards(c.cards)
    case Err(e) => Err(e)
    case Ok(all) =>
      var id1 := LastIdByName(all, name1);
      var id2 := LastIdByName(all, name2);
      if id1.None? || id2.None? then Ok(NoCombination)
      else CombineIds(c, name1, name2, id1.value, id2.value, FromDict(d), milesRate, breakdown)
  }

  /** The scan over all cards for the two names. */
  method FindCardIds(all: seq<CreditCard>, name1: string, name2: string) returns (card1Id: Option<int>, card2Id: Option<int>)
    ensures card1Id == LastIdByName(all, name1) && card2Id == LastIdByName(all, name2)
  {
    card1Id, card2Id := None, None;
    var i := 0;
    while i < |all|
      invariant 0 <= i <= |all|
      invariant card1Id == LastIdByName(all[..i], name1)
      invariant card2Id == LastIdByName(all[..i], name2)
    {
      assert all[..i + 1][..i] == all[..i];
      if all[i].name == name1 {
        card1Id := Some(all[i].cardId);
      }
      if all[i].name == name2 {
        card2Id := Some(all[i].cardId);
      }
      i := i + 1;
    }
    assert all[..i] == all;
  }

  method CombineTwoCardsRewards(c: CardLoader.Catalog, name1: string, name2: string, d: SpendDict, milesRate: real,
                                breakdown: int -> SpendDict)
    returns (r: Result<Combined>)
    ensures r == CombineTwo(c, name1, name2, d, milesRate, breakdown)
  {
    var s := FromDict(d);
    var allCards := CardLoader.GetAllCards(c.cards);
    if allCards.Err? {
      return Err(allCards.error);
    }
    var card1Id, card2Id := FindCardIds(allCards.value, name1, name2);
    if card1Id.None? || card2Id.None? {
      return Ok(NoCombination);
    }
    var id1, id2 := card1Id.value, card2Id.value;
    var a := CalculateOptimalSpendingAllocation(c, id1, id2, s, milesRate, id1 == LadysCardId, id2 == LadysCardId,
                                                breakdown);
    var r1 := CardResult(c, id1, a.card1Spending, milesRate, id1 == LadysCardId, a.ladysCategory1);
    if r1.Err? {
      return Err(r1.error);
    }
    var r2 := CardResult(c, id2, a.card2Spending, milesRate, id2 == LadysCardId, a.ladysCategory2);
    if r2.Err? {
      return Err(r2.error);
    }
    var cats1 := CardLoader.CategoriesOf(c.categories, id1);
    var cats2 := CardLoader.CategoriesOf(c.categories, id2);
    r := Ok(Joined(name1, name2, r1.value, r2.value, cats1, cats2));
  }

  /** The total of a pair is the sum of the two cards' monthly rewards on their shares
      of the spending, the breakdown is theirs one after the other, and the Lady's
      policy applies to a card exactly when its id is 15. */
  lemma CombineIdsTotal(c: CardLoader.Catalog, name1: string, name2: string, id1: int, id2: int, s: UserSpending,
                        milesRate: real, breakdown: int -> SpendDict)
    requires CombineIds(c, name1, name2, id1, id2, s, milesRate, breakdown).Ok?
    ensures var a := OptimalAllocation(c, id1, id2, s, milesRate, id1 == LadysCardId, id2 == LadysCardId, breakdown);
            var r1 := CardResult(c, id1, a.card1Spending, milesRate, id1 == LadysCardId, a.ladysCategory1);
            var r2 := CardResult(c, id2, a.card2Spending, milesRate, id2 == LadysCardId, a.ladysCategory2);
            var r := CombineIds(c, name1, name2, id1, id2, s, milesRate, breakdown).value;
            && r1.Ok? && r2.Ok?
            && r.totalReward == r1.value.monthlyReward + r2.value.monthlyReward
            && r.details == r1.value.details + r2.value.details
            && (id1 != LadysCardId ==> r1 == RewardsCalculator.CardRewards(c, id1, a.card1Spending, milesRate))
            && (id1 == LadysCardId ==> r1 == UobLadysOptimizer.LadysRewards(c, id1, a.card1Spending, milesRate, a.ladysCategory1))
            && (a.ladysCategory1.Some? <==> id1 == LadysCardId) && (a.ladysCategory2.Some? <==> id2 == LadysCardId)
  {
  }

  // ---------------------------------------------------------------------
  // find_best_combinations

  /** A row of the cards table: its name and issuer. */
  datatype CardData = CardData(name: string, issuer: string)

  /** A listed pair. */
  datatype Combination = Combination(name: string, issuer: string, categories: set<string>, monthlyReward: real,
                                     card1: string, card2: string)

  function MonthlyReward(x: Combination): real {
    x.monthlyReward
  }

  /** How a pair is scored. */
  type Scorer = (CardData, CardData) -> Result<Combined>

  /** The two lists the loops fill. */
  datatype Lists = Lists(ladys: seq<Combination>, others: seq<Combination>)

  function PairEntry(a: CardData, b: CardData, r: Combined): Combination {
    Combination(a.name + " + " + b.name, a.issuer + " + " + b.issuer, r.categories, r.totalReward, a.name, b.name)
  }

  /** One pair: a scoring failure ends the search, a pair that earns nothing is
      dropped, any other goes to the list its name selects. */
  function Visit(st: Result<Lists>, cards: seq<CardData>, p: (nat, nat), score: Scorer): Result<Lists> {
    if st.Err? || p.0 >= |cards| || p.1 >= |cards| then st
    else
      match score(cards[p.0], cards[p.1])
      case Err(e) => Err(e)
      case Ok(r) =>
        if r.totalReward > 0.0 then
          var x := PairEntry(cards[p.0], cards[p.1], r);
          if ContainsStr(x.name, LadysMarker) then Ok(Lists(st.value.ladys + [x], st.value.others))
          else Ok(Lists(st.value.ladys, st.value.others + [x]))
        else st
  }

  function Collect(cards: seq<CardData>, ps: seq<(nat, nat)>, score: Scorer): Result<Lists> {
    if ps == [] then Ok(Lists([], []))
    else Visit(Collect(cards, ps[..|ps| - 1], score), cards, ps[|ps| - 1], score)
  }

  /** Both lists by descending reward, stable on ties, the Lady's list first. */
  function Ranked(l: Lists): seq<Combination> {
    Ranking.SortDesc(l.ladys, MonthlyReward) + Ranking.SortDesc(l.others, MonthlyReward)
  }

  function Combinations(cards: seq<CardData>, score: Scorer): Result<seq<Combination>> {
    match Collect(cards, AllPairs(|cards|), score)
    case Err(e) => Err(e)
    case Ok(l) => Ok(Ranked(l))
  }

  /** Scoring a pair with `combine_two_cards_rewards` on the dict of amounts. */
  function PairScore(c: CardLoader.Catalog, d: SpendDict, milesRate: real, breakdown: int -> SpendDict): Scorer {
    (a: CardData, b: CardData) => CombineTwo(c, a.name, b.name, d, milesRate, breakdown)
  }

  /** `find_best_combinations`. */
  function BestCombinations(c: CardLoader.Catalog, cards: seq<CardData>, d: SpendDict, milesRate: real,
                            breakdown: int -> SpendDict): Result<seq<Combination>>
  {
    Combinations(cards, PairScore(c, d, milesRate, breakdown))
  }

  lemma CollectSnoc(cards: seq<CardData>, ps: seq<(nat, nat)>, p: (nat, nat), score: Scorer)
    ensures Collect(cards, ps + [p], score) == Visit(Collect(cards, ps, score), cards, p, score)
  {
    assert (ps + [p])[..|ps|] == ps;
  }

  /** A failure is final: scoring nothing more changes it. */
  lemma {:induction false} CollectErrStays(cards: seq<CardData>, ps: seq<(nat, nat)>, qs: seq<(nat, nat)>, score: Scorer)
    requires Collect(cards, ps, score).Err?
    ensures Collect(cards, ps + qs, score) == Collect(cards, ps, score)
    decreases |qs|
  {
    if qs == [] {
      assert ps + qs == ps;
    } else {
      var m := |qs| - 1;
      CollectErrStays(cards, ps, qs[..m], score);
      assert ps + qs == (ps + qs[..m]) + [qs[m]];
      CollectSnoc(cards, ps + qs[..m], qs[m], score);
    }
  }

  /** A pair that fails to score makes the whole search fail with its error. */
  lemma CollectFailure(cards: seq<CardData>, n: nat, i: nat, j: nat, score: Scorer)
    requires i < n && j < n
    requires Collect(cards, PairsUpTo(i, n) + RowUpTo(i, j + 1), score).Err?
    ensures Collect(cards, AllPairs(n), score) == Collect(cards, PairsUpTo(i, n) + RowUpTo(i, j + 1), score)
  {
    var rest := AllPairsFrom(n, i, j + 1);
    CollectErrStays(cards, PairsUpTo(i, n) + RowUpTo(i, j + 1), rest, score);
  }

  /** The search after the loops reached outer index `i` and inner index `j`. */
  function Scan(cards: seq<CardData>, score: Scorer, i: nat, j: nat): Result<Lists>
    decreases i, j
  {
    if j == 0 then (if i == 0 then Ok(Lists([], [])) else Scan(cards, score, i - 1, |cards|))
    else
      var st := Scan(cards, score, i, j - 1);
      if i < j - 1 then Visit(st, cards, (i, j - 1), score) else st
  }

  /** The inner loop starts a row with nothing new met. */
  lemma RowStart(cards: seq<CardData>, n: nat, i: nat, score: Scorer)
    ensures Collect(cards, PairsUpTo(i, n) + RowUpTo(i, 0), score) == Collect(cards, PairsUpTo(i, n), score)
  {
    assert PairsUpTo(i, n) + RowUpTo(i, 0) == PairsUpTo(i, n);
  }

  /** A step of the inner loop with `i < j` visits the pair `(i, j)`. */
  lemma RowVisit(cards: seq<CardData>, n: nat, i: nat, j: nat, score: Scorer)
    requires i < j
    ensures Collect(cards, PairsUpTo(i, n) + RowUpTo(i, j + 1), score)
         == Visit(Collect(cards, PairsUpTo(i, n) + RowUpTo(i, j), score), cards, (i, j), score)
  {
    assert PairsUpTo(i, n) + RowUpTo(i, j + 1) == (PairsUpTo(i, n) + RowUpTo(i, j)) + [(i, j)];
    CollectSnoc(cards, PairsUpTo(i, n) + RowUpTo(i, j), (i, j), score);
  }

  /** A step of the inner loop with `i >= j` meets nothing. */
  lemma RowSkip(cards: seq<CardData>, n: nat, i: nat, j: nat, score: Scorer)
    requires i >= j
    ensures Collect(cards, PairsUpTo(i, n) + RowUpTo(i, j + 1), score)
         == Collect(cards, PairsUpTo(i, n) + RowUpTo(i, j), score)
  {
    assert PairsUpTo(i, n) + RowUpTo(i, j + 1) == PairsUpTo(i, n) + RowUpTo(i, j);
  }

  /** The loops' state at `(i, j)` is the fold over the pairs they have met. */
  ghost predicate ScanMet(cards: seq<CardData>, score: Scorer, i: nat, j: nat) {
    Scan(cards, score, i, j) == Collect(cards, PairsUpTo(i, |cards|) + RowUpTo(i, j), score)
  }

  /** The loops' state is the fold over the pairs they have met. */
  lemma {:induction false} ScanIsCollect(cards: seq<CardData>, score: Scorer, i: nat, j: nat)
    ensures ScanMet(cards, score, i, j)
    decreases i, j
  {
    if j == 0 {
      if i > 0 {
        ScanIsCollect(cards, score, i - 1, |cards|);
      }
      ScanRowStart(cards, score, i);
    } else {
      ScanIsCollect(cards, score, i, j - 1);
      ScanRowStep(cards, score, i, j);
    }
  }

  lemma ScanRowStart(cards: seq<CardData>, score: Scorer, i: nat)
    requires i > 0 ==> ScanMet(cards, score, i - 1, |cards|)
    ensures ScanMet(cards, score, i, 0)
  {
    RowStart(cards, |cards|, i, score);
    if i > 0 {
      ScanNextRow(cards, score, i);
    } else {
      ScanFirstRow(cards, score);
    }
  }

  /** Before the first row the loops have met nothing. */
  lemma ScanFirstRow(cards: seq<CardData>, score: Scorer)
    ensures Scan(cards, score, 0, 0) == Collect(cards, PairsUpTo(0, |cards|), score)
  {
  }

  /** A new row starts where the previous row ended. */
  lemma ScanNextRow(cards: seq<CardData>, score: Scorer, i: nat)
    requires i > 0
    requires Scan(cards, score, i - 1, |cards|)
             == Collect(cards, PairsUpTo(i - 1, |cards|) + RowUpTo(i - 1, |cards|), score)
    ensures Scan(cards, score, i, 0) == Collect(cards, PairsUpTo(i, |cards|), score)
  {
    assert PairsUpTo(i, |cards|) == PairsUpTo(i - 1, |cards|) + RowUpTo(i - 1, |cards|);
  }

  lemma ScanRowStep(cards: seq<CardData>, score: Scorer, i: nat, j: nat)
    requires j > 0
    requires ScanMet(cards, score, i, j - 1)
    ensures ScanMet(cards, score, i, j)
  {
    if i < j - 1 {
      RowVisit(cards, |cards|, i, j - 1, score);
    } else {
      RowSkip(cards, |cards|, i, j - 1, score);
    }
  }

  /** A pair that fails to score ends the search with its error. */
  lemma ScanFailure(cards: seq<CardData>, score: Scorer, i: nat, j: nat)
    requires i < |cards| && j < |cards|
    requires Scan(cards, score, i, j + 1).Err?
    ensures Combinations(cards, score) == Err(Scan(cards, score, i, j + 1).error)
  {
    var st := Scan(cards, score, i, j + 1);
    ScanIsCollect(cards, score, i, j + 1);
    assert st == Collect(cards, PairsUpTo(i, |cards|) + RowUpTo(i, j + 1), score);
    CollectFailure(cards, |cards|, i, j, score);
    CombinationsFailure(cards, score, st);
  }

  /** A search whose fold fails fails with the same error. */
  lemma CombinationsFailure(cards: seq<CardData>, score: Scorer, st: Result<Lists>)
    requires st.Err? && Collect(cards, AllPairs(|cards|), score) == st
    ensures Combinations(cards, score) == Err(st.error)
  {
  }

  /** Once the outer loop is through, the loops have met every pair. */
  lemma ScanDone(cards: seq<CardData>, score: Scorer)
    ensures Scan(cards, score, |cards|, 0) == Collect(cards, AllPairs(|cards|), score)
  {
    ScanIsCollect(cards, score, |cards|, 0);
    RowStart(cards, |cards|, |cards|, score);
  }

  /** Marks the pair the loop is scoring, so that only that pair's score is related to
      `CombineTwo` below. */
  ghost predicate Scoring(a: CardData, b: CardData) {
    true
  }

  /** The scorer is `combine_two_cards_rewards` on the two card names. */
  ghost predicate ScoresPairs(score: Scorer, c: CardLoader.Catalog, d: SpendDict, milesRate: real,
                              breakdown: int -> SpendDict)
  {
    forall a, b {:trigger Scoring(a, b)} :: score(a, b) == CombineTwo(c, a.name, b.name, d, milesRate, breakdown)
  }

  method FindBestCombinations(c: CardLoader.Catalog, cards: seq<CardData>, d: SpendDict, milesRate: real,
                              breakdown: int -> SpendDict)
    returns (r: Result<seq<Combination>>)
    ensures r == BestCombinations(c, cards, d, milesRate, breakdown)
  {
    r := SearchPairs(c, cards, d, milesRate, breakdown, PairScore(c, d, milesRate, breakdown));
  }

  /** `combine_two_cards_rewards` on one pair, seen through the scorer. */
  method ScorePair(c: CardLoader.Catalog, a: CardData, b: CardData, d: SpendDict, milesRate: real,
                   breakdown: int -> SpendDict, ghost score: Scorer)
    returns (r: Result<Combined>)
    requires ScoresPairs(score, c, d, milesRate, breakdown)
    ensures r == score(a, b)
  {
    r := CombineTwoCardsRewards(c, a.name, b.name, d, milesRate, breakdown);
    assert Scoring(a, b);
  }

  /** The two loops of `find_best_combinations`, each pair scored by
      `combine_two_cards_rewards`. */
  method SearchPairs(c: CardLoader.Catalog, cards: seq<CardData>, d: SpendDict, milesRate: real,
                     breakdown: int -> SpendDict, ghost score: Scorer)
    returns (r: Result<seq<Combination>>)
    requires ScoresPairs(score, c, d, milesRate, breakdown)
    ensures r == Combinations(cards, score)
  {
    var n := |cards|;
    var ladys: seq<Combination> := [];
    var others: seq<Combination> := [];
    var i := 0;
    while i < n
      invariant 0 <= i <= n
      invariant Scan(cards, score, i, 0) == Ok(Lists(ladys, others))
    {
      var j := 0;
      while j < n
        invariant 0 <= j <= n
        invariant Scan(cards, score, i, j) == Ok(Lists(ladys, others))
      {
        if i < j {
          var combined := ScorePair(c, cards[i], cards[j], d, milesRate, breakdown, score);
          if combined.Err? {
            ScanFailure(cards, score, i, j);
            return Err(combined.error);
          }
          if combined.value.totalReward > 0.0 {
            var x := PairEntry(cards[i], cards[j], combined.value);
            if ContainsStr(x.name, LadysMarker) {
              ladys := ladys + [x];
            } else {
              others := others + [x];
            }
          }
        }
        j := j + 1;
      }
      i := i + 1;
    }
    ScanDone(cards, score);
    r := Ok(Ranking.SortDesc(ladys, MonthlyReward) + Ranking.SortDesc(others, MonthlyReward));
  }

  // ---------------------------------------------------------------------
  // What the search promises

  /** What the two lists hold: only pairs that earn something, the Lady's list exactly
      the names containing "UOB Lady", each entry the result of a pair the loops met. */
  ghost predicate ListsSound(l: Lists, cards: seq<CardData>, ps: seq<(nat, nat)>, score: Scorer) {
    && (forall k :: 0 <= k < |l.ladys| ==> l.ladys[k].monthlyReward > 0.0 && ContainsStr(l.ladys[k].name, LadysMarker))
    && (forall k :: 0 <= k < |l.others| ==> l.others[k].monthlyReward > 0.0 && !ContainsStr(l.others[k].name, LadysMarker))
    && (forall k :: 0 <= k < |l.ladys| ==> FromPair(l.ladys[k], cards, ps, score))
    && (forall k :: 0 <= k < |l.others| ==> FromPair(l.others[k], cards, ps, score))
  }

  /** An entry is the scored result of one of the pairs: named after its two cards, with
      their issuers, and the pair's total as its reward. */
  ghost predicate FromPair(x: Combination, cards: seq<CardData>, ps: seq<(nat, nat)>, score: Scorer) {
    exists m :: 0 <= m < |ps| && IsEntryOf(x, cards, ps[m], score)
  }

  ghost predicate IsEntryOf(x: Combination, cards: seq<CardData>, p: (nat, nat), score: Scorer) {
    p.0 < |cards| && p.1 < |cards| && score(cards[p.0], cards[p.1]).Ok?
    && x == PairEntry(cards[p.0], cards[p.1], score(cards[p.0], cards[p.1]).value)
  }

  lemma FromPairGrows(x: Combination, cards: seq<CardData>, ps: seq<(nat, nat)>, p: (nat, nat), score: Scorer)
    requires FromPair(x, cards, ps, score)
    ensures FromPair(x, cards, ps + [p], score)
  {
    var m :| 0 <= m < |ps| && IsEntryOf(x, cards, ps[m], score);
    assert (ps + [p])[m] == ps[m];
  }

  /** The lists after one more pair keep what they held. */
  lemma VisitSound(st: Result<Lists>, cards: seq<CardData>, ps: seq<(nat, nat)>, p: (nat, nat), score: Scorer)
    requires st.Ok? ==> ListsSound(st.value, cards, ps, score)
    ensures Visit(st, cards, p, score).Ok? ==> ListsSound(Visit(st, cards, p, score).value, cards, ps + [p], score)
  {
    if Visit(st, cards, p, score).Ok? {
      var l := st.value;
      forall k | 0 <= k < |l.ladys| ensures FromPair(l.ladys[k], cards, ps + [p], score) {
        FromPairGrows(l.ladys[k], cards, ps, p, score);
      }
      forall k | 0 <= k < |l.others| ensures FromPair(l.others[k], cards, ps + [p], score) {
        FromPairGrows(l.others[k], cards, ps, p, score);
      }
      if p.0 < |cards| && p.1 < |cards| && score(cards[p.0], cards[p.1]).Ok? {
        var x := PairEntry(cards[p.0], cards[p.1], score(cards[p.0], cards[p.1]).value);
        assert IsEntryOf(x, cards, (ps + [p])[|ps|], score);
      }
    }
  }

  lemma {:induction false} CollectSound(cards: seq<CardData>, ps: seq<(nat, nat)>, score: Scorer)
    ensures Collect(cards, ps, score).Ok? ==> ListsSound(Collect(cards, ps, score).value, cards, ps, score)
    decreases |ps|
  {
    if ps != [] {
      var n := |ps| - 1;
      CollectSound(cards, ps[..n], score);
      assert ps == ps[..n] + [ps[n]];
      VisitSound(Collect(cards, ps[..n], score), cards, ps[..n], ps[n], score);
    }
  }

  /** The ranked list: the pairs holding "UOB Lady" in their name come first, each
      block by descending reward; every listed pair earns something and is one the
      loops met; the entries are exactly those of the two lists, and among entries with
      the same reward each block keeps the order in which the pairs were met. */
  lemma CombinationsOrder(cards: seq<CardData>, score: Scorer)
    requires Collect(cards, AllPairs(|cards|), score).Ok?
    ensures var l := Collect(cards, AllPairs(|cards|), score).value;
            var out := Combinations(cards, score).value;
            var h := |l.ladys|;
            && |out| == |l.ladys| + |l.others|
            && (forall k :: 0 <= k < |out| ==> out[k].monthlyReward > 0.0 && FromPair(out[k], cards, AllPairs(|cards|), score))
            && (forall k :: 0 <= k < |out| ==> (ContainsStr(out[k].name, LadysMarker) <==> k < h))
            && Ranking.SortedDesc(out[..h], MonthlyReward) && Ranking.SortedDesc(out[h..], MonthlyReward)
            && multiset(out) == multiset(l.ladys) + multiset(l.others)
            && (forall v :: Ranking.WithKey(out[..h], MonthlyReward, v) == Ranking.WithKey(l.ladys, MonthlyReward, v))
            && (forall v :: Ranking.WithKey(out[h..], MonthlyReward, v) == Ranking.WithKey(l.others, MonthlyReward, v))
  {
    var l := Collect(cards, AllPairs(|cards|), score).value;
    CollectSound(cards, AllPairs(|cards|), score);
    RankedShape(l);
    RankedSound(l, cards, AllPairs(|cards|), score);
    assert Combinations(cards, score) == Ok(Ranked(l));
  }

  /** Each block of the ranked list is its own list sorted by descending reward, stable
      on ties. */
  lemma RankedShape(l: Lists)
    ensures var out := Ranked(l);
            var h := |l.ladys|;
            && |out| == |l.ladys| + |l.others|
            && Ranking.SortedDesc(out[..h], MonthlyReward) && Ranking.SortedDesc(out[h..], MonthlyReward)
            && multiset(out) == multiset(l.ladys) + multiset(l.others)
            && multiset(out[..h]) == multiset(l.ladys) && multiset(out[h..]) == multiset(l.others)
            && (forall v :: Ranking.WithKey(out[..h], MonthlyReward, v) == Ranking.WithKey(l.ladys, MonthlyReward, v))
            && (forall v :: Ranking.WithKey(out[h..], MonthlyReward, v) == Ranking.WithKey(l.others, MonthlyReward, v))
  {
    var a := Ranking.SortDesc(l.ladys, MonthlyReward);
    var b := Ranking.SortDesc(l.others, MonthlyReward);
    var out := a + b;
    assert out[..|a|] == a && out[|a|..] == b;
    Ranking.SortDescSorted(l.ladys, MonthlyReward);
    Ranking.SortDescSorted(l.others, MonthlyReward);
    Ranking.SortDescPermutation(l.ladys, MonthlyReward);
    Ranking.SortDescPermutation(l.others, MonthlyReward);
    forall v ensures Ranking.WithKey(a, MonthlyReward, v) == Ranking.WithKey(l.ladys, MonthlyReward, v) {
      Ranking.SortDescStable(l.ladys, MonthlyReward, v);
    }
    forall v ensures Ranking.WithKey(b, MonthlyReward, v) == Ranking.WithKey(l.others, MonthlyReward, v) {
      Ranking.SortDescStable(l.others, MonthlyReward, v);
    }
  }

  /** Every entry of the ranked list comes from one of the two lists, so it keeps what
      the lists promise; the Lady's block holds exactly the names with the marker. */
  lemma RankedSound(l: Lists, cards: seq<CardData>, ps: seq<(nat, nat)>, score: Scorer)
    requires ListsSound(l, cards, ps, score)
    requires var out := Ranked(l);
             multiset(out[..|l.ladys|]) == multiset(l.ladys) && multiset(out[|l.ladys|..]) == multiset(l.others)
             && |out| == |l.ladys| + |l.others|
    ensures var out := Ranked(l);
            && (forall k :: 0 <= k < |out| ==> out[k].monthlyReward > 0.0 && FromPair(out[k], cards, ps, score))
            && (forall k :: 0 <= k < |out| ==> (ContainsStr(out[k].name, LadysMarker) <==> k < |l.ladys|))
  {
    var out := Ranked(l);
    var h := |l.ladys|;
    forall k | 0 <= k < |out|
      ensures out[k].monthlyReward > 0.0 && FromPair(out[k], cards, ps, score)
      ensures ContainsStr(out[k].name, LadysMarker) <==> k < h
    {
      if k < h {
        assert out[k] == out[..h][k];
        assert out[k] in multiset(l.ladys);
        var m :| 0 <= m < |l.ladys| && l.ladys[m] == out[k];
      } else {
        assert out[k] == out[h..][k - h];
        assert out[k] in multiset(l.others);
        var m :| 0 <= m < |l.others| && l.others[m] == out[k];
      }
    }
  }

  // ---------------------------------------------------------------------
  // calculate_card_combination_reward and get_optimal_combination

  /** `spending.to_dict()` without its 'total' key. */
  function WithoutTotal(s: UserSpending): (d: SpendDict)
    ensures |d| == |Categories|
  {
    ToDict(s)[..|Categories|]
  }

  /** Rebuilding the spending from the dict without 'total' gives it back unchanged. */
  lemma WithoutTotalRoundTrip(s: UserSpending)
    ensures FromDict(WithoutTotal(s)) == s
  {
    var d := WithoutTotal(s);
    ToDictDistinct(s);
    assert forall i :: 0 <= i < |Categories| ==> d[i] == Entry(Categories[i], Amounts(s)[i]);
    assert DistinctKeys(d);
    GetAt(d, 0); GetAt(d, 1); GetAt(d, 2); GetAt(d, 3); GetAt(d, 4); GetAt(d, 5); GetAt(d, 6);
    GetAt(d, 7); GetAt(d, 8); GetAt(d, 9); GetAt(d, 10); GetAt(d, 11); GetAt(d, 12);
  }

  /** `calculate_card_combination_reward`: exactly two ids, both cards known. */
  function CombinationReward(c: CardLoader.Catalog, cardIds: seq<int>, s: UserSpending, breakdown: int -> SpendDict)
    : (r: Result<Combined>)
    ensures |cardIds| != 2 ==> r == Err("Currently only supports 2-card combinations")
    ensures |cardIds| == 2 && (CardLoader.FirstRow(c.cards, cardIds[0]).None? || CardLoader.FirstRow(c.cards, cardIds[1]).None?)
            ==> r.Err?
  {
    if |cardIds| != 2 then Err("Currently only supports 2-card combinations")
    else
      match CardLoader.GetCardInfo(c.cards, cardIds[0])
      case Err(e) => Err(e)
      case Ok(card1) =>
        match CardLoader.GetCardInfo(c.cards, cardIds[1])
        case Err(e) => Err(e)
        case Ok(card2) =>
          if card1.None? || card2.None? then Err("One or both cards not found")
          else CombineTwo(c, card1.value.name, card2.value.name, WithoutTotal(s), MilesRate, breakdown)
  }

  /** The best pair and the first ten, or none. */
  datatype Optimal = Optimal(optimal: Option<Combination>, all: seq<Combination>)

  function CardDataOf(cards: seq<CreditCard>): (r: seq<CardData>)
    ensures |r| == |cards|
    ensures forall k :: 0 <= k < |cards| ==> r[k] == CardData(cards[k].name, cards[k].issuer)
  {
    if cards == [] then [] else [CardData(cards[0].name, cards[0].issuer)] + CardDataOf(cards[1..])
  }

  /** `get_optimal_combination`: only pairs are supported; the best pair is the head of
      the ranked list and at most ten pairs are kept. */
  function OptimalCombination(c: CardLoader.Catalog, s: UserSpending, maxCards: int, breakdown: int -> SpendDict)
    : (r: Result<Optimal>)
    ensures maxCards != 2 ==> r == Err("Currently only supports 2-card combinations")
    ensures r.Ok? ==> |r.value.all| <= Shown
    ensures r.Ok? ==> (r.value.optimal.None? <==> r.value.all == [])
    ensures r.Ok? && r.value.optimal.Some? ==> r.value.optimal.value == r.value.all[0]
    ensures r.Ok? ==> && CardLoader.GetAllCards(c.cards).Ok?
                      && var ranked := BestCombinations(c, CardDataOf(CardLoader.GetAllCards(c.cards).value),
                                                        WithoutTotal(s), MilesRate, breakdown);
                      && ranked.Ok?
                      && |r.value.all| <= |ranked.value|
                      && r.value.all == ranked.value[..|r.value.all|]
                      && (|ranked.value| <= Shown ==> r.value.all == ranked.value)
                      && (|ranked.value| > Shown ==> |r.value.all| == Shown)
  {
    if maxCards != 2 then Err("Currently only supports 2-card combinations")
    else
      match CardLoader.GetAllCards(c.cards)
      case Err(e) => Err(e)
      case Ok(all) =>
        match BestCombinations(c, CardDataOf(all), WithoutTotal(s), MilesRate, breakdown)
        case Err(e) => Err(e)
        case Ok(combinations) =>
          if |combinations| > 0 then Ok(Optimal(Some(combinations[0]), Ranking.Take(combinations, Shown)))
          else Ok(Optimal(None, []))
  }
}
