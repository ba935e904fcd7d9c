/** The reward service of `services/calculations.py`: a card's best tier by total
    spend, its per-category rates with an earned or a spent cap, rankings of single
    cards, sums over card lists, and two-card entries over the first rows of a table. */
module ServiceCalculations {
  import opened Common
  import opened CardModel
  import CardLoader
  import DataLoaderService
  import Ranking
  import CombinationOptimizer
  import RewardsCalculator

  // ---------------------------------------------------------------------
  // One rate row

  /** `if cap_amount and cap_type`. An empty cell (`None` here) is NaN in the table:
      NaN is truthy, but every comparison with a NaN amount is false, so an empty
      amount never changes anything, while an empty type counts as a spent cap. */
  predicate CapApplies(row: CardLoader.RateRow) {
    row.capAmount.Some? && row.capAmount.value != 0.0 && (row.capType.None? || row.capType.value != "")
  }

  /** The reward of `spend` at the row's rate: a percentage of it, or miles per dollar
      with no conversion to dollars. */
  function RateReward(row: CardLoader.RateRow, spend: real): real {
    if row.rateType == "percentage" then spend * row.rateValue / 100.0 else spend * row.rateValue
  }

  /** The `cap_status` dict. */
  datatype CapStatus = CapStatus(reached: bool, amount: real, difference: real)

  const Uncapped := CapStatus(false, 0.0, 0.0)

  /** A category's reward and the cap status after it. */
  datatype RowOutcome = RowOutcome(reward: real, status: CapStatus)

  /** One category with positive spend: the rate's reward, then the cap. An earned cap
      cuts the reward to the cap amount, and the difference is taken after the cut; any
      other cap type limits the spend the rate applies to. */
  function CapRow(row: CardLoader.RateRow, spend: real, status: CapStatus): RowOutcome {
    var reward := RateReward(row, spend);
    if !CapApplies(row) then RowOutcome(reward, status)
    else
      var cap := row.capAmount.value;
      if row.capType == Some("dollars_earned") then
        if reward > cap then
          var cut := cap;
          RowOutcome(cut, CapStatus(true, cap, cut - cap))
        else RowOutcome(reward, status)
      else if spend > cap then RowOutcome(RateReward(row, cap), CapStatus(true, cap, spend - cap))
      else RowOutcome(reward, status)
  }

  /** What the cap does to one category: nothing when it does not apply; an earned cap
      gives the smaller of the reward and the cap; a spent cap gives the rate's reward
      on the smaller of the spend and the cap. A cap that bites is recorded, one that
      does not leaves the status as it was. */
  lemma CapRowFacts(row: CardLoader.RateRow, spend: real, status: CapStatus)
    ensures var o := CapRow(row, spend, status);
            var reward := RateReward(row, spend);
            && (!CapApplies(row) ==> o == RowOutcome(reward, status))
            && (CapApplies(row) && row.capType == Some("dollars_earned") ==>
                  && o.reward == Min(reward, row.capAmount.value)
                  && o.status == (if reward > row.capAmount.value then CapStatus(true, row.capAmount.value, 0.0)
                                  else status))
            && (CapApplies(row) && row.capType != Some("dollars_earned") ==>
                  && o.reward == RateReward(row, Min(spend, row.capAmount.value))
                  && o.status == (if spend > row.capAmount.value
                                  then CapStatus(true, row.capAmount.value, spend - row.capAmount.value)
                                  else status))
  {
  }

  /** The earned-cap status as written: the difference is taken after the reward has
      been cut to the cap, so it is always zero however far the reward was over. */
  lemma EarnedCapDifferenceZero(row: CardLoader.RateRow, spend: real, status: CapStatus)
    requires CapApplies(row) && row.capType == Some("dollars_earned")
    requires RateReward(row, spend) > row.capAmount.value
    ensures CapRow(row, spend, status).status.reached
    ensures CapRow(row, spend, status).status.difference == 0.0
    ensures RateReward(row, spend) - CapRow(row, spend, status).reward > 0.0
  {
  }

  /** The earned cap as evidently intended: the difference records how far the
      uncapped reward was over the cap. */
  function CapRowIntended(row: CardLoader.RateRow, spend: real, status: CapStatus): RowOutcome {
    var reward := RateReward(row, spend);
    if CapApplies(row) && row.capType == Some("dollars_earned") && reward > row.capAmount.value then
      RowOutcome(row.capAmount.value, CapStatus(true, row.capAmount.value, reward - row.capAmount.value))
    else CapRow(row, spend, status)
  }

  /** With the intended difference, the reward kept and the reward lost to an earned cap
      make up the uncapped reward, and the loss is positive; every other case is as written. */
  lemma CapRowIntendedFacts(row: CardLoader.RateRow, spend: real, status: CapStatus)
    ensures var o := CapRowIntended(row, spend, status);
            var reward := RateReward(row, spend);
            && (CapApplies(row) && row.capType == Some("dollars_earned") && reward > row.capAmount.value ==>
                  o.status.reached && o.reward == row.capAmount.value
                  && o.reward + o.status.difference == reward && o.status.difference > 0.0)
            && (!(CapApplies(row) && row.capType == Some("dollars_earned") && reward > row.capAmount.value) ==>
                  o == CapRow(row, spend, status))
  {
  }

  // ---------------------------------------------------------------------
  // calculate_single_card_reward

  /** The running values of the loop over the tier's rate rows. */
  datatype Tally = Tally(total: real, status: CapStatus, details: seq<Detail>)

  /** How much the user spends in a category: `getattr(spending, category.lower(), 0.0)`,
      so a category with no field of that name spends nothing. The loop below is stated
      for any such lookup. */
  type SpendOf = string -> real

  function CategorySpend(s: UserSpending): SpendOf {
    (category: string) => Attr(s, Lower(category))
  }

  /** One rate row: a category with positive spend adds its capped reward and a line. */
  function RateStep(t: Tally, row: CardLoader.RateRow, spendOf: SpendOf): Tally {
    var spend := spendOf(row.category);
    if spend > 0.0 then
      var o := CapRow(row, spend, t.status);
      Tally(t.total + o.reward, o.status, t.details + [Line(row.category, spend, row.rateValue, o.reward)])
    else t
  }

  /** The loop over the rate rows, in table order. */
  function RatesTally(rows: seq<CardLoader.RateRow>, spendOf: SpendOf): Tally {
    if rows == [] then Tally(0.0, Uncapped, [])
    else RateStep(RatesTally(rows[..|rows| - 1], spendOf), rows[|rows| - 1], spendOf)
  }

  /** The sum of the rewards of the lines of a breakdown. */
  function LineTotal(details: seq<Detail>): real {
    if details == [] then 0.0
    else LineTotal(details[..|details| - 1]) + (match details[|details| - 1] case Line(_, _, _, r) => r case Note(_) => 0.0)
  }

  /** The rows that spend something and whose cap bites. */
  ghost predicate Bites(row: CardLoader.RateRow, spendOf: SpendOf) {
    spendOf(row.category) > 0.0 && CapRow(row, spendOf(row.category), Uncapped).status.reached
  }

  /** Lines that each record a category with positive spend, and a total that is
      the sum of their rewards. */
  ghost predicate Summed(t: Tally) {
    && t.total == LineTotal(t.details)
    && forall k :: 0 <= k < |t.details| ==> t.details[k].Line? && t.details[k].spend > 0.0
  }

  lemma RateStepSummed(t: Tally, row: CardLoader.RateRow, spendOf: SpendOf)
    requires Summed(t)
    ensures Summed(RateStep(t, row, spendOf))
    ensures |RateStep(t, row, spendOf).details| <= |t.details| + 1
  {
    var spend := spendOf(row.category);
    if spend > 0.0 {
      var o := CapRow(row, spend, t.status);
      var d := t.details + [Line(row.category, spend, row.rateValue, o.reward)];
      assert d[..|d| - 1] == t.details;
      assert LineTotal(d) == LineTotal(t.details) + o.reward;
    }
  }

  /** A step reports the cap reached when it was before or the row's cap bites, and
      leaves the status alone otherwise. */
  lemma RateStepStatus(t: Tally, row: CardLoader.RateRow, spendOf: SpendOf)
    ensures RateStep(t, row, spendOf).status.reached <==> t.status.reached || Bites(row, spendOf)
    ensures !Bites(row, spendOf) ==> RateStep(t, row, spendOf).status == t.status
  {
  }

  /** The loop's total is the sum of its lines, one line per category with positive
      spend, at most one per row. */
  lemma {:induction false} RatesTallySummed(rows: seq<CardLoader.RateRow>, spendOf: SpendOf)
    ensures Summed(RatesTally(rows, spendOf))
    ensures |RatesTally(rows, spendOf).details| <= |rows|
  {
    if rows != [] {
      RatesTallySummed(rows[..|rows| - 1], spendOf);
      RateStepSummed(RatesTally(rows[..|rows| - 1], spendOf), rows[|rows| - 1], spendOf);
    }
  }

  /** When the cap is reported reached, some category with positive spend has a cap
      that bites: here is the last one. */
  lemma {:induction false} BitingRow(rows: seq<CardLoader.RateRow>, spendOf: SpendOf) returns (k: nat)
    requires RatesTally(rows, spendOf).status.reached
    ensures k < |rows| && Bites(rows[k], spendOf)
  {
    var init := rows[..|rows| - 1];
    RateStepStatus(RatesTally(init, spendOf), rows[|rows| - 1], spendOf);
    if Bites(rows[|rows| - 1], spendOf) {
      k := |rows| - 1;
    } else {
      k := BitingRow(init, spendOf);
      assert rows[k] == init[k];
    }
  }

  /** When no category's cap bites, the status stays the initial one. */
  lemma {:induction false} NoBitingRow(rows: seq<CardLoader.RateRow>, spendOf: SpendOf)
    requires forall k :: 0 <= k < |rows| ==> !Bites(rows[k], spendOf)
    ensures RatesTally(rows, spendOf).status == Uncapped
  {
    if rows != [] {
      var init := rows[..|rows| - 1];
      assert forall k :: 0 <= k < |init| ==> init[k] == rows[k];
      NoBitingRow(init, spendOf);
      RateStepStatus(RatesTally(init, spendOf), rows[|rows| - 1], spendOf);
    }
  }

  /** A cap that bites anywhere leaves the cap reported reached. */
  lemma {:induction false} BitingStays(rows: seq<CardLoader.RateRow>, spendOf: SpendOf, k: nat, row: CardLoader.RateRow)
    requires k < |rows| && rows[k] == row && Bites(row, spendOf)
    ensures RatesTally(rows, spendOf).status.reached
  {
    var init := rows[..|rows| - 1];
    RateStepStatus(RatesTally(init, spendOf), rows[|rows| - 1], spendOf);
    if k < |init| {
      assert init[k] == row;
      BitingStays(init, spendOf, k, row);
    }
  }


  /** The result for a card none of whose tiers the total spend reaches. */
  function NoTierResult(name: string): RewardCalculation {
    NewRewardCalculation(name, "No suitable tier", 0.0, false, None, 0.0, false,
                         Some([Note("Minimum spend not met for any tier")]))
  }

  /** The result for a card at a tier, from the loop over the tier's rate rows; the
      original reward keeps its default of zero. */
  function TierResult(name: string, tier: CardTier, t: Tally): RewardCalculation {
    NewRewardCalculation(name, tier.description, t.total, t.status.reached,
                         if t.status.reached then Some(t.status.difference) else None, 0.0, true, Some(t.details))
  }

  /** `RewardCalculator.calculate_single_card_reward`: an unknown card id is an error;
      a card with no tier the total reaches earns nothing; otherwise the best tier's
      rate rows are summed. */
  function SingleCardReward(c: CardLoader.Catalog, cardId: int, s: UserSpending): Result<RewardCalculation> {
    SingleCardRewardOf(c, CardLoader.GetCardInfo(c.cards, cardId), cardId, Total(s), CategorySpend(s))
  }

  /** The same, for the loader's answer `info` about the card, a total and a category
      lookup. */
  function SingleCardRewardOf(c: CardLoader.Catalog, info: Result<Option<CreditCard>>, cardId: int, total: real,
                              spendOf: SpendOf): Result<RewardCalculation>
  {
    match info
    case Err(e) => Err(e)
    case Ok(None) => Err("ValueError: Card not found")
    case Ok(Some(card)) =>
      match DataLoaderService.GetBestTierForSpending(c, cardId, total)
      case None => Ok(NoTierResult(card.name))
      case Some(tier) => Ok(TierResult(card.name, tier, RatesTally(CardLoader.RatesOf(c.rates, tier.tierId), spendOf)))
  }

  method CalculateSingleCardReward(c: CardLoader.Catalog, cardId: int, s: UserSpending)
    returns (r: Result<RewardCalculation>)
    ensures r == SingleCardReward(c, cardId, s)
  {
    var info := CardLoader.GetCardInfo(c.cards, cardId);
    if info.Err? {
      return Err(info.error);
    }
    if info.value.None? {
      return Err("ValueError: Card not found");
    }
    var card := info.value.value;
    var best := DataLoaderService.GetBestTierForSpending(c, cardId, Total(s));
    if best.None? {
      return Ok(NoTierResult(card.name));
    }
    var tier := best.value;
    var t := TallyRows(CardLoader.RatesOf(c.rates, tier.tierId), CategorySpend(s));
    r := Ok(TierResult(card.name, tier, t));
  }

  /** The loop over a tier's rate rows. */
  method TallyRows(rows: seq<CardLoader.RateRow>, spendOf: SpendOf) returns (t: Tally)
    ensures t == RatesTally(rows, spendOf)
  {
    t := Tally(0.0, Uncapped, []);
    var i := 0;
    while i < |rows|
      invariant 0 <= i <= |rows|
      invariant RatesTally(rows[..i], spendOf) == t
    {
      assert rows[..i + 1][..i] == rows[..i];
      t := TallyRow(t, rows[i], spendOf);
      i := i + 1;
    }
    assert rows[..i] == rows;
  }

  /** One pass of the loop over the rate rows. */
  method TallyRow(t: Tally, row: CardLoader.RateRow, spendOf: SpendOf) returns (next: Tally)
    ensures next == RateStep(t, row, spendOf)
  {
    var spend := spendOf(row.category);
    next := t;
    if spend > 0.0 {
      var o := CapRow(row, spend, t.status);
      next := Tally(t.total + o.reward, o.status, t.details + [Line(row.category, spend, row.rateValue, o.reward)]);
    }
  }

  /** The error cases of a single card: the loader's error passes through and a card it
      does not find is a `ValueError`; a card whose tiers the total does not reach earns
      zero, is not marked as meeting the minimum spend, and says so in its only line. */
  lemma {:induction false} SingleCardCases(c: CardLoader.Catalog, info: Result<Option<CreditCard>>, cardId: int,
                                           total: real, spendOf: SpendOf)
    ensures var r := SingleCardRewardOf(c, info, cardId, total, spendOf);
            && (r.Err? <==> info.Err? || info == Ok(None))
            && (info.Err? ==> r == Err(info.error))
            && (info == Ok(None) ==> r == Err("ValueError: Card not found"))
            && (r.Ok? ==> r.value.cardName == info.value.value.name)
            && (r.Ok? && DataLoaderService.GetBestTierForSpending(c, cardId, total).None? ==>
                  r.value.monthlyReward == 0.0 && !r.value.minSpendMet && !r.value.capReached
                  && r.value.capDifference.None? && r.value.details == [Note("Minimum spend not met for any tier")])
  {
  }

  /** A card at a tier meets the minimum spend, and its monthly reward is the sum of its
      breakdown lines, one per category of the tier's rate rows with positive spend;
      it reports the cap reached, with a difference, exactly when some such category's
      cap bites; the original reward stays zero. */
  lemma {:induction false} SingleCardAtTier(c: CardLoader.Catalog, info: Result<Option<CreditCard>>, cardId: int,
                                            total: real, spendOf: SpendOf, tier: CardTier,
                                            rows: seq<CardLoader.RateRow>, r: RewardCalculation)
    requires SingleCardRewardOf(c, info, cardId, total, spendOf) == Ok(r)
    requires DataLoaderService.GetBestTierForSpending(c, cardId, total) == Some(tier)
    requires rows == CardLoader.RatesOf(c.rates, tier.tierId)
    ensures tier.minSpend <= total && r.minSpendMet && r.originalReward == 0.0 && r.tierDescription == tier.description
    ensures r.monthlyReward == LineTotal(r.details) && |r.details| <= |rows|
    ensures forall k :: 0 <= k < |r.details| ==> r.details[k].Line? && r.details[k].spend > 0.0
    ensures r.capReached <==> exists k :: 0 <= k < |rows| && Bites(rows[k], spendOf)
    ensures r.capReached <==> r.capDifference.Some?
  {
    TierFacts(info.value.value.name, rows, spendOf, tier, r);
  }

  /** The same facts for any rows and any spend lookup. */
  lemma {:induction false} TierFacts(name: string, rows: seq<CardLoader.RateRow>, spendOf: SpendOf, tier: CardTier, r: RewardCalculation)
    requires r == TierResult(name, tier, RatesTally(rows, spendOf))
    ensures r.minSpendMet && r.originalReward == 0.0 && r.tierDescription == tier.description
    ensures r.monthlyReward == LineTotal(r.details) && |r.details| <= |rows|
    ensures forall k :: 0 <= k < |r.details| ==> r.details[k].Line? && r.details[k].spend > 0.0
    ensures r.capReached <==> exists k :: 0 <= k < |rows| && Bites(rows[k], spendOf)
    ensures r.capReached <==> r.capDifference.Some?
  {
    var t := RatesTally(rows, spendOf);
    RatesTallySummed(rows, spendOf);
    if t.status.reached {
      var k := BitingRow(rows, spendOf);
    }
    if exists k :: 0 <= k < |rows| && Bites(rows[k], spendOf) {
      var k :| 0 <= k < |rows| && Bites(rows[k], spendOf);
      BitingStays(rows, spendOf, k, rows[k]);
    }
  }

  // ---------------------------------------------------------------------
  // The service's own card lookups, as written

  /** Building the card record with the `annual_fee` and `source_url` keywords, which
      the record does not declare. */
  const UnexpectedKeyword := "TypeError: unexpected keyword argument 'annual_fee'"

  /** `DataLoader.get_card_info` as written: no row gives `None`, and a found row fails
      while its card is built. */
  function CardInfoAsWritten(cards: seq<CardLoader.CardRow>, cardId: int): Result<Option<CreditCard>> {
    match CardLoader.FirstRow(cards, cardId)
    case None => Ok(None)
    case Some(_) => Err(UnexpectedKeyword)
  }

  /** `DataLoader.get_all_cards` as written: the first row fails while its card is built. */
  function AllCardsAsWritten(cards: seq<CardLoader.CardRow>): Result<seq<CreditCard>> {
    if cards == [] then Ok([]) else Err(UnexpectedKeyword)
  }

  /** As written, the single-card reward fails for every id: a card the table lacks is
      not found, and one it has cannot be built. The lookup the rest of this model uses
      builds the card from its four columns and succeeds on every row of a known type. */
  lemma {:induction false} SingleCardAsWrittenFails(c: CardLoader.Catalog, cardId: int, total: real, spendOf: SpendOf)
    ensures SingleCardRewardOf(c, CardInfoAsWritten(c.cards, cardId), cardId, total, spendOf).Err?
    ensures CardLoader.FirstRow(c.cards, cardId).Some? ==>
              SingleCardRewardOf(c, CardInfoAsWritten(c.cards, cardId), cardId, total, spendOf) == Err(UnexpectedKeyword)
    ensures CardLoader.FirstRow(c.cards, cardId).Some? && c.cards[CardLoader.FirstRow(c.cards, cardId).value].cardType in CardTypes ==>
              SingleCardRewardOf(c, CardLoader.GetCardInfo(c.cards, cardId), cardId, total, spendOf).Ok?
  {
    SingleCardCases(c, CardInfoAsWritten(c.cards, cardId), cardId, total, spendOf);
    SingleCardCases(c, CardLoader.GetCardInfo(c.cards, cardId), cardId, total, spendOf);
  }

  // ---------------------------------------------------------------------
  // calculate_all_cards_rewards

  /** The single-card result for each card id. The operations over several cards are
      stated for any such function. */
  type Scorer = int -> Result<RewardCalculation>

  function CardScorer(c: CardLoader.Catalog, s: UserSpending): Scorer {
    (cardId: int) => SingleCardReward(c, cardId, s)
  }

  /** `[card.card_id for card in all_cards]`. */
  function Ids(cards: seq<CreditCard>): (r: seq<int>)
    ensures |r| == |cards| && forall k :: 0 <= k < |cards| ==> r[k] == cards[k].cardId
  {
    seq(|cards|, k requires 0 <= k < |cards| => cards[k].cardId)
  }

  /** The loop over card ids that keeps each result and skips a card whose calculation
      raises. */
  function Successes(score: Scorer, ids: seq<int>): seq<RewardCalculation> {
    if ids == [] then []
    else
      var rest := Successes(score, ids[..|ids| - 1]);
      match score(ids[|ids| - 1])
      case Ok(r) => rest + [r]
      case Err(_) => rest
  }

  /** `calculate_all_cards_rewards`: a failing card list is not caught. */
  function AllCardsRewardsOf(all: Result<seq<CreditCard>>, score: Scorer): Result<seq<RewardCalculation>> {
    match all
    case Err(e) => Err(e)
    case Ok(cards) => Ok(Successes(score, Ids(cards)))
  }

  function AllCardsRewards(c: CardLoader.Catalog, s: UserSpending): Result<seq<RewardCalculation>> {
    AllCardsRewardsOf(CardLoader.GetAllCards(c.cards), CardScorer(c, s))
  }

  /** `score` gives each id the single-card result (the trigger keeps the solver from
      unfolding the calculation where it is not needed). */
  ghost predicate Scoring(cardId: int) {
    true
  }

  ghost predicate Scores(score: Scorer, c: CardLoader.Catalog, s: UserSpending) {
    forall cardId {:trigger Scoring(cardId)} :: score(cardId) == SingleCardReward(c, cardId, s)
  }

  lemma CardScorerScores(c: CardLoader.Catalog, s: UserSpending)
    ensures Scores(CardScorer(c, s), c, s)
  {
  }

  /** One call of `calculate_single_card_reward`. */
  method Score(c: CardLoader.Catalog, s: UserSpending, ghost score: Scorer, cardId: int)
    returns (r: Result<RewardCalculation>)
    requires Scores(score, c, s)
    ensures r == score(cardId)
  {
    r := CalculateSingleCardReward(c, cardId, s);
    assert Scoring(cardId);
  }

  method CalculateAllCardsRewards(c: CardLoader.Catalog, s: UserSpending) returns (r: Result<seq<RewardCalculation>>)
    ensures r == AllCardsRewards(c, s)
  {
    var all := CardLoader.GetAllCards(c.cards);
    if all.Err? {
      return Err(all.error);
    }
    CardScorerScores(c, s);
    var results := CollectRewards(c, s, CardScorer(c, s), Ids(all.value));
    r := Ok(results);
  }

  /** The loop of `calculate_all_cards_rewards`. */
  method CollectRewards(c: CardLoader.Catalog, s: UserSpending, ghost score: Scorer, ids: seq<int>)
    returns (results: seq<RewardCalculation>)
    requires Scores(score, c, s)
    ensures results == Successes(score, ids)
  {
    results := [];
    var i := 0;
    while i < |ids|
      invariant 0 <= i <= |ids|
      invariant results == Successes(score, ids[..i])
    {
      assert ids[..i + 1][..i] == ids[..i];
      var result := Score(c, s, score, ids[i]);
      if result.Ok? {
        results := results + [result.value];
      }
      i := i + 1;
    }
    assert ids[..i] == ids;
  }

  /** Skipping failures never adds results. */
  lemma {:induction false} SuccessesBound(score: Scorer, ids: seq<int>)
    ensures |Successes(score, ids)| <= |ids|
  {
    if ids != [] {
      SuccessesBound(score, ids[..|ids| - 1]);
    }
  }

  /** Every kept result is the result of one of the ids. */
  lemma {:induction false} SuccessFrom(score: Scorer, ids: seq<int>, k: nat) returns (j: nat)
    requires k < |Successes(score, ids)|
    ensures j < |ids| && score(ids[j]) == Ok(Successes(score, ids)[k])
  {
    var init := ids[..|ids| - 1];
    SuccessesBound(score, init);
    if k < |Successes(score, init)| {
      j := SuccessFrom(score, init, k);
      assert ids[j] == init[j];
    } else {
      j := |ids| - 1;
    }
  }

  /** When no calculation fails, there is one result per id, in order. */
  lemma {:induction false} AllSucceed(score: Scorer, ids: seq<int>)
    requires forall j :: 0 <= j < |ids| ==> score(ids[j]).Ok?
    ensures |Successes(score, ids)| == |ids|
    ensures forall k :: 0 <= k < |ids| ==> Successes(score, ids)[k] == score(ids[k]).value
  {
    if ids != [] {
      var init := ids[..|ids| - 1];
      assert forall j :: 0 <= j < |init| ==> init[j] == ids[j];
      AllSucceed(score, init);
    }
  }

  /** The all-cards result fails exactly when the card list does, and holds at most
      one result per card. */
  lemma AllCardsFacts(all: Result<seq<CreditCard>>, score: Scorer)
    ensures AllCardsRewardsOf(all, score).Ok? <==> all.Ok?
    ensures all.Err? ==> AllCardsRewardsOf(all, score) == Err(all.error)
    ensures all.Ok? ==> |AllCardsRewardsOf(all, score).value| <= |all.value|
  {
    if all.Ok? {
      SuccessesBound(score, Ids(all.value));
    }
  }

  // ---------------------------------------------------------------------
  // get_top_cards

  /** The results by descending monthly reward, cut to `limit` as a Python slice. */
  function TopOf(results: seq<RewardCalculation>, limit: int): seq<RewardCalculation> {
    Ranking.Head(Ranking.SortDesc(results, RewardsCalculator.MonthlyReward), limit)
  }

  /** `get_top_cards`. */
  function TopCards(c: CardLoader.Catalog, s: UserSpending, limit: int): Result<seq<RewardCalculation>> {
    match AllCardsRewards(c, s)
    case Err(e) => Err(e)
    case Ok(results) => Ok(TopOf(results, limit))
  }

  method GetTopCards(c: CardLoader.Catalog, s: UserSpending, limit: int) returns (r: Result<seq<RewardCalculation>>)
    ensures r == TopCards(c, s, limit)
  {
    var all := CalculateAllCardsRewards(c, s);
    if all.Err? {
      return Err(all.error);
    }
    r := Ok(TopOf(all.value, limit));
  }

  /** The top cards: at most `limit` of them (all of them when there are fewer), in
      descending order of monthly reward, drawn from the results, and no result left
      out earns more than one kept. */
  lemma TopOfFacts(results: seq<RewardCalculation>, limit: int)
    ensures var top := TopOf(results, limit);
            && (limit >= 0 ==> |top| == if limit < |results| then limit else |results|)
            && Ranking.SortedDesc(top, RewardsCalculator.MonthlyReward)
            && multiset(top) <= multiset(results)
            && forall x, i :: x in multiset(results) - multiset(top) && 0 <= i < |top| ==>
                 RewardsCalculator.MonthlyReward(top[i]) >= RewardsCalculator.MonthlyReward(x)
  {
    Ranking.HeadOfSorted(results, RewardsCalculator.MonthlyReward, limit);
  }


  // ---------------------------------------------------------------------
  // calculate_card_combination_reward

  /** The result dict of a list of cards. */
  datatype ComboResult = ComboResult(totalReward: real, cardRewards: seq<RewardCalculation>, details: seq<Detail>)

  const NoCards := ComboResult(0.0, [], [])

  /** The loop over the ids: each result that does not raise is kept, its monthly reward
      added and its breakdown appended. */
  function ComboOf(score: Scorer, ids: seq<int>): ComboResult {
    if ids == [] then NoCards
    else
      var t := ComboOf(score, ids[..|ids| - 1]);
      match score(ids[|ids| - 1])
      case Err(_) => t
      case Ok(r) => ComboResult(t.totalReward + r.monthlyReward, t.cardRewards + [r], t.details + r.details)
  }

  /** `calculate_card_combination_reward`. */
  function CombinationReward(c: CardLoader.Catalog, ids: seq<int>, s: UserSpending): ComboResult {
    ComboOf(CardScorer(c, s), ids)
  }

  method CalculateCardCombinationReward(c: CardLoader.Catalog, ids: seq<int>, s: UserSpending) returns (r: ComboResult)
    ensures r == CombinationReward(c, ids, s)
  {
    if ids == [] {
      return NoCards;
    }
    CardScorerScores(c, s);
    r := CollectCombination(c, s, CardScorer(c, s), ids);
  }

  /** The loop of `calculate_card_combination_reward`. */
  method CollectCombination(c: CardLoader.Catalog, s: UserSpending, ghost score: Scorer, ids: seq<int>)
    returns (r: ComboResult)
    requires Scores(score, c, s)
    ensures r == ComboOf(score, ids)
  {
    var cardRewards: seq<RewardCalculation> := [];
    var totalReward := 0.0;
    var details: seq<Detail> := [];
    var i := 0;
    while i < |ids|
      invariant 0 <= i <= |ids|
      invariant ComboOf(score, ids[..i]) == ComboResult(totalReward, cardRewards, details)
    {
      assert ids[..i + 1][..i] == ids[..i];
      var result := Score(c, s, score, ids[i]);
      if result.Ok? {
        cardRewards := cardRewards + [result.value];
        totalReward := totalReward + result.value.monthlyReward;
        details := details + result.value.details;
      }
      i := i + 1;
    }
    assert ids[..i] == ids;
    r := ComboResult(totalReward, cardRewards, details);
  }

  /** The sum of the monthly rewards of a list of results. */
  function RewardSum(rs: seq<RewardCalculation>): real {
    if rs == [] then 0.0 else RewardSum(rs[..|rs| - 1]) + rs[|rs| - 1].monthlyReward
  }

  /** The breakdowns of a list of results, one after the other. */
  function AllDetails(rs: seq<RewardCalculation>): seq<Detail> {
    if rs == [] then [] else AllDetails(rs[..|rs| - 1]) + rs[|rs| - 1].details
  }

  /** A combination holds exactly the results of its cards that do not fail, in order;
      its total is the sum of their monthly rewards and its breakdown is theirs, one
      after the other. With no ids it is zero with no cards. */
  lemma {:induction false} ComboFacts(score: Scorer, ids: seq<int>)
    ensures var rs := Successes(score, ids);
            ComboOf(score, ids) == ComboResult(RewardSum(rs), rs, AllDetails(rs))
  {
    if ids != [] {
      var init := ids[..|ids| - 1];
      ComboFacts(score, init);
      var rs := Successes(score, init);
      match score(ids[|ids| - 1])
      case Err(_) =>
      case Ok(r) =>
        assert (rs + [r])[..|rs|] == rs;
    }
  }

  // ---------------------------------------------------------------------
  // get_optimal_combination

  /** The position of the first card with the name. */
  function FirstByName(cards: seq<CreditCard>, name: string): (r: Option<nat>)
    ensures r.None? <==> forall k :: 0 <= k < |cards| ==> cards[k].name != name
    ensures r.Some? ==> r.value < |cards| && cards[r.value].name == name
                        && forall j :: 0 <= j < r.value ==> cards[j].name != name
  {
    if cards == [] then None
    else if cards[0].name == name then Some(0)
    else
      match FirstByName(cards[1..], name)
      case None => None
      case Some(k) => Some(k + 1)
  }

  /** The id the inner loop finds for a name: the first card's, as the loop breaks. */
  function FirstIdByName(cards: seq<CreditCard>, name: string): Option<int> {
    match FirstByName(cards, name)
    case None => None
    case Some(k) => Some(cards[k].cardId)
  }

  /** The ids of the top results' cards, found by name; a name no card has adds none. */
  function IdsByName(top: seq<RewardCalculation>, cards: seq<CreditCard>): seq<int> {
    if top == [] then []
    else
      var ids := IdsByName(top[..|top| - 1], cards);
      match FirstIdByName(cards, top[|top| - 1].cardName)
      case None => ids
      case Some(id) => ids + [id]
  }

  /** `get_optimal_combination` for a card list and scores: all the cards when there are
      at most `maxCards`, otherwise the cards of the top `maxCards` results. */
  function OptimalOf(all: Result<seq<CreditCard>>, score: Scorer, maxCards: int): Result<ComboResult> {
    match all
    case Err(e) => Err(e)
    case Ok(cards) =>
      if |cards| <= maxCards then Ok(ComboOf(score, Ids(cards)))
      else Ok(ComboOf(score, IdsByName(TopOf(Successes(score, Ids(cards)), maxCards), cards)))
  }

  function OptimalCombination(c: CardLoader.Catalog, s: UserSpending, maxCards: int): Result<ComboResult> {
    OptimalOf(CardLoader.GetAllCards(c.cards), CardScorer(c, s), maxCards)
  }

  method GetOptimalCombination(c: CardLoader.Catalog, s: UserSpending, maxCards: int) returns (r: Result<ComboResult>)
    ensures r == OptimalCombination(c, s, maxCards)
  {
    var all := CardLoader.GetAllCards(c.cards);
    if all.Err? {
      return Err(all.error);
    }
    var cards := all.value;
    if |cards| <= maxCards {
      var combo := CalculateCardCombinationReward(c, Ids(cards), s);
      return Ok(combo);
    }
    var top := GetTopCards(c, s, maxCards);
    assert top == Ok(TopOf(Successes(CardScorer(c, s), Ids(cards)), maxCards));
    var ids := FindIdsByName(top.value, cards);
    var combo := CalculateCardCombinationReward(c, ids, s);
    r := Ok(combo);
  }

  /** The nested loop over the top results and the cards. */
  method FindIdsByName(top: seq<RewardCalculation>, cards: seq<CreditCard>) returns (ids: seq<int>)
    ensures ids == IdsByName(top, cards)
  {
    ids := [];
    var i := 0;
    while i < |top|
      invariant 0 <= i <= |top|
      invariant ids == IdsByName(top[..i], cards)
    {
      assert top[..i + 1][..i] == top[..i];
      var id := FindFirstId(cards, top[i].cardName);
      if id.Some? {
        ids := ids + [id.value];
      }
      i := i + 1;
    }
    assert top[..i] == top;
  }

  /** The inner loop: the first card with the name, then `break`. */
  method FindFirstId(cards: seq<CreditCard>, name: string) returns (id: Option<int>)
    ensures id == FirstIdByName(cards, name)
  {
    var i := 0;
    while i < |cards|
      invariant 0 <= i <= |cards|
      invariant forall k :: 0 <= k < i ==> cards[k].name != name
    {
      if cards[i].name == name {
        return Some(cards[i].cardId);
      }
      i := i + 1;
    }
    return None;
  }

  /** At most one id per top result, each the id of a card with that result's name;
      when every top name belongs to a card, there is one id per result. */
  lemma {:induction false} IdsByNameFacts(top: seq<RewardCalculation>, cards: seq<CreditCard>)
    ensures |IdsByName(top, cards)| <= |top|
    ensures (forall k :: 0 <= k < |top| ==> exists m :: 0 <= m < |cards| && cards[m].name == top[k].cardName) ==>
              |IdsByName(top, cards)| == |top|
  {
    if top != [] {
      var init := top[..|top| - 1];
      IdsByNameFacts(init, cards);
      if forall k :: 0 <= k < |top| ==> exists m :: 0 <= m < |cards| && cards[m].name == top[k].cardName {
        assert forall k :: 0 <= k < |init| ==> init[k] == top[k];
        var m :| 0 <= m < |cards| && cards[m].name == top[|top| - 1].cardName;
      }
    }
  }

  lemma {:induction false} IdByNameFrom(top: seq<RewardCalculation>, cards: seq<CreditCard>, k: nat)
    returns (j: nat, m: nat)
    requires k < |IdsByName(top, cards)|
    ensures j < |top| && m < |cards| && cards[m].name == top[j].cardName
    ensures IdsByName(top, cards)[k] == cards[m].cardId
  {
    var init := top[..|top| - 1];
    IdsByNameFacts(init, cards);
    if k < |IdsByName(init, cards)| {
      j, m := IdByNameFrom(init, cards, k);
    } else {
      j := |top| - 1;
      m := FirstByName(cards, top[j].cardName).value;
    }
  }

  /** The optimal combination fails exactly when the card list does; it holds at most
      one result per card and, for a non-negative `maxCards`, at most `maxCards` of them;
      with at most `maxCards` cards it combines every card. */
  lemma OptimalFacts(all: Result<seq<CreditCard>>, score: Scorer, maxCards: int)
    ensures OptimalOf(all, score, maxCards).Ok? <==> all.Ok?
    ensures all.Ok? ==> |OptimalOf(all, score, maxCards).value.cardRewards| <= |all.value|
    ensures all.Ok? && maxCards >= 0 ==> |OptimalOf(all, score, maxCards).value.cardRewards| <= maxCards
    ensures all.Ok? && |all.value| <= maxCards ==>
              OptimalOf(all, score, maxCards).value.cardRewards == Successes(score, Ids(all.value))
  {
    if all.Ok? {
      var cards := all.value;
      if |cards| <= maxCards {
        ComboFacts(score, Ids(cards));
        SuccessesBound(score, Ids(cards));
      } else {
        var results := Successes(score, Ids(cards));
        var top := TopOf(results, maxCards);
        var ids := IdsByName(top, cards);
        SuccessesBound(score, Ids(cards));
        TopOfFacts(results, maxCards);
        IdsByNameFacts(top, cards);
        ComboFacts(score, ids);
        SuccessesBound(score, ids);
      }
    }
  }

  // ---------------------------------------------------------------------
  // combine_two_cards_rewards (module level)

  /** The pair result for a card list, single-card scores and two card names: each
      name takes the id of the last card with it, a name no card has gives the empty
      result, and a failing card calculation is not caught. The spending is not split:
      each card is scored on all of it. */
  function CombineTwoOf(c: CardLoader.Catalog, all: Result<seq<CreditCard>>, score: Scorer, name1: string, name2: string)
    : Result<CombinationOptimizer.Combined>
  {
    match all
    case Err(e) => Err(e)
    case Ok(cards) =>
      var id1 := CombinationOptimizer.LastIdByName(cards, name1);
      var id2 := CombinationOptimizer.LastIdByName(cards, name2);
      if id1.None? || id2.None? then Ok(CombinationOptimizer.NoCombination)
      else
        match score(id1.value)
        case Err(e) => Err(e)
        case Ok(r1) =>
          match score(id2.value)
          case Err(e) => Err(e)
          case Ok(r2) =>
            Ok(CombinationOptimizer.Joined(name1, name2, r1, r2, CardLoader.CategoriesOf(c.categories, id1.value),
                                           CardLoader.CategoriesOf(c.categories, id2.value)))
  }

  function CombineTwoCards(c: CardLoader.Catalog, name1: string, name2: string, s: UserSpending)
    : Result<CombinationOptimizer.Combined>
  {
    CombineTwoOf(c, CardLoader.GetAllCards(c.cards), CardScorer(c, s), name1, name2)
  }

  method CombineTwoCardsRewards(c: CardLoader.Catalog, name1: string, name2: string, s: UserSpending)
    returns (r: Result<CombinationOptimizer.Combined>)
    ensures r == CombineTwoCards(c, name1, name2, s)
  {
    var all := CardLoader.GetAllCards(c.cards);
    if all.Err? {
      return Err(all.error);
    }
    CardScorerScores(c, s);
    r := CombineFound(c, s, CardScorer(c, s), all.value, name1, name2);
  }

  /** The part after the card list is loaded. */
  method CombineFound(c: CardLoader.Catalog, s: UserSpending, ghost score: Scorer, cards: seq<CreditCard>,
                      name1: string, name2: string)
    returns (r: Result<CombinationOptimizer.Combined>)
    requires Scores(score, c, s)
    ensures r == CombineTwoOf(c, Ok(cards), score, name1, name2)
  {
    var card1Id, card2Id := CombinationOptimizer.FindCardIds(cards, name1, name2);
    if card1Id.None? || card2Id.None? {
      return Ok(CombinationOptimizer.NoCombination);
    }
    var r1 := Score(c, s, score, card1Id.value);
    if r1.Err? {
      return Err(r1.error);
    }
    var r2 := Score(c, s, score, card2Id.value);
    if r2.Err? {
      return Err(r2.error);
    }
    var cats1 := CardLoader.CategoriesOf(c.categories, card1Id.value);
    var cats2 := CardLoader.CategoriesOf(c.categories, card2Id.value);
    r := Ok(CombinationOptimizer.Joined(name1, name2, r1.value, r2.value, cats1, cats2));
  }

  /** A pair's total is the sum of the two cards' monthly rewards, its breakdown theirs
      one after the other, its categories those either card lists, and it has one
      entry per distinct name; an unknown name gives the empty result and a failing
      card list or card calculation fails the pair. */
  lemma CombineTwoFacts(c: CardLoader.Catalog, all: Result<seq<CreditCard>>, score: Scorer, name1: string, name2: string)
    ensures var r := CombineTwoOf(c, all, score, name1, name2);
            && (all.Err? ==> r == Err(all.error))
            && (all.Ok? && (CombinationOptimizer.LastIdByName(all.value, name1).None? ||
                            CombinationOptimizer.LastIdByName(all.value, name2).None?) ==>
                  r == Ok(CombinationOptimizer.NoCombination))
            && (r.Err? ==> all.Err? || (exists id :: score(id) == Err(r.error)))
    ensures var r := CombineTwoOf(c, all, score, name1, name2);
            all.Ok? && CombinationOptimizer.LastIdByName(all.value, name1).Some? &&
            CombinationOptimizer.LastIdByName(all.value, name2).Some? && r.Ok? ==>
              var id1 := CombinationOptimizer.LastIdByName(all.value, name1).value;
              var id2 := CombinationOptimizer.LastIdByName(all.value, name2).value;
              var cats1 := CardLoader.CategoriesOf(c.categories, id1);
              var cats2 := CardLoader.CategoriesOf(c.categories, id2);
              && score(id1).Ok? && score(id2).Ok?
              && r.value.totalReward == score(id1).value.monthlyReward + score(id2).value.monthlyReward
              && r.value.details == score(id1).value.details + score(id2).value.details
              && (forall x :: x in r.value.categories <==> x in cats1 || x in cats2)
              && |r.value.allocation| == (if name1 == name2 then 1 else 2)
  {
  }

  /** As written, the card list fails on any non-empty table, and with it the
      all-cards results and every pair; the list the rest of this model uses fails
      only on a row of unknown card type. */
  lemma {:induction false} AllCardsAsWrittenFails(c: CardLoader.Catalog, score: Scorer, name1: string, name2: string)
    requires c.cards != []
    ensures AllCardsRewardsOf(AllCardsAsWritten(c.cards), score) == Err(UnexpectedKeyword)
    ensures CombineTwoOf(c, AllCardsAsWritten(c.cards), score, name1, name2) == Err(UnexpectedKeyword)
    ensures (forall k :: 0 <= k < |c.cards| ==> c.cards[k].cardType in CardTypes) ==>
              AllCardsRewardsOf(CardLoader.GetAllCards(c.cards), score).Ok?
  {
  }

  // ---------------------------------------------------------------------
  // find_best_card_combinations (module level)

  /** A row of the filtered cards table: its index label, name and issuer. */
  datatype FrameRow = FrameRow(index: int, name: string, issuer: string)

  /** How a pair of card names is combined. */
  type PairScore = (string, string) -> Result<CombinationOptimizer.Combined>

  function PairScoreOf(c: CardLoader.Catalog, s: UserSpending): PairScore {
    (name1: string, name2: string) => CombineTwoCards(c, name1, name2, s)
  }

  /** The cells `(a, k)` of an `n`-by-`n` grid the two loops meet before `(a, b)`: the
      rows above `a` in full, then the first `b` cells of row `a`. */
  function Grid(a: nat, b: nat, n: nat): seq<(nat, nat)>
    decreases a, b
  {
    if b > 0 then Grid(a, b - 1, n) + [(a, b - 1)]
    else if a > 0 then Grid(a - 1, n, n)
    else []
  }

  function Entry(x: FrameRow, y: FrameRow, r: CombinationOptimizer.Combined): CombinationOptimizer.Combination {
    CombinationOptimizer.PairEntry(CombinationOptimizer.CardData(x.name, x.issuer),
                                   CombinationOptimizer.CardData(y.name, y.issuer), r)
  }

  /** One cell: a pair whose labels are not in increasing order is skipped, a failing
      combination ends the search, and one that earns something is listed. */
  function Cell(acc: Result<seq<CombinationOptimizer.Combination>>, rows: seq<FrameRow>, score: PairScore,
                p: (nat, nat)): Result<seq<CombinationOptimizer.Combination>>
  {
    if acc.Err? || p.0 >= |rows| || p.1 >= |rows| || rows[p.0].index >= rows[p.1].index then acc
    else
      match score(rows[p.0].name, rows[p.1].name)
      case Err(e) => Err(e)
      case Ok(r) => if r.totalReward > 0.0 then Ok(acc.value + [Entry(rows[p.0], rows[p.1], r)]) else acc
  }

  /** The cells in order. */
  function Scan(rows: seq<FrameRow>, score: PairScore, ps: seq<(nat, nat)>): Result<seq<CombinationOptimizer.Combination>> {
    if ps == [] then Ok([]) else Cell(Scan(rows, score, ps[..|ps| - 1]), rows, score, ps[|ps| - 1])
  }

  /** The first ten rows, every ordered pair of them, by descending monthly reward,
      the first ten. */
  function FindBestOf(rows: seq<FrameRow>, score: PairScore): Result<seq<CombinationOptimizer.Combination>> {
    var top := Ranking.Take(rows, 10);
    match Scan(top, score, Grid(|top|, 0, |top|))
    case Err(e) => Err(e)
    case Ok(list) => Ok(Ranking.Take(Ranking.SortDesc(list, CombinationOptimizer.MonthlyReward), 10))
  }

  /** `find_best_card_combinations`; the rate and the detailed results it is passed are
      not used. */
  function FindBestCombinations(rows: seq<FrameRow>, c: CardLoader.Catalog, s: UserSpending)
    : Result<seq<CombinationOptimizer.Combination>>
  {
    FindBestOf(rows, PairScoreOf(c, s))
  }

  /** `score` combines each pair of names (the trigger keeps the solver from unfolding
      the combination where it is not needed). */
  ghost predicate Pairing(name1: string, name2: string) {
    true
  }

  ghost predicate PairScores(score: PairScore, c: CardLoader.Catalog, s: UserSpending) {
    forall name1, name2 {:trigger Pairing(name1, name2)} :: score(name1, name2) == CombineTwoCards(c, name1, name2, s)
  }

  lemma PairScoreOfScores(c: CardLoader.Catalog, s: UserSpending)
    ensures PairScores(PairScoreOf(c, s), c, s)
  {
  }

  method FindBestCardCombinations(rows: seq<FrameRow>, c: CardLoader.Catalog, s: UserSpending)
    returns (r: Result<seq<CombinationOptimizer.Combination>>)
    ensures r == FindBestCombinations(rows, c, s)
  {
    PairScoreOfScores(c, s);
    ghost var score := PairScoreOf(c, s);
    var top := Ranking.Take(rows, 10);
    var n := |top|;
    var list: seq<CombinationOptimizer.Combination> := [];
    var a := 0;
    while a < n
      invariant 0 <= a <= n
      invariant Scan(top, score, Grid(a, 0, n)) == Ok(list)
    {
      var row := ScanRow(top, c, s, score, a, list);
      if row.Err? {
        ScanStaysFailed(top, score, a + 1, n);
        return Err(row.error);
      }
      list := row.value;
      a := a + 1;
    }
    r := Ok(Ranking.Take(Ranking.SortDesc(list, CombinationOptimizer.MonthlyReward), 10));
  }

  /** The inner loop over row `a`. */
  method ScanRow(top: seq<FrameRow>, c: CardLoader.Catalog, s: UserSpending, ghost score: PairScore, a: nat,
                 list: seq<CombinationOptimizer.Combination>)
    returns (r: Result<seq<CombinationOptimizer.Combination>>)
    requires a < |top| && PairScores(score, c, s)
    requires Scan(top, score, Grid(a, 0, |top|)) == Ok(list)
    ensures r == Scan(top, score, Grid(a + 1, 0, |top|))
  {
    var n := |top|;
    var acc := list;
    var b := 0;
    while b < n
      invariant 0 <= b <= n
      invariant Scan(top, score, Grid(a, b, n)) == Ok(acc)
    {
      ScanSnoc(top, score, Grid(a, b, n), (a, b));
      if top[a].index < top[b].index {
        var combined := Combine(c, s, score, top[a].name, top[b].name);
        if combined.Err? {
          ScanFailedRow(top, score, a, b + 1, n);
          return Err(combined.error);
        }
        if combined.value.totalReward > 0.0 {
          acc := acc + [Entry(top[a], top[b], combined.value)];
        }
      }
      b := b + 1;
    }
    r := Ok(acc);
  }

  /** One call of `combine_two_cards_rewards`. */
  method Combine(c: CardLoader.Catalog, s: UserSpending, ghost score: PairScore, name1: string, name2: string)
    returns (r: Result<CombinationOptimizer.Combined>)
    requires PairScores(score, c, s)
    ensures r == score(name1, name2)
  {
    r := CombineTwoCardsRewards(c, name1, name2, s);
    assert Pairing(name1, name2);
  }

  lemma ScanSnoc(rows: seq<FrameRow>, score: PairScore, ps: seq<(nat, nat)>, p: (nat, nat))
    ensures Scan(rows, score, ps + [p]) == Cell(Scan(rows, score, ps), rows, score, p)
  {
    assert (ps + [p])[..|ps|] == ps;
  }

  /** A failure stays: no later cell changes a failed search. */
  lemma {:induction false} ScanFailedStays(rows: seq<FrameRow>, score: PairScore, ps: seq<(nat, nat)>, rest: seq<(nat, nat)>)
    requires Scan(rows, score, ps).Err?
    ensures Scan(rows, score, ps + rest) == Scan(rows, score, ps)
    decreases |rest|
  {
    if rest != [] {
      var init := rest[..|rest| - 1];
      ScanFailedStays(rows, score, ps, init);
      assert rest == init + [rest[|rest| - 1]];
      assert ps + rest == (ps + init) + [rest[|rest| - 1]];
      ScanSnoc(rows, score, ps + init, rest[|rest| - 1]);
    } else {
      assert ps + rest == ps;
    }
  }

  /** The cells met up to `(a, b)` start the cells met up to the end of row `a`. */
  lemma {:induction false} GridRowPrefix(a: nat, b: nat, n: nat) returns (rest: seq<(nat, nat)>)
    requires b <= n
    ensures Grid(a, n, n) == Grid(a, b, n) + rest
    decreases n - b
  {
    if b < n {
      var r := GridRowPrefix(a, b + 1, n);
      rest := [(a, b)] + r;
    } else {
      rest := [];
    }
  }

  /** The rows up to `a` start the whole grid. */
  lemma {:induction false} GridPrefix(a: nat, n: nat) returns (rest: seq<(nat, nat)>)
    requires a <= n
    ensures Grid(n, 0, n) == Grid(a, 0, n) + rest
    decreases n - a
  {
    if a < n {
      var r := GridPrefix(a + 1, n);
      var row := GridRowPrefix(a, 0, n);
      rest := row + r;
    } else {
      rest := [];
    }
  }

  /** A failure at cell `(a, b - 1)` fails the rest of row `a`. */
  lemma ScanFailedRow(rows: seq<FrameRow>, score: PairScore, a: nat, b: nat, n: nat)
    requires b <= n && Scan(rows, score, Grid(a, b, n)).Err?
    ensures Scan(rows, score, Grid(a + 1, 0, n)) == Scan(rows, score, Grid(a, b, n))
  {
    var rest := GridRowPrefix(a, b, n);
    ScanFailedStays(rows, score, Grid(a, b, n), rest);
  }

  /** A failure in the rows before `a` fails the whole search. */
  lemma ScanStaysFailed(rows: seq<FrameRow>, score: PairScore, a: nat, n: nat)
    requires a <= n && Scan(rows, score, Grid(a, 0, n)).Err?
    ensures Scan(rows, score, Grid(n, 0, n)) == Scan(rows, score, Grid(a, 0, n))
  {
    var rest := GridPrefix(a, n);
    ScanFailedStays(rows, score, Grid(a, 0, n), rest);
  }

  /** Every listed pair earns something and comes from a cell whose rows are in
      increasing label order and whose combination succeeded. */
  lemma {:induction false} ScanEntryFrom(rows: seq<FrameRow>, score: PairScore, ps: seq<(nat, nat)>, k: nat)
    returns (m: nat)
    requires Scan(rows, score, ps).Ok? && k < |Scan(rows, score, ps).value|
    ensures m < |ps| && ps[m].0 < |rows| && ps[m].1 < |rows| && rows[ps[m].0].index < rows[ps[m].1].index
    ensures score(rows[ps[m].0].name, rows[ps[m].1].name).Ok?
    ensures var r := score(rows[ps[m].0].name, rows[ps[m].1].name).value;
            r.totalReward > 0.0 && Scan(rows, score, ps).value[k] == Entry(rows[ps[m].0], rows[ps[m].1], r)
  {
    var init := ps[..|ps| - 1];
    var before := Scan(rows, score, init);
    if before.Ok? && k < |before.value| && Scan(rows, score, ps).value[k] == before.value[k] {
      m := ScanEntryFrom(rows, score, init, k);
    } else {
      m := |ps| - 1;
    }
  }

  /** The listed pairs only grow as the cells go by. */
  lemma {:induction false} ScanGrows(rows: seq<FrameRow>, score: PairScore, ps: seq<(nat, nat)>, m: nat)
    requires m <= |ps| && Scan(rows, score, ps).Ok?
    ensures Scan(rows, score, ps[..m]).Ok?
    ensures Scan(rows, score, ps[..m]).value <= Scan(rows, score, ps).value
    decreases |ps| - m
  {
    if m < |ps| {
      var init := ps[..|ps| - 1];
      ScanGrows(rows, score, init, m);
      assert init[..m] == ps[..m];
    } else {
      assert ps[..m] == ps;
    }
  }

  /** Every cell whose rows are in increasing label order and whose combination earns
      something is listed. */
  lemma ScanComplete(rows: seq<FrameRow>, score: PairScore, ps: seq<(nat, nat)>, m: nat, r: CombinationOptimizer.Combined)
    requires m < |ps| && ps[m].0 < |rows| && ps[m].1 < |rows| && rows[ps[m].0].index < rows[ps[m].1].index
    requires score(rows[ps[m].0].name, rows[ps[m].1].name) == Ok(r) && r.totalReward > 0.0
    requires Scan(rows, score, ps).Ok?
    ensures Entry(rows[ps[m].0], rows[ps[m].1], r) in Scan(rows, score, ps).value
  {
    ScanGrows(rows, score, ps, m + 1);
    assert ps[..m + 1] == ps[..m] + [ps[m]];
    ScanSnoc(rows, score, ps[..m], ps[m]);
    ScanGrows(rows, score, ps[..m + 1], m);
    assert ps[..m + 1][..m] == ps[..m];
    var list := Scan(rows, score, ps[..m + 1]).value;
    assert list[|list| - 1] == Entry(rows[ps[m].0], rows[ps[m].1], r);
    assert Scan(rows, score, ps).value[|list| - 1] == list[|list| - 1];
  }

  /** Each cell `(a, b)` of the grid is met. */
  lemma GridHas(a: nat, b: nat, n: nat) returns (m: nat)
    requires a < n && b < n
    ensures m < |Grid(n, 0, n)| && Grid(n, 0, n)[m] == (a, b)
  {
    var row := GridRowPrefix(a, b + 1, n);
    assert Grid(a + 1, 0, n) == Grid(a, n, n);
    var rest := GridPrefix(a + 1, n);
    m := |Grid(a, b, n)|;
    assert Grid(n, 0, n) == Grid(a, b, n) + [(a, b)] + row + rest;
  }

  /** At most ten pairs, by descending monthly reward, each earning something. */
  lemma FindBestBound(rows: seq<FrameRow>, score: PairScore)
    requires FindBestOf(rows, score).Ok?
    ensures |FindBestOf(rows, score).value| <= 10
    ensures Ranking.SortedDesc(FindBestOf(rows, score).value, CombinationOptimizer.MonthlyReward)
    ensures forall k :: 0 <= k < |FindBestOf(rows, score).value| ==> FindBestOf(rows, score).value[k].monthlyReward > 0.0
  {
    var top := Ranking.Take(rows, 10);
    var list := Scan(top, score, Grid(|top|, 0, |top|)).value;
    FindBestIsHead(rows, score, top, list);
    Ranking.HeadOfSorted(list, CombinationOptimizer.MonthlyReward, 10);
    var r := FindBestOf(rows, score).value;
    forall k | 0 <= k < |r|
      ensures r[k].monthlyReward > 0.0
    {
      var a, b := FindBestEntry(rows, score, k);
    }
  }

  /** The search's list is the first ten of the pairs of the first ten rows, sorted. */
  lemma FindBestIsHead(rows: seq<FrameRow>, score: PairScore, top: seq<FrameRow>,
                       list: seq<CombinationOptimizer.Combination>)
    requires FindBestOf(rows, score).Ok?
    requires top == Ranking.Take(rows, 10) && list == Scan(top, score, Grid(|top|, 0, |top|)).value
    ensures FindBestOf(rows, score).value == Ranking.Head(Ranking.SortDesc(list, CombinationOptimizer.MonthlyReward), 10)
  {
  }

  /** Each listed pair is the entry of two of the first ten rows, in increasing label
      order, whose combination earns something. */
  lemma FindBestEntry(rows: seq<FrameRow>, score: PairScore, k: nat) returns (a: nat, b: nat)
    requires FindBestOf(rows, score).Ok? && k < |FindBestOf(rows, score).value|
    ensures a < |rows| && b < |rows| && a < 10 && b < 10 && rows[a].index < rows[b].index
    ensures score(rows[a].name, rows[b].name).Ok? && score(rows[a].name, rows[b].name).value.totalReward > 0.0
    ensures FindBestOf(rows, score).value[k] == Entry(rows[a], rows[b], score(rows[a].name, rows[b].name).value)
  {
    var top := Ranking.Take(rows, 10);
    var ps := Grid(|top|, 0, |top|);
    var list := Scan(top, score, ps).value;
    FindBestIsHead(rows, score, top, list);
    var j := Ranking.HeadOfSortedFrom(list, CombinationOptimizer.MonthlyReward, 10, k);
    var m := ScanEntryFrom(top, score, ps, j);
    a, b := ps[m].0, ps[m].1;
    assert top[a] == rows[a] && top[b] == rows[b];
  }

  /** Every pair of the first ten rows in increasing label order that earns something
      is listed, unless ten pairs earning at least as much are. */
  lemma FindBestComplete(rows: seq<FrameRow>, score: PairScore, a: nat, b: nat, r: CombinationOptimizer.Combined)
    requires a < |rows| && b < |rows| && a < 10 && b < 10 && rows[a].index < rows[b].index
    requires score(rows[a].name, rows[b].name) == Ok(r) && r.totalReward > 0.0
    requires FindBestOf(rows, score).Ok?
    ensures var best := FindBestOf(rows, score).value;
            var e := Entry(rows[a], rows[b], r);
            e in best || (|best| == 10 && forall k :: 0 <= k < 10 ==> best[k].monthlyReward >= r.totalReward)
  {
    var top := Ranking.Take(rows, 10);
    var n := |top|;
    var ps := Grid(n, 0, n);
    var list := Scan(top, score, ps).value;
    var m := GridHas(a, b, n);
    ScanComplete(top, score, ps, m, r);
    Ranking.HeadOfSortedHas(list, CombinationOptimizer.MonthlyReward, 10, Entry(rows[a], rows[b], r));
  }
}
