/** The first generation of the engine, which reads one row of the wide card table (a
    "<Category> Rate" column per category). It computes a card's reward under an
    optional spend cap and applies its own UOB Lady's rule. A greedy two-card split
    spills spending over one card's reward cap onto the other card, and the five best
    cards are paired off. */
module LegacyCalculations {
  import opened Common
  import opened CardModel
  import opened PolicyTypes
  import opened Pairs
  import TrustCashback
  import CardCategories
  import Ranking

  /** A row of the wide card table. A NaN cell is `None`; `rates` maps every rate
      column the table has to its cell. */
  datatype CardRow = CardRow(
    name: string, issuer: string, cardType: string, cap: Option<real>, minSpend: Option<real>,
    baseRate: Option<real>, rates: map<string, Option<real>>, categories: Option<string>)

  /** The rate column of each category the table knows. */
  const RateColumns: map<string, string> := map[
    "dining" := "Dining Rate", "groceries" := "Groceries Rate", "petrol" := "Petrol Rate",
    "transport" := "Transport Rate", "streaming" := "Streaming Rate",
    "entertainment" := "Entertainment Rate", "utilities" := "Utilities Rate",
    "retail" := "Retail Rate", "online" := "Online Rate", "travel" := "Travel Rate",
    "overseas" := "Overseas Rate"]

  /** The rate a row gives a category. There is none when the category has no rate
      column, the table lacks that column, or the cell is NaN. */
  function RateOf(row: CardRow, cat: string): Option<real> {
    if cat in RateColumns && RateColumns[cat] in row.rates then row.rates[RateColumns[cat]] else None
  }

  /** What `spend` earns at `rate`: miles valued at `milesRate` on a Miles card, a
      percentage on any other card. */
  function Earned(row: CardRow, spend: real, rate: real, milesRate: real): real {
    if row.cardType == "Miles" then spend * rate * milesRate else spend * (rate / 100.0)
  }

  /** What one dollar of a category earns on the row. */
  function PerDollar(row: CardRow, cat: string, milesRate: real): real {
    match RateOf(row, cat)
    case None => 0.0
    case Some(rate) => Earned(row, 1.0, rate, milesRate)
  }

  // ---------------------------------------------------------------------
  // calculate_category_reward

  /** `calculate_category_reward`: nothing without a rate or without positive spend,
      otherwise an amount proportional to the spend. */
  function CategoryReward(row: CardRow, cat: string, spend: real, milesRate: real): (r: real)
    ensures r == (if spend <= 0.0 then 0.0 else spend * PerDollar(row, cat, milesRate))
    ensures RateOf(row, cat).None? ==> r == 0.0
  {
    match RateOf(row, cat)
    case None => 0.0
    case Some(rate) => if spend <= 0.0 then 0.0 else Earned(row, spend, rate, milesRate)
  }

  // ---------------------------------------------------------------------
  // calculate_uob_lady_reward

  const LadyCap: real := 1000.0
  const LadyBonus: real := 4.0
  const LadyBase: real := 0.4

  /** What the reward functions of this generation return: the reward, its breakdown,
      whether the cap was reached and by how much it was missed or passed, the reward
      before capping, and whether the minimum spend was met. */
  datatype Outcome = Outcome(reward: real, details: seq<Detail>, capReached: bool, capDiff: Option<real>,
                             originalReward: real, minSpendMet: bool)

  /** The categories with positive spend, 'total' aside, in dict order. */
  function Positive(d: SpendDict): (r: SpendDict)
    ensures forall k :: 0 <= k < |r| ==> r[k] in d && r[k].key != "total" && r[k].amount > 0.0
    ensures forall k :: 0 <= k < |d| && d[k].key != "total" && d[k].amount > 0.0 ==> d[k] in r
    ensures r == [] <==> forall k :: 0 <= k < |d| && d[k].key != "total" ==> d[k].amount <= 0.0
  {
    if d == [] then []
    else
      var rest := Positive(d[1..]);
      assert forall k :: 1 <= k < |d| ==> d[k] == d[1..][k - 1];
      (if d[0].key != "total" && d[0].amount > 0.0 then [d[0]] else []) + rest
  }

  /** `max(spending, key=spending.get)`: the position of the first entry holding the
      largest amount. */
  function FirstMax(es: SpendDict): (i: nat)
    requires es != []
    ensures i < |es|
    ensures forall k :: 0 <= k < |es| ==> es[k].amount <= es[i].amount
    ensures forall k :: 0 <= k < i ==> es[k].amount < es[i].amount
  {
    if |es| == 1 then 0
    else
      var j := FirstMax(es[1..]) + 1;
      assert es[j] == es[1..][j - 1];
      assert forall k :: 1 <= k < |es| ==> es[k] == es[1..][k - 1];
      if es[0].amount >= es[j].amount then 0 else j
  }

  /** The lines one dict entry adds: none for 'total' or a zero amount; for the chosen
      category 4 mpd on up to $1000 and 0.4 mpd on the rest; 0.4 mpd for any other. */
  function LadyEntry(e: Entry, chosen: string, milesRate: real): seq<Detail> {
    if e.key == "total" || e.amount == 0.0 then []
    else if e.key == chosen then
      var eligible := Min(e.amount, LadyCap);
      [MilesLine(e.key, eligible, LadyBonus, milesRate)]
      + (if eligible < e.amount then [MilesLine(e.key, e.amount - eligible, LadyBase, milesRate)] else [])
    else [MilesLine(e.key, e.amount, LadyBase, milesRate)]
  }

  /** The reward one dict entry adds, as the loop accumulates it. */
  function LadyValue(e: Entry, chosen: string, milesRate: real): real {
    if e.key == "total" || e.amount == 0.0 then 0.0
    else if e.key == chosen then
      var eligible := Min(e.amount, LadyCap);
      MilesValue(eligible, LadyBonus, milesRate)
      + (if eligible < e.amount then MilesValue(e.amount - eligible, LadyBase, milesRate) else 0.0)
    else MilesValue(e.amount, LadyBase, milesRate)
  }

  /** A running reward and the breakdown lines behind it. */
  datatype Tally = Tally(reward: real, details: seq<Detail>)

  /** One turn of the loop. */
  function LadyStep(t: Tally, e: Entry, chosen: string, milesRate: real): Tally {
    Tally(t.reward + LadyValue(e, chosen, milesRate), t.details + LadyEntry(e, chosen, milesRate))
  }

  /** The loop over the spending dict. */
  function LadyLines(d: SpendDict, chosen: string, milesRate: real): Tally {
    if d == [] then Tally(0.0, [])
    else LadyStep(LadyLines(d[..|d| - 1], chosen, milesRate), d[|d| - 1], chosen, milesRate)
  }

  const NoSpendingNote: string := "No spending in any category"

  /** `calculate_uob_lady_reward`. */
  /** The category the rule picks: the first entry of `Positive(d)` with the largest
      amount. */
  function LadyPick(d: SpendDict): Entry
    requires Positive(d) != []
  {
    Positive(d)[FirstMax(Positive(d))]
  }

  /** The outcome once `chosen` is picked and the loop has run to `t`. */
  function LadyOutcome(d: SpendDict, chosen: string, t: Tally): Outcome {
    var spent := Get(d, chosen);
    var reached := spent > LadyCap;
    Outcome(t.reward, [Note("Auto-selected category: " + chosen)] + t.details, reached,
            Some(if reached then spent - LadyCap else LadyCap - spent), t.reward, true)
  }

  /** `calculate_uob_lady_reward`. */
  function UobLadyReward(d: SpendDict, milesRate: real): Outcome {
    if Positive(d) == [] then Outcome(0.0, [Note(NoSpendingNote)], false, Some(0.0), 0.0, true)
    else LadyOutcome(d, LadyPick(d).key, LadyLines(d, LadyPick(d).key, milesRate))
  }

  method CalculateUobLadyReward(d: SpendDict, milesRate: real) returns (o: Outcome)
    ensures o == UobLadyReward(d, milesRate)
  {
    var pos := Positive(d);
    if pos == [] {
      return Outcome(0.0, [Note(NoSpendingNote)], false, Some(0.0), 0.0, true);
    }
    var chosen := pos[FirstMax(pos)].key;
    assert chosen == LadyPick(d).key;
    var details := [Note("Auto-selected category: " + chosen)];
    var t := LadyLoop(d, chosen, milesRate);
    var spent := Get(d, chosen);
    var reached := spent > LadyCap;
    var diff := if reached then spent - LadyCap else LadyCap - spent;
    o := Outcome(t.reward, details + t.details, reached, Some(diff), t.reward, true);
    assert o == LadyOutcome(d, chosen, t);
  }

  /** The loop of `calculate_uob_lady_reward` over the spending dict. */
  method LadyLoop(d: SpendDict, chosen: string, milesRate: real) returns (t: Tally)
    ensures t == LadyLines(d, chosen, milesRate)
  {
    var lines: seq<Detail> := [];
    var total := 0.0;
    var i := 0;
    while i < |d|
      invariant 0 <= i <= |d|
      invariant Tally(total, lines) == LadyLines(d[..i], chosen, milesRate)
    {
      assert d[..i + 1][..i] == d[..i];
      var cat, amount := d[i].key, d[i].amount;
      if cat != "total" && amount != 0.0 {
        var reward, added := LadyEntryLines(d[i], chosen, milesRate);
        lines := lines + added;
        total := total + reward;
      }
      i := i + 1;
    }
    assert d[..i] == d;
    t := Tally(total, lines);
  }

  /** The lines and the reward of one entry with spend outside 'total'. */
  method LadyEntryLines(e: Entry, chosen: string, milesRate: real) returns (reward: real, added: seq<Detail>)
    requires e.key != "total" && e.amount != 0.0
    ensures added == LadyEntry(e, chosen, milesRate) && reward == LadyValue(e, chosen, milesRate)
  {
    var cat, amount := e.key, e.amount;
    if cat == chosen {
      var eligible := Min(amount, LadyCap);
      reward := MilesValue(eligible, LadyBonus, milesRate);
      added := [Line(cat, eligible, LadyBonus, reward)];
      if eligible < amount {
        var remaining := amount - eligible;
        var remainingReward := MilesValue(remaining, LadyBase, milesRate);
        reward := reward + remainingReward;
        added := added + [Line(cat, remaining, LadyBase, remainingReward)];
      }
    } else {
      reward := MilesValue(amount, LadyBase, milesRate);
      added := [Line(cat, amount, LadyBase, reward)];
    }
  }

  // What the Lady's rule promises

  /** The spend the chosen category earns the bonus on: `min(amount, 1000)` for each
      entry under its key. */
  ghost function BonusSpend(d: SpendDict, chosen: string): real {
    if d == [] then 0.0
    else
      var e := d[|d| - 1];
      BonusSpend(d[..|d| - 1], chosen) + (if e.key == chosen && e.key != "total" && e.amount != 0.0 then Min(e.amount, LadyCap) else 0.0)
  }

  /** Every line is at one of the two Lady's rates and worth its amount in miles at
      that rate. */
  ghost predicate LadyShaped(details: seq<Detail>, milesRate: real) {
    forall k :: 0 <= k < |details| ==>
      details[k].Line? && (details[k].rate == LadyBonus || details[k].rate == LadyBase)
      && details[k].reward == MilesValue(details[k].spend, details[k].rate, milesRate)
  }

  /** What one entry's lines hold: its reward, its amount outside 'total', and the
      bonus part of it at 4 mpd. */
  lemma LadyEntryFacts(e: Entry, chosen: string, milesRate: real)
    ensures var ls := LadyEntry(e, chosen, milesRate);
            var bonus := if e.key == chosen && e.key != "total" && e.amount != 0.0 then Min(e.amount, LadyCap) else 0.0;
            var spent := if e.key == "total" then 0.0 else e.amount;
            && SumRewards(ls) == LadyValue(e, chosen, milesRate)
            && LadyShaped(ls, milesRate)
            && SumAmounts(ls) == spent
            && AmountAtRate(ls, LadyBonus) == bonus
            && AmountAtRate(ls, LadyBase) == spent - bonus
  {
    var ls := LadyEntry(e, chosen, milesRate);
    if |ls| == 1 {
      AppendLine([], ls[0], LadyBonus);
      AppendLine([], ls[0], LadyBase);
      assert [] + ls == ls;
    } else if |ls| == 2 {
      AppendLine([], ls[0], LadyBonus);
      AppendLine([], ls[0], LadyBase);
      AppendLine([ls[0]], ls[1], LadyBonus);
      AppendLine([ls[0]], ls[1], LadyBase);
      assert [ls[0]] + [ls[1]] == ls;
      assert [] + [ls[0]] == [ls[0]];
    }
  }

  /** Appending lines appends their sums. */
  lemma LadyAppend(a: seq<Detail>, b: seq<Detail>, milesRate: real)
    requires LadyShaped(a, milesRate) && LadyShaped(b, milesRate)
    ensures LadyShaped(a + b, milesRate)
    ensures SumRewards(a + b) == SumRewards(a) + SumRewards(b)
    ensures SumAmounts(a + b) == SumAmounts(a) + SumAmounts(b)
    ensures AmountAtRate(a + b, LadyBonus) == AmountAtRate(a, LadyBonus) + AmountAtRate(b, LadyBonus)
    ensures AmountAtRate(a + b, LadyBase) == AmountAtRate(a, LadyBase) + AmountAtRate(b, LadyBase)
  {
    SumRewardsAppend(a, b);
    SumAmountsAppend(a, b);
    AmountAtRateAppend(a, b, LadyBonus);
    AmountAtRateAppend(a, b, LadyBase);
  }

  /** The loop's lines: each is at one of the two rates and worth its amount in miles;
      their rewards add up to the reward; they cover the spend outside 'total' once,
      the chosen category's first $1000 at 4 mpd and every other dollar at 0.4 mpd. */
  lemma {:induction false} LadyLinesFacts(d: SpendDict, chosen: string, milesRate: real)
    ensures var t := LadyLines(d, chosen, milesRate);
            && t.reward == SumRewards(t.details) && LadyShaped(t.details, milesRate)
            && SumAmounts(t.details) == TrustCashback.NonTotalSpend(d)
            && AmountAtRate(t.details, LadyBonus) == BonusSpend(d, chosen)
            && AmountAtRate(t.details, LadyBase) == TrustCashback.NonTotalSpend(d) - BonusSpend(d, chosen)
    decreases |d|
  {
    if d != [] {
      var n := |d| - 1;
      LadyLinesFacts(d[..n], chosen, milesRate);
      var t := LadyLines(d[..n], chosen, milesRate);
      LadyEntryFacts(d[n], chosen, milesRate);
      LadyAppend(t.details, LadyEntry(d[n], chosen, milesRate), milesRate);
    }
  }

  /** No key but `chosen` earns the bonus. */
  lemma {:induction false} BonusSpendAbsent(d: SpendDict, chosen: string)
    requires forall k :: 0 <= k < |d| ==> d[k].key != chosen
    ensures BonusSpend(d, chosen) == 0.0
    decreases |d|
  {
    if d != [] {
      BonusSpendAbsent(d[..|d| - 1], chosen);
    }
  }

  /** In a dict, whose keys are distinct, the bonus goes to at most $1000 of the chosen
      category: the whole of it up to $1000. */
  lemma {:induction false} BonusSpendOfKey(d: SpendDict, chosen: string, i: nat)
    requires DistinctKeys(d) && i < |d| && d[i].key == chosen && chosen != "total" && d[i].amount != 0.0
    ensures BonusSpend(d, chosen) == Min(d[i].amount, LadyCap)
    decreases |d|
  {
    var n := |d| - 1;
    if i == n {
      BonusSpendAbsent(d[..n], chosen);
    } else {
      BonusSpendOfKey(d[..n], chosen, i);
    }
  }

  /** The chosen category is the first category with the largest positive spend. */
  lemma LadyChoice(d: SpendDict)
    requires Positive(d) != []
    ensures LadyPick(d) in d && LadyPick(d).key != "total" && LadyPick(d).amount > 0.0
    ensures forall k :: 0 <= k < |d| && d[k].key != "total" ==> d[k].amount <= LadyPick(d).amount
  {
    var pos := Positive(d);
    var e := LadyPick(d);
    forall k | 0 <= k < |d| && d[k].key != "total" ensures d[k].amount <= e.amount {
      if d[k].amount > 0.0 {
        assert d[k] in pos;
      }
    }
  }

  /** With no positive spend outside 'total' there is no reward, and the minimum spend
      counts as met. */
  lemma LadyNoSpending(d: SpendDict, milesRate: real)
    requires forall k :: 0 <= k < |d| && d[k].key != "total" ==> d[k].amount <= 0.0
    ensures var o := UobLadyReward(d, milesRate);
            o.reward == 0.0 && o.minSpendMet && !o.capReached
  {
  }

  /** The Lady's reward: the picked category earns 4 mpd on up to $1000 of its spend
      and every other dollar outside 'total' earns 0.4 mpd; the reward is the sum of
      the breakdown lines. */
  lemma LadyRewardWhole(d: SpendDict, milesRate: real, pick: Entry)
    requires DistinctKeys(d) && Positive(d) != [] && pick == LadyPick(d)
    ensures UobLadyReward(d, milesRate).reward == SumRewards(UobLadyReward(d, milesRate).details)
    ensures BonusSpend(d, pick.key) == Min(pick.amount, LadyCap)
    ensures UobLadyReward(d, milesRate).reward
            == MilesValue(BonusSpend(d, pick.key), LadyBonus, milesRate)
               + MilesValue(TrustCashback.NonTotalSpend(d) - BonusSpend(d, pick.key), LadyBase, milesRate)
  {
    LadyOutcomeReward(d, pick.key, milesRate);
    LadyBonusOfPick(d);
  }

  /** The reward once `chosen` is picked, split by rate. */
  lemma LadyOutcomeReward(d: SpendDict, chosen: string, milesRate: real)
    ensures var o := LadyOutcome(d, chosen, LadyLines(d, chosen, milesRate));
            o.reward == SumRewards(o.details)
    ensures LadyOutcome(d, chosen, LadyLines(d, chosen, milesRate)).reward
            == MilesValue(BonusSpend(d, chosen), LadyBonus, milesRate)
               + MilesValue(TrustCashback.NonTotalSpend(d) - BonusSpend(d, chosen), LadyBase, milesRate)
  {
    LadyLinesFacts(d, chosen, milesRate);
    LadyOutcomeOfLines(d, chosen, milesRate, LadyLines(d, chosen, milesRate));
  }

  /** The same, for any lines of the Lady's shape that split the spend that way. */
  lemma LadyOutcomeOfLines(d: SpendDict, chosen: string, milesRate: real, t: Tally)
    requires t.reward == SumRewards(t.details) && LadyShaped(t.details, milesRate)
    requires AmountAtRate(t.details, LadyBonus) == BonusSpend(d, chosen)
    requires AmountAtRate(t.details, LadyBase) == TrustCashback.NonTotalSpend(d) - BonusSpend(d, chosen)
    ensures var o := LadyOutcome(d, chosen, t);
            && o.reward == SumRewards(o.details)
            && o.reward == MilesValue(BonusSpend(d, chosen), LadyBonus, milesRate)
                           + MilesValue(TrustCashback.NonTotalSpend(d) - BonusSpend(d, chosen), LadyBase, milesRate)
  {
    LinesAtTwoRates(t.details, milesRate);
    LadyOutcomeSum(d, chosen, t);
  }

  /** The note in front of the lines earns nothing. */
  lemma LadyOutcomeSum(d: SpendDict, chosen: string, t: Tally)
    ensures LadyOutcome(d, chosen, t).reward == t.reward
    ensures SumRewards(LadyOutcome(d, chosen, t).details) == SumRewards(t.details)
  {
    var note := [Note("Auto-selected category: " + chosen)];
    SumRewardsAppend(note, t.details);
    assert SumRewards(note) == 0.0 by {
      assert note[..0] == [];
    }
  }

  /** The picked category's whole spend up to $1000 earns the bonus rate. */
  lemma LadyBonusOfPick(d: SpendDict)
    requires DistinctKeys(d) && Positive(d) != []
    ensures BonusSpend(d, LadyPick(d).key) == Min(LadyPick(d).amount, LadyCap)
  {
    var e := LadyPick(d);
    LadyChoice(d);
    var i :| 0 <= i < |d| && d[i] == e;
    BonusSpendOfKey(d, e.key, i);
  }

  /** The cap analysis of the Lady's rule: the cap counts as reached exactly when some
      category outside 'total' has more than $1000, and the difference is how far the
      picked category is from $1000; the minimum spend always counts as met and the
      reward is not capped further. */
  lemma LadyCapAnalysis(d: SpendDict, milesRate: real)
    requires DistinctKeys(d) && Positive(d) != []
    ensures UobLadyReward(d, milesRate).originalReward == UobLadyReward(d, milesRate).reward
    ensures UobLadyReward(d, milesRate).minSpendMet
    ensures UobLadyReward(d, milesRate).capReached
            <==> exists k :: 0 <= k < |d| && d[k].key != "total" && d[k].amount > LadyCap
    ensures UobLadyReward(d, milesRate).capDiff
            == Some(if LadyPick(d).amount > LadyCap then LadyPick(d).amount - LadyCap
                    else LadyCap - LadyPick(d).amount)
  {
    var e := LadyPick(d);
    var i := PickIndex(d);
    PickOverCap(d);
    LadyOutcomeCap(d, e.key, LadyLines(d, e.key, milesRate), i);
  }

  /** Where the picked entry stands in the dict. */
  lemma PickIndex(d: SpendDict) returns (i: nat)
    requires Positive(d) != []
    ensures i < |d| && d[i] == LadyPick(d)
  {
    LadyChoice(d);
    i :| i < |d| && d[i] == LadyPick(d);
  }

  /** The picked category passes $1000 exactly when some category outside 'total' does. */
  lemma PickOverCap(d: SpendDict)
    requires Positive(d) != []
    ensures LadyPick(d).amount > LadyCap
            <==> exists k :: 0 <= k < |d| && d[k].key != "total" && d[k].amount > LadyCap
  {
    var e := LadyPick(d);
    LadyChoice(d);
    var i :| 0 <= i < |d| && d[i] == e;
    if exists k :: 0 <= k < |d| && d[k].key != "total" && d[k].amount > LadyCap {
      var k :| 0 <= k < |d| && d[k].key != "total" && d[k].amount > LadyCap;
      assert d[k].amount <= e.amount;
    }
  }

  /** The cap status of the outcome follows the chosen category's own spend. */
  lemma LadyOutcomeCap(d: SpendDict, chosen: string, t: Tally, i: nat)
    requires DistinctKeys(d) && i < |d| && d[i].key == chosen
    ensures var o := LadyOutcome(d, chosen, t);
            && o.originalReward == o.reward && o.minSpendMet
            && (o.capReached <==> d[i].amount > LadyCap)
            && o.capDiff == Some(if d[i].amount > LadyCap then d[i].amount - LadyCap else LadyCap - d[i].amount)
  {
    GetAt(d, i);
  }

  /** Lines whose every reward is its amount times its rate in miles, at one of the two
      Lady's rates, are worth the miles on the amounts at each rate. */
  lemma {:induction false} LinesAtTwoRates(details: seq<Detail>, milesRate: real)
    requires LadyShaped(details, milesRate)
    ensures SumRewards(details) == MilesValue(AmountAtRate(details, LadyBonus), LadyBonus, milesRate)
                                   + MilesValue(AmountAtRate(details, LadyBase), LadyBase, milesRate)
    decreases |details|
  {
    if details != [] {
      var n := |details| - 1;
      LinesAtTwoRates(details[..n], milesRate);
    }
  }

  // ---------------------------------------------------------------------
  // calculate_card_reward_details

  const BaseRateNote: string := "Base rate (min spend not met)"
  const NoRewardNote: string := "No rewards - minimum spend not met"

  /** Whether the minimum spend is met: always without a minimum, otherwise when the
      'total' entry reaches it; with a minimum and no 'total' entry the lookup raises
      a KeyError. */
  function MinSpendMet(row: CardRow, d: SpendDict): Result<bool> {
    match row.minSpend
    case None => Ok(true)
    case Some(least) => if HasKey(d, "total") then Ok(Get(d, "total") >= least) else Err("KeyError: 'total'")
  }

  /** What a card that misses its minimum spend earns: its base rate on the whole
      'total', or nothing without one. */
  function BaseTally(row: CardRow, d: SpendDict, milesRate: real): Tally {
    match row.baseRate
    case None => Tally(0.0, [Note(NoRewardNote)])
    case Some(base) => Tally(Earned(row, Get(d, "total"), base, milesRate), [Note(BaseRateNote)])
  }

  /** The state of the capped loop: the reward so far, the spend counted against the
      cap, the lines, and whether the loop has broken off. */
  datatype CapRun = CapRun(reward: real, used: real, details: seq<Detail>, stopped: bool)

  /** One turn of the capped loop. 'total', zero amounts and categories without a
      rate are skipped; under a cap a category counts only what the cap has left,
      never less than nothing, and the loop stops once the cap is used up. */
  function CapStep(row: CardRow, st: CapRun, e: Entry, milesRate: real): CapRun {
    if st.stopped || e.key == "total" || e.amount == 0.0 || RateOf(row, e.key).None? then st
    else
      var rate := RateOf(row, e.key).value;
      var eligible := if row.cap.Some? then Max(0.0, Min(e.amount, row.cap.value - st.used)) else e.amount;
      var used := if row.cap.Some? then st.used + eligible else st.used;
      var reward := Earned(row, eligible, rate, milesRate);
      CapRun(st.reward + reward, used, st.details + [Line(e.key, eligible, rate, reward)],
             row.cap.Some? && used >= row.cap.value)
  }

  /** The capped loop over the spending dict. */
  function CapLines(row: CardRow, d: SpendDict, milesRate: real): CapRun {
    if d == [] then CapRun(0.0, 0.0, [], false)
    else CapStep(row, CapLines(row, d[..|d| - 1], milesRate), d[|d| - 1], milesRate)
  }

  /** The categories whose positive spend the cap analysis adds up ('retail' is not
      among them). */
  const CapCheckCategories: seq<string> := [
    "dining", "groceries", "petrol", "transport", "streaming", "entertainment",
    "utilities", "online", "travel", "overseas"]

  /** The positive spend over `cats`. */
  function PositiveSpendIn(d: SpendDict, cats: seq<string>): (r: real)
    ensures r >= 0.0
    ensures (forall k :: 0 <= k < |cats| ==> Get(d, cats[k]) <= 0.0) ==> r == 0.0
  {
    if cats == [] then 0.0
    else
      var v := Get(d, cats[|cats| - 1]);
      PositiveSpendIn(d, cats[..|cats| - 1]) + (if v > 0.0 then v else 0.0)
  }

  /** The outcome of a reward computed to `t`: the cap analysis compares the positive
      spend in the checked categories with the cap. */
  function CappedOutcome(row: CardRow, d: SpendDict, t: Tally, met: bool): Outcome {
    match row.cap
    case None => Outcome(t.reward, t.details, false, None, t.reward, met)
    case Some(cap) =>
      var spent := PositiveSpendIn(d, CapCheckCategories);
      if spent > cap then Outcome(t.reward, t.details, true, Some(spent - cap), t.reward, met)
      else Outcome(t.reward, t.details, false, Some(cap - spent), t.reward, met)
  }

  /** `calculate_card_reward_details`. */
  function CardRewardDetails(row: CardRow, d: SpendDict, milesRate: real): Result<Outcome> {
    if ContainsStr(row.name, "Lady") then Ok(UobLadyReward(d, milesRate))
    else
      match MinSpendMet(row, d)
      case Err(e) => Err(e)
      case Ok(met) =>
        var t := if met then var run := CapLines(row, d, milesRate); Tally(run.reward, run.details)
                 else BaseTally(row, d, milesRate);
        Ok(CappedOutcome(row, d, t, met))
  }

  method CalculateCardRewardDetails(row: CardRow, d: SpendDict, milesRate: real) returns (r: Result<Outcome>)
    ensures r == CardRewardDetails(row, d, milesRate)
  {
    if ContainsStr(row.name, "Lady") {
      var o := CalculateUobLadyReward(d, milesRate);
      return Ok(o);
    }
    var met := true;
    if row.minSpend.Some? {
      if !HasKey(d, "total") {
        return Err("KeyError: 'total'");
      }
      met := Get(d, "total") >= row.minSpend.value;
    }
    var t: Tally;
    if !met {
      t := BaseTally(row, d, milesRate);
    } else {
      t := CapLoop(row, d, milesRate);
    }
    r := Ok(CappedOutcome(row, d, t, met));
  }

  /** The loop of `calculate_card_reward_details` over the spending dict, which breaks
      off once the cap is used up. */
  method CapLoop(row: CardRow, d: SpendDict, milesRate: real) returns (t: Tally)
    ensures t == Tally(CapLines(row, d, milesRate).reward, CapLines(row, d, milesRate).details)
  {
    var reward, used, details := 0.0, 0.0, [];
    var i := 0;
    while i < |d|
      invariant 0 <= i <= |d|
      invariant CapLines(row, d[..i], milesRate) == CapRun(reward, used, details, false)
    {
      assert d[..i + 1][..i] == d[..i];
      var cat, amount := d[i].key, d[i].amount;
      var rate := RateOf(row, cat);
      if cat != "total" && amount != 0.0 && rate.Some? {
        var eligible := amount;
        if row.cap.Some? {
          eligible := Max(0.0, Min(amount, row.cap.value - used));
          used := used + eligible;
        }
        var earned := Earned(row, eligible, rate.value, milesRate);
        details := details + [Line(cat, eligible, rate.value, earned)];
        reward := reward + earned;
        if row.cap.Some? && used >= row.cap.value {
          assert CapLines(row, d[..i + 1], milesRate) == CapRun(reward, used, details, true);
          CapLinesStopped(row, d, i + 1, milesRate);
          return Tally(reward, details);
        }
      }
      i := i + 1;
    }
    assert d[..i] == d;
    t := Tally(reward, details);
  }

  /** Once the capped loop has stopped, the rest of the dict changes nothing. */
  lemma {:induction false} CapLinesStopped(row: CardRow, d: SpendDict, k: nat, milesRate: real)
    requires k <= |d| && CapLines(row, d[..k], milesRate).stopped
    ensures CapLines(row, d, milesRate) == CapLines(row, d[..k], milesRate)
    decreases |d|
  {
    if k < |d| {
      var n := |d| - 1;
      assert d[..n][..k] == d[..k];
      CapLinesStopped(row, d[..n], k, milesRate);
    } else {
      assert d[..k] == d;
    }
  }

  // What the capped loop promises

  /** Every line is worth its spend at its rate; the reward is the sum of the lines;
      under a cap the spend counted against it is the sum of the line spends, none
      of them negative, and it never passes the cap; the loop stops only under a
      cap that is used up. */
  ghost predicate CapInvariant(row: CardRow, r: CapRun, milesRate: real) {
    && r.reward == SumRewards(r.details)
    && (forall k :: 0 <= k < |r.details| ==>
          r.details[k].Line? && r.details[k].reward == Earned(row, r.details[k].spend, r.details[k].rate, milesRate))
    && (row.cap.Some? ==>
          && r.used == SumAmounts(r.details) && 0.0 <= r.used <= Max(0.0, row.cap.value)
          && forall k :: 0 <= k < |r.details| ==> r.details[k].spend >= 0.0)
    && (r.stopped ==> row.cap.Some? && r.used >= row.cap.value)
  }

  lemma CapStepKeeps(row: CardRow, st: CapRun, e: Entry, milesRate: real)
    requires CapInvariant(row, st, milesRate)
    ensures CapInvariant(row, CapStep(row, st, e, milesRate), milesRate)
  {
    var r := CapStep(row, st, e, milesRate);
    if r != st {
      var n := |st.details|;
      assert r.details[..n] == st.details;
    }
  }

  lemma {:induction false} CapLinesFacts(row: CardRow, d: SpendDict, milesRate: real)
    ensures CapInvariant(row, CapLines(row, d, milesRate), milesRate)
    decreases |d|
  {
    if d != [] {
      var n := |d| - 1;
      CapLinesFacts(row, d[..n], milesRate);
      CapStepKeeps(row, CapLines(row, d[..n], milesRate), d[n], milesRate);
    }
  }

  /** What `calculate_category_reward` gives the entries of `d` outside 'total'. */
  ghost function CategoryTotal(row: CardRow, d: SpendDict, milesRate: real): real {
    if d == [] then 0.0
    else
      var e := d[|d| - 1];
      CategoryTotal(row, d[..|d| - 1], milesRate)
      + (if e.key == "total" then 0.0 else CategoryReward(row, e.key, e.amount, milesRate))
  }

  /** Without a cap and without negative amounts, the loop earns exactly what
      `calculate_category_reward` gives each category. */
  lemma {:induction false} UncappedIsCategoryTotal(row: CardRow, d: SpendDict, milesRate: real)
    requires row.cap.None?
    requires forall k :: 0 <= k < |d| ==> d[k].amount >= 0.0
    ensures !CapLines(row, d, milesRate).stopped
    ensures CapLines(row, d, milesRate).reward == CategoryTotal(row, d, milesRate)
    decreases |d|
  {
    if d != [] {
      var n := |d| - 1;
      assert forall k :: 0 <= k < n ==> d[..n][k] == d[k];
      UncappedIsCategoryTotal(row, d[..n], milesRate);
    }
  }

  /** The card is looked up only for the Lady's rule by name; otherwise the only error
      is a minimum spend with no 'total' entry to compare it with. */
  lemma CardRewardErrors(row: CardRow, d: SpendDict, milesRate: real)
    ensures ContainsStr(row.name, "Lady") ==> CardRewardDetails(row, d, milesRate) == Ok(UobLadyReward(d, milesRate))
    ensures CardRewardDetails(row, d, milesRate).Err?
            <==> !ContainsStr(row.name, "Lady") && row.minSpend.Some? && !HasKey(d, "total")
  {
  }

  /** A card other than the Lady's: whether the minimum spend is met decides between
      the base rate on the whole 'total' and the capped category loop, whose reward is
      the sum of its lines and whose capped spend stays within the cap; the cap is
      reached exactly when the positive spend in the checked categories passes it, and
      the difference is the distance between the two. */
  lemma CardRewardOutcome(row: CardRow, d: SpendDict, milesRate: real, o: Outcome)
    requires !ContainsStr(row.name, "Lady") && CardRewardDetails(row, d, milesRate) == Ok(o)
    ensures o.originalReward == o.reward
    ensures o.minSpendMet <==> row.minSpend.None? || Get(d, "total") >= row.minSpend.value
    ensures !o.minSpendMet ==> o.reward == (if row.baseRate.None? then 0.0
                                            else Earned(row, Get(d, "total"), row.baseRate.value, milesRate))
    ensures o.minSpendMet ==> o.reward == SumRewards(o.details)
    ensures o.minSpendMet && row.cap.Some? ==> 0.0 <= SumAmounts(o.details) <= Max(0.0, row.cap.value)
    ensures o.capReached <==> row.cap.Some? && PositiveSpendIn(d, CapCheckCategories) > row.cap.value
    ensures o.capDiff.Some? <==> row.cap.Some?
    ensures row.cap.Some? ==> o.capDiff.value == Max(PositiveSpendIn(d, CapCheckCategories) - row.cap.value,
                                                     row.cap.value - PositiveSpendIn(d, CapCheckCategories))
  {
    var met := MinSpendMet(row, d).value;
    var t := if met then Tally(CapLines(row, d, milesRate).reward, CapLines(row, d, milesRate).details)
             else BaseTally(row, d, milesRate);
    assert o == CappedOutcome(row, d, t, met);
    CappedOutcomeFacts(row, d, t, met);
    if met {
      CapLinesFacts(row, d, milesRate);
    }
  }

  /** The cap analysis keeps the reward and the lines it is given. */
  lemma CappedOutcomeFacts(row: CardRow, d: SpendDict, t: Tally, met: bool)
    ensures var o := CappedOutcome(row, d, t, met);
            var spent := PositiveSpendIn(d, CapCheckCategories);
            && o.reward == t.reward && o.originalReward == t.reward && o.details == t.details && o.minSpendMet == met
            && (o.capReached <==> row.cap.Some? && spent > row.cap.value)
            && (o.capDiff.Some? <==> row.cap.Some?)
            && (row.cap.Some? ==> o.capDiff.value == Max(spent - row.cap.value, row.cap.value - spent))
  {
  }

  // ---------------------------------------------------------------------
  // combine_two_cards_rewards

  /** The categories the two-card split walks through, in order. */
  const ComboCategories: seq<string> := [
    "dining", "groceries", "petrol", "transport", "streaming", "entertainment",
    "utilities", "retail", "online", "travel", "overseas", "other"]

  /** How much of one category's spend goes on each card. */
  datatype Share = Share(card1: real, card2: real)

  /** The shares decided so far and the running reward of each card. */
  datatype Greedy = Greedy(shares: seq<Share>, tally1: real, tally2: real)

  /** `(cap - tally) / rpd`, or 0 without a positive rate, clamped to `[0, spend]`: the
      spend that still fits under what is left of a reward cap. */
  function SpillPoint(cap: real, tally: real, rpd: real, spend: real): (x: real)
    ensures 0.0 <= x && (spend >= 0.0 ==> x <= spend)
  {
    Max(0.0, Min(if rpd > 0.0 then (cap - tally) / rpd else 0.0, spend))
  }

  /** One category of the split: it goes to the card with the better reward per
      dollar (card 2 on a tie). */
  function GreedyStep(c1: CardRow, c2: CardRow, g: Greedy, cat: string, spend: real, milesRate: real): Greedy {
    if spend <= 0.0 then Greedy(g.shares + [Share(0.0, 0.0)], g.tally1, g.tally2)
    else
      var r1 := CategoryReward(c1, cat, spend, milesRate);
      var r2 := CategoryReward(c2, cat, spend, milesRate);
      if r1 / spend > r2 / spend then ToFirst(c1, c2, g, cat, spend, milesRate)
      else ToSecond(c1, c2, g, cat, spend, milesRate)
  }

  /** Card 1 wins the category. When its whole reward would push its running reward
      over its cap, it takes only the spend that fits and card 2 takes the rest. */
  function ToFirst(c1: CardRow, c2: CardRow, g: Greedy, cat: string, spend: real, milesRate: real): Greedy
    requires spend > 0.0
  {
    var r1 := CategoryReward(c1, cat, spend, milesRate);
    if c1.cap.Some? && g.tally1 + r1 > c1.cap.value then
      var x := SpillPoint(c1.cap.value, g.tally1, r1 / spend, spend);
      Greedy(g.shares + [Share(x, spend - x)], g.tally1 + CategoryReward(c1, cat, x, milesRate),
             g.tally2 + CategoryReward(c2, cat, spend - x, milesRate))
    else Greedy(g.shares + [Share(spend, 0.0)], g.tally1 + r1, g.tally2)
  }

  /** Card 2 wins the category, the mirror image of `ToFirst`. */
  function ToSecond(c1: CardRow, c2: CardRow, g: Greedy, cat: string, spend: real, milesRate: real): Greedy
    requires spend > 0.0
  {
    var r2 := CategoryReward(c2, cat, spend, milesRate);
    if c2.cap.Some? && g.tally2 + r2 > c2.cap.value then
      var x := SpillPoint(c2.cap.value, g.tally2, r2 / spend, spend);
      Greedy(g.shares + [Share(spend - x, x)], g.tally1 + CategoryReward(c1, cat, spend - x, milesRate),
             g.tally2 + CategoryReward(c2, cat, x, milesRate))
    else Greedy(g.shares + [Share(0.0, spend)], g.tally1, g.tally2 + r2)
  }

  /** The split over the first `n` categories. */
  function GreedyUpTo(c1: CardRow, c2: CardRow, d: SpendDict, milesRate: real, n: nat): (g: Greedy)
    requires n <= |ComboCategories|
    ensures |g.shares| == n
  {
    if n == 0 then Greedy([], 0.0, 0.0)
    else
      var cat := ComboCategories[n - 1];
      GreedyStep(c1, c2, GreedyUpTo(c1, c2, d, milesRate, n - 1), cat, Get(d, cat), milesRate)
  }

  /** The share of card 1 (`first`) or card 2. */
  function ShareOf(s: Share, first: bool): real {
    if first then s.card1 else s.card2
  }

  /** The final reward and lines of one card over the shares: every category with a
      positive share earns `calculate_category_reward` on it. A line shows the rate
      the card gives the category, 0 without one. */
  function FinalUpTo(row: CardRow, shares: seq<Share>, first: bool, milesRate: real): Tally
    requires |shares| <= |ComboCategories|
  {
    if shares == [] then Tally(0.0, [])
    else
      var k := |shares| - 1;
      FinalStep(FinalUpTo(row, shares[..k], first, milesRate), row, ComboCategories[k], ShareOf(shares[k], first), milesRate)
  }

  /** One category of `FinalUpTo`: a positive share `x` of `cat` adds its reward and a line. */
  function FinalStep(t: Tally, row: CardRow, cat: string, x: real, milesRate: real): Tally {
    if x > 0.0 then
      var r := CategoryReward(row, cat, x, milesRate);
      Tally(t.reward + r, t.details + [Line(cat, x, OrElse(RateOf(row, cat), 0.0), r)])
    else t
  }

  /** The shares up to `k + 1` are those up to `k` and one category more. */
  lemma FinalUpToSnoc(row: CardRow, shares: seq<Share>, k: nat, first: bool, milesRate: real)
    requires k < |shares| <= |ComboCategories|
    ensures FinalUpTo(row, shares[..k + 1], first, milesRate)
         == FinalStep(FinalUpTo(row, shares[..k], first, milesRate), row, ComboCategories[k], ShareOf(shares[k], first), milesRate)
  {
    assert shares[..k + 1][..k] == shares[..k];
  }

  /** One card's share of one category in the second loop of `combine_two_cards_rewards`. */
  method AddShare(total: real, details: seq<Detail>, row: CardRow, cat: string, x: real, milesRate: real)
    returns (total': real, details': seq<Detail>)
    ensures Tally(total', details') == FinalStep(Tally(total, details), row, cat, x, milesRate)
  {
    total', details' := total, details;
    if x > 0.0 {
      var r := CategoryReward(row, cat, x, milesRate);
      total' := total' + r;
      details' := details' + [Line(cat, x, OrElse(RateOf(row, cat), 0.0), r)];
    }
  }

  /** The result of a two-card split. */
  datatype Combo = Combo(allocation: seq<Share>, card1Reward: real, card2Reward: real, totalReward: real,
                         details1: seq<Detail>, details2: seq<Detail>)

  /** `combine_two_cards_rewards`. */
  function CombineTwo(c1: CardRow, c2: CardRow, d: SpendDict, milesRate: real): Combo {
    var g := GreedyUpTo(c1, c2, d, milesRate, |ComboCategories|);
    var f1 := FinalUpTo(c1, g.shares, true, milesRate);
    var f2 := FinalUpTo(c2, g.shares, false, milesRate);
    Combo(g.shares, f1.reward, f2.reward, f1.reward + f2.reward, f1.details, f2.details)
  }

  method CombineTwoCardsRewards(c1: CardRow, c2: CardRow, d: SpendDict, milesRate: real) returns (c: Combo)
    ensures c == CombineTwo(c1, c2, d, milesRate)
  {
    var g := SplitSpending(c1, c2, d, milesRate);
    var f1, f2 := FinalRewards(c1, c2, g.shares, milesRate);
    c := Combo(g.shares, f1.reward, f2.reward, f1.reward + f2.reward, f1.details, f2.details);
  }

  /** The first loop of `combine_two_cards_rewards`: the split, category by category. */
  method SplitSpending(c1: CardRow, c2: CardRow, d: SpendDict, milesRate: real) returns (g: Greedy)
    ensures g == GreedyUpTo(c1, c2, d, milesRate, |ComboCategories|)
  {
    g := Greedy([], 0.0, 0.0);
    var i := 0;
    while i < |ComboCategories|
      invariant 0 <= i <= |ComboCategories|
      invariant GreedyUpTo(c1, c2, d, milesRate, i) == g
    {
      var cat := ComboCategories[i];
      g := SplitCategory(c1, c2, g, cat, Get(d, cat), milesRate);
      i := i + 1;
    }
  }

  /** One turn of the first loop: where one category's spend goes. */
  method SplitCategory(c1: CardRow, c2: CardRow, g: Greedy, cat: string, spend: real, milesRate: real)
    returns (next: Greedy)
    ensures next == GreedyStep(c1, c2, g, cat, spend, milesRate)
  {
    var shares, tally1, tally2 := g.shares, g.tally1, g.tally2;
    if spend <= 0.0 {
      return Greedy(shares + [Share(0.0, 0.0)], tally1, tally2);
    }
    var r1 := CategoryReward(c1, cat, spend, milesRate);
    var r2 := CategoryReward(c2, cat, spend, milesRate);
    var rpd1 := r1 / spend;
    var rpd2 := r2 / spend;
    if rpd1 > rpd2 {
      if c1.cap.Some? && tally1 + r1 > c1.cap.value {
        var x := SpillPoint(c1.cap.value, tally1, rpd1, spend);
        shares := shares + [Share(x, spend - x)];
        tally1 := tally1 + CategoryReward(c1, cat, x, milesRate);
        tally2 := tally2 + CategoryReward(c2, cat, spend - x, milesRate);
      } else {
        shares := shares + [Share(spend, 0.0)];
        tally1 := tally1 + r1;
      }
    } else {
      if c2.cap.Some? && tally2 + r2 > c2.cap.value {
        var x := SpillPoint(c2.cap.value, tally2, rpd2, spend);
        shares := shares + [Share(spend - x, x)];
        tally1 := tally1 + CategoryReward(c1, cat, spend - x, milesRate);
        tally2 := tally2 + CategoryReward(c2, cat, x, milesRate);
      } else {
        shares := shares + [Share(0.0, spend)];
        tally2 := tally2 + r2;
      }
    }
    next := Greedy(shares, tally1, tally2);
  }

  /** The second loop of `combine_two_cards_rewards`: each card's reward and lines on
      its shares. */
  method FinalRewards(c1: CardRow, c2: CardRow, shares: seq<Share>, milesRate: real) returns (f1: Tally, f2: Tally)
    requires |shares| == |ComboCategories|
    ensures f1 == FinalUpTo(c1, shares, true, milesRate) && f2 == FinalUpTo(c2, shares, false, milesRate)
  {
    var final1, final2 := 0.0, 0.0;
    var details1: seq<Detail>, details2: seq<Detail> := [], [];
    var k := 0;
    while k < |shares|
      invariant 0 <= k <= |shares| == |ComboCategories|
      invariant FinalUpTo(c1, shares[..k], true, milesRate) == Tally(final1, details1)
      invariant FinalUpTo(c2, shares[..k], false, milesRate) == Tally(final2, details2)
    {
      var cat := ComboCategories[k];
      FinalUpToSnoc(c1, shares, k, true, milesRate);
      FinalUpToSnoc(c2, shares, k, false, milesRate);
      final1, details1 := AddShare(final1, details1, c1, cat, shares[k].card1, milesRate);
      final2, details2 := AddShare(final2, details2, c2, cat, shares[k].card2, milesRate);
      k := k + 1;
    }
    assert shares[..k] == shares;
    f1, f2 := Tally(final1, details1), Tally(final2, details2);
  }

  // What the split promises

  /** The reward per dollar the split compares is the row's rate per dollar. */
  lemma RewardPerDollar(row: CardRow, cat: string, spend: real, milesRate: real)
    requires spend > 0.0
    ensures CategoryReward(row, cat, spend, milesRate) / spend == PerDollar(row, cat, milesRate)
  {
    var p := PerDollar(row, cat, milesRate);
    assert CategoryReward(row, cat, spend, milesRate) == spend * p;
    assert (spend * p) / spend == p;
  }

  /** A category's shares: nothing is allocated without positive spend; otherwise the
      two shares are in `[0, spend]` and add up to the spend, and a winner without a
      cap takes it all (card 2 on a tie). */
  ghost predicate ShareFits(c1: CardRow, c2: CardRow, cat: string, spend: real, s: Share, milesRate: real) {
    && (spend <= 0.0 ==> s == Share(0.0, 0.0))
    && (spend > 0.0 ==> 0.0 <= s.card1 <= spend && 0.0 <= s.card2 <= spend && s.card1 + s.card2 == spend)
    && (spend > 0.0 && PerDollar(c1, cat, milesRate) > PerDollar(c2, cat, milesRate) && c1.cap.None?
        ==> s == Share(spend, 0.0))
    && (spend > 0.0 && PerDollar(c1, cat, milesRate) <= PerDollar(c2, cat, milesRate) && c2.cap.None?
        ==> s == Share(0.0, spend))
  }

  /** One turn appends one fitting share, and each card's running reward grows by
      what its new share earns. */
  lemma GreedyStepFacts(c1: CardRow, c2: CardRow, g: Greedy, cat: string, spend: real, milesRate: real, next: Greedy)
    requires next == GreedyStep(c1, c2, g, cat, spend, milesRate)
    ensures next.shares[..|g.shares|] == g.shares && |next.shares| == |g.shares| + 1
    ensures ShareFits(c1, c2, cat, spend, next.shares[|g.shares|], milesRate)
    ensures next.tally1 == g.tally1 + CategoryReward(c1, cat, next.shares[|g.shares|].card1, milesRate)
    ensures next.tally2 == g.tally2 + CategoryReward(c2, cat, next.shares[|g.shares|].card2, milesRate)
  {
    if spend > 0.0 {
      RewardPerDollar(c1, cat, spend, milesRate);
      RewardPerDollar(c2, cat, spend, milesRate);
    }
    assert next.shares[..|g.shares|] == g.shares;
  }

  lemma {:induction false} GreedyShares(c1: CardRow, c2: CardRow, d: SpendDict, milesRate: real, n: nat)
    requires n <= |ComboCategories|
    ensures forall k :: 0 <= k < n ==>
              ShareFits(c1, c2, ComboCategories[k], Get(d, ComboCategories[k]),
                        GreedyUpTo(c1, c2, d, milesRate, n).shares[k], milesRate)
  {
    if n > 0 {
      var prev := GreedyUpTo(c1, c2, d, milesRate, n - 1);
      var cat := ComboCategories[n - 1];
      var g := GreedyUpTo(c1, c2, d, milesRate, n);
      GreedyShares(c1, c2, d, milesRate, n - 1);
      GreedyStepFacts(c1, c2, prev, cat, Get(d, cat), milesRate, g);
      forall k | 0 <= k < n - 1
        ensures g.shares[k] == prev.shares[k]
      {
        assert g.shares[k] == g.shares[..n - 1][k];
      }
    }
  }

  /** What a split earns: each card's category reward on its share of each category. */
  ghost function SplitValue(c1: CardRow, c2: CardRow, shares: seq<Share>, milesRate: real): real
    requires |shares| <= |ComboCategories|
  {
    if shares == [] then 0.0
    else
      var k := |shares| - 1;
      var cat := ComboCategories[k];
      SplitValue(c1, c2, shares[..k], milesRate)
      + CategoryReward(c1, cat, shares[k].card1, milesRate) + CategoryReward(c2, cat, shares[k].card2, milesRate)
  }

  /** The running rewards the cap checks use are the final rewards of the two cards,
      and together they are what the split earns. */
  lemma {:induction false} GreedyTallies(c1: CardRow, c2: CardRow, d: SpendDict, milesRate: real, n: nat, g: Greedy)
    requires n <= |ComboCategories| && g == GreedyUpTo(c1, c2, d, milesRate, n)
    ensures g.tally1 == FinalUpTo(c1, g.shares, true, milesRate).reward
    ensures g.tally2 == FinalUpTo(c2, g.shares, false, milesRate).reward
    ensures g.tally1 + g.tally2 == SplitValue(c1, c2, g.shares, milesRate)
  {
    if n > 0 {
      var prev := GreedyUpTo(c1, c2, d, milesRate, n - 1);
      var cat := ComboCategories[n - 1];
      GreedyTallies(c1, c2, d, milesRate, n - 1, prev);
      GreedyStepFacts(c1, c2, prev, cat, Get(d, cat), milesRate, g);
    }
  }

  /** The better of the two cards on each whole category. */
  ghost function BestOfBoth(c1: CardRow, c2: CardRow, d: SpendDict, milesRate: real, n: nat): real
    requires n <= |ComboCategories|
  {
    if n == 0 then 0.0
    else
      var cat := ComboCategories[n - 1];
      BestOfBoth(c1, c2, d, milesRate, n - 1)
      + Max(CategoryReward(c1, cat, Get(d, cat), milesRate), CategoryReward(c2, cat, Get(d, cat), milesRate))
  }

  /** Without caps every category goes whole to the better card. */
  lemma {:induction false} GreedyBestWithoutCaps(c1: CardRow, c2: CardRow, d: SpendDict, milesRate: real, n: nat)
    requires c1.cap.None? && c2.cap.None? && n <= |ComboCategories|
    ensures SplitValue(c1, c2, GreedyUpTo(c1, c2, d, milesRate, n).shares, milesRate) == BestOfBoth(c1, c2, d, milesRate, n)
  {
    if n > 0 {
      var prev := GreedyUpTo(c1, c2, d, milesRate, n - 1);
      var g := GreedyUpTo(c1, c2, d, milesRate, n);
      var cat := ComboCategories[n - 1];
      var spend := Get(d, cat);
      GreedyBestWithoutCaps(c1, c2, d, milesRate, n - 1);
      GreedyStepFacts(c1, c2, prev, cat, spend, milesRate, g);
      assert g.shares[..n - 1] == prev.shares;
      var s := g.shares[n - 1];
      var here := CategoryReward(c1, cat, s.card1, milesRate) + CategoryReward(c2, cat, s.card2, milesRate);
      var best := Max(CategoryReward(c1, cat, spend, milesRate), CategoryReward(c2, cat, spend, milesRate));
      if spend > 0.0 {
        PerDollarOrder(c1, c2, cat, spend, milesRate);
      }
      assert here == best;
      assert SplitValue(c1, c2, g.shares, milesRate) == SplitValue(c1, c2, prev.shares, milesRate) + here;
    }
  }

  /** On positive spend the card with the better rate per dollar earns more. */
  lemma PerDollarOrder(c1: CardRow, c2: CardRow, cat: string, spend: real, milesRate: real)
    requires spend > 0.0
    ensures PerDollar(c1, cat, milesRate) > PerDollar(c2, cat, milesRate)
            ==> CategoryReward(c1, cat, spend, milesRate) > CategoryReward(c2, cat, spend, milesRate)
    ensures PerDollar(c1, cat, milesRate) <= PerDollar(c2, cat, milesRate)
            ==> CategoryReward(c1, cat, spend, milesRate) <= CategoryReward(c2, cat, spend, milesRate)
  {
    var p1, p2 := PerDollar(c1, cat, milesRate), PerDollar(c2, cat, milesRate);
    if p1 > p2 {
      assert spend * p1 > spend * p2;
    } else {
      assert spend * p1 <= spend * p2;
    }
  }

  /** A share pair that puts the whole positive spend of the category on the two
      cards, none of it negative. */
  predicate Conserves(spend: real, s: Share) {
    s.card1 >= 0.0 && s.card2 >= 0.0 && s.card1 + s.card2 == Max(0.0, spend)
  }

  /** However a category's spend is divided, the two parts earn no more than the
      better card earns on all of it. */
  lemma ShareBound(c1: CardRow, c2: CardRow, cat: string, spend: real, s: Share, milesRate: real)
    requires Conserves(spend, s)
    ensures CategoryReward(c1, cat, s.card1, milesRate) + CategoryReward(c2, cat, s.card2, milesRate)
            <= Max(CategoryReward(c1, cat, spend, milesRate), CategoryReward(c2, cat, spend, milesRate))
  {
    RewardAt(c1, cat, s.card1, milesRate);
    RewardAt(c2, cat, s.card2, milesRate);
    SplitNoBetter(s.card1, s.card2, spend, PerDollar(c1, cat, milesRate), PerDollar(c2, cat, milesRate),
                  CategoryReward(c1, cat, spend, milesRate), CategoryReward(c2, cat, spend, milesRate));
  }

  /** The same, on the amounts: shares at two rates earn no more than the better rate
      on the whole spend. */
  lemma SplitNoBetter(a: real, b: real, spend: real, p1: real, p2: real, r1: real, r2: real)
    requires a >= 0.0 && b >= 0.0 && a + b == Max(0.0, spend)
    requires r1 == (if spend <= 0.0 then 0.0 else spend * p1)
    requires r2 == (if spend <= 0.0 then 0.0 else spend * p2)
    ensures a * p1 + b * p2 <= Max(r1, r2)
  {
    if spend > 0.0 {
      MixBound(a, b, spend, p1, p2);
    } else {
      assert a == 0.0 && b == 0.0;
      assert a * p1 == 0.0 && b * p2 == 0.0;
    }
  }

  /** A share that is not negative earns its amount at the card's reward per dollar. */
  lemma RewardAt(row: CardRow, cat: string, x: real, milesRate: real)
    requires x >= 0.0
    ensures CategoryReward(row, cat, x, milesRate) == x * PerDollar(row, cat, milesRate)
  {
    if x == 0.0 {
      assert 0.0 * PerDollar(row, cat, milesRate) == 0.0;
    }
  }

  /** Dividing an amount between two rates earns no more than the better rate on all
      of it. */
  lemma MixBound(a: real, b: real, t: real, p1: real, p2: real)
    requires a >= 0.0 && b >= 0.0 && a + b == t
    ensures a * p1 + b * p2 <= Max(t * p1, t * p2)
  {
    if p1 >= p2 {
      assert b * (p1 - p2) >= 0.0;
      assert t * p1 == a * p1 + b * p1;
    } else {
      assert a * (p2 - p1) >= 0.0;
      assert t * p2 == a * p2 + b * p2;
    }
  }

  /** No division of the categories between the two cards earns more than the better
      card on each whole category. */
  lemma {:induction false} SplitBound(c1: CardRow, c2: CardRow, d: SpendDict, shares: seq<Share>, milesRate: real)
    requires |shares| <= |ComboCategories|
    requires forall k :: 0 <= k < |shares| ==> Conserves(Get(d, ComboCategories[k]), shares[k])
    ensures SplitValue(c1, c2, shares, milesRate) <= BestOfBoth(c1, c2, d, milesRate, |shares|)
  {
    if shares != [] {
      var k := |shares| - 1;
      var cat := ComboCategories[k];
      var spend := Get(d, cat);
      assert forall j :: 0 <= j < k ==> shares[..k][j] == shares[j];
      SplitBound(c1, c2, d, shares[..k], milesRate);
      ShareBound(c1, c2, cat, spend, shares[k], milesRate);
      var here := CategoryReward(c1, cat, shares[k].card1, milesRate) + CategoryReward(c2, cat, shares[k].card2, milesRate);
      var best := Max(CategoryReward(c1, cat, spend, milesRate), CategoryReward(c2, cat, spend, milesRate));
      assert SplitValue(c1, c2, shares, milesRate) == SplitValue(c1, c2, shares[..k], milesRate) + here;
      assert BestOfBoth(c1, c2, d, milesRate, |shares|) == BestOfBoth(c1, c2, d, milesRate, k) + best;
    }
  }

  /** The split's result: every category's shares fit; each card's reward is what its
      shares earn, and the total is their sum. Without caps the split earns the better
      card on every category, and no other division of the spending earns more. */
  lemma CombineTwoFacts(c1: CardRow, c2: CardRow, d: SpendDict, milesRate: real, c: Combo)
    requires c == CombineTwo(c1, c2, d, milesRate)
    ensures |c.allocation| == |ComboCategories|
    ensures forall k :: 0 <= k < |ComboCategories| ==>
              ShareFits(c1, c2, ComboCategories[k], Get(d, ComboCategories[k]), c.allocation[k], milesRate)
    ensures c.totalReward == c.card1Reward + c.card2Reward == SplitValue(c1, c2, c.allocation, milesRate)
    ensures c1.cap.None? && c2.cap.None? ==> c.totalReward == BestOfBoth(c1, c2, d, milesRate, |ComboCategories|)
  {
    var n := |ComboCategories|;
    var g := GreedyUpTo(c1, c2, d, milesRate, n);
    GreedyShares(c1, c2, d, milesRate, n);
    GreedyTallies(c1, c2, d, milesRate, n, g);
    if c1.cap.None? && c2.cap.None? {
      GreedyBestWithoutCaps(c1, c2, d, milesRate, n);
    }
  }

  /** Without caps the split is optimal: no division of the spending between the two
      cards earns more. */
  lemma CombineOptimalWithoutCaps(c1: CardRow, c2: CardRow, d: SpendDict, milesRate: real, shares: seq<Share>)
    requires c1.cap.None? && c2.cap.None? && |shares| == |ComboCategories|
    requires forall k :: 0 <= k < |shares| ==> Conserves(Get(d, ComboCategories[k]), shares[k])
    ensures SplitValue(c1, c2, shares, milesRate) <= CombineTwo(c1, c2, d, milesRate).totalReward
  {
    CombineTwoFacts(c1, c2, d, milesRate, CombineTwo(c1, c2, d, milesRate));
    SplitBound(c1, c2, d, shares, milesRate);
  }

  /** When the winner's cap bites and the spend that fits is inside `[0, spend]`, the
      winner's running reward lands exactly on its cap. */
  lemma SpillFillsCap(row: CardRow, cat: string, cap: real, tally: real, spend: real, milesRate: real)
    requires spend > 0.0 && PerDollar(row, cat, milesRate) > 0.0 && tally <= cap
    requires (cap - tally) / PerDollar(row, cat, milesRate) <= spend
    ensures var rpd := CategoryReward(row, cat, spend, milesRate) / spend;
            tally + CategoryReward(row, cat, SpillPoint(cap, tally, rpd, spend), milesRate) == cap
  {
    var p := PerDollar(row, cat, milesRate);
    RewardPerDollar(row, cat, spend, milesRate);
    var x := (cap - tally) / p;
    assert x * p == cap - tally;
    assert SpillPoint(cap, tally, p, spend) == x;
  }

  // ---------------------------------------------------------------------
  // find_best_card_combinations

  /** A row of the single-card results table. */
  datatype ResultRow = ResultRow(name: string, monthlyReward: real, capReached: bool)

  /** One card name of the results table and its best monthly reward. */
  datatype Group = Group(name: string, best: real)

  function Best(g: Group): real { g.best }

  /** Where `name`'s group is, or `|gs|` when there is none. */
  function GroupIndex(gs: seq<Group>, name: string): (i: nat)
    ensures i <= |gs|
    ensures i < |gs| ==> gs[i].name == name
    ensures i == |gs| ==> forall k :: 0 <= k < |gs| ==> gs[k].name != name
  {
    if gs == [] then 0
    else if gs[|gs| - 1].name == name then |gs| - 1
    else
      var i := GroupIndex(gs[..|gs| - 1], name);
      if i == |gs| - 1 then |gs| else i
  }

  /** Where a new group called `name` goes: after the groups whose names sort before it. */
  function InsertAt(gs: seq<Group>, name: string): (p: nat)
    ensures p <= |gs|
    ensures forall k :: 0 <= k < p ==> StrBefore(gs[k].name, name)
    ensures p < |gs| ==> !StrBefore(gs[p].name, name)
  {
    if gs == [] || !StrBefore(gs[0].name, name) then 0 else 1 + InsertAt(gs[1..], name)
  }

  /** Takes one result row into the groups, which are kept in name order. */
  function Absorb(gs: seq<Group>, row: ResultRow): seq<Group> {
    var i := GroupIndex(gs, row.name);
    if i == |gs| then
      var p := InsertAt(gs, row.name);
      gs[..p] + [Group(row.name, row.monthlyReward)] + gs[p..]
    else gs[i := Group(row.name, Max(gs[i].best, row.monthlyReward))]
  }

  /** `groupby('Card Name')['Monthly Reward'].max()`: one group per card name, the
      groups sorted by name. */
  function GroupBest(rows: seq<ResultRow>): seq<Group> {
    if rows == [] then [] else Absorb(GroupBest(rows[..|rows| - 1]), rows[|rows| - 1])
  }

  function Names(gs: seq<Group>): (r: seq<string>)
    ensures |r| == |gs| && forall k :: 0 <= k < |gs| ==> r[k] == gs[k].name
  {
    if gs == [] then [] else Names(gs[..|gs| - 1]) + [gs[|gs| - 1].name]
  }

  /** The groups by best reward, descending. */
  function RankedGroups(rows: seq<ResultRow>): seq<Group> {
    Ranking.SortDesc(GroupBest(rows), Best)
  }

  /** `.sort_values(ascending=False).head(5).index`: the five best card names. */
  function TopCards(rows: seq<ResultRow>): seq<string> {
    Names(Ranking.Take(RankedGroups(rows), 5))
  }

  /** `df_filtered[df_filtered['Name'] == name].iloc[0]`, or nothing. */
  function FirstNamed(cards: seq<CardRow>, name: string): (r: Option<CardRow>)
    ensures r.Some? ==> r.value in cards && r.value.name == name
    ensures r.None? <==> forall k :: 0 <= k < |cards| ==> cards[k].name != name
  {
    if cards == [] then None
    else if cards[0].name == name then Some(cards[0])
    else FirstNamed(cards[1..], name)
  }

  /** A two-card entry of the results table. */
  datatype LegacyEntry = LegacyEntry(
    name: string, issuer: string, categories: set<string>, monthlyReward: real, capReached: bool,
    originalReward: real, minSpendMet: bool, card1Reward: real, card2Reward: real)

  /** The entry for two cards and their split: named after both, with both issuers
      and the union of their categories; the split's total is its reward, it counts
      as under any cap and as meeting any minimum spend. */
  function EntryOf(n1: string, n2: string, a: CardRow, b: CardRow, c: Combo): LegacyEntry {
    var cats := CardCategories.GetCardCategories(a.categories) + CardCategories.GetCardCategories(b.categories);
    LegacyEntry(n1 + " + " + n2, a.issuer + " + " + b.issuer, set k | 0 <= k < |cats| :: cats[k],
                c.totalReward, false, c.totalReward, true, c.card1Reward, c.card2Reward)
  }

  /** The entry of the pair `p` of the top list, when both names have a card row. */
  function PairEntryOf(top: seq<string>, cards: seq<CardRow>, d: SpendDict, milesRate: real, p: (nat, nat))
    : Option<LegacyEntry>
  {
    if p.0 >= |top| || p.1 >= |top| then None
    else
      var a := FirstNamed(cards, top[p.0]);
      var b := FirstNamed(cards, top[p.1]);
      if a.None? || b.None? then None
      else Some(EntryOf(top[p.0], top[p.1], a.value, b.value, CombineTwo(a.value, b.value, d, milesRate)))
  }

  /** One pair of the loops: its entry, if any, is appended. */
  function PairVisit(acc: seq<LegacyEntry>, top: seq<string>, cards: seq<CardRow>, d: SpendDict, milesRate: real,
                     p: (nat, nat)): seq<LegacyEntry>
  {
    var e := PairEntryOf(top, cards, d, milesRate, p);
    if e.Some? then acc + [e.value] else acc
  }

  /** What a visit of one pair does to the entries so far; the search is stated for
      any visit and `FindBestLegacy` fixes it to `PairVisit`. */
  type Visitor = (seq<LegacyEntry>, (nat, nat)) -> seq<LegacyEntry>

  /** The entries after visiting the pairs `ps` in order. */
  function Gather(visit: Visitor, ps: seq<(nat, nat)>): seq<LegacyEntry> {
    if ps == [] then []
    else
      var k := |ps| - 1;
      visit(Gather(visit, ps[..k]), ps[k])
  }

  /** `PairVisit` for a fixed top list, card table and dict. */
  function PairVisitor(top: seq<string>, cards: seq<CardRow>, d: SpendDict, milesRate: real): Visitor {
    (acc: seq<LegacyEntry>, p: (nat, nat)) => PairVisit(acc, top, cards, d, milesRate, p)
  }

  /** `find_best_card_combinations` of the first generation. */
  function FindBestLegacy(results: seq<ResultRow>, cards: seq<CardRow>, d: SpendDict, milesRate: real)
    : seq<LegacyEntry>
  {
    var top := TopCards(results);
    Gather(PairVisitor(top, cards, d, milesRate), AllPairs(|top|))
  }

  /** Gathering one pair more visits that pair last. */
  lemma GatherSnoc(visit: Visitor, ps: seq<(nat, nat)>, p: (nat, nat))
    ensures Gather(visit, ps + [p]) == visit(Gather(visit, ps), p)
  {
    assert (ps + [p])[..|ps|] == ps;
  }

  /** The pairs the loops have met when the inner loop of row `i` reaches `j`. */
  function Met(i: nat, j: nat, n: nat): seq<(nat, nat)> {
    PairsUpTo(i, n) + RowUpTo(i, j)
  }

  /** The inner loop of row `i` starts where the rows before it ended. */
  lemma RowStart(i: nat, n: nat)
    ensures Met(i, i + 1, n) == PairsUpTo(i, n)
  {
    RowUpToFacts(i, i + 1);
  }

  /** One step of the inner loop of row `i` meets the pair `(i, j)`. */
  lemma RowStep(i: nat, j: nat, n: nat)
    requires i < j
    ensures Met(i, j + 1, n) == Met(i, j, n) + [(i, j)]
  {
    assert RowUpTo(i, j + 1) == RowUpTo(i, j) + [(i, j)];
  }

  /** The whole row `i` ends where the next row starts. */
  lemma RowEnd(i: nat, n: nat)
    ensures Met(i, n, n) == PairsUpTo(i + 1, n)
  {
  }

  /** Visiting the pair `(i, j)` after the pairs met so far meets one pair more. */
  lemma RowAdvance(visit: Visitor, r: seq<LegacyEntry>, next: seq<LegacyEntry>, i: nat, j: nat, n: nat)
    requires i < j && r == Gather(visit, Met(i, j, n)) && next == visit(r, (i, j))
    ensures next == Gather(visit, Met(i, j + 1, n))
  {
    RowStep(i, j, n);
    GatherSnoc(visit, Met(i, j, n), (i, j));
  }

  ghost predicate Visiting(acc: seq<LegacyEntry>, p: (nat, nat)) {
    true
  }

  /** The visit is `PairVisit` on the given top list, card table and dict. */
  ghost predicate Visits(visit: Visitor, top: seq<string>, cards: seq<CardRow>, d: SpendDict, milesRate: real) {
    forall acc, p {:trigger Visiting(acc, p)} :: visit(acc, p) == PairVisit(acc, top, cards, d, milesRate, p)
  }

  /** One pair of the loops, as the source computes it. */
  method VisitPair(acc: seq<LegacyEntry>, top: seq<string>, cards: seq<CardRow>, d: SpendDict, milesRate: real,
                   ghost visit: Visitor, i: nat, j: nat) returns (r: seq<LegacyEntry>)
    requires i < |top| && j < |top| && Visits(visit, top, cards, d, milesRate)
    ensures r == visit(acc, (i, j))
  {
    r := acc;
    var a := FirstNamed(cards, top[i]);
    var b := FirstNamed(cards, top[j]);
    if a.Some? && b.Some? {
      var c := CombineTwoCardsRewards(a.value, b.value, d, milesRate);
      r := r + [EntryOf(top[i], top[j], a.value, b.value, c)];
    }
    assert Visiting(acc, (i, j));
  }

  /** One step of the inner loop: the pair `(i, j)` after the pairs met before it. */
  method VisitNext(acc: seq<LegacyEntry>, top: seq<string>, cards: seq<CardRow>, d: SpendDict, milesRate: real,
                   ghost visit: Visitor, i: nat, j: nat) returns (r: seq<LegacyEntry>)
    requires i < j < |top| && Visits(visit, top, cards, d, milesRate)
    requires acc == Gather(visit, Met(i, j, |top|))
    ensures r == Gather(visit, Met(i, j + 1, |top|))
  {
    r := VisitPair(acc, top, cards, d, milesRate, visit, i, j);
    RowAdvance(visit, acc, r, i, j, |top|);
  }

  /** The inner loop: card `i` against every later card of the top list. */
  method VisitRow(acc: seq<LegacyEntry>, top: seq<string>, cards: seq<CardRow>, d: SpendDict, milesRate: real,
                  ghost visit: Visitor, i: nat) returns (r: seq<LegacyEntry>)
    requires i < |top| && Visits(visit, top, cards, d, milesRate)
    requires acc == Gather(visit, PairsUpTo(i, |top|))
    ensures r == Gather(visit, PairsUpTo(i + 1, |top|))
  {
    var n := |top|;
    var j := i + 1;
    r := acc;
    RowStart(i, n);
    while j < n
      invariant i + 1 <= j <= n
      invariant r == Gather(visit, Met(i, j, n))
    {
      r := VisitNext(r, top, cards, d, milesRate, visit, i, j);
      j := j + 1;
    }
    RowEnd(i, n);
  }

  method FindBestCardCombinations(results: seq<ResultRow>, cards: seq<CardRow>, d: SpendDict, milesRate: real)
    returns (r: seq<LegacyEntry>)
    ensures r == FindBestLegacy(results, cards, d, milesRate)
  {
    var top := TopCards(results);
    ghost var visit := PairVisitor(top, cards, d, milesRate);
    r := [];
    var i := 0;
    while i < |top|
      invariant 0 <= i <= |top|
      invariant r == Gather(visit, PairsUpTo(i, |top|))
    {
      r := VisitRow(r, top, cards, d, milesRate, visit, i);
      i := i + 1;
    }
  }

  /** No two groups carry the same card name. */
  ghost predicate DistinctNames(gs: seq<Group>) {
    forall a, b :: 0 <= a < b < |gs| ==> gs[a].name != gs[b].name
  }

  /** The groups' names in ascending order, as `groupby` sorts its keys. */
  ghost predicate NamesAscending(gs: seq<Group>) {
    forall a, b :: 0 <= a < b < |gs| ==> StrBefore(gs[a].name, gs[b].name)
  }

  lemma AscendingDistinct(gs: seq<Group>)
    requires NamesAscending(gs)
    ensures DistinctNames(gs)
  {
    forall a, b | 0 <= a < b < |gs| ensures gs[a].name != gs[b].name {
      StrBeforeIrreflexive(gs[a].name);
    }
  }

  lemma IndexOfName(gs: seq<Group>, name: string, j: nat)
    requires DistinctNames(gs) && j < |gs| && gs[j].name == name
    ensures GroupIndex(gs, name) == j
  {
  }

  /** The group a row makes or raises. */
  function Absorbed(gs: seq<Group>, row: ResultRow): Group {
    var i := GroupIndex(gs, row.name);
    Group(row.name, if i == |gs| then row.monthlyReward else Max(gs[i].best, row.monthlyReward))
  }

  /** Past its insertion point, a new name sorts before every name. */
  lemma InsertAtAfter(gs: seq<Group>, name: string)
    requires NamesAscending(gs) && forall k :: 0 <= k < |gs| ==> gs[k].name != name
    ensures forall k :: InsertAt(gs, name) <= k < |gs| ==> StrBefore(name, gs[k].name)
  {
    var p := InsertAt(gs, name);
    forall k | p <= k < |gs| ensures StrBefore(name, gs[k].name) {
      StrBeforeTotal(name, gs[p].name);
      if k > p {
        StrBeforeTransitive(name, gs[p].name, gs[k].name);
      }
    }
  }

  /** A group put between the names before it and the names after it keeps the
      names ascending. */
  lemma InsertAscending(gs: seq<Group>, g: Group, p: nat)
    requires NamesAscending(gs) && p <= |gs|
    requires forall k :: 0 <= k < p ==> StrBefore(gs[k].name, g.name)
    requires forall k :: p <= k < |gs| ==> StrBefore(g.name, gs[k].name)
    ensures NamesAscending(gs[..p] + [g] + gs[p..])
  {
    var r := gs[..p] + [g] + gs[p..];
    assert forall k :: 0 <= k < p ==> r[k] == gs[k];
    assert r[p] == g;
    assert forall k :: p < k < |r| ==> r[k] == gs[k - 1];
  }

  /** The groups after one more row: a new group for a new name, put at its place,
      else that name's best raised to the row's reward when it is larger; every other
      group stays. */
  lemma AbsorbFacts(gs: seq<Group>, row: ResultRow)
    requires NamesAscending(gs)
    ensures var r := Absorb(gs, row);
            && NamesAscending(r) && DistinctNames(r)
            && Absorbed(gs, row) in r
            && (forall g :: g in r ==> g == Absorbed(gs, row) || (g in gs && g.name != row.name))
            && (forall g :: g in gs && g.name != row.name ==> g in r)
  {
    var i := GroupIndex(gs, row.name);
    var r := Absorb(gs, row);
    var g := Absorbed(gs, row);
    if i == |gs| {
      var p := InsertAt(gs, row.name);
      InsertAtAfter(gs, row.name);
      InsertAscending(gs, g, p);
      assert r == gs[..p] + [g] + gs[p..];
      InsertMembers(gs, g, p);
    } else {
      AscendingDistinct(gs);
      assert r == gs[i := g];
      UpdateMembers(gs, i, g);
    }
    AscendingDistinct(r);
  }

  /** What a group put at `p` leaves in the list: it, and the groups there before. */
  lemma InsertMembers(gs: seq<Group>, g: Group, p: nat)
    requires p <= |gs| && forall k :: 0 <= k < |gs| ==> gs[k].name != g.name
    ensures var r := gs[..p] + [g] + gs[p..];
            && g in r
            && (forall x :: x in r ==> x == g || (x in gs && x.name != g.name))
            && (forall x :: x in gs ==> x in r)
  {
    var r := gs[..p] + [g] + gs[p..];
    assert r[p] == g;
    forall x | x in r ensures x == g || (x in gs && x.name != g.name) {
      var k :| 0 <= k < |r| && r[k] == x;
      if k != p {
        assert x == gs[if k < p then k else k - 1];
      }
    }
    forall x | x in gs ensures x in r {
      var k :| 0 <= k < |gs| && gs[k] == x;
      assert x == r[if k < p then k else k + 1];
    }
  }

  /** What replacing the group of `g`'s name leaves in the list. */
  lemma UpdateMembers(gs: seq<Group>, i: nat, g: Group)
    requires DistinctNames(gs) && i < |gs| && gs[i].name == g.name
    ensures var r := gs[i := g];
            && g in r
            && (forall x :: x in r ==> x == g || (x in gs && x.name != g.name))
            && (forall x :: x in gs && x.name != g.name ==> x in r)
  {
    var r := gs[i := g];
    assert r[i] == g;
    forall x | x in r ensures x == g || (x in gs && x.name != g.name) {
      var k :| 0 <= k < |r| && r[k] == x;
      if k != i {
        assert x == gs[k];
      }
    }
    forall x | x in gs && x.name != g.name ensures x in r {
      var k :| 0 <= k < |gs| && gs[k] == x;
      assert x == r[k];
    }
  }

  /** Every row's name has a group whose best is at least the row's reward. */
  ghost predicate Covers(gs: seq<Group>, rows: seq<ResultRow>) {
    forall k :: 0 <= k < |rows| ==>
      GroupIndex(gs, rows[k].name) < |gs| && gs[GroupIndex(gs, rows[k].name)].best >= rows[k].monthlyReward
  }

  /** Every group's best is the reward of some row with its name. */
  ghost predicate Witnessed(gs: seq<Group>, rows: seq<ResultRow>) {
    forall g :: 0 <= g < |gs| ==>
      exists k :: 0 <= k < |rows| && rows[k].name == gs[g].name && rows[k].monthlyReward == gs[g].best
  }

  lemma CoversStep(gs: seq<Group>, rows: seq<ResultRow>, row: ResultRow)
    requires NamesAscending(gs) && Covers(gs, rows)
    ensures Covers(Absorb(gs, row), rows + [row])
  {
    AbsorbFacts(gs, row);
    AscendingDistinct(gs);
    var r := Absorb(gs, row);
    var g := Absorbed(gs, row);
    var all := rows + [row];
    var j :| 0 <= j < |r| && r[j] == g;
    forall k | 0 <= k < |all|
      ensures GroupIndex(r, all[k].name) < |r| && r[GroupIndex(r, all[k].name)].best >= all[k].monthlyReward
    {
      if k == |rows| || all[k].name == row.name {
        IndexOfName(r, row.name, j);
        if k < |rows| {
          assert all[k] == rows[k];
        }
      } else {
        assert all[k] == rows[k];
        var h := gs[GroupIndex(gs, rows[k].name)];
        assert h in gs;
        var q :| 0 <= q < |r| && r[q] == h;
        IndexOfName(r, rows[k].name, q);
      }
    }
  }

  lemma WitnessedStep(gs: seq<Group>, rows: seq<ResultRow>, row: ResultRow)
    requires NamesAscending(gs) && Witnessed(gs, rows)
    ensures Witnessed(Absorb(gs, row), rows + [row])
  {
    AbsorbFacts(gs, row);
    var r := Absorb(gs, row);
    var i := GroupIndex(gs, row.name);
    var all := rows + [row];
    forall g | 0 <= g < |r|
      ensures exists k :: 0 <= k < |all| && all[k].name == r[g].name && all[k].monthlyReward == r[g].best
    {
      assert r[g] in r;
      if r[g] == Absorbed(gs, row) && (i == |gs| || row.monthlyReward >= gs[i].best) {
        assert all[|rows|].name == r[g].name && all[|rows|].monthlyReward == r[g].best;
      } else {
        var a := if r[g] == Absorbed(gs, row) then i else GroupIndex(gs, r[g].name);
        assert gs[a] == r[g] by {
          if r[g] != Absorbed(gs, row) {
            var c :| 0 <= c < |gs| && gs[c] == r[g];
            AscendingDistinct(gs);
            IndexOfName(gs, r[g].name, c);
          }
        }
        var k :| 0 <= k < |rows| && rows[k].name == gs[a].name && rows[k].monthlyReward == gs[a].best;
        assert all[k] == rows[k];
      }
    }
  }

  /** `groupby(...).max()`: one group per card name, in name order, and each group's
      best is the largest monthly reward of the rows with that name. */
  lemma {:induction false} GroupBestFacts(rows: seq<ResultRow>)
    ensures NamesAscending(GroupBest(rows)) && DistinctNames(GroupBest(rows))
    ensures Covers(GroupBest(rows), rows)
    ensures Witnessed(GroupBest(rows), rows)
  {
    if rows != [] {
      var init := rows[..|rows| - 1];
      var row := rows[|rows| - 1];
      GroupBestFacts(init);
      assert rows == init + [row];
      AbsorbFacts(GroupBest(init), row);
      CoversStep(GroupBest(init), init, row);
      WitnessedStep(GroupBest(init), init, row);
    }
  }

  /** A group ranked after the first `t` comes from a position at or past `t`. */
  lemma RankedAfter(ranked: seq<Group>, t: nat, g: Group) returns (q: nat)
    requires t <= |ranked| && g in ranked && g.name !in Names(ranked[..t])
    ensures q < |ranked| && ranked[q] == g && q >= t
  {
    q :| 0 <= q < |ranked| && ranked[q] == g;
    if q < t {
      assert false;
    }
  }

  /** A row whose card is not among the top names earned no more than any top group's best. */
  lemma LeftOutRow(rows: seq<ResultRow>, k: nat, a: nat)
    requires k < |rows| && a < |TopCards(rows)| && rows[k].name !in TopCards(rows)
    ensures RankedGroups(rows)[a].best >= rows[k].monthlyReward
  {
    var gs := GroupBest(rows);
    var ranked := RankedGroups(rows);
    var t := |TopCards(rows)|;
    Ranking.SortDescSorted(gs, Best);
    Ranking.SortDescPermutation(gs, Best);
    GroupBestFacts(rows);
    var g := gs[GroupIndex(gs, rows[k].name)];
    assert g.best >= rows[k].monthlyReward;
    assert g in multiset(ranked);
    var q := RankedAfter(ranked, t, g);
    assert Best(ranked[a]) >= Best(ranked[q]);
  }

  /** `.sort_values(ascending=False).head(5)`: at most five names, those of the
      groups ranked first by best reward; a card left out of them never earned more
      in any row than any card kept. */
  lemma TopCardsFacts(rows: seq<ResultRow>)
    ensures var top := TopCards(rows);
            var ranked := RankedGroups(rows);
            && |top| == (if |GroupBest(rows)| < 5 then |GroupBest(rows)| else 5)
            && Ranking.SortedDesc(ranked, Best)
            && multiset(ranked) == multiset(GroupBest(rows))
            && top == Names(ranked[..|top|])
            && (forall k, a :: 0 <= k < |rows| && 0 <= a < |top| && rows[k].name !in top ==>
                  ranked[a].best >= rows[k].monthlyReward)
  {
    Ranking.SortDescSorted(GroupBest(rows), Best);
    Ranking.SortDescPermutation(GroupBest(rows), Best);
    forall k, a | 0 <= k < |rows| && 0 <= a < |TopCards(rows)| && rows[k].name !in TopCards(rows)
      ensures RankedGroups(rows)[a].best >= rows[k].monthlyReward
    {
      LeftOutRow(rows, k, a);
    }
  }

  /** Keeping the groups of one best reward keeps the names ascending. */
  lemma {:induction false} WithKeyAscending(gs: seq<Group>, v: real)
    requires NamesAscending(gs)
    ensures NamesAscending(Ranking.WithKey(gs, Best, v))
  {
    if gs != [] {
      var rest := Ranking.WithKey(gs[1..], Best, v);
      WithKeyAscending(gs[1..], v);
      Ranking.WithKeyIn(gs[1..], Best, v);
      if gs[0].best == v {
        var w := [gs[0]] + rest;
        assert Ranking.WithKey(gs, Best, v) == w;
        forall a, b | 0 <= a < b < |w| ensures StrBefore(w[a].name, w[b].name) {
          if a == 0 {
            assert w[b] in gs[1..];
            var k :| 0 <= k < |gs[1..]| && gs[1..][k] == w[b];
            assert gs[0].name == w[0].name && gs[k + 1] == w[b];
          } else {
            assert w[a] == rest[a - 1] && w[b] == rest[b - 1];
          }
        }
      } else {
        assert Ranking.WithKey(gs, Best, v) == rest;
      }
    }
  }

  /** Cards whose best rewards tie are ranked in name order, as the stable
      descending sort leaves the name-sorted groups of equal reward. */
  lemma RankedTiesByName(rows: seq<ResultRow>, a: nat, b: nat)
    requires a < b < |RankedGroups(rows)| && RankedGroups(rows)[a].best == RankedGroups(rows)[b].best
    ensures StrBefore(RankedGroups(rows)[a].name, RankedGroups(rows)[b].name)
  {
    var gs := GroupBest(rows);
    var ranked := RankedGroups(rows);
    var v := ranked[a].best;
    GroupBestFacts(rows);
    Ranking.SortDescStable(gs, Best, v);
    WithKeyAscending(gs, v);
    var x, y := TiesInWithKey(ranked, v, a, b);
  }

  /** Two elements of key `v`, in order, are two elements of `WithKey(s, v)` in order. */
  lemma {:induction false} TiesInWithKey(s: seq<Group>, v: real, a: nat, b: nat) returns (x: nat, y: nat)
    requires a < b < |s| && s[a].best == v && s[b].best == v
    ensures x < y < |Ranking.WithKey(s, Best, v)|
    ensures Ranking.WithKey(s, Best, v)[x] == s[a] && Ranking.WithKey(s, Best, v)[y] == s[b]
  {
    var w := Ranking.WithKey(s, Best, v);
    var rest := Ranking.WithKey(s[1..], Best, v);
    var h := if s[0].best == v then [s[0]] else [];
    assert w == h + rest;
    if a == 0 {
      var y' := WithKeyHas(s[1..], v, b - 1);
      x, y := 0, y' + 1;
    } else {
      var x', y' := TiesInWithKey(s[1..], v, a - 1, b - 1);
      x, y := x' + |h|, y' + |h|;
    }
  }

  lemma {:induction false} WithKeyHas(s: seq<Group>, v: real, b: nat) returns (y: nat)
    requires b < |s| && s[b].best == v
    ensures y < |Ranking.WithKey(s, Best, v)| && Ranking.WithKey(s, Best, v)[y] == s[b]
  {
    var h := if s[0].best == v then [s[0]] else [];
    assert Ranking.WithKey(s, Best, v) == h + Ranking.WithKey(s[1..], Best, v);
    if b == 0 {
      y := 0;
    } else {
      var y' := WithKeyHas(s[1..], v, b - 1);
      y := y' + |h|;
    }
  }

  /** Two cards with the same best reward: the first by name is ranked first. */
  lemma TiedCardsExample()
    ensures TopCards([ResultRow("B", 10.0, false), ResultRow("A", 10.0, false)]) == ["A", "B"]
  {
    var rows := [ResultRow("B", 10.0, false), ResultRow("A", 10.0, false)];
    assert StrBefore("A", "B");
    assert GroupBest(rows[..1]) == [Group("B", 10.0)];
    assert GroupBest(rows) == [Group("A", 10.0), Group("B", 10.0)];
    assert RankedGroups(rows) == [Group("A", 10.0), Group("B", 10.0)];
  }

  /** `e` is the entry of the pair `p` of the top list, the first card before the second. */
  ghost predicate PairEntry(e: LegacyEntry, top: seq<string>, cards: seq<CardRow>, d: SpendDict, milesRate: real,
                            p: (nat, nat))
  {
    p.0 < p.1 && PairEntryOf(top, cards, d, milesRate, p) == Some(e)
  }

  /** A pair's entry is named after both cards, combines their issuers and categories,
      and carries their split: under no cap, meeting any minimum spend, worth the two
      cards' rewards together. */
  lemma PairEntryFacts(top: seq<string>, cards: seq<CardRow>, d: SpendDict, milesRate: real, p: (nat, nat))
    ensures var e := PairEntryOf(top, cards, d, milesRate, p);
            && (e.Some? <==> p.0 < |top| && p.1 < |top| && FirstNamed(cards, top[p.0]).Some?
                             && FirstNamed(cards, top[p.1]).Some?)
            && (e.Some? ==>
                  var a := FirstNamed(cards, top[p.0]).value;
                  var b := FirstNamed(cards, top[p.1]).value;
                  var c := CombineTwo(a, b, d, milesRate);
                  && e.value.name == top[p.0] + " + " + top[p.1]
                  && e.value.issuer == a.issuer + " + " + b.issuer
                  && e.value.categories == (set k | k in CardCategories.GetCardCategories(a.categories) + CardCategories.GetCardCategories(b.categories))
                  && !e.value.capReached && e.value.minSpendMet
                  && e.value.monthlyReward == e.value.originalReward == c.totalReward
                  && e.value.card1Reward == c.card1Reward && e.value.card2Reward == c.card2Reward
                  && c.totalReward == c.card1Reward + c.card2Reward)
  {
  }

  /** Over pairs of the top list, each entry comes from one of the pairs, at most one
      per pair, and exactly one per pair when every top name has a card row. */
  lemma {:induction false} GatherEntries(top: seq<string>, cards: seq<CardRow>, d: SpendDict, milesRate: real,
                                         ps: seq<(nat, nat)>)
    requires forall k :: 0 <= k < |ps| ==> ps[k].0 < ps[k].1 < |top|
    ensures var r := Gather(PairVisitor(top, cards, d, milesRate), ps);
            && |r| <= |ps|
            && (forall x :: 0 <= x < |r| ==>
                  exists k :: 0 <= k < |ps| && PairEntry(r[x], top, cards, d, milesRate, ps[k]))
            && ((forall a :: 0 <= a < |top| ==> FirstNamed(cards, top[a]).Some?) ==> |r| == |ps|)
  {
    if ps != [] {
      var visit := PairVisitor(top, cards, d, milesRate);
      var init := ps[..|ps| - 1];
      var p := ps[|ps| - 1];
      GatherEntries(top, cards, d, milesRate, init);
      var before := Gather(visit, init);
      var r := Gather(visit, ps);
      assert r == PairVisit(before, top, cards, d, milesRate, p);
      forall x | 0 <= x < |r|
        ensures exists k :: 0 <= k < |ps| && PairEntry(r[x], top, cards, d, milesRate, ps[k])
      {
        if x < |before| {
          assert r[x] == before[x];
          var k :| 0 <= k < |init| && PairEntry(before[x], top, cards, d, milesRate, init[k]);
          assert ps[k] == init[k];
        } else {
          assert PairEntry(r[x], top, cards, d, milesRate, ps[|ps| - 1]);
        }
      }
    }
  }

  /** `find_best_card_combinations` makes at most ten entries, and with every top name
      found, one entry per pair of top cards. */
  lemma FindBestCount(results: seq<ResultRow>, cards: seq<CardRow>, d: SpendDict, milesRate: real)
    ensures |FindBestLegacy(results, cards, d, milesRate)| <= 10
    ensures (forall a :: 0 <= a < |TopCards(results)| ==> FirstNamed(cards, TopCards(results)[a]).Some?) ==>
              2 * |FindBestLegacy(results, cards, d, milesRate)| == |TopCards(results)| * (|TopCards(results)| - 1)
  {
    var top := TopCards(results);
    var ps := AllPairs(|top|);
    assert |top| <= 5;
    AllPairsFacts(|top|);
    AllPairsLength(|top|);
    GatherEntries(top, cards, d, milesRate, ps);
  }

  /** Each entry of `find_best_card_combinations` is the entry of one of the pairs
      of two different top cards the loops meet. */
  lemma FindBestFromPairs(results: seq<ResultRow>, cards: seq<CardRow>, d: SpendDict, milesRate: real,
                          top: seq<string>, r: seq<LegacyEntry>)
    requires top == TopCards(results) && r == FindBestLegacy(results, cards, d, milesRate)
    ensures forall x :: 0 <= x < |r| ==>
              exists k :: 0 <= k < |AllPairs(|top|)| && PairEntry(r[x], top, cards, d, milesRate, AllPairs(|top|)[k])
  {
    AllPairsFacts(|top|);
    GatherEntries(top, cards, d, milesRate, AllPairs(|top|));
  }
}
