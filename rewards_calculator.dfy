/** The current reward calculator: per-category rewards under a card's best tier,
    individual caps, cap groups sharing one cap that is split proportionally, and the
    choice of the best cards from a list of results. */
module RewardsCalculator {
  import opened Common
  import opened CardModel
  import CardLoader
  import Ranking

  type RateRow = CardLoader.RateRow

  // ---------------------------------------------------------------------
  // Per-category arithmetic

  /** `_calculate_category_reward`: a percentage of the spend, or miles per dollar
      converted at `milesRate` for any other rate type. */
  function CategoryReward(spend: real, rate: real, rateType: string, milesRate: real): real {
    if rateType == "percentage" then spend * rate / 100.0 else spend * rate * milesRate
  }

  /** The reward a dollar of spend earns under a rate. */
  function PerDollar(rate: real, rateType: string, milesRate: real): real {
    if rateType == "percentage" then rate / 100.0 else rate * milesRate
  }

  /** The reward is the spend times the rate's value of a dollar: the percentage over
      100, or the miles times their cash value. */
  lemma CategoryRewardPerDollar(spend: real, rate: real, rateType: string, milesRate: real)
    ensures CategoryReward(spend, rate, rateType, milesRate) == spend * PerDollar(rate, rateType, milesRate)
    ensures rateType == "percentage" ==> CategoryReward(spend, rate, rateType, milesRate) == spend * rate / 100.0
    ensures rateType != "percentage" ==> CategoryReward(spend, rate, rateType, milesRate) == (spend * rate) * milesRate
  {
  }

  /** With a non-negative rate and conversion, more spend never earns less. */
  lemma CategoryRewardMonotone(s1: real, s2: real, rate: real, rateType: string, milesRate: real)
    requires s1 <= s2 && rate >= 0.0 && milesRate >= 0.0
    ensures CategoryReward(s1, rate, rateType, milesRate) <= CategoryReward(s2, rate, rateType, milesRate)
  {
    CategoryRewardPerDollar(s1, rate, rateType, milesRate);
    CategoryRewardPerDollar(s2, rate, rateType, milesRate);
    assert PerDollar(rate, rateType, milesRate) >= 0.0;
    assert (s2 - s1) * PerDollar(rate, rateType, milesRate) >= 0.0;
  }

  /** Non-negative spend, rate and conversion never earn a negative reward. */
  lemma CategoryRewardNonNegative(spend: real, rate: real, rateType: string, milesRate: real)
    ensures spend >= 0.0 && rate >= 0.0 && milesRate >= 0.0 ==> CategoryReward(spend, rate, rateType, milesRate) >= 0.0
  {
    if spend >= 0.0 && rate >= 0.0 && milesRate >= 0.0 {
      CategoryRewardMonotone(0.0, spend, rate, rateType, milesRate);
    }
  }

  /** `_apply_cap`: an earned cap limits the reward, a spent cap recomputes the reward
      on the capped spend, any other cap type changes nothing. */
  function ApplyCap(reward: real, spend: real, cap: real, capType: Option<string>,
                    rate: real, rateType: string, milesRate: real): (r: real)
    ensures capType == Some("dollars_earned") ==> r == Min(reward, cap)
    ensures capType != Some("dollars_earned") && capType != Some("dollars_spent") ==> r == reward
  {
    if capType == Some("dollars_earned") then (if reward > cap then cap else reward)
    else if capType == Some("dollars_spent") then
      (if spend > cap then CategoryReward(cap, rate, rateType, milesRate) else reward)
    else reward
  }

  /** A spent cap earns what the smaller of the spend and the cap would earn. */
  lemma ApplyCapSpent(spend: real, cap: real, rate: real, rateType: string, milesRate: real)
    ensures ApplyCap(CategoryReward(spend, rate, rateType, milesRate), spend, cap, Some("dollars_spent"),
                     rate, rateType, milesRate)
         == CategoryReward(Min(spend, cap), rate, rateType, milesRate)
  {
  }

  /** Applying a cap to a category's own reward never increases it. */
  lemma ApplyCapNeverIncreases(spend: real, cap: real, capType: Option<string>,
                               rate: real, rateType: string, milesRate: real)
    requires rate >= 0.0 && milesRate >= 0.0
    ensures ApplyCap(CategoryReward(spend, rate, rateType, milesRate), spend, cap, capType,
                     rate, rateType, milesRate)
         <= CategoryReward(spend, rate, rateType, milesRate)
  {
    if capType == Some("dollars_spent") && spend > cap {
      CategoryRewardMonotone(cap, spend, rate, rateType, milesRate);
    }
  }

  // ---------------------------------------------------------------------
  // Rows of the chosen tier

  /** `getattr(spending, category.lower(), 0.0)`. */
  function Spend(s: UserSpending, row: RateRow): real {
    Attr(s, Lower(row.category))
  }

  /** The reward of a row's category before any cap. */
  function RowReward(row: RateRow, s: UserSpending, milesRate: real): real {
    CategoryReward(Spend(s, row), row.rateValue, row.rateType, milesRate)
  }

  /** `rates_df[rates_df['Rate Value'] > 0]`. */
  function PositiveRates(rows: seq<RateRow>): (r: seq<RateRow>)
    ensures |r| <= |rows|
    ensures forall k :: 0 <= k < |r| ==> r[k].rateValue > 0.0 && r[k] in rows
    ensures forall k :: 0 <= k < |rows| && rows[k].rateValue > 0.0 ==> rows[k] in r
  {
    if rows == [] then []
    else (if rows[0].rateValue > 0.0 then [rows[0]] else []) + PositiveRates(rows[1..])
  }

  /** Filtering keeps the table order: the positive rows of two tables one after the
      other are those of the first followed by those of the second. */
  lemma {:induction false} PositiveRatesAppend(a: seq<RateRow>, b: seq<RateRow>)
    ensures PositiveRates(a + b) == PositiveRates(a) + PositiveRates(b)
  {
    if a == [] {
      assert a + b == b;
    } else {
      assert (a + b)[1..] == a[1..] + b;
      PositiveRatesAppend(a[1..], b);
    }
  }

  ghost predicate AllPositive(rows: seq<RateRow>) {
    forall k :: 0 <= k < |rows| ==> rows[k].rateValue > 0.0
  }

  /** The stripped cap-group name of a row, when it has a non-blank one. */
  function GroupKey(row: RateRow): Option<string> {
    if row.capGroup.Some? && Strip(row.capGroup.value) != "" then Some(Strip(row.capGroup.value)) else None
  }

  /** One entry of the `cap_groups` dict: a group name and its rows in table order. */
  datatype CapGroup = CapGroup(name: string, rows: seq<RateRow>)

  /** The position of the group called `name`, if there is one. */
  function GroupIndex(groups: seq<CapGroup>, name: string): (r: Option<nat>)
    ensures r.None? <==> forall i :: 0 <= i < |groups| ==> groups[i].name != name
    ensures r.Some? ==> r.value < |groups| && groups[r.value].name == name
  {
    if groups == [] then None
    else if groups[0].name == name then Some(0)
    else
      match GroupIndex(groups[1..], name)
      case None => None
      case Some(i) => Some(i + 1)
  }

  /** `cap_groups[name].append(row)`, creating the list on the group's first row: a
      new group goes last, an existing one keeps its place. */
  function AddToGroup(groups: seq<CapGroup>, name: string, row: RateRow): seq<CapGroup> {
    match GroupIndex(groups, name)
    case None => groups + [CapGroup(name, [row])]
    case Some(i) => groups[i := CapGroup(name, groups[i].rows + [row])]
  }

  /** Where the rows of a tier go: rows without a group are processed one by one, the
      others per group. */
  datatype Partition = Partition(uncapped: seq<RateRow>, groups: seq<CapGroup>)

  /** The partition the row loop builds, row by row. */
  function PartitionOf(rows: seq<RateRow>): Partition {
    if rows == [] then Partition([], [])
    else
      var p := PartitionOf(rows[..|rows| - 1]);
      var row := rows[|rows| - 1];
      match GroupKey(row)
      case None => Partition(p.uncapped + [row], p.groups)
      case Some(name) => Partition(p.uncapped, AddToGroup(p.groups, name, row))
  }

  /** The loop over the tier's rows that fills `cap_groups` and `uncapped_categories`. */
  method PartitionRows(rows: seq<RateRow>) returns (p: Partition)
    ensures p == PartitionOf(rows)
  {
    var uncapped: seq<RateRow> := [];
    var groups: seq<CapGroup> := [];
    var i := 0;
    while i < |rows|
      invariant 0 <= i <= |rows|
      invariant Partition(uncapped, groups) == PartitionOf(rows[..i])
    {
      assert rows[..i + 1][..i] == rows[..i];
      var row := rows[i];
      if row.capGroup.Some? && Strip(row.capGroup.value) != "" {
        groups := AddToGroup(groups, Strip(row.capGroup.value), row);
      } else {
        uncapped := uncapped + [row];
      }
      i := i + 1;
    }
    assert rows[..i] == rows;
    p := Partition(uncapped, groups);
  }

  /** A group's rows all carry its name under `key`. */
  ghost predicate GroupRowsNamed(g: CapGroup, key: RateRow -> Option<string>) {
    forall k :: 0 <= k < |g.rows| ==> key(g.rows[k]) == Some(g.name)
  }

  /** Uncapped rows have no group, a group's rows carry its name, and no two groups
      share a name. */
  ghost predicate WellPartitioned(p: Partition, key: RateRow -> Option<string>) {
    && (forall k :: 0 <= k < |p.uncapped| ==> key(p.uncapped[k]).None?)
    && (forall g :: 0 <= g < |p.groups| ==> GroupRowsNamed(p.groups[g], key))
    && (forall g, h :: 0 <= g < h < |p.groups| ==> p.groups[g].name != p.groups[h].name)
  }

  lemma AddToGroupWell(p: Partition, name: string, row: RateRow, key: RateRow -> Option<string>)
    requires WellPartitioned(p, key) && key(row) == Some(name)
    ensures WellPartitioned(Partition(p.uncapped, AddToGroup(p.groups, name, row)), key)
  {
    var gs := p.groups;
    var r := AddToGroup(gs, name, row);
    var added := CapGroup(name, [row]);
    match GroupIndex(gs, name)
    case None =>
      assert r == gs + [added];
      forall g | 0 <= g < |r| ensures GroupRowsNamed(r[g], key) {
        if g < |gs| {
          assert r[g] == gs[g];
        } else {
          assert r[g] == added;
        }
      }
      forall g, h | 0 <= g < h < |r| ensures r[g].name != r[h].name {
        assert r[g] == gs[g];
        if h < |gs| {
          assert r[h] == gs[h];
        }
      }
    case Some(i) =>
      var grown := CapGroup(name, gs[i].rows + [row]);
      assert r == gs[i := grown];
      forall g | 0 <= g < |r| ensures GroupRowsNamed(r[g], key) {
        if g == i {
          assert GroupRowsNamed(gs[i], key);
          forall k | 0 <= k < |grown.rows| ensures key(grown.rows[k]) == Some(name) {
            if k < |gs[i].rows| {
              assert grown.rows[k] == gs[i].rows[k];
            }
          }
        } else {
          assert r[g] == gs[g];
        }
      }
      forall g, h | 0 <= g < h < |r| ensures r[g].name != r[h].name {
        assert r[g].name == gs[g].name && r[h].name == gs[h].name;
      }
  }

  lemma {:induction false} PartitionWell(rows: seq<RateRow>)
    ensures WellPartitioned(PartitionOf(rows), GroupKey)
  {
    if rows != [] {
      var n := |rows| - 1;
      PartitionWell(rows[..n]);
      var p := PartitionOf(rows[..n]);
      match GroupKey(rows[n])
      case None =>
      case Some(name) => AddToGroupWell(p, name, rows[n], GroupKey);
    }
  }

  /** Every row of the partition keeps a positive rate when every input row has one. */
  ghost predicate PartitionPositive(p: Partition) {
    AllPositive(p.uncapped) && forall g :: 0 <= g < |p.groups| ==> AllPositive(p.groups[g].rows)
  }

  lemma {:induction false} PartitionKeepsPositive(rows: seq<RateRow>)
    requires AllPositive(rows)
    ensures PartitionPositive(PartitionOf(rows))
  {
    if rows != [] {
      var n := |rows| - 1;
      assert AllPositive(rows[..n]);
      PartitionKeepsPositive(rows[..n]);
      var p := PartitionOf(rows[..n]);
      var row := rows[n];
      assert row.rateValue > 0.0;
      match GroupKey(row)
      case None =>
        assert PartitionOf(rows) == Partition(p.uncapped + [row], p.groups);
      case Some(name) =>
        assert PartitionOf(rows) == Partition(p.uncapped, AddToGroup(p.groups, name, row));
        AddToGroupPositive(p.groups, name, row);
    }
  }

  /** Adding a row with a positive rate keeps every group's rates positive. */
  lemma AddToGroupPositive(groups: seq<CapGroup>, name: string, row: RateRow)
    requires forall g :: 0 <= g < |groups| ==> AllPositive(groups[g].rows)
    requires row.rateValue > 0.0
    ensures var r := AddToGroup(groups, name, row);
            forall g :: 0 <= g < |r| ==> AllPositive(r[g].rows)
  {
    match GroupIndex(groups, name)
    case None =>
    case Some(i) => assert AllPositive(groups[i].rows);
  }

  // ---------------------------------------------------------------------
  // Rows outside any group

  /** Totals and breakdown lines accumulated over rows. */
  datatype Sums = Sums(total: real, original: real, details: seq<Detail>)

  /** A row's reward outside any group: its own cap, if it has one, applies. */
  function UncappedReward(row: RateRow, s: UserSpending, milesRate: real): real {
    var reward := RowReward(row, s, milesRate);
    if row.capAmount.Some? then
      ApplyCap(reward, Spend(s, row), row.capAmount.value, row.capType, row.rateValue, row.rateType, milesRate)
    else reward
  }

  /** What the loop over the uncapped rows accumulates, row by row. */
  function UncappedSums(rows: seq<RateRow>, s: UserSpending, milesRate: real): Sums {
    if rows == [] then Sums(0.0, 0.0, [])
    else
      AddUncapped(UncappedSums(rows[..|rows| - 1], s, milesRate), rows[|rows| - 1], s, milesRate)
  }

  /** One step of the loop over the uncapped rows. */
  function AddUncapped(t: Sums, row: RateRow, s: UserSpending, milesRate: real): Sums {
    if Spend(s, row) > 0.0 then
      var reward := UncappedReward(row, s, milesRate);
      Sums(t.total + reward, t.original + reward, t.details + [Line(row.category, Spend(s, row), row.rateValue, reward)])
    else t
  }

  /** Taking one more row is one more step. */
  lemma UncappedStep(rows: seq<RateRow>, i: nat, s: UserSpending, milesRate: real)
    requires i < |rows|
    ensures UncappedSums(rows[..i + 1], s, milesRate) == AddUncapped(UncappedSums(rows[..i], s, milesRate), rows[i], s, milesRate)
  {
    assert rows[..i + 1][..i] == rows[..i];
  }

  /** The loop over the rows without a cap group. */
  method ProcessUncapped(rows: seq<RateRow>, s: UserSpending, milesRate: real) returns (t: Sums)
    ensures t == UncappedSums(rows, s, milesRate)
  {
    var total := 0.0;
    var original := 0.0;
    var details: seq<Detail> := [];
    var i := 0;
    while i < |rows|
      invariant 0 <= i <= |rows|
      invariant Sums(total, original, details) == UncappedSums(rows[..i], s, milesRate)
    {
      UncappedStep(rows, i, s, milesRate);
      var row := rows[i];
      var spend := Spend(s, row);
      if spend > 0.0 {
        var reward := CategoryReward(spend, row.rateValue, row.rateType, milesRate);
        if row.capAmount.Some? {
          reward := ApplyCap(reward, spend, row.capAmount.value, row.capType, row.rateValue,
                             row.rateType, milesRate);
        }
        assert reward == UncappedReward(row, s, milesRate);
        total := total + reward;
        original := original + reward;
        details := details + [Line(row.category, spend, row.rateValue, reward)];
      }
      i := i + 1;
    }
    assert rows[..i] == rows;
    t := Sums(total, original, details);
  }

  /** Rows outside any group are never scaled: what they earn is what they would have
      earned, each row at most its own uncapped reward. */
  lemma {:induction false} UncappedNoShortfall(rows: seq<RateRow>, s: UserSpending, milesRate: real)
    ensures UncappedSums(rows, s, milesRate).total == UncappedSums(rows, s, milesRate).original
  {
    if rows != [] {
      UncappedNoShortfall(rows[..|rows| - 1], s, milesRate);
    }
  }

  /** Every breakdown line is for a category with spend and a positive rate. */
  ghost predicate LinesPositive(ds: seq<Detail>) {
    forall k :: 0 <= k < |ds| ==> ds[k].Line? && ds[k].spend > 0.0 && ds[k].rate > 0.0
  }

  lemma {:induction false} UncappedLines(rows: seq<RateRow>, s: UserSpending, milesRate: real)
    requires AllPositive(rows)
    ensures LinesPositive(UncappedSums(rows, s, milesRate).details)
  {
    if rows != [] {
      UncappedLines(rows[..|rows| - 1], s, milesRate);
    }
  }

  // ---------------------------------------------------------------------
  // One cap group

  /** The group's cap row: the last row with a cap amount. */
  function CapRow(rows: seq<RateRow>): (r: Option<RateRow>)
    ensures r.Some? ==> r.value.capAmount.Some?
  {
    if rows == [] then None
    else
      var n := |rows| - 1;
      if rows[n].capAmount.Some? then Some(rows[n]) else CapRow(rows[..n])
  }

  /** A group has a cap row exactly when one of its rows has a cap amount, and the cap
      row is the last such row. */
  lemma {:induction false} CapRowLast(rows: seq<RateRow>)
    ensures CapRow(rows).None? <==> forall k :: 0 <= k < |rows| ==> rows[k].capAmount.None?
    ensures CapRow(rows).Some? ==>
              exists i :: 0 <= i < |rows| && rows[i] == CapRow(rows).value
                && forall j :: i < j < |rows| ==> rows[j].capAmount.None?
  {
    if rows != [] {
      var n := |rows| - 1;
      if rows[n].capAmount.Some? {
        assert CapRow(rows) == Some(rows[n]);
      } else {
        assert CapRow(rows) == CapRow(rows[..n]);
        CapRowLast(rows[..n]);
        assert forall k :: 0 <= k < n ==> rows[..n][k] == rows[k];
        if CapRow(rows).Some? {
          var i :| 0 <= i < n && rows[..n][i] == CapRow(rows).value
                   && forall j :: i < j < n ==> rows[..n][j].capAmount.None?;
          assert rows[i] == CapRow(rows).value;
        }
      }
    }
  }

  /** The group's other rows, in order: the categories that earn. */
  function CategoryRows(rows: seq<RateRow>): seq<RateRow> {
    if rows == [] then []
    else
      var n := |rows| - 1;
      CategoryRows(rows[..n]) + (if rows[n].capAmount.None? then [rows[n]] else [])
  }

  /** The category rows are the rows without a cap amount. */
  lemma {:induction false} CategoryRowsUncapped(rows: seq<RateRow>)
    ensures |CategoryRows(rows)| <= |rows|
    ensures forall k :: 0 <= k < |CategoryRows(rows)| ==> CategoryRows(rows)[k].capAmount.None?
    ensures (forall k :: 0 <= k < |rows| ==> rows[k].capAmount.None?) ==> CategoryRows(rows) == rows
  {
    if rows != [] {
      var n := |rows| - 1;
      var prefix := rows[..n];
      CategoryRowsUncapped(prefix);
      var c := CategoryRows(prefix);
      var last := if rows[n].capAmount.None? then [rows[n]] else [];
      assert CategoryRows(rows) == c + last;
      assert forall k :: 0 <= k < |c| ==> (c + last)[k] == c[k];
      if forall k :: 0 <= k < |rows| ==> rows[k].capAmount.None? {
        assert forall k :: 0 <= k < n ==> prefix[k] == rows[k];
        assert c == prefix;
        assert prefix + [rows[n]] == rows;
      }
    }
  }

  /** What the loop over a group's category rows accumulates: the rewards by category,
      their sum, and the breakdown lines. */
  datatype GroupRaw = GroupRaw(rewards: SpendDict, total: real, details: seq<Detail>)

  function RawGroup(rows: seq<RateRow>, s: UserSpending, milesRate: real): GroupRaw {
    if rows == [] then GroupRaw([], 0.0, [])
    else RawStep(RawGroup(rows[..|rows| - 1], s, milesRate), rows[|rows| - 1], s, milesRate)
  }

  /** One step of the loop over a group's category rows. */
  function RawStep(g: GroupRaw, row: RateRow, s: UserSpending, milesRate: real): GroupRaw {
    if Spend(s, row) > 0.0 then
      var reward := RowReward(row, s, milesRate);
      GroupRaw(Put(g.rewards, row.category, reward), g.total + reward,
               g.details + [Line(row.category, Spend(s, row), row.rateValue, reward)])
    else g
  }

  /** The breakdown rebuilt after scaling: one line per category row that earned,
      showing the scaled reward of its category. */
  function ScaledLines(rows: seq<RateRow>, rewards: SpendDict, s: UserSpending): seq<Detail> {
    if rows == [] then []
    else
      var row := rows[|rows| - 1];
      ScaledLines(rows[..|rows| - 1], rewards, s)
        + (if HasKey(rewards, row.category) then [Line(row.category, Spend(s, row), row.rateValue, Get(rewards, row.category))] else [])
  }

  /** A group's contribution: its reward, its reward before the cap, the amount by
      which it overflowed its cap when it did, and its lines. */
  datatype GroupResult = GroupResult(total: real, original: real, overflow: Option<real>, details: seq<Detail>)

  /** The shared cap of a group applied to its summed rewards: a sum above a positive
      cap is replaced by the cap, each category scaled by `cap / sum`. */
  function ApplySharedCap(capRow: Option<RateRow>, cats: seq<RateRow>, raw: GroupRaw, s: UserSpending): GroupResult
    requires capRow.Some? ==> capRow.value.capAmount.Some?
  {
    if capRow.Some? && raw.total > 0.0 && raw.total > capRow.value.capAmount.value then
      var cap := capRow.value.capAmount.value;
      GroupResult(cap, raw.total, Some(raw.total - cap),
                  ScaledLines(cats, ScaleDict(raw.rewards, cap / raw.total), s))
    else GroupResult(raw.total, raw.total, None, raw.details)
  }

  /** A group whose reward sum exceeds its cap earns the cap, each category scaled by
      `cap / sum`; any other group earns its sum. */
  function GroupOutcome(rows: seq<RateRow>, s: UserSpending, milesRate: real): GroupResult {
    ApplySharedCap(CapRow(rows), CategoryRows(rows), RawGroup(CategoryRows(rows), s, milesRate), s)
  }

  /** The loop that sets the group's cap row apart from its category rows. */
  method SplitGroup(rows: seq<RateRow>) returns (capRow: Option<RateRow>, cats: seq<RateRow>)
    ensures capRow == CapRow(rows) && cats == CategoryRows(rows)
  {
    capRow := None;
    cats := [];
    var i := 0;
    while i < |rows|
      invariant 0 <= i <= |rows|
      invariant capRow == CapRow(rows[..i]) && cats == CategoryRows(rows[..i])
    {
      assert rows[..i + 1][..i] == rows[..i];
      if rows[i].capAmount.Some? {
        capRow := Some(rows[i]);
      } else {
        cats := cats + [rows[i]];
      }
      i := i + 1;
    }
    assert rows[..i] == rows;
  }

  /** The loop that sums the rewards of a group's category rows. */
  method SumGroup(cats: seq<RateRow>, s: UserSpending, milesRate: real) returns (raw: GroupRaw)
    ensures raw == RawGroup(cats, s, milesRate)
  {
    var rewards: SpendDict := [];
    var total := 0.0;
    var details: seq<Detail> := [];
    var j := 0;
    while j < |cats|
      invariant 0 <= j <= |cats|
      invariant GroupRaw(rewards, total, details) == RawGroup(cats[..j], s, milesRate)
    {
      assert cats[..j + 1][..j] == cats[..j];
      rewards, total, details := AddGroupRow(rewards, total, details, cats[j], s, milesRate);
      j := j + 1;
    }
    assert cats[..j] == cats;
    raw := GroupRaw(rewards, total, details);
  }

  /** The body of that loop for one category row. */
  method AddGroupRow(rewards: SpendDict, total: real, details: seq<Detail>, row: RateRow,
                     s: UserSpending, milesRate: real)
    returns (rewards': SpendDict, total': real, details': seq<Detail>)
    ensures GroupRaw(rewards', total', details') == RawStep(GroupRaw(rewards, total, details), row, s, milesRate)
  {
    rewards', total', details' := rewards, total, details;
    var spend := Attr(s, Lower(row.category));
    if spend > 0.0 {
      var reward := CategoryReward(spend, row.rateValue, row.rateType, milesRate);
      rewards' := Put(rewards, row.category, reward);
      total' := total + reward;
      details' := details + [Line(row.category, spend, row.rateValue, reward)];
    }
  }

  /** `group_rewards[category] *= cap_ratio` for every key, in place. */
  method ScaleRewards(d: SpendDict, ratio: real) returns (r: SpendDict)
    ensures r == ScaleDict(d, ratio)
  {
    r := d;
    var k := 0;
    while k < |r|
      invariant 0 <= k <= |r| == |d|
      invariant forall x :: 0 <= x < k ==> r[x] == Entry(d[x].key, d[x].amount * ratio)
      invariant forall x :: k <= x < |r| ==> r[x] == d[x]
    {
      r := r[k := Entry(r[k].key, r[k].amount * ratio)];
      k := k + 1;
    }
  }

  /** The loop that rebuilds the group's lines from the scaled rewards. */
  method RebuildLines(cats: seq<RateRow>, rewards: SpendDict, s: UserSpending) returns (details: seq<Detail>)
    ensures details == ScaledLines(cats, rewards, s)
  {
    details := [];
    var l := 0;
    while l < |cats|
      invariant 0 <= l <= |cats|
      invariant details == ScaledLines(cats[..l], rewards, s)
    {
      assert cats[..l + 1][..l] == cats[..l];
      var row := cats[l];
      if HasKey(rewards, row.category) {
        details := details + [Line(row.category, Attr(s, Lower(row.category)), row.rateValue,
                                   Get(rewards, row.category))];
      }
      l := l + 1;
    }
    assert cats[..l] == cats;
  }

  /** The shared-cap step of a group: when the sum exceeds the cap, scale the rewards
      and rebuild the lines. */
  method CapGroupRewards(capRow: Option<RateRow>, cats: seq<RateRow>, raw: GroupRaw, s: UserSpending)
    returns (g: GroupResult)
    requires capRow.Some? ==> capRow.value.capAmount.Some?
    ensures g == ApplySharedCap(capRow, cats, raw, s)
  {
    var total := raw.total;
    var details := raw.details;
    var overflow: Option<real> := None;
    if capRow.Some? && total > 0.0 {
      var cap := capRow.value.capAmount.value;
      if total > cap {
        var ratio := cap / total;
        total := cap;
        overflow := Some(raw.total - cap);
        var rewards := ScaleRewards(raw.rewards, ratio);
        details := RebuildLines(cats, rewards, s);
      }
    }
    g := GroupResult(total, raw.total, overflow, details);
  }

  /** One cap group: split off the cap row, sum the category rewards, then apply the
      shared cap. */
  method ProcessGroup(rows: seq<RateRow>, s: UserSpending, milesRate: real) returns (g: GroupResult)
    ensures g == GroupOutcome(rows, s, milesRate)
  {
    var capRow, cats := SplitGroup(rows);
    var raw := SumGroup(cats, s, milesRate);
    g := CapGroupRewards(capRow, cats, raw, s);
  }

  /** A group never earns more than its rewards before the cap; it overflows exactly
      when it has a cap row and a positive sum above the cap, and then earns the cap.
      A group without a cap row earns its plain sum. */
  lemma GroupOutcomeCap(rows: seq<RateRow>, s: UserSpending, milesRate: real)
    ensures var g := GroupOutcome(rows, s, milesRate);
            var raw := RawGroup(CategoryRows(rows), s, milesRate);
            && g.total <= g.original == raw.total
            && (g.overflow.Some? <==> CapRow(rows).Some? && raw.total > 0.0
                                      && raw.total > CapRow(rows).value.capAmount.value)
            && (g.overflow.Some? ==> g.total == CapRow(rows).value.capAmount.value
                                     && g.overflow.value == g.original - g.total > 0.0)
            && (CapRow(rows).None? ==> g.total == raw.total)
  {
  }

  /** The categories of a list of rows are distinct. */
  ghost predicate DistinctCategories(rows: seq<RateRow>) {
    forall i, j :: 0 <= i < j < |rows| ==> rows[i].category != rows[j].category
  }

  /** The categories of `rows` that the user spends on. */
  ghost function SpentCategories(rows: seq<RateRow>, s: UserSpending): set<string> {
    if rows == [] then {}
    else
      var row := rows[|rows| - 1];
      SpentCategories(rows[..|rows| - 1], s) + (if Spend(s, row) > 0.0 then {row.category} else {})
  }

  lemma {:induction false} SpentCategoriesFrom(rows: seq<RateRow>, s: UserSpending, x: string)
    requires x in SpentCategories(rows, s)
    ensures Attr(s, Lower(x)) > 0.0
    ensures exists i :: 0 <= i < |rows| && rows[i].category == x
  {
    var n := |rows| - 1;
    if x in SpentCategories(rows[..n], s) {
      SpentCategoriesFrom(rows[..n], s, x);
      var i :| 0 <= i < n && rows[..n][i].category == x;
      assert rows[i].category == x;
    } else {
      assert rows[n].category == x;
    }
  }

  /** Every key of `d` is in `cats`. */
  ghost predicate KeysIn(d: SpendDict, cats: set<string>) {
    forall k :: 0 <= k < |d| ==> d[k].key in cats
  }

  lemma PutKeysIn(d: SpendDict, k: string, v: real, cats: set<string>)
    requires KeysIn(d, cats) && k in cats
    ensures KeysIn(Put(d, k, v), cats)
  {
    var r := Put(d, k, v);
    forall i | 0 <= i < |r| ensures r[i].key in cats {
      if i < |d| {
        assert r[i].key == d[i].key;
      }
    }
  }

  lemma KeysInMore(d: SpendDict, cats: set<string>, more: set<string>)
    requires KeysIn(d, cats) && cats <= more
    ensures KeysIn(d, more)
  {
  }

  /** The keys of the rewards dict are categories of rows that have spend. */
  lemma {:induction false} RawGroupKeys(rows: seq<RateRow>, s: UserSpending, milesRate: real)
    ensures KeysIn(RawGroup(rows, s, milesRate).rewards, SpentCategories(rows, s))
  {
    if rows != [] {
      var n := |rows| - 1;
      var row := rows[n];
      RawGroupKeys(rows[..n], s, milesRate);
      var d0 := RawGroup(rows[..n], s, milesRate).rewards;
      var cats := SpentCategories(rows, s);
      KeysInMore(d0, SpentCategories(rows[..n], s), cats);
      if Spend(s, row) > 0.0 {
        PutKeysIn(d0, row.category, RowReward(row, s, milesRate), cats);
      }
    }
  }

  /** With distinct categories, the rewards dict holds every reward once, so its values
      add up to the group's sum. */
  lemma {:induction false} RawGroupSum(rows: seq<RateRow>, s: UserSpending, milesRate: real)
    requires DistinctCategories(rows)
    ensures SumValues(RawGroup(rows, s, milesRate).rewards) == RawGroup(rows, s, milesRate).total
  {
    if rows != [] {
      var n := |rows| - 1;
      assert DistinctCategories(rows[..n]);
      RawGroupSum(rows[..n], s, milesRate);
      var g := RawGroup(rows[..n], s, milesRate);
      var row := rows[n];
      if Spend(s, row) > 0.0 {
        RawGroupKeys(rows[..n], s, milesRate);
        forall k | 0 <= k < |g.rewards| ensures g.rewards[k].key != row.category {
          assert g.rewards[k].key in SpentCategories(rows[..n], s);
          SpentCategoriesFrom(rows[..n], s, g.rewards[k].key);
          var i :| 0 <= i < n && rows[..n][i].category == g.rewards[k].key;
          assert rows[..n][i] == rows[i];
        }
        var reward := RowReward(row, s, milesRate);
        PutNew(g.rewards, row.category, reward);
        SumValuesAppend(g.rewards, [Entry(row.category, reward)]);
      }
    }
  }

  /** Scaling by `cap / total` gives a share of the cap equal to the share of the total. */
  lemma ShareOfCap(x: real, cap: real, total: real)
    requires total > 0.0
    ensures x * (cap / total) * total == x * cap
  {
    assert (cap / total) * total == cap;
    assert x * (cap / total) * total == x * ((cap / total) * total);
  }

  /** Each amount of `scaled` is the same share of `cap` as the matching amount of `d`
      is of `total`. */
  ghost predicate SharesKept(scaled: SpendDict, d: SpendDict, cap: real, total: real) {
    |scaled| == |d| && forall i :: 0 <= i < |d| ==> scaled[i].amount * total == d[i].amount * cap
  }

  /** Scaling by `cap / total` gives every amount the share of `cap` it had of `total`. */
  lemma ScaleShares(d: SpendDict, total: real, cap: real)
    requires total > 0.0
    ensures SharesKept(ScaleDict(d, cap / total), d, cap, total)
  {
    var scaled := ScaleDict(d, cap / total);
    forall i | 0 <= i < |d|
      ensures scaled[i].amount * total == d[i].amount * cap
    {
      ShareOfCap(d[i].amount, cap, total);
    }
  }

  /** Scaling a dict whose amounts add up to `total` by `cap / total` makes them add up
      to `cap`. */
  lemma ScaleSum(d: SpendDict, total: real, cap: real)
    requires SumValues(d) == total && total > 0.0
    ensures SumValues(ScaleDict(d, cap / total)) == cap
  {
    SumScaleDict(d, cap / total);
    ShareOfCap(1.0, cap, total);
  }

  /** In a group that overflows, every category's reward is scaled by the same factor:
      the scaled rewards add up to exactly the cap, and each category's share of the
      cap is its share of the sum before the cap. */
  lemma CapGroupScaling(rows: seq<RateRow>, s: UserSpending, milesRate: real)
    requires CapRow(rows).Some?
    requires RawGroup(CategoryRows(rows), s, milesRate).total > 0.0
    requires RawGroup(CategoryRows(rows), s, milesRate).total > CapRow(rows).value.capAmount.value
    requires DistinctCategories(CategoryRows(rows))
    ensures var raw := RawGroup(CategoryRows(rows), s, milesRate);
            var cap := CapRow(rows).value.capAmount.value;
            var scaled := ScaleDict(raw.rewards, cap / raw.total);
            && SumValues(scaled) == cap
            && SharesKept(scaled, raw.rewards, cap, raw.total)
  {
    var cats := CategoryRows(rows);
    RawGroupSum(cats, s, milesRate);
    var raw := RawGroup(cats, s, milesRate);
    var cap := CapRow(rows).value.capAmount.value;
    ScaleSum(raw.rewards, raw.total, cap);
    ScaleShares(raw.rewards, raw.total, cap);
  }

  // ---------------------------------------------------------------------
  // The whole card

  /** The running totals of `calculate_card_rewards`: reward, reward before group caps,
      the cap status and the breakdown. */
  datatype Tally = Tally(total: real, original: real, reached: bool, difference: real, details: seq<Detail>)

  /** The outcome of every cap group, in the order of the groups. */
  function Outcomes(groups: seq<CapGroup>, s: UserSpending, milesRate: real): (r: seq<GroupResult>)
    ensures |r| == |groups|
  {
    OutcomesBy(rows => GroupOutcome(rows, s, milesRate), groups)
  }

  /** The outcomes of the groups, for any way of scoring one group: the outcome at a
      position is that group's own outcome. */
  function OutcomesBy(outcome: seq<RateRow> -> GroupResult, groups: seq<CapGroup>): (r: seq<GroupResult>)
    ensures |r| == |groups|
    ensures forall i :: 0 <= i < |groups| ==> r[i] == outcome(groups[i].rows)
  {
    if groups == [] then []
    else OutcomesBy(outcome, groups[..|groups| - 1]) + [outcome(groups[|groups| - 1].rows)]
  }

  lemma OutcomesAt(groups: seq<CapGroup>, s: UserSpending, milesRate: real, i: nat)
    requires i < |groups|
    ensures Outcomes(groups, s, milesRate)[i] == GroupOutcome(groups[i].rows, s, milesRate)
  {
  }

  /** One group's outcome added to the running totals: an overflowing group sets the
      cap status and its difference. */
  function AddOutcome(t: Tally, g: GroupResult): Tally {
    Tally(t.total + g.total, t.original + g.original, t.reached || g.overflow.Some?,
          if g.overflow.Some? then g.overflow.value else t.difference, t.details + g.details)
  }

  /** What the loop over the cap groups adds to the running totals, group by group, so
      that the last group to overflow decides the reported difference. */
  function Accumulate(start: Tally, results: seq<GroupResult>): Tally {
    if results == [] then start
    else AddOutcome(Accumulate(start, results[..|results| - 1]), results[|results| - 1])
  }

  lemma AccumulateSnoc(start: Tally, results: seq<GroupResult>, g: GroupResult)
    ensures Accumulate(start, results + [g]) == AddOutcome(Accumulate(start, results), g)
  {
    assert (results + [g])[..|results|] == results;
  }

  /** The result for a card once its tier is known. */
  function TierRewards(cardName: string, tier: CardTier, rates: seq<RateRow>, s: UserSpending,
                       milesRate: real): RewardCalculation
  {
    var p := PartitionOf(PositiveRates(CardLoader.RatesOf(rates, tier.tierId)));
    var u := UncappedSums(p.uncapped, s, milesRate);
    var t := Accumulate(Tally(u.total, u.original, false, 0.0, u.details), Outcomes(p.groups, s, milesRate));
    RewardCalculation(cardName, tier.description, t.total, t.reached,
                      if t.reached then Some(t.difference) else None, t.original, true, t.details)
  }

  /** The result of a card whose spending meets none of its tiers. */
  function NoTier(cardName: string): RewardCalculation {
    RewardCalculation(cardName, "No suitable tier", 0.0, false, None, 0.0, false,
                      [Note("Minimum spend not met for any tier")])
  }

  /** `calculate_card_rewards`, as a function of the catalog and the spending. */
  function CardRewards(c: CardLoader.Catalog, cardId: int, s: UserSpending, milesRate: real)
    : Result<RewardCalculation>
  {
    match CardLoader.GetCardInfo(c.cards, cardId)
    case Err(e) => Err(e)
    case Ok(None) => Err("Card not found")
    case Ok(Some(card)) =>
      match CardLoader.GetBestTierForSpending(c, cardId, Total(s))
      case None => Ok(NoTier(card.name))
      case Some(tier) => Ok(TierRewards(card.name, tier, c.rates, s, milesRate))
  }

  /** The totals after the loop over the cap groups has processed `groups`. */
  function GroupsTally(start: Tally, groups: seq<CapGroup>, s: UserSpending, milesRate: real): Tally {
    if groups == [] then start
    else AddOutcome(GroupsTally(start, groups[..|groups| - 1], s, milesRate),
                    GroupOutcome(groups[|groups| - 1].rows, s, milesRate))
  }

  lemma {:induction false} GroupsTallyAccumulate(start: Tally, groups: seq<CapGroup>, s: UserSpending, milesRate: real)
    ensures GroupsTally(start, groups, s, milesRate) == Accumulate(start, Outcomes(groups, s, milesRate))
  {
    if groups != [] {
      var n := |groups| - 1;
      GroupsTallyAccumulate(start, groups[..n], s, milesRate);
      AccumulateSnoc(start, Outcomes(groups[..n], s, milesRate), GroupOutcome(groups[n].rows, s, milesRate));
    }
  }

  /** Taking one more group is one more step. */
  lemma GroupsTallyStep(start: Tally, groups: seq<CapGroup>, i: nat, s: UserSpending, milesRate: real)
    requires i < |groups|
    ensures GroupsTally(start, groups[..i + 1], s, milesRate)
         == AddOutcome(GroupsTally(start, groups[..i], s, milesRate), GroupOutcome(groups[i].rows, s, milesRate))
  {
    assert groups[..i + 1][..i] == groups[..i];
  }

  /** The loop over the cap groups, adding each group's outcome to the totals. */
  method AccumulateGroups(start: Tally, groups: seq<CapGroup>, s: UserSpending, milesRate: real)
    returns (t: Tally)
    ensures t == GroupsTally(start, groups, s, milesRate)
  {
    var total := start.total;
    var original := start.original;
    var reached := start.reached;
    var difference := start.difference;
    var details := start.details;
    var i := 0;
    while i < |groups|
      invariant 0 <= i <= |groups|
      invariant Tally(total, original, reached, difference, details) == GroupsTally(start, groups[..i], s, milesRate)
    {
      GroupsTallyStep(start, groups, i, s, milesRate);
      var g := ProcessGroup(groups[i].rows, s, milesRate);
      if g.overflow.Some? {
        reached := true;
        difference := g.overflow.value;
      }
      total := total + g.total;
      original := original + g.original;
      details := details + g.details;
      i := i + 1;
    }
    assert groups[..i] == groups;
    t := Tally(total, original, reached, difference, details);
  }

  /** The calculation once the tier is chosen: keep the rates above zero, process the
      rows outside any group, then each cap group. */
  method ProcessTier(cardName: string, tier: CardTier, rates: seq<RateRow>, s: UserSpending, milesRate: real)
    returns (r: RewardCalculation)
    ensures r == TierRewards(cardName, tier, rates, s, milesRate)
  {
    var positive := PositiveRates(CardLoader.RatesOf(rates, tier.tierId));
    var p := PartitionRows(positive);
    var u := ProcessUncapped(p.uncapped, s, milesRate);
    var t := AccumulateGroups(Tally(u.total, u.original, false, 0.0, u.details), p.groups, s, milesRate);
    GroupsTallyAccumulate(Tally(u.total, u.original, false, 0.0, u.details), p.groups, s, milesRate);
    r := RewardCalculation(cardName, tier.description, t.total, t.reached,
                           if t.reached then Some(t.difference) else None, t.original, true, t.details);
  }

  /** `calculate_card_rewards`: an unknown card is an error; a card whose spending meets
      no tier earns nothing; otherwise its best tier's rates apply. */
  method CalculateCardRewards(c: CardLoader.Catalog, cardId: int, s: UserSpending, milesRate: real)
    returns (r: Result<RewardCalculation>)
    ensures r == CardRewards(c, cardId, s, milesRate)
  {
    var info := CardLoader.GetCardInfo(c.cards, cardId);
    if info.Err? {
      return Err(info.error);
    }
    if info.value.None? {
      return Err("Card not found");
    }
    var card := info.value.value;
    var bestTier := CardLoader.GetBestTierForSpending(c, cardId, Total(s));
    if bestTier.None? {
      return Ok(RewardCalculation(card.name, "No suitable tier", 0.0, false, None, 0.0, false,
                                  [Note("Minimum spend not met for any tier")]));
    }
    var rc := ProcessTier(card.name, bestTier.value, c.rates, s, milesRate);
    r := Ok(rc);
  }

  // ---------------------------------------------------------------------
  // What a card's result promises

  /** Every key of a rewards dict is a category the user spends on. */
  ghost predicate KeysHaveSpend(d: SpendDict, s: UserSpending) {
    forall k :: 0 <= k < |d| ==> Attr(s, Lower(d[k].key)) > 0.0
  }

  lemma {:induction false} CategoryRowsPositive(rows: seq<RateRow>)
    requires AllPositive(rows)
    ensures AllPositive(CategoryRows(rows))
  {
    if rows != [] {
      var n := |rows| - 1;
      assert AllPositive(rows[..n]);
      CategoryRowsPositive(rows[..n]);
    }
  }

  lemma {:induction false} RawGroupLines(rows: seq<RateRow>, s: UserSpending, milesRate: real)
    requires AllPositive(rows)
    ensures LinesPositive(RawGroup(rows, s, milesRate).details)
  {
    if rows != [] {
      var n := |rows| - 1;
      assert AllPositive(rows[..n]);
      RawGroupLines(rows[..n], s, milesRate);
    }
  }

  lemma {:induction false} ScaledLinesPositive(rows: seq<RateRow>, rewards: SpendDict, s: UserSpending)
    requires AllPositive(rows) && KeysHaveSpend(rewards, s)
    ensures LinesPositive(ScaledLines(rows, rewards, s))
  {
    if rows != [] {
      var n := |rows| - 1;
      var row := rows[n];
      assert AllPositive(rows[..n]);
      ScaledLinesPositive(rows[..n], rewards, s);
      if HasKey(rewards, row.category) {
        var k :| 0 <= k < |rewards| && rewards[k].key == row.category;
        assert Spend(s, row) > 0.0;
      }
    }
  }

  /** A group's lines are all for categories with spend and a positive rate. */
  lemma GroupLinesPositive(rows: seq<RateRow>, s: UserSpending, milesRate: real)
    requires AllPositive(rows)
    ensures LinesPositive(GroupOutcome(rows, s, milesRate).details)
  {
    var cats := CategoryRows(rows);
    CategoryRowsPositive(rows);
    RawGroupLines(cats, s, milesRate);
    var raw := RawGroup(cats, s, milesRate);
    var capRow := CapRow(rows);
    if capRow.Some? && raw.total > 0.0 && raw.total > capRow.value.capAmount.value {
      RawGroupKeys(cats, s, milesRate);
      var scaled := ScaleDict(raw.rewards, capRow.value.capAmount.value / raw.total);
      forall k | 0 <= k < |scaled| ensures Attr(s, Lower(scaled[k].key)) > 0.0 {
        assert scaled[k].key == raw.rewards[k].key;
        assert raw.rewards[k].key in SpentCategories(cats, s);
        SpentCategoriesFrom(cats, s, raw.rewards[k].key);
      }
      ScaledLinesPositive(cats, scaled, s);
    }
  }

  /** What every group outcome satisfies: it earns its sum unless it overflows, and an
      overflow is the positive amount by which the sum exceeds what it earns. */
  predicate SoundOutcome(g: GroupResult) {
    && g.total <= g.original
    && (g.overflow.None? ==> g.total == g.original)
    && (g.overflow.Some? ==> g.overflow.value == g.original - g.total > 0.0)
  }

  lemma OutcomesSound(groups: seq<CapGroup>, s: UserSpending, milesRate: real)
    ensures forall i :: 0 <= i < |groups| ==> SoundOutcome(Outcomes(groups, s, milesRate)[i])
  {
    forall i | 0 <= i < |groups|
      ensures SoundOutcome(Outcomes(groups, s, milesRate)[i])
    {
      OutcomesAt(groups, s, milesRate, i);
      GroupOutcomeCap(groups[i].rows, s, milesRate);
    }
  }

  /** Groups that stay under their caps earn what they would have earned; each group
      that overflows makes the card earn strictly less than it would have. */
  lemma {:induction false} AccumulateBound(start: Tally, results: seq<GroupResult>)
    requires forall i :: 0 <= i < |results| ==> SoundOutcome(results[i])
    ensures var t := Accumulate(start, results);
            && t.original - t.total >= start.original - start.total
            && ((forall i :: 0 <= i < |results| ==> results[i].overflow.None?) ==>
                  t.original - t.total == start.original - start.total)
            && ((exists i :: 0 <= i < |results| && results[i].overflow.Some?) ==>
                  t.original - t.total > start.original - start.total)
  {
    if results != [] {
      var n := |results| - 1;
      assert forall i :: 0 <= i < n ==> results[..n][i] == results[i];
      AccumulateBound(start, results[..n]);
      assert SoundOutcome(results[n]);
    }
  }

  /** The reported difference is the overflow of the last group that overflowed. */
  ghost predicate DifferenceOfLast(t: Tally, results: seq<GroupResult>) {
    exists i :: 0 <= i < |results| && results[i].overflow == Some(t.difference)
      && forall j :: i < j < |results| ==> results[j].overflow.None?
  }

  /** The cap status is reached exactly when some group overflows its cap. */
  lemma {:induction false} AccumulateReached(start: Tally, results: seq<GroupResult>)
    ensures Accumulate(start, results).reached <==>
              start.reached || exists i :: 0 <= i < |results| && results[i].overflow.Some?
  {
    if results != [] {
      var n := |results| - 1;
      assert forall i :: 0 <= i < n ==> results[..n][i] == results[i];
      AccumulateReached(start, results[..n]);
    }
  }

  /** The reported difference is the last overflowing group's overflow, or the starting
      one when no group overflows. */
  lemma {:induction false} AccumulateDifference(start: Tally, results: seq<GroupResult>)
    ensures (exists i :: 0 <= i < |results| && results[i].overflow.Some?) ==>
              DifferenceOfLast(Accumulate(start, results), results)
    ensures (forall i :: 0 <= i < |results| ==> results[i].overflow.None?) ==>
              Accumulate(start, results).difference == start.difference
  {
    if results != [] {
      var n := |results| - 1;
      var prefix := results[..n];
      AccumulateDifference(start, prefix);
      var t0 := Accumulate(start, prefix);
      var t := Accumulate(start, results);
      assert t == AddOutcome(t0, results[n]);
      if results[n].overflow.Some? {
        assert results[n].overflow == Some(t.difference);
        assert DifferenceOfLast(t, results);
      } else {
        assert t.difference == t0.difference;
        if exists i :: 0 <= i < n && prefix[i].overflow.Some? {
          var j :| 0 <= j < n && prefix[j].overflow == Some(t0.difference)
                   && forall k :: j < k < n ==> prefix[k].overflow.None?;
          assert results[j] == prefix[j];
          forall k | j < k < |results| ensures results[k].overflow.None? {
            if k < n {
              assert results[k] == prefix[k];
            }
          }
          assert DifferenceOfLast(t, results);
        } else {
          forall i | 0 <= i < |results| ensures results[i].overflow.None? {
            if i < n {
              assert results[i] == prefix[i];
            }
          }
        }
      }
    }
  }

  lemma {:induction false} AccumulateLines(start: Tally, results: seq<GroupResult>)
    requires LinesPositive(start.details)
    requires forall i :: 0 <= i < |results| ==> LinesPositive(results[i].details)
    ensures LinesPositive(Accumulate(start, results).details)
  {
    if results != [] {
      var n := |results| - 1;
      assert forall i :: 0 <= i < n ==> results[..n][i] == results[i];
      AccumulateLines(start, results[..n]);
      assert LinesPositive(results[n].details);
    }
  }

  /** The partition of the chosen tier's rates above zero. */
  function TierPartition(c: CardLoader.Catalog, tier: CardTier): Partition {
    PartitionOf(PositiveRates(CardLoader.RatesOf(c.rates, tier.tierId)))
  }

  /** The calculation fails exactly when no card row has the id, or the first one has an
      unknown card type. */
  lemma CardRewardsError(c: CardLoader.Catalog, cardId: int, s: UserSpending, milesRate: real)
    ensures CardRewards(c, cardId, s, milesRate).Err? <==>
              match CardLoader.FirstRow(c.cards, cardId)
              case None => true
              case Some(i) => c.cards[i].cardType !in CardTypes
  {
  }

  /** The minimum spend is met exactly when some tier of the card asks for no more than
      the total spending; when none does, the card earns nothing and reaches no cap. */
  lemma CardRewardsMinSpend(c: CardLoader.Catalog, cardId: int, s: UserSpending, milesRate: real)
    requires CardRewards(c, cardId, s, milesRate).Ok?
    ensures var r := CardRewards(c, cardId, s, milesRate).value;
            && (r.minSpendMet <==> exists k :: 0 <= k < |c.tiers| && c.tiers[k].cardId == cardId
                                                && c.tiers[k].minSpend <= Total(s))
            && (!r.minSpendMet ==> r.monthlyReward == 0.0 && r.originalReward == 0.0
                                   && !r.capReached && r.capDifference.None?)
  {
  }

  /** Once a tier is chosen, the card never earns more than its rewards before the
      group caps; it reaches a cap exactly when it earns strictly less, and then reports
      a positive difference. */
  lemma TierRewardsBound(cardName: string, tier: CardTier, rates: seq<RateRow>, s: UserSpending, milesRate: real)
    ensures var r := TierRewards(cardName, tier, rates, s, milesRate);
            && r.minSpendMet
            && r.monthlyReward <= r.originalReward
            && (r.capReached <==> r.monthlyReward < r.originalReward)
            && (r.capReached <==> r.capDifference.Some?)
            && (r.capDifference.Some? ==> r.capDifference.value > 0.0)
  {
    var p := PartitionOf(PositiveRates(CardLoader.RatesOf(rates, tier.tierId)));
    var u := UncappedSums(p.uncapped, s, milesRate);
    UncappedNoShortfall(p.uncapped, s, milesRate);
    var start := Tally(u.total, u.original, false, 0.0, u.details);
    var results := Outcomes(p.groups, s, milesRate);
    OutcomesSound(p.groups, s, milesRate);
    AccumulateBound(start, results);
    AccumulateReached(start, results);
    AccumulateDifference(start, results);
    var t := Accumulate(start, results);
    if t.reached {
      var i :| 0 <= i < |results| && results[i].overflow == Some(t.difference)
               && forall j :: i < j < |results| ==> results[j].overflow.None?;
      assert SoundOutcome(results[i]);
    }
  }

  /** A card never earns more than its rewards before the group caps; it reaches a cap
      exactly when it earns strictly less, and then reports a positive difference. */
  lemma CardRewardsBound(c: CardLoader.Catalog, cardId: int, s: UserSpending, milesRate: real)
    requires CardRewards(c, cardId, s, milesRate).Ok?
    ensures var r := CardRewards(c, cardId, s, milesRate).value;
            && r.monthlyReward <= r.originalReward
            && (r.capReached <==> r.monthlyReward < r.originalReward)
            && (r.capReached <==> r.capDifference.Some?)
            && (r.capDifference.Some? ==> r.capDifference.value > 0.0)
  {
    var card := CardLoader.GetCardInfo(c.cards, cardId).value.value;
    var bestTier := CardLoader.GetBestTierForSpending(c, cardId, Total(s));
    if bestTier.Some? {
      TierRewardsBound(card.name, bestTier.value, c.rates, s, milesRate);
    }
  }

  /** Under the chosen tier, the cap is reached exactly when one of the tier's cap groups
      overflows its shared cap, and the difference is the last such group's overflow. */
  lemma TierRewardsCapGroups(cardName: string, tier: CardTier, rates: seq<RateRow>, s: UserSpending, milesRate: real)
    ensures var r := TierRewards(cardName, tier, rates, s, milesRate);
            var results := Outcomes(PartitionOf(PositiveRates(CardLoader.RatesOf(rates, tier.tierId))).groups, s, milesRate);
            && (r.capReached <==> exists i :: 0 <= i < |results| && results[i].overflow.Some?)
            && (r.capReached ==> exists i :: 0 <= i < |results| && results[i].overflow == r.capDifference
                                   && forall j :: i < j < |results| ==> results[j].overflow.None?)
  {
    var p := PartitionOf(PositiveRates(CardLoader.RatesOf(rates, tier.tierId)));
    var u := UncappedSums(p.uncapped, s, milesRate);
    var start := Tally(u.total, u.original, false, 0.0, u.details);
    AccumulateReached(start, Outcomes(p.groups, s, milesRate));
    AccumulateDifference(start, Outcomes(p.groups, s, milesRate));
  }

  /** When the minimum spend is met, every line of the breakdown is for a category the
      user spends on, at a positive rate. */
  lemma TierRewardsLines(cardName: string, tier: CardTier, rates: seq<RateRow>, s: UserSpending, milesRate: real)
    ensures LinesPositive(TierRewards(cardName, tier, rates, s, milesRate).details)
  {
    var rows := PositiveRates(CardLoader.RatesOf(rates, tier.tierId));
    PartitionKeepsPositive(rows);
    var p := PartitionOf(rows);
    UncappedLines(p.uncapped, s, milesRate);
    var u := UncappedSums(p.uncapped, s, milesRate);
    var results := Outcomes(p.groups, s, milesRate);
    forall i | 0 <= i < |results| ensures LinesPositive(results[i].details) {
      OutcomesAt(p.groups, s, milesRate, i);
      GroupLinesPositive(p.groups[i].rows, s, milesRate);
    }
    AccumulateLines(Tally(u.total, u.original, false, 0.0, u.details), results);
  }

  /** Every line of a card's breakdown is for a category the user spends on, at a
      positive rate, unless no tier was met and the breakdown is the single note. */
  lemma CardRewardsLines(c: CardLoader.Catalog, cardId: int, s: UserSpending, milesRate: real)
    requires CardRewards(c, cardId, s, milesRate).Ok?
    ensures var r := CardRewards(c, cardId, s, milesRate).value;
            r.minSpendMet ==> LinesPositive(r.details)
  {
    var card := CardLoader.GetCardInfo(c.cards, cardId).value.value;
    var bestTier := CardLoader.GetBestTierForSpending(c, cardId, Total(s));
    if bestTier.Some? {
      TierRewardsLines(card.name, bestTier.value, c.rates, s, milesRate);
    }
  }

  // ---------------------------------------------------------------------
  // get_best_cards

  function MonthlyReward(r: RewardCalculation): real {
    r.monthlyReward
  }

  /** `name in unique_cards`. */
  function HasName(rs: seq<RewardCalculation>, name: string): (b: bool)
    ensures b <==> exists k :: 0 <= k < |rs| && rs[k].cardName == name
  {
    if rs == [] then false else rs[0].cardName == name || HasName(rs[1..], name)
  }

  /** The dict of first results per card name, in the order the names first occur. */
  function FirstPerName(rs: seq<RewardCalculation>): seq<RewardCalculation> {
    if rs == [] then []
    else
      var t := FirstPerName(rs[..|rs| - 1]);
      var last := rs[|rs| - 1];
      if HasName(t, last.cardName) then t else t + [last]
  }

  /** `get_best_cards`: the results by descending monthly reward, one per card name,
      cut to `limit` as a Python slice. */
  function BestCards(results: seq<RewardCalculation>, limit: int): seq<RewardCalculation> {
    Ranking.Head(FirstPerName(Ranking.SortDesc(results, MonthlyReward)), limit)
  }

  method GetBestCards(results: seq<RewardCalculation>, limit: int) returns (top: seq<RewardCalculation>)
    ensures top == BestCards(results, limit)
  {
    var sorted := Ranking.SortDesc(results, MonthlyReward);
    var unique: seq<RewardCalculation> := [];
    var i := 0;
    while i < |sorted|
      invariant 0 <= i <= |sorted|
      invariant unique == FirstPerName(sorted[..i])
    {
      assert sorted[..i + 1][..i] == sorted[..i];
      if !HasName(unique, sorted[i].cardName) {
        unique := unique + [sorted[i]];
      }
      i := i + 1;
    }
    assert sorted[..i] == sorted;
    top := Ranking.Head(unique, limit);
  }

  ghost predicate DistinctNames(rs: seq<RewardCalculation>) {
    forall i, j :: 0 <= i < j < |rs| ==> rs[i].cardName != rs[j].cardName
  }

  /** Keeping the first result per name keeps only results of the input, never more
      of them. */
  lemma {:induction false} FirstPerNameFrom(rs: seq<RewardCalculation>)
    ensures |FirstPerName(rs)| <= |rs|
    ensures forall k :: 0 <= k < |FirstPerName(rs)| ==> FirstPerName(rs)[k] in rs
  {
    if rs != [] {
      var n := |rs| - 1;
      var p := rs[..n];
      FirstPerNameFrom(p);
      var t := FirstPerName(p);
      forall k | 0 <= k < |t| ensures t[k] in rs {
        var j :| 0 <= j < n && p[j] == t[k];
        assert rs[j] == t[k];
      }
    }
  }

  /** It keeps one result per name, and every name. */
  lemma {:induction false} FirstPerNameNames(rs: seq<RewardCalculation>)
    ensures DistinctNames(FirstPerName(rs))
    ensures forall k :: 0 <= k < |rs| ==> HasName(FirstPerName(rs), rs[k].cardName)
  {
    if rs != [] {
      var n := |rs| - 1;
      var p := rs[..n];
      FirstPerNameNames(p);
      var t := FirstPerName(p);
      var x := rs[n];
      assert forall k :: 0 <= k < n ==> p[k] == rs[k];
      if !HasName(t, x.cardName) {
        var u := t + [x];
        assert forall k :: 0 <= k < |t| ==> u[k] == t[k];
        forall k | 0 <= k < |rs| ensures HasName(u, rs[k].cardName) {
          if k < n {
            var m :| 0 <= m < |t| && t[m].cardName == p[k].cardName;
            assert u[m] == t[m];
          } else {
            assert u[|t|] == x;
          }
        }
      }
    }
  }

  /** Each kept result lies before the last element of the input. */
  lemma FirstPerNameBefore(rs: seq<RewardCalculation>, k: nat)
    requires rs != [] && k < |FirstPerName(rs[..|rs| - 1])|
    ensures exists j :: 0 <= j < |rs| - 1 && rs[j] == FirstPerName(rs[..|rs| - 1])[k]
  {
    var p := rs[..|rs| - 1];
    FirstPerNameFrom(p);
    var j :| 0 <= j < |p| && p[j] == FirstPerName(p)[k];
    assert rs[j] == p[j];
  }

  /** Every result kept from a descending input, apart from the last input, earns at
      least as much as the last input. */
  lemma FirstPerNameAbove(rs: seq<RewardCalculation>, t: seq<RewardCalculation>)
    requires rs != [] && Ranking.SortedDesc(rs, MonthlyReward)
    requires t == FirstPerName(rs[..|rs| - 1])
    ensures forall k :: 0 <= k < |t| ==> t[k].monthlyReward >= rs[|rs| - 1].monthlyReward
  {
    var n := |rs| - 1;
    forall k | 0 <= k < |t| ensures t[k].monthlyReward >= rs[n].monthlyReward {
      FirstPerNameBefore(rs, k);
      var j :| 0 <= j < n && rs[j] == t[k];
      assert MonthlyReward(rs[j]) >= MonthlyReward(rs[n]);
    }
  }

  lemma SortedDescPrefix(rs: seq<RewardCalculation>, n: nat)
    requires Ranking.SortedDesc(rs, MonthlyReward) && n <= |rs|
    ensures Ranking.SortedDesc(rs[..n], MonthlyReward)
  {
    assert forall k :: 0 <= k < n ==> rs[..n][k] == rs[k];
  }

  /** From a descending input it keeps a descending list. */
  lemma {:induction false} FirstPerNameSorted(rs: seq<RewardCalculation>)
    requires Ranking.SortedDesc(rs, MonthlyReward)
    ensures Ranking.SortedDesc(FirstPerName(rs), MonthlyReward)
  {
    if rs != [] {
      var n := |rs| - 1;
      SortedDescPrefix(rs, n);
      FirstPerNameSorted(rs[..n]);
      var t := FirstPerName(rs[..n]);
      FirstPerNameAbove(rs, t);
      if !HasName(t, rs[n].cardName) {
        var u := t + [rs[n]];
        assert forall k :: 0 <= k < |t| ==> u[k] == t[k];
      }
    }
  }

  /** From a descending input, each kept result is the best of its name. */
  lemma {:induction false} FirstPerNameBest(rs: seq<RewardCalculation>)
    requires Ranking.SortedDesc(rs, MonthlyReward)
    ensures forall j, k :: 0 <= j < |FirstPerName(rs)| && 0 <= k < |rs| && rs[k].cardName == FirstPerName(rs)[j].cardName ==>
              FirstPerName(rs)[j].monthlyReward >= rs[k].monthlyReward
  {
    if rs != [] {
      var n := |rs| - 1;
      var p := rs[..n];
      var x := rs[n];
      SortedDescPrefix(rs, n);
      FirstPerNameBest(p);
      var t := FirstPerName(p);
      FirstPerNameAbove(rs, t);
      assert forall k :: 0 <= k < n ==> p[k] == rs[k];
      if !HasName(t, x.cardName) {
        FirstPerNameNames(p);
        var u := t + [x];
        assert forall k :: 0 <= k < |t| ==> u[k] == t[k];
      }
    }
  }

  /** Sorting keeps exactly the results. */
  lemma SortedResults(results: seq<RewardCalculation>)
    ensures var sorted := Ranking.SortDesc(results, MonthlyReward);
            && (forall k :: 0 <= k < |sorted| ==> sorted[k] in results)
            && (forall k :: 0 <= k < |results| ==> results[k] in sorted)
  {
    var sorted := Ranking.SortDesc(results, MonthlyReward);
    Ranking.SortDescPermutation(results, MonthlyReward);
    assert forall k :: 0 <= k < |sorted| ==> sorted[k] in multiset(results);
    assert forall k :: 0 <= k < |results| ==> results[k] in multiset(sorted);
  }

  /** A ranking drawn from `results`: one entry per card name, by descending monthly
      reward, each entry one of the results and the best result of its card. */
  ghost predicate RanksBest(b: seq<RewardCalculation>, results: seq<RewardCalculation>) {
    && DistinctNames(b)
    && Ranking.SortedDesc(b, MonthlyReward)
    && (forall k :: 0 <= k < |b| ==> b[k] in results)
    && (forall j, k :: 0 <= j < |b| && 0 <= k < |results| && results[k].cardName == b[j].cardName ==>
          b[j].monthlyReward >= results[k].monthlyReward)
  }

  lemma RanksBestPrefix(b: seq<RewardCalculation>, results: seq<RewardCalculation>, n: nat)
    requires RanksBest(b, results) && n <= |b|
    ensures RanksBest(b[..n], results)
  {
    assert forall k :: 0 <= k < n ==> b[..n][k] == b[k];
  }

  lemma FirstPerNameRanks(results: seq<RewardCalculation>)
    ensures RanksBest(FirstPerName(Ranking.SortDesc(results, MonthlyReward)), results)
  {
    var sorted := Ranking.SortDesc(results, MonthlyReward);
    var u := FirstPerName(sorted);
    Ranking.SortDescSorted(results, MonthlyReward);
    assert DistinctNames(u) by {
      FirstPerNameNames(sorted);
    }
    assert Ranking.SortedDesc(u, MonthlyReward) && forall k :: 0 <= k < |u| ==> u[k] in results by {
      SortedResults(results);
      FirstPerNameFrom(sorted);
      FirstPerNameSorted(sorted);
    }
    forall j, k | 0 <= j < |u| && 0 <= k < |results| && results[k].cardName == u[j].cardName
      ensures u[j].monthlyReward >= results[k].monthlyReward
    {
      SortedResults(results);
      var m :| 0 <= m < |sorted| && sorted[m] == results[k];
      FirstPerNameBest(sorted);
    }
  }

  /** The best cards: at most `limit` of them, one per card name, by descending
      monthly reward, each one of the results and the best result of its card. */
  lemma BestCardsFacts(results: seq<RewardCalculation>, limit: int)
    ensures limit >= 0 ==> |BestCards(results, limit)| <= limit
    ensures RanksBest(BestCards(results, limit), results)
  {
    var u := FirstPerName(Ranking.SortDesc(results, MonthlyReward));
    FirstPerNameRanks(results);
    RanksBestPrefix(u, results, |BestCards(results, limit)|);
  }

  /** With a limit no smaller than the number of results, every card appears. */
  lemma BestCardsAll(results: seq<RewardCalculation>, limit: int)
    requires limit >= |results|
    ensures forall k :: 0 <= k < |results| ==> HasName(BestCards(results, limit), results[k].cardName)
  {
    var sorted := Ranking.SortDesc(results, MonthlyReward);
    SortedResults(results);
    FirstPerNameFrom(sorted);
    FirstPerNameNames(sorted);
    var u := FirstPerName(sorted);
    assert BestCards(results, limit) == u;
    forall k | 0 <= k < |results| ensures HasName(u, results[k].cardName) {
      var m :| 0 <= m < |sorted| && sorted[m] == results[k];
    }
  }
}
