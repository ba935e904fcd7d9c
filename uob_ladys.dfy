/** The UOB Lady's policy of the component layer: the category groups with the most
    spend (one, or two for the Solitaire card) earn 4 miles per dollar up to a spend
    cap per group; every other spend in the groups earns the base rate. The shared
    copy in `components/card_calculation_utils.py` differs only in comments and line
    breaks, so it is this model too. */
module UobLadys {
  import opened Common
  import opened CardModel
  import opened PolicyTypes
  import opened BonusSplit
  import Ranking

  /** A bonus group and its member categories. */
  datatype Group = Group(name: string, cats: seq<string>)

  /** `UOB_LADYS_GROUP_MAP`, in its dict order. */
  const GroupMap: seq<Group> := [
    Group("dining", ["dining"]),
    Group("entertainment", ["entertainment"]),
    Group("retail", ["retail"]),
    Group("transport", ["transport", "simplygo", "petrol"]),
    Group("travel", ["travel"])]

  ghost predicate DistinctGroups(groups: seq<Group>) {
    forall i, j :: 0 <= i < j < |groups| ==> groups[i].name != groups[j].name
  }

  lemma GroupMapDistinct()
    ensures DistinctGroups(GroupMap)
  {
  }

  // ---------------------------------------------------------------------
  // Choosing the groups

  /** An entry of `group_spend`. */
  datatype GroupSpend = GroupSpend(name: string, spend: real)

  function SpendOf(g: GroupSpend): real {
    g.spend
  }

  /** `group_spend`: each group's total spend, in map order. */
  function GroupSpends(d: SpendDict, groups: seq<Group>): (r: seq<GroupSpend>)
    ensures |r| == |groups|
    ensures forall i :: 0 <= i < |groups| ==> r[i] == GroupSpend(groups[i].name, SumGets(d, groups[i].cats))
  {
    if groups == [] then []
    else [GroupSpend(groups[0].name, SumGets(d, groups[0].cats))] + GroupSpends(d, groups[1..])
  }

  function Names(gs: seq<GroupSpend>): (r: seq<string>)
    ensures |r| == |gs|
    ensures forall i :: 0 <= i < |gs| ==> r[i] == gs[i].name
  {
    if gs == [] then [] else [gs[0].name] + Names(gs[1..])
  }

  function GroupCount(solitaire: bool): nat {
    if solitaire then 2 else 1
  }

  /** `top_groups`: the names of the `n` groups with the most spend, taken from a
      stable descending sort. */
  function TopOf(d: SpendDict, groups: seq<Group>, n: nat): seq<string> {
    Names(Ranking.Head(Ranking.SortDesc(GroupSpends(d, groups), SpendOf), n))
  }

  /** The groups chosen for the bonus: one, or two for the Solitaire card. */
  function TopGroups(d: SpendDict, solitaire: bool): seq<string> {
    TopOf(d, GroupMap, GroupCount(solitaire))
  }

  /** The sorted list holds the same entries as the list in map order. */
  lemma SortedSpends(d: SpendDict, groups: seq<Group>)
    ensures var spends := GroupSpends(d, groups);
            var sorted := Ranking.SortDesc(spends, SpendOf);
            && Ranking.SortedDesc(sorted, SpendOf)
            && (forall x :: x in sorted <==> x in spends)
  {
    var spends := GroupSpends(d, groups);
    Ranking.SortDescSorted(spends, SpendOf);
    Ranking.SortDescPermutation(spends, SpendOf);
    var sorted := Ranking.SortDesc(spends, SpendOf);
    assert forall x :: x in sorted <==> x in multiset(sorted);
  }

  /** Exactly `n` groups are chosen, each a group of the list. */
  lemma TopOfNames(d: SpendDict, groups: seq<Group>, n: nat)
    requires n <= |groups|
    ensures |TopOf(d, groups, n)| == n
    ensures forall k :: 0 <= k < n ==> exists i :: 0 <= i < |groups| && groups[i].name == TopOf(d, groups, n)[k]
  {
    var spends := GroupSpends(d, groups);
    var sorted := Ranking.SortDesc(spends, SpendOf);
    var top := TopOf(d, groups, n);
    SortedSpends(d, groups);
    forall k | 0 <= k < n
      ensures exists i :: 0 <= i < |groups| && groups[i].name == top[k]
    {
      assert sorted[k] in spends;
      var i :| 0 <= i < |groups| && spends[i] == sorted[k];
      assert groups[i].name == top[k];
    }
  }

  /** No chosen group has less spend than a group left out. */
  lemma TopOfMost(d: SpendDict, groups: seq<Group>, n: nat)
    requires DistinctGroups(groups) && n <= |groups|
    ensures forall i, j :: (0 <= i < |groups| && 0 <= j < |groups| && groups[i].name in TopOf(d, groups, n)
                            && groups[j].name !in TopOf(d, groups, n)) ==>
              SumGets(d, groups[i].cats) >= SumGets(d, groups[j].cats)
  {
    forall i, j | 0 <= i < |groups| && 0 <= j < |groups| && groups[i].name in TopOf(d, groups, n)
                  && groups[j].name !in TopOf(d, groups, n)
      ensures SumGets(d, groups[i].cats) >= SumGets(d, groups[j].cats)
    {
      TopOfPair(d, groups, n, i, j);
    }
  }

  lemma TopOfPair(d: SpendDict, groups: seq<Group>, n: nat, i: nat, j: nat)
    requires DistinctGroups(groups) && n <= |groups| && i < |groups| && j < |groups|
    requires groups[i].name in TopOf(d, groups, n) && groups[j].name !in TopOf(d, groups, n)
    ensures SumGets(d, groups[i].cats) >= SumGets(d, groups[j].cats)
  {
    var spends := GroupSpends(d, groups);
    assert spends[i].name == groups[i].name && spends[j].name == groups[j].name;
    TopSpendPair(spends, n, i, j);
  }

  /** The same on the spends: with distinct names, a chosen entry has at least the
      spend of one left out. */
  lemma TopSpendPair(spends: seq<GroupSpend>, n: nat, i: nat, j: nat)
    requires forall x, y :: 0 <= x < y < |spends| ==> spends[x].name != spends[y].name
    requires n <= |spends| && i < |spends| && j < |spends|
    requires spends[i].name in Names(Ranking.Head(Ranking.SortDesc(spends, SpendOf), n))
    requires spends[j].name !in Names(Ranking.Head(Ranking.SortDesc(spends, SpendOf), n))
    ensures spends[i].spend >= spends[j].spend
  {
    var sorted := Ranking.SortDesc(spends, SpendOf);
    Ranking.SortDescSorted(spends, SpendOf);
    Ranking.SortDescPermutation(spends, SpendOf);
    assert Ranking.Head(sorted, n) == sorted[..n];
    var a :| 0 <= a < n && sorted[a].name == spends[i].name;
    assert sorted[a] in multiset(spends);
    var i' :| 0 <= i' < |spends| && sorted[a] == spends[i'];
    assert i' == i;
    assert spends[j] in multiset(sorted);
    SortedBeats(sorted, n, a, spends[j]);
  }

  /** In a list sorted by spend, an entry among the first `n` has at least the spend
      of any entry whose name is not among the first `n`. */
  lemma SortedBeats(sorted: seq<GroupSpend>, n: nat, a: nat, y: GroupSpend)
    requires Ranking.SortedDesc(sorted, SpendOf) && a < n <= |sorted|
    requires y in sorted && y.name !in Names(sorted[..n])
    ensures sorted[a].spend >= y.spend
  {
    var b :| 0 <= b < |sorted| && sorted[b] == y;
    assert SpendOf(sorted[a]) >= SpendOf(sorted[b]);
  }

  /** Exactly one group of the map is chosen, or two for the Solitaire card, and no
      chosen group has less spend than a group left out. */
  lemma TopGroupsChosen(d: SpendDict, solitaire: bool)
    ensures |TopGroups(d, solitaire)| == GroupCount(solitaire)
    ensures forall k :: 0 <= k < |TopGroups(d, solitaire)| ==>
              exists i :: 0 <= i < |GroupMap| && GroupMap[i].name == TopGroups(d, solitaire)[k]
    ensures forall i, j :: (0 <= i < |GroupMap| && 0 <= j < |GroupMap| && GroupMap[i].name in TopGroups(d, solitaire)
                            && GroupMap[j].name !in TopGroups(d, solitaire)) ==>
              SumGets(d, GroupMap[i].cats) >= SumGets(d, GroupMap[j].cats)
  {
    GroupMapDistinct();
    TopOfNames(d, GroupMap, GroupCount(solitaire));
    TopOfMost(d, GroupMap, GroupCount(solitaire));
  }

  /** `min(group_spend[g], cap)`: the spend of a chosen group that may earn the bonus;
      a missing cap is unlimited. */
  function Allowance(d: SpendDict, g: Group, cap: Option<real>): real {
    match cap
    case None => SumGets(d, g.cats)
    case Some(c) => Min(SumGets(d, g.cats), c)
  }

  // ---------------------------------------------------------------------
  // Earning, group by group

  /** The categories of a group that was not chosen: all at the base rate. */
  function BaseCats(d: SpendDict, cats: seq<string>, base: real, milesRate: real): Run {
    if cats == [] then Run(0.0, [], 0.0)
    else
      var r := BaseCats(d, cats[..|cats| - 1], base, milesRate);
      var cat := cats[|cats| - 1];
      var amt := Get(d, cat);
      if amt == 0.0 then r
      else Run(r.reward + MilesValue(amt, base, milesRate), r.details + [MilesLine(cat, amt, base, milesRate)], 0.0)
  }

  /** What one group earns and lists. */
  function GroupPart(d: SpendDict, g: Group, top: seq<string>, cap: Option<real>, base: real, milesRate: real): Run {
    if g.name in top then BonusCats(d, g.cats, Allowance(d, g, cap), base, milesRate)
    else BaseCats(d, g.cats, base, milesRate)
  }

  /** The loop over the groups: what they earn and list, in map order. */
  function Groups(d: SpendDict, groups: seq<Group>, top: seq<string>, cap: Option<real>, base: real, milesRate: real): Run {
    if groups == [] then Run(0.0, [], 0.0)
    else
      var r := Groups(d, groups[..|groups| - 1], top, cap, base, milesRate);
      var p := GroupPart(d, groups[|groups| - 1], top, cap, base, milesRate);
      Run(r.reward + p.reward, r.details + p.details, 0.0)
  }

  function BaseRate(tier: PolicyTier): real {
    Truthy(tier.baseRate, 0.4)
  }

  /** `calculate_uob_ladys_rewards`: the reward and the breakdown. */
  function LadysRewards(d: SpendDict, milesRate: real, tier: PolicyTier, solitaire: bool): Run {
    Groups(d, GroupMap, TopGroups(d, solitaire), tier.cap, BaseRate(tier), milesRate)
  }

  lemma BaseCatsStep(d: SpendDict, cats: seq<string>, k: nat, base: real, milesRate: real)
    requires k < |cats|
    ensures BaseCats(d, cats[..k + 1], base, milesRate)
         == (var r := BaseCats(d, cats[..k], base, milesRate);
             var amt := Get(d, cats[k]);
             if amt == 0.0 then r
             else Run(r.reward + MilesValue(amt, base, milesRate), r.details + [MilesLine(cats[k], amt, base, milesRate)], 0.0))
  {
    assert cats[..k + 1][..k] == cats[..k];
  }

  lemma GroupsStep(d: SpendDict, groups: seq<Group>, i: nat, top: seq<string>, cap: Option<real>, base: real, milesRate: real)
    requires i < |groups|
    ensures var r := Groups(d, groups[..i], top, cap, base, milesRate);
            var p := GroupPart(d, groups[i], top, cap, base, milesRate);
            Groups(d, groups[..i + 1], top, cap, base, milesRate) == Run(r.reward + p.reward, r.details + p.details, 0.0)
  {
    assert groups[..i + 1][..i] == groups[..i];
  }

  /** The categories of a group that was not chosen. */
  method BaseGroup(d: SpendDict, g: Group, base: real, milesRate: real) returns (reward: real, details: seq<Detail>)
    ensures reward == BaseCats(d, g.cats, base, milesRate).reward
    ensures details == BaseCats(d, g.cats, base, milesRate).details
  {
    reward, details := 0.0, [];
    var k := 0;
    while k < |g.cats|
      invariant 0 <= k <= |g.cats|
      invariant reward == BaseCats(d, g.cats[..k], base, milesRate).reward
      invariant details == BaseCats(d, g.cats[..k], base, milesRate).details
    {
      BaseCatsStep(d, g.cats, k, base, milesRate);
      var cat := g.cats[k];
      var amt := Get(d, cat);
      if amt != 0.0 {
        var rewardBase := MilesValue(amt, base, milesRate);
        reward := reward + rewardBase;
        details := details + [Line(cat, amt, base, rewardBase)];
      }
      k := k + 1;
    }
    assert g.cats[..k] == g.cats;
  }

  /** One group of the loop: a chosen group draws on its entry of `group_bonus_left`. */
  method OneGroup(d: SpendDict, g: Group, top: seq<string>, left: map<string, real>, cap: Option<real>,
                  base: real, milesRate: real)
    returns (reward: real, details: seq<Detail>, left': map<string, real>)
    requires g.name in top ==> g.name in left && left[g.name] == Allowance(d, g, cap)
    ensures reward == GroupPart(d, g, top, cap, base, milesRate).reward
    ensures details == GroupPart(d, g, top, cap, base, milesRate).details
    ensures forall h :: h in left && h != g.name ==> h in left' && left'[h] == left[h]
  {
    if g.name in top {
      var l;
      reward, details, l := SpendDown(d, g.cats, left[g.name], base, milesRate);
      left' := left[g.name := l];
    } else {
      reward, details := BaseGroup(d, g, base, milesRate);
      left' := left;
    }
  }

  /** The loop over the groups, with `group_bonus_left` holding each chosen group's
      allowance. */
  method RunGroups(d: SpendDict, groups: seq<Group>, top: seq<string>, cap: Option<real>, base: real, milesRate: real)
    returns (reward: real, details: seq<Detail>)
    requires DistinctGroups(groups)
    ensures reward == Groups(d, groups, top, cap, base, milesRate).reward
    ensures details == Groups(d, groups, top, cap, base, milesRate).details
  {
    var left: map<string, real> :=
      map i | 0 <= i < |groups| && groups[i].name in top :: groups[i].name := Allowance(d, groups[i], cap);
    reward, details := 0.0, [];
    var i := 0;
    while i < |groups|
      invariant 0 <= i <= |groups|
      invariant reward == Groups(d, groups[..i], top, cap, base, milesRate).reward
      invariant details == Groups(d, groups[..i], top, cap, base, milesRate).details
      invariant forall j :: i <= j < |groups| && groups[j].name in top ==>
                  groups[j].name in left && left[groups[j].name] == Allowance(d, groups[j], cap)
    {
      GroupsStep(d, groups, i, top, cap, base, milesRate);
      var g := groups[i];
      var r, ds;
      r, ds, left := OneGroup(d, g, top, left, cap, base, milesRate);
      assert forall j :: i < j < |groups| ==> groups[j].name != g.name;
      reward := reward + r;
      details := details + ds;
      i := i + 1;
    }
    assert groups[..i] == groups;
  }

  /** `calculate_uob_ladys_rewards`. */
  method CalculateUobLadysRewards(d: SpendDict, milesRate: real, tier: PolicyTier, solitaire: bool)
    returns (reward: real, details: seq<Detail>)
    ensures reward == LadysRewards(d, milesRate, tier, solitaire).reward
    ensures details == LadysRewards(d, milesRate, tier, solitaire).details
  {
    var base := BaseRate(tier);
    var top := TopGroups(d, solitaire);
    GroupMapDistinct();
    reward, details := RunGroups(d, GroupMap, top, tier.cap, base, milesRate);
  }

  // ---------------------------------------------------------------------
  // What the breakdown promises

  /** Every category of the groups, in map order. */
  function MapCats(groups: seq<Group>): seq<string> {
    if groups == [] then [] else MapCats(groups[..|groups| - 1]) + groups[|groups| - 1].cats
  }

  /** The spend of all the groups. */
  function MapSpend(d: SpendDict, groups: seq<Group>): real {
    if groups == [] then 0.0 else MapSpend(d, groups[..|groups| - 1]) + SumGets(d, groups[|groups| - 1].cats)
  }

  /** A group that was not chosen: every line at the base rate, about its categories
      with spend, and adding up to its reward. */
  lemma {:induction false} BaseCatsSound(d: SpendDict, cats: seq<string>, base: real, milesRate: real)
    ensures Sound(BaseCats(d, cats, base, milesRate), d, cats, base)
    ensures LinesAtRate(BaseCats(d, cats, base, milesRate).details, base)
    decreases |cats|
  {
    if cats != [] {
      var n := |cats| - 1;
      BaseCatsSound(d, cats[..n], base, milesRate);
      var r := BaseCats(d, cats[..n], base, milesRate);
      LinesOkWiden(r.details, d, cats[..n], cats, base);
      var amt := Get(d, cats[n]);
      if amt != 0.0 {
        var line := MilesLine(cats[n], amt, base, milesRate);
        TakeLineSound(r, d, cats, line, base);
        var ds := r.details + [line];
        forall k | 0 <= k < |ds| ensures ds[k].Line? && ds[k].rate == base {
          if k < |r.details| {
            assert ds[k] == r.details[k];
          }
        }
      }
    }
  }

  /** A group that was not chosen lists all of its spend. */
  lemma {:induction false} BaseCatsAmounts(d: SpendDict, cats: seq<string>, base: real, milesRate: real)
    ensures SumAmounts(BaseCats(d, cats, base, milesRate).details) == SumGets(d, cats)
    decreases |cats|
  {
    if cats != [] {
      var n := |cats| - 1;
      BaseCatsAmounts(d, cats[..n], base, milesRate);
      var r := BaseCats(d, cats[..n], base, milesRate);
      var amt := Get(d, cats[n]);
      if amt != 0.0 {
        AppendLine(r.details, MilesLine(cats[n], amt, base, milesRate), BonusRate);
      }
    }
  }

  /** What one group lists: lines about its own categories; only the base rate when
      it was not chosen; and, when chosen, bonus on no more than its allowance
      `min(group spend, cap)`. */
  lemma GroupPartLines(d: SpendDict, g: Group, top: seq<string>, cap: Option<real>, base: real, milesRate: real)
    ensures Sound(GroupPart(d, g, top, cap, base, milesRate), d, g.cats, base)
    ensures g.name !in top ==> LinesAtRate(GroupPart(d, g, top, cap, base, milesRate).details, base)
    ensures g.name in top && base != BonusRate ==>
              0.0 <= AmountAtRate(GroupPart(d, g, top, cap, base, milesRate).details, BonusRate) <= Max(0.0, Allowance(d, g, cap))
  {
    if g.name in top {
      BonusCatsSound(d, g.cats, Allowance(d, g, cap), base, milesRate);
      if base != BonusRate {
        BonusCatsLeft(d, g.cats, Allowance(d, g, cap), base, milesRate);
      }
    } else {
      BaseCatsSound(d, g.cats, base, milesRate);
    }
  }

  /** With no negative spend and no negative cap, a group's lines account for its spend. */
  lemma GroupPartAmounts(d: SpendDict, g: Group, top: seq<string>, cap: Option<real>, base: real, milesRate: real)
    requires NonNegativeAmounts(d) && (cap.Some? ==> cap.value >= 0.0)
    ensures SumAmounts(GroupPart(d, g, top, cap, base, milesRate).details) == SumGets(d, g.cats)
  {
    if g.name in top {
      SumGetsNonNegative(d, g.cats);
      BonusCatsAmounts(d, g.cats, Allowance(d, g, cap), base, milesRate);
    } else {
      BaseCatsAmounts(d, g.cats, base, milesRate);
    }
  }

  /** All groups together: the reward is the sum of the lines, every line is about a
      category of the map with spend, and with no negative spend and no negative cap
      the lines account for all the spend of the map. */
  lemma {:induction false} GroupsFacts(d: SpendDict, groups: seq<Group>, top: seq<string>, cap: Option<real>,
                                       base: real, milesRate: real)
    ensures Sound(Groups(d, groups, top, cap, base, milesRate), d, MapCats(groups), base)
    ensures NonNegativeAmounts(d) && (cap.Some? ==> cap.value >= 0.0) ==>
              SumAmounts(Groups(d, groups, top, cap, base, milesRate).details) == MapSpend(d, groups)
    decreases |groups|
  {
    if groups != [] {
      var n := |groups| - 1;
      var g := groups[n];
      GroupsFacts(d, groups[..n], top, cap, base, milesRate);
      var r := Groups(d, groups[..n], top, cap, base, milesRate);
      var p := GroupPart(d, g, top, cap, base, milesRate);
      GroupPartLines(d, g, top, cap, base, milesRate);
      LinesOkAppend(r.details, p.details, d, MapCats(groups[..n]), g.cats, base);
      SumRewardsAppend(r.details, p.details);
      SumAmountsAppend(r.details, p.details);
      if NonNegativeAmounts(d) && (cap.Some? ==> cap.value >= 0.0) {
        GroupPartAmounts(d, g, top, cap, base, milesRate);
      }
    }
  }

  /** `calculate_uob_ladys_rewards`: the reward is the sum of the breakdown; every line
      is about a category of the group map whose spend is not zero, at 4 mpd or the
      base rate; and with no negative spend and no negative cap the lines split every
      dollar of the map's categories between bonus and base. */
  lemma LadysRewardsFacts(d: SpendDict, milesRate: real, tier: PolicyTier, solitaire: bool)
    ensures Sound(LadysRewards(d, milesRate, tier, solitaire), d, MapCats(GroupMap), BaseRate(tier))
    ensures NonNegativeAmounts(d) && (tier.cap.Some? ==> tier.cap.value >= 0.0) ==>
              SumAmounts(LadysRewards(d, milesRate, tier, solitaire).details) == MapSpend(d, GroupMap)
  {
    GroupsFacts(d, GroupMap, TopGroups(d, solitaire), tier.cap, BaseRate(tier), milesRate);
  }

  // ---------------------------------------------------------------------
  // Group by group, and category by category

  /** No category belongs to two groups, and no group lists a category twice. */
  ghost predicate SeparateGroups(groups: seq<Group>) {
    && (forall i, j, c :: 0 <= i < j < |groups| && c in groups[i].cats ==> c !in groups[j].cats)
    && (forall i :: 0 <= i < |groups| ==> DistinctCats(groups[i].cats))
  }

  lemma GroupMapSeparate()
    ensures SeparateGroups(GroupMap)
  {
    forall i, j, c | 0 <= i < j < |GroupMap| && c in GroupMap[i].cats
      ensures c !in GroupMap[j].cats
    {
      var k :| 0 <= k < |GroupMap[i].cats| && GroupMap[i].cats[k] == c;
      if i == 3 {
        assert c == "transport" || c == "simplygo" || c == "petrol";
      }
    }
    assert DistinctCats(GroupMap[3].cats);
  }

  /** A category of the map belongs to one of its groups. */
  lemma MapCatsFrom(groups: seq<Group>, c: string) returns (j: nat)
    requires c in MapCats(groups)
    ensures j < |groups| && c in groups[j].cats
  {
    var n := |groups| - 1;
    if c in groups[n].cats {
      j := n;
    } else {
      assert MapCats(groups) == MapCats(groups[..n]) + groups[n].cats;
      j := MapCatsFrom(groups[..n], c);
      assert groups[..n][j] == groups[j];
    }
  }

  /** Lines about categories of the earlier groups say nothing about a category of
      the last one. */
  lemma EarlierGroupsSilent(groups: seq<Group>, details: seq<Detail>, cs: seq<string>)
    requires |groups| > 0 && SeparateGroups(groups)
    requires LinesWithin(details, MapCats(groups[..|groups| - 1]))
    requires forall c :: c in cs ==> c in groups[|groups| - 1].cats
    ensures LinesAbout(details, cs) == []
  {
    var n := |groups| - 1;
    forall k | 0 <= k < |details| ensures details[k].Line? ==> details[k].category !in cs {
      var j := MapCatsFrom(groups[..n], details[k].category);
      assert groups[..n][j] == groups[j];
    }
    LinesAboutNone(details, cs);
  }

  /** Filtering all groups' lines by categories of one group gives what that group
      listed about them. */
  lemma {:induction false} GroupsAbout(d: SpendDict, groups: seq<Group>, top: seq<string>, cap: Option<real>,
                                       base: real, milesRate: real, i: nat, cs: seq<string>)
    requires i < |groups| && SeparateGroups(groups) && forall c :: c in cs ==> c in groups[i].cats
    ensures LinesAbout(Groups(d, groups, top, cap, base, milesRate).details, cs)
         == LinesAbout(GroupPart(d, groups[i], top, cap, base, milesRate).details, cs)
    decreases |groups|
  {
    var n := |groups| - 1;
    var r := Groups(d, groups[..n], top, cap, base, milesRate);
    var p := GroupPart(d, groups[n], top, cap, base, milesRate);
    assert Groups(d, groups, top, cap, base, milesRate).details == r.details + p.details;
    LinesAboutAppend(r.details, p.details, cs);
    if i == n {
      GroupsFacts(d, groups[..n], top, cap, base, milesRate);
      LinesOkWithin(r.details, d, MapCats(groups[..n]), base);
      EarlierGroupsSilent(groups, r.details, cs);
    } else {
      assert SeparateGroups(groups[..n]) by {
        forall a, b, c | 0 <= a < b < n && c in groups[..n][a].cats ensures c !in groups[..n][b].cats {
          assert groups[..n][a] == groups[a] && groups[..n][b] == groups[b];
        }
      }
      assert groups[..n][i] == groups[i];
      GroupsAbout(d, groups[..n], top, cap, base, milesRate, i, cs);
      GroupPartLines(d, groups[n], top, cap, base, milesRate);
      LinesOkWithin(p.details, d, groups[n].cats, base);
      forall k | 0 <= k < |p.details| ensures p.details[k].Line? ==> p.details[k].category !in cs {
        assert p.details[k].category in groups[n].cats;
      }
      LinesAboutNone(p.details, cs);
    }
  }

  /** A group that was not chosen lists each of its categories once, at its spend. */
  lemma {:induction false} BaseCatsPerCategory(d: SpendDict, cats: seq<string>, base: real, milesRate: real, c: string)
    requires DistinctCats(cats) && c in cats
    ensures SumAmounts(LinesAbout(BaseCats(d, cats, base, milesRate).details, [c])) == Get(d, c)
    decreases |cats|
  {
    var n := |cats| - 1;
    var r := BaseCats(d, cats[..n], base, milesRate);
    var amt := Get(d, cats[n]);
    var step := if amt == 0.0 then [] else [MilesLine(cats[n], amt, base, milesRate)];
    assert BaseCats(d, cats, base, milesRate).details == r.details + step;
    AppendLine([], MilesLine(cats[n], amt, base, milesRate), base);
    if cats[n] == c {
      BaseCatsSound(d, cats[..n], base, milesRate);
      LinesOkWithin(r.details, d, cats[..n], base);
      LastCategoryLines(r.details, step, cats, c);
    } else {
      EarlierCategoryLines(r.details, step, cats, c);
      BaseCatsPerCategory(d, cats[..n], base, milesRate, c);
    }
  }

  /** `calculate_uob_ladys_rewards`, one group at a time: the lines about a group's
      categories are at the base rate when the group was not chosen, and when it was,
      at most `max(0, min(group spend, cap))` of them earns the bonus. */
  lemma LadysRewardsPerGroup(d: SpendDict, milesRate: real, tier: PolicyTier, solitaire: bool, i: nat)
    requires i < |GroupMap|
    ensures var g := GroupMap[i];
            var top := TopGroups(d, solitaire);
            var lines := LinesAbout(LadysRewards(d, milesRate, tier, solitaire).details, g.cats);
            && (g.name !in top ==> LinesAtRate(lines, BaseRate(tier)))
            && (g.name in top && BaseRate(tier) != BonusRate ==>
                  0.0 <= AmountAtRate(lines, BonusRate) <= Max(0.0, Allowance(d, g, tier.cap)))
  {
    var g := GroupMap[i];
    var top := TopGroups(d, solitaire);
    GroupMapSeparate();
    GroupsAbout(d, GroupMap, top, tier.cap, BaseRate(tier), milesRate, i, g.cats);
    var p := GroupPart(d, g, top, tier.cap, BaseRate(tier), milesRate);
    GroupPartLines(d, g, top, tier.cap, BaseRate(tier), milesRate);
    LinesOkWithin(p.details, d, g.cats, BaseRate(tier));
    LinesAboutAll(p.details, g.cats);
  }

  /** `calculate_uob_ladys_rewards`, one category at a time: with no negative spend and
      no negative cap, the bonus part and the base part of a category of the map add
      up to its spend. */
  lemma LadysRewardsPerCategory(d: SpendDict, milesRate: real, tier: PolicyTier, solitaire: bool, i: nat, c: string)
    requires i < |GroupMap| && c in GroupMap[i].cats
    requires NonNegativeAmounts(d) && (tier.cap.Some? ==> tier.cap.value >= 0.0) && BaseRate(tier) != BonusRate
    ensures var lines := LinesAbout(LadysRewards(d, milesRate, tier, solitaire).details, [c]);
            AmountAtRate(lines, BonusRate) + AmountAtRate(lines, BaseRate(tier)) == Get(d, c)
  {
    var g := GroupMap[i];
    var top := TopGroups(d, solitaire);
    var base := BaseRate(tier);
    GroupMapSeparate();
    GroupsAbout(d, GroupMap, top, tier.cap, base, milesRate, i, [c]);
    var p := GroupPart(d, g, top, tier.cap, base, milesRate);
    var lines := LinesAbout(p.details, [c]);
    if g.name in top {
      SumGetsNonNegative(d, g.cats);
      BonusCatsPerCategory(d, g.cats, Allowance(d, g, tier.cap), base, milesRate, c);
    } else {
      BaseCatsPerCategory(d, g.cats, base, milesRate, c);
    }
    GroupPartLines(d, g, top, tier.cap, base, milesRate);
    LinesAboutKeepsOk(p.details, d, g.cats, base, [c]);
    AmountsAtTwoRates(lines, BonusRate, base);
  }

  /** Filtering keeps every line at the bonus rate or `base`. */
  lemma {:induction false} LinesAboutKeepsOk(details: seq<Detail>, d: SpendDict, cats: seq<string>, base: real,
                                             cs: seq<string>)
    requires LinesOk(details, d, cats, base)
    ensures LinesOk(LinesAbout(details, cs), d, cats, base)
    decreases |details|
  {
    if details != [] {
      var n := |details| - 1;
      var x := details[n];
      assert LinesOk(details[..n], d, cats, base);
      LinesAboutKeepsOk(details[..n], d, cats, base, cs);
      var a := LinesAbout(details[..n], cs);
      var all := a + (if x.Line? && x.category in cs then [x] else []);
      assert LineOk(x, d, cats, base);
      forall k | 0 <= k < |all| ensures LineOk(all[k], d, cats, base) {
        if k < |a| {
          assert all[k] == a[k];
        }
      }
    }
  }
}
