/** The DBS yuu split of one month's spending between the yuu card and another card:
    first the bonus categories, in order, up to the cap; then, if that falls short of
    the minimum spend, a top-up from the other categories in dict order; the rest of
    every category goes to the other card. */
module DbsYuu {
  import opened Common

  const DefaultMinSpend: real := 600.0
  const DefaultCap: real := 600.0
  const DefaultBonusCats: seq<string> := ["dining", "groceries", "transport"]

  /** The yuu card's share and the other card's share, each a dict of amounts. */
  datatype Allocation = Allocation(yuu: SpendDict, other: SpendDict)

  /** Every amount is positive. */
  ghost predicate Positive(d: SpendDict) {
    forall i :: 0 <= i < |d| ==> d[i].amount > 0.0
  }

  /** No category name is listed twice. */
  ghost predicate DistinctCats(cats: seq<string>) {
    forall i, j :: 0 <= i < j < |cats| ==> cats[i] != cats[j]
  }

  // ---------------------------------------------------------------------
  // The three phases

  /** What the bonus phase has allocated so far, and its running total. */
  datatype Bonus = Bonus(yuu: SpendDict, spent: real)

  /** One bonus category: its spend up to what the cap has left, when positive. */
  function BonusStep(d: SpendDict, c: string, cap: real, yuu: SpendDict, spent: real): Bonus {
    var amt := Min(Get(d, c), cap - spent);
    if amt > 0.0 then Bonus(Put(yuu, c, amt), spent + amt) else Bonus(yuu, spent)
  }

  /** The bonus phase from the remaining categories on, stopping once the cap is
      reached. */
  function BonusFrom(d: SpendDict, cats: seq<string>, cap: real, yuu: SpendDict, spent: real): Bonus
    decreases |cats|
  {
    if cats == [] then Bonus(yuu, spent)
    else
      var b := BonusStep(d, cats[0], cap, yuu, spent);
      if b.spent >= cap then b else BonusFrom(d, cats[1..], cap, b.yuu, b.spent)
  }

  function BonusAlloc(d: SpendDict, cats: seq<string>, cap: real): Bonus {
    BonusFrom(d, cats, cap, [], 0.0)
  }

  /** The top-up from the remaining entries on: each entry not `excluded` gives its
      spend up to what is still needed, added to what the yuu card already holds. */
  function TopUpFrom(rest: SpendDict, excluded: seq<string>, yuu: SpendDict, needed: real): SpendDict
    decreases |rest|
  {
    if rest == [] then yuu
    else
      var e := rest[0];
      if e.key !in excluded && needed > 0.0 && Min(e.amount, needed) > 0.0 then
        var alloc := Min(e.amount, needed);
        TopUpFrom(rest[1..], excluded, AddTo(yuu, e.key, alloc), needed - alloc)
      else TopUpFrom(rest[1..], excluded, yuu, needed)
  }

  /** `d[k] = d.get(k, 0) + a`. */
  function AddTo(d: SpendDict, k: string, a: real): SpendDict {
    Put(d, k, Get(d, k) + a)
  }

  /** The top-up runs only when the yuu total is below the minimum spend, and then
      for the difference. */
  function TopUp(d: SpendDict, excluded: seq<string>, yuu: SpendDict, minSpend: real): SpendDict {
    if SumValues(yuu) < minSpend then TopUpFrom(d, excluded, yuu, minSpend - SumValues(yuu)) else yuu
  }

  /** The other card's share from the remaining entries on: whatever of each entry's
      spend the yuu card does not hold, when positive. */
  function RemainderFrom(rest: SpendDict, yuu: SpendDict, other: SpendDict): SpendDict
    decreases |rest|
  {
    if rest == [] then other
    else
      var v := rest[0].amount - Get(yuu, rest[0].key);
      RemainderFrom(rest[1..], yuu, if v > 0.0 then Put(other, rest[0].key, v) else other)
  }

  /** `allocate_to_yuu` as written: the top-up passes over the bonus categories only. */
  function Allocate(d: SpendDict, minSpend: real, cap: real, cats: seq<string>): Allocation {
    var yuu := TopUp(d, cats, BonusAlloc(d, cats, cap).yuu, minSpend);
    Allocation(yuu, RemainderFrom(d, yuu, []))
  }

  /** The split with a top-up that also passes over the 'total' key. */
  function AllocateReal(d: SpendDict, minSpend: real, cap: real, cats: seq<string>): Allocation {
    var yuu := TopUp(d, cats + ["total"], BonusAlloc(d, cats, cap).yuu, minSpend);
    Allocation(yuu, RemainderFrom(d, yuu, []))
  }

  /** `allocate_to_yuu`. */
  method AllocateToYuu(d: SpendDict, minSpend: real, cap: real, cats: seq<string>)
    returns (yuu: SpendDict, other: SpendDict)
    ensures Allocation(yuu, other) == Allocate(d, minSpend, cap, cats)
  {
    yuu := AllocateBonus(d, cap, cats);
    yuu := TopUpYuu(d, minSpend, cats, yuu);
    other := SplitRemainder(d, yuu);
  }

  /** 1. The bonus categories in order, each up to what the cap has left. */
  method AllocateBonus(d: SpendDict, cap: real, cats: seq<string>) returns (yuu: SpendDict)
    ensures yuu == BonusAlloc(d, cats, cap).yuu
  {
    yuu := [];
    var spent := 0.0;
    var i := 0;
    while i < |cats|
      invariant 0 <= i <= |cats|
      invariant BonusAlloc(d, cats, cap) == BonusFrom(d, cats[i..], cap, yuu, spent)
    {
      assert cats[i..][1..] == cats[i + 1..];
      assert cats[i..][0] == cats[i];
      var cat := cats[i];
      var amt := Min(Get(d, cat), cap - spent);
      if amt > 0.0 {
        yuu := Put(yuu, cat, amt);
        spent := spent + amt;
      }
      if spent >= cap {
        break;
      }
      i := i + 1;
    }
  }

  /** 2. If the bonus allocation falls short of the minimum spend, the top-up from
      the categories outside the bonus list. */
  method TopUpYuu(d: SpendDict, minSpend: real, cats: seq<string>, yuu0: SpendDict) returns (yuu: SpendDict)
    ensures yuu == TopUp(d, cats, yuu0, minSpend)
  {
    yuu := yuu0;
    var total := SumValues(yuu);
    if total < minSpend {
      var needed := minSpend - total;
      var j := 0;
      while j < |d|
        invariant 0 <= j <= |d|
        invariant TopUp(d, cats, yuu0, minSpend) == TopUpFrom(d[j..], cats, yuu, needed)
      {
        assert d[j..][1..] == d[j + 1..];
        assert d[j..][0] == d[j];
        var cat, amt := d[j].key, d[j].amount;
        if cat !in cats && needed > 0.0 {
          var alloc := Min(amt, needed);
          if alloc > 0.0 {
            yuu := AddTo(yuu, cat, alloc);
            needed := needed - alloc;
          }
        }
        j := j + 1;
      }
    }
  }

  /** 3. What the yuu card does not hold of each category goes to the other card. */
  method SplitRemainder(d: SpendDict, yuu: SpendDict) returns (other: SpendDict)
    ensures other == RemainderFrom(d, yuu, [])
  {
    other := [];
    var k := 0;
    while k < |d|
      invariant 0 <= k <= |d|
      invariant RemainderFrom(d, yuu, []) == RemainderFrom(d[k..], yuu, other)
    {
      assert d[k..][1..] == d[k + 1..];
      var cat, amt := d[k].key, d[k].amount;
      var otherAmt := amt - Get(yuu, cat);
      if otherAmt > 0.0 {
        other := Put(other, cat, otherAmt);
      }
      k := k + 1;
    }
  }

  // ---------------------------------------------------------------------
  // Dict facts the phases rest on

  /** Setting a key replaces what `get` returned for it in the sum of the values. */
  lemma {:induction false} SumValuesPut(d: SpendDict, k: string, v: real)
    ensures SumValues(Put(d, k, v)) == SumValues(d) - Get(d, k) + v
  {
    if d != [] && d[0].key != k {
      SumValuesPut(d[1..], k, v);
    }
  }

  lemma {:induction false} PutPositive(d: SpendDict, k: string, v: real)
    requires Positive(d) && v > 0.0
    ensures Positive(Put(d, k, v))
  {
    if d != [] && d[0].key != k {
      PutPositive(d[1..], k, v);
    }
  }

  lemma {:induction false} PositiveGet(d: SpendDict, k: string)
    requires Positive(d)
    ensures Get(d, k) >= 0.0
  {
    if d != [] && d[0].key != k {
      PositiveGet(d[1..], k);
    }
  }

  lemma {:induction false} PositiveSum(d: SpendDict)
    requires Positive(d)
    ensures SumValues(d) >= 0.0
  {
    if d != [] {
      PositiveSum(d[1..]);
    }
  }

  /** Adding to a key changes only that key's amount, and the sum by as much. */
  lemma AddToGet(d: SpendDict, k: string, a: real, k': string)
    ensures Get(AddTo(d, k, a), k') == if k' == k then Get(d, k) + a else Get(d, k')
  {
    var v := Get(d, k) + a;
    assert AddTo(d, k, a) == Put(d, k, v);
    PutGet(d, k, v, k');
  }

  lemma AddToSum(d: SpendDict, k: string, a: real)
    ensures SumValues(AddTo(d, k, a)) == SumValues(d) + a
  {
    var v := Get(d, k) + a;
    assert AddTo(d, k, a) == Put(d, k, v);
    SumValuesPut(d, k, v);
  }

  lemma AddToPositive(d: SpendDict, k: string, a: real)
    requires Positive(d) && a > 0.0
    ensures Positive(AddTo(d, k, a))
  {
    var v := Get(d, k) + a;
    assert AddTo(d, k, a) == Put(d, k, v);
    PositiveGet(d, k);
    PutPositive(d, k, v);
  }

  // ---------------------------------------------------------------------
  // The bonus phase

  /** One bonus category keeps the running total between zero and the cap, the
      amounts positive, and their sum within the running total. */
  lemma BonusStepTotals(d: SpendDict, c: string, cap: real, yuu: SpendDict, spent: real)
    requires 0.0 <= spent <= Max(0.0, cap)
    requires Positive(yuu) && SumValues(yuu) <= spent
    ensures var b := BonusStep(d, c, cap, yuu, spent);
            && 0.0 <= b.spent <= Max(0.0, cap)
            && Positive(b.yuu) && SumValues(b.yuu) <= b.spent
  {
    var amt := Min(Get(d, c), cap - spent);
    if amt > 0.0 {
      PutPositive(yuu, c, amt);
      SumValuesPut(yuu, c, amt);
      PositiveGet(yuu, c);
    }
  }

  /** The running total never passes the cap (nor falls below zero), only positive
      amounts are recorded, and they add up to no more than the running total. */
  lemma {:induction false} BonusFromTotals(d: SpendDict, cats: seq<string>, cap: real, yuu: SpendDict, spent: real)
    requires 0.0 <= spent <= Max(0.0, cap)
    requires Positive(yuu) && SumValues(yuu) <= spent
    ensures var r := BonusFrom(d, cats, cap, yuu, spent);
            && 0.0 <= r.spent <= Max(0.0, cap)
            && Positive(r.yuu) && SumValues(r.yuu) <= r.spent
    decreases |cats|
  {
    if cats != [] {
      var b := BonusStep(d, cats[0], cap, yuu, spent);
      BonusStepTotals(d, cats[0], cap, yuu, spent);
      if b.spent < cap {
        BonusFromTotals(d, cats[1..], cap, b.yuu, b.spent);
      }
    }
  }

  /** No more than a category's own spend is taken from it, and nothing from a
      category outside the bonus list. */
  lemma {:induction false} BonusFromGet(d: SpendDict, cats: seq<string>, cap: real, yuu: SpendDict, spent: real, k: string)
    requires Get(yuu, k) <= Max(0.0, Get(d, k))
    ensures var r := BonusFrom(d, cats, cap, yuu, spent);
            && Get(r.yuu, k) <= Max(0.0, Get(d, k))
            && (k !in cats ==> Get(r.yuu, k) == Get(yuu, k))
    decreases |cats|
  {
    if cats != [] {
      var c := cats[0];
      var b := BonusStep(d, c, cap, yuu, spent);
      var amt := Min(Get(d, c), cap - spent);
      if amt > 0.0 {
        PutGet(yuu, c, amt, k);
      }
      assert Get(b.yuu, k) <= Max(0.0, Get(d, k));
      assert k != c ==> Get(b.yuu, k) == Get(yuu, k);
      if b.spent < cap {
        BonusFromGet(d, cats[1..], cap, b.yuu, b.spent, k);
        assert cats == [c] + cats[1..];
      }
    }
  }

  /** With no category listed twice, the recorded amounts add up to exactly the
      running total. */
  lemma {:induction false} BonusFromExact(d: SpendDict, cats: seq<string>, cap: real, yuu: SpendDict, spent: real)
    requires DistinctCats(cats)
    requires forall i :: 0 <= i < |cats| ==> Get(yuu, cats[i]) == 0.0
    requires SumValues(yuu) == spent
    ensures var r := BonusFrom(d, cats, cap, yuu, spent);
            SumValues(r.yuu) == r.spent
    decreases |cats|
  {
    if cats != [] {
      var c := cats[0];
      var b := BonusStep(d, c, cap, yuu, spent);
      var amt := Min(Get(d, c), cap - spent);
      if amt > 0.0 {
        SumValuesPut(yuu, c, amt);
      }
      if b.spent < cap {
        forall i | 0 <= i < |cats[1..]| ensures Get(b.yuu, cats[1..][i]) == 0.0 {
          assert cats[1..][i] == cats[i + 1] != c;
          if amt > 0.0 {
            PutGet(yuu, c, amt, cats[i + 1]);
          }
        }
        BonusFromExact(d, cats[1..], cap, b.yuu, b.spent);
      }
    }
  }

  /** The bonus phase gives the yuu card no more than the cap in all, in positive
      amounts. */
  lemma BonusWithinCap(d: SpendDict, cats: seq<string>, cap: real)
    ensures 0.0 <= SumValues(BonusAlloc(d, cats, cap).yuu) <= BonusAlloc(d, cats, cap).spent <= Max(0.0, cap)
    ensures Positive(BonusAlloc(d, cats, cap).yuu)
  {
    BonusFromTotals(d, cats, cap, [], 0.0);
    PositiveSum(BonusAlloc(d, cats, cap).yuu);
  }

  /** With no bonus category listed twice, the yuu card holds exactly the bonus
      phase's running total. */
  lemma BonusExact(d: SpendDict, cats: seq<string>, cap: real)
    requires DistinctCats(cats)
    ensures SumValues(BonusAlloc(d, cats, cap).yuu) == BonusAlloc(d, cats, cap).spent
  {
    BonusFromExact(d, cats, cap, [], 0.0);
  }

  // ---------------------------------------------------------------------
  // The top-up phase

  /** The spend the top-up can draw on: the positive amounts of the entries not
      excluded. */
  function Drawable(rest: SpendDict, excluded: seq<string>): (p: real)
    ensures p >= 0.0
    decreases |rest|
  {
    if rest == [] then 0.0
    else (if rest[0].key !in excluded then Max(0.0, rest[0].amount) else 0.0) + Drawable(rest[1..], excluded)
  }

  /** The top-up adds exactly the smaller of what is needed and what can be drawn on:
      it is greedy in dict order. */
  lemma {:induction false} TopUpFromTotal(rest: SpendDict, excluded: seq<string>, yuu: SpendDict, needed: real)
    requires needed >= 0.0
    ensures SumValues(TopUpFrom(rest, excluded, yuu, needed)) == SumValues(yuu) + Min(needed, Drawable(rest, excluded))
    decreases |rest|
  {
    if rest != [] {
      var e := rest[0];
      var taken := e.key !in excluded && needed > 0.0 && Min(e.amount, needed) > 0.0;
      var alloc := Min(e.amount, needed);
      var yuu' := if taken then AddTo(yuu, e.key, alloc) else yuu;
      var needed' := if taken then needed - alloc else needed;
      assert TopUpFrom(rest, excluded, yuu, needed) == TopUpFrom(rest[1..], excluded, yuu', needed');
      if taken {
        AddToSum(yuu, e.key, alloc);
      }
      TopUpFromTotal(rest[1..], excluded, yuu', needed');
    }
  }

  /** The top-up leaves an excluded key alone. */
  lemma {:induction false} TopUpFromSkips(rest: SpendDict, excluded: seq<string>, yuu: SpendDict, needed: real, k: string)
    requires k in excluded
    ensures Get(TopUpFrom(rest, excluded, yuu, needed), k) == Get(yuu, k)
    decreases |rest|
  {
    if rest != [] {
      var e := rest[0];
      var taken := e.key !in excluded && needed > 0.0 && Min(e.amount, needed) > 0.0;
      var alloc := Min(e.amount, needed);
      var yuu' := if taken then AddTo(yuu, e.key, alloc) else yuu;
      var needed' := if taken then needed - alloc else needed;
      assert TopUpFrom(rest, excluded, yuu, needed) == TopUpFrom(rest[1..], excluded, yuu', needed');
      if taken {
        AddToGet(yuu, e.key, alloc, k);
      }
      TopUpFromSkips(rest[1..], excluded, yuu', needed', k);
    }
  }

  lemma TopUpSkips(d: SpendDict, excluded: seq<string>, yuu: SpendDict, minSpend: real, k: string)
    requires k in excluded
    ensures Get(TopUp(d, excluded, yuu, minSpend), k) == Get(yuu, k)
  {
    if SumValues(yuu) < minSpend {
      TopUpFromSkips(d, excluded, yuu, minSpend - SumValues(yuu), k);
    }
  }

  /** The top-up keeps every amount positive. */
  lemma {:induction false} TopUpFromPositive(rest: SpendDict, excluded: seq<string>, yuu: SpendDict, needed: real)
    requires Positive(yuu)
    ensures Positive(TopUpFrom(rest, excluded, yuu, needed))
    decreases |rest|
  {
    if rest != [] {
      var e := rest[0];
      var taken := e.key !in excluded && needed > 0.0 && Min(e.amount, needed) > 0.0;
      var alloc := Min(e.amount, needed);
      var yuu' := if taken then AddTo(yuu, e.key, alloc) else yuu;
      var needed' := if taken then needed - alloc else needed;
      assert TopUpFrom(rest, excluded, yuu, needed) == TopUpFrom(rest[1..], excluded, yuu', needed');
      if taken {
        AddToPositive(yuu, e.key, alloc);
      }
      TopUpFromPositive(rest[1..], excluded, yuu', needed');
    }
  }

  /** The top-up leaves alone a key the spending does not hold. */
  lemma {:induction false} TopUpFromAbsent(rest: SpendDict, excluded: seq<string>, yuu: SpendDict, needed: real, k: string)
    requires forall i :: 0 <= i < |rest| ==> rest[i].key != k
    ensures Get(TopUpFrom(rest, excluded, yuu, needed), k) == Get(yuu, k)
    decreases |rest|
  {
    if rest != [] {
      var e := rest[0];
      var taken := e.key !in excluded && needed > 0.0 && Min(e.amount, needed) > 0.0;
      var alloc := Min(e.amount, needed);
      var yuu' := if taken then AddTo(yuu, e.key, alloc) else yuu;
      var needed' := if taken then needed - alloc else needed;
      assert TopUpFrom(rest, excluded, yuu, needed) == TopUpFrom(rest[1..], excluded, yuu', needed');
      if taken {
        AddToGet(yuu, e.key, alloc, k);
      }
      TopUpFromAbsent(rest[1..], excluded, yuu', needed', k);
    }
  }

  /** The top-up leaves an excluded key alone and adds to any other key no more than
      that key's own spend. */
  lemma {:induction false} TopUpFromGet(rest: SpendDict, excluded: seq<string>, yuu: SpendDict, needed: real, i: nat)
    requires DistinctKeys(rest) && i < |rest|
    ensures var k := rest[i].key;
            var r := TopUpFrom(rest, excluded, yuu, needed);
            Get(yuu, k) <= Get(r, k) <= Get(yuu, k) + (if k in excluded then 0.0 else Max(0.0, rest[i].amount))
    decreases |rest|
  {
    var e := rest[0];
    var taken := e.key !in excluded && needed > 0.0 && Min(e.amount, needed) > 0.0;
    var alloc := Min(e.amount, needed);
    var yuu' := if taken then AddTo(yuu, e.key, alloc) else yuu;
    var needed' := if taken then needed - alloc else needed;
    assert TopUpFrom(rest, excluded, yuu, needed) == TopUpFrom(rest[1..], excluded, yuu', needed');
    var k := rest[i].key;
    if taken {
      AddToGet(yuu, e.key, alloc, k);
    }
    if i == 0 {
      forall j | 0 <= j < |rest[1..]| ensures rest[1..][j].key != k {
        assert rest[1..][j] == rest[j + 1];
      }
      TopUpFromAbsent(rest[1..], excluded, yuu', needed', k);
    } else {
      assert e.key != k;
      assert rest[1..][i - 1] == rest[i];
      TopUpFromGet(rest[1..], excluded, yuu', needed', i - 1);
    }
  }

  // ---------------------------------------------------------------------
  // The remainder phase

  /** The remainder phase records only positive amounts. */
  lemma {:induction false} RemainderFromPositive(rest: SpendDict, yuu: SpendDict, other: SpendDict)
    requires Positive(other)
    ensures Positive(RemainderFrom(rest, yuu, other))
    decreases |rest|
  {
    if rest != [] {
      var v := rest[0].amount - Get(yuu, rest[0].key);
      if v > 0.0 {
        PutPositive(other, rest[0].key, v);
      }
      RemainderFromPositive(rest[1..], yuu, if v > 0.0 then Put(other, rest[0].key, v) else other);
    }
  }

  /** The remainder phase leaves alone a key the spending does not hold. */
  lemma {:induction false} RemainderFromAbsent(rest: SpendDict, yuu: SpendDict, other: SpendDict, k: string)
    requires forall i :: 0 <= i < |rest| ==> rest[i].key != k
    ensures Get(RemainderFrom(rest, yuu, other), k) == Get(other, k)
    decreases |rest|
  {
    if rest != [] {
      var v := rest[0].amount - Get(yuu, rest[0].key);
      if v > 0.0 {
        PutGet(other, rest[0].key, v, k);
      }
      RemainderFromAbsent(rest[1..], yuu, if v > 0.0 then Put(other, rest[0].key, v) else other, k);
    }
  }

  /** A key of the spending gets from the remainder phase what the yuu card does not
      hold of its spend, when that is positive. */
  lemma {:induction false} RemainderFromGet(rest: SpendDict, yuu: SpendDict, other: SpendDict, i: nat)
    requires DistinctKeys(rest) && i < |rest|
    ensures var k := rest[i].key;
            var v := rest[i].amount - Get(yuu, k);
            Get(RemainderFrom(rest, yuu, other), k) == if v > 0.0 then v else Get(other, k)
    decreases |rest|
  {
    var k := rest[i].key;
    var v := rest[0].amount - Get(yuu, rest[0].key);
    var other' := if v > 0.0 then Put(other, rest[0].key, v) else other;
    if v > 0.0 {
      PutGet(other, rest[0].key, v, k);
    }
    if i == 0 {
      forall j | 0 <= j < |rest[1..]| ensures rest[1..][j].key != k {
        assert rest[1..][j] == rest[j + 1];
      }
      RemainderFromAbsent(rest[1..], yuu, other', k);
    } else {
      assert rest[0].key != k;
      assert rest[1..][i - 1] == rest[i];
      RemainderFromGet(rest[1..], yuu, other', i - 1);
    }
  }

  // ---------------------------------------------------------------------
  // What the split promises

  /** The top-up brings the yuu total to the smaller of the minimum spend and what
      can be drawn on. */
  lemma TopUpTotal(d: SpendDict, excluded: seq<string>, yuu: SpendDict, minSpend: real)
    ensures SumValues(TopUp(d, excluded, yuu, minSpend))
            == if SumValues(yuu) < minSpend then Min(minSpend, SumValues(yuu) + Drawable(d, excluded)) else SumValues(yuu)
  {
    if SumValues(yuu) < minSpend {
      TopUpFromTotal(d, excluded, yuu, minSpend - SumValues(yuu));
    }
  }

  /** The yuu card holds the bonus allocation, topped up when it falls short of the
      minimum spend by the smaller of the shortfall and the positive spend outside
      the bonus categories (`BonusWithinCap` bounds the bonus allocation). */
  lemma YuuTotal(d: SpendDict, minSpend: real, cap: real, cats: seq<string>)
    ensures var b := SumValues(BonusAlloc(d, cats, cap).yuu);
            SumValues(Allocate(d, minSpend, cap, cats).yuu)
            == if b < minSpend then Min(minSpend, b + Drawable(d, cats)) else b
  {
    TopUpTotal(d, cats, BonusAlloc(d, cats, cap).yuu, minSpend);
  }

  /** The bonus phase takes no more than a category's own spend from it, and nothing
      from a category outside the bonus list. */
  lemma BonusGet(d: SpendDict, cats: seq<string>, cap: real, k: string)
    ensures Get(BonusAlloc(d, cats, cap).yuu, k) <= Max(0.0, Get(d, k))
    ensures k !in cats ==> Get(BonusAlloc(d, cats, cap).yuu, k) == 0.0
  {
    BonusFromGet(d, cats, cap, [], 0.0, k);
  }

  /** Each category's spend, when not negative, is split without loss between the two
      cards, the yuu card's part being between nothing and the whole. */
  lemma YuuConservation(d: SpendDict, minSpend: real, cap: real, cats: seq<string>, i: nat)
    requires DistinctKeys(d) && i < |d| && d[i].amount >= 0.0
    ensures var a := Allocate(d, minSpend, cap, cats);
            var k := d[i].key;
            && 0.0 <= Get(a.yuu, k) <= d[i].amount
            && Get(a.yuu, k) + Get(a.other, k) == d[i].amount
  {
    var k := d[i].key;
    GetAt(d, i);
    var b := BonusAlloc(d, cats, cap);
    BonusWithinCap(d, cats, cap);
    BonusGet(d, cats, cap, k);
    var yuu := TopUp(d, cats, b.yuu, minSpend);
    if SumValues(b.yuu) < minSpend {
      TopUpFromGet(d, cats, b.yuu, minSpend - SumValues(b.yuu), i);
      TopUpFromPositive(d, cats, b.yuu, minSpend - SumValues(b.yuu));
    }
    PositiveGet(yuu, k);
    RemainderFromGet(d, yuu, [], i);
  }

  /** Only positive amounts appear in either share. */
  lemma YuuPositive(d: SpendDict, minSpend: real, cap: real, cats: seq<string>)
    ensures Positive(Allocate(d, minSpend, cap, cats).yuu)
    ensures Positive(Allocate(d, minSpend, cap, cats).other)
  {
    var b := BonusAlloc(d, cats, cap);
    BonusWithinCap(d, cats, cap);
    var yuu := TopUp(d, cats, b.yuu, minSpend);
    if SumValues(b.yuu) < minSpend {
      TopUpFromPositive(d, cats, b.yuu, minSpend - SumValues(b.yuu));
    }
    RemainderFromPositive(d, yuu, []);
  }

  // ---------------------------------------------------------------------
  // The top-up and the 'total' key

  /** As written, the top-up draws on the 'total' key: with 100 of dining and the
      'total' key at 100, the yuu card is credited with 200 of spend, of which 100 is
      the 'total' key itself. */
  lemma TopUpDrawsOnTotal()
    ensures var d := [Entry("dining", 100.0), Entry("total", 100.0)];
            var a := Allocate(d, DefaultMinSpend, DefaultCap, DefaultBonusCats);
            Get(a.yuu, "total") == 100.0 && SumValues(a.yuu) == 200.0
  {
    var d := [Entry("dining", 100.0), Entry("total", 100.0)];
    var cats := DefaultBonusCats;
    assert Get(d, "dining") == 100.0 && Get(d, "groceries") == 0.0 && Get(d, "transport") == 0.0;
    var b1 := Put([], "dining", 100.0);
    assert b1 == [Entry("dining", 100.0)];
    assert BonusFrom(d, cats[2..], DefaultCap, b1, 100.0) == Bonus(b1, 100.0);
    assert BonusFrom(d, cats[1..], DefaultCap, b1, 100.0) == Bonus(b1, 100.0);
    assert BonusAlloc(d, cats, DefaultCap) == Bonus(b1, 100.0);
    var y := Put(b1, "total", 100.0);
    assert y == [Entry("dining", 100.0), Entry("total", 100.0)];
    assert TopUpFrom(d[1..], cats, b1, 500.0) == y;
    assert TopUpFrom(d, cats, b1, 500.0) == y;
  }

  /** With the 'total' key passed over as well, the top-up leaves it alone and draws
      only on real categories outside the bonus list. */
  lemma TopUpRealSpend(d: SpendDict, minSpend: real, cap: real, cats: seq<string>)
    requires "total" !in cats
    ensures Get(AllocateReal(d, minSpend, cap, cats).yuu, "total") == 0.0
    ensures var b := SumValues(BonusAlloc(d, cats, cap).yuu);
            SumValues(AllocateReal(d, minSpend, cap, cats).yuu)
            == if b < minSpend then Min(minSpend, b + Drawable(d, cats + ["total"])) else b
  {
    var b := BonusAlloc(d, cats, cap);
    BonusGet(d, cats, cap, "total");
    TopUpSkips(d, cats + ["total"], b.yuu, minSpend, "total");
    TopUpTotal(d, cats + ["total"], b.yuu, minSpend);
  }
}
