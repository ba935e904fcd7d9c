/** The catalog service: the card tables as loaded, the lookups over them, the choice
    of a card's tier for a spending total, and the lookup tables built from the rows. */
module CardLoader {
  import opened Common
  import opened CardModel

  // ---------------------------------------------------------------------
  // Catalog rows

  datatype CardRow = CardRow(cardId: int, name: string, cardType: string, issuer: string)

  /** A reward-rate row. A NaN or missing cell is `None`; `capGroup` is the optional
      'cap_group' column naming a cap shared between rows. */
  datatype RateRow = RateRow(
    tierId: int, category: string, rateValue: real, rateType: string,
    capAmount: Option<real>, capType: Option<string>, capGroup: Option<string>)

  /** The four tables, rows in file order. */
  datatype Catalog = Catalog(
    cards: seq<CardRow>, tiers: seq<CardTier>, rates: seq<RateRow>, categories: seq<CardCategory>)

  // ---------------------------------------------------------------------
  // Lookups

  /** `get_card_tiers`: the tier rows of one card, in table order. */
  function TiersOf(tiers: seq<CardTier>, cardId: int): (r: seq<CardTier>)
    ensures |r| <= |tiers|
    ensures forall k :: 0 <= k < |r| ==> r[k].cardId == cardId && r[k] in tiers
    ensures forall k :: 0 <= k < |tiers| && tiers[k].cardId == cardId ==> tiers[k] in r
  {
    if tiers == [] then []
    else (if tiers[0].cardId == cardId then [tiers[0]] else []) + TiersOf(tiers[1..], cardId)
  }

  /** Selecting keeps table order and multiplicity: the tier rows of two tables one after
      the other are those of the first followed by those of the second. */
  lemma {:induction false} TiersOfAppend(a: seq<CardTier>, b: seq<CardTier>, cardId: int)
    ensures TiersOf(a + b, cardId) == TiersOf(a, cardId) + TiersOf(b, cardId)
  {
    if a == [] {
      assert a + b == b;
    } else {
      assert (a + b)[1..] == a[1..] + b;
      TiersOfAppend(a[1..], b, cardId);
    }
  }

  /** `get_reward_rates`: the rate rows of one tier, in table order. */
  function RatesOf(rates: seq<RateRow>, tierId: int): (r: seq<RateRow>)
    ensures |r| <= |rates|
    ensures forall k :: 0 <= k < |r| ==> r[k].tierId == tierId && r[k] in rates
    ensures forall k :: 0 <= k < |rates| && rates[k].tierId == tierId ==> rates[k] in r
  {
    if rates == [] then []
    else (if rates[0].tierId == tierId then [rates[0]] else []) + RatesOf(rates[1..], tierId)
  }

  /** The rate rows of two tables one after the other are those of the first followed by
      those of the second. */
  lemma {:induction false} RatesOfAppend(a: seq<RateRow>, b: seq<RateRow>, tierId: int)
    ensures RatesOf(a + b, tierId) == RatesOf(a, tierId) + RatesOf(b, tierId)
  {
    if a == [] {
      assert a + b == b;
    } else {
      assert (a + b)[1..] == a[1..] + b;
      RatesOfAppend(a[1..], b, tierId);
    }
  }

  /** `get_card_categories`: the category names listed for one card, in table order. */
  function CategoriesOf(categories: seq<CardCategory>, cardId: int): (r: seq<string>)
    ensures |r| <= |categories|
    ensures forall k :: 0 <= k < |categories| && categories[k].cardId == cardId ==>
              categories[k].category in r
    ensures forall k :: 0 <= k < |r| ==> CardCategory(cardId, r[k]) in categories
  {
    if categories == [] then []
    else (if categories[0].cardId == cardId then [categories[0].category] else [])
         + CategoriesOf(categories[1..], cardId)
  }

  /** `get_cards_by_type`. */
  function CardsOfType(cards: seq<CardRow>, cardType: string): (r: seq<CardRow>)
    ensures |r| <= |cards|
    ensures forall k :: 0 <= k < |r| ==> r[k].cardType == cardType && r[k] in cards
    ensures forall k :: 0 <= k < |cards| && cards[k].cardType == cardType ==> cards[k] in r
  {
    if cards == [] then []
    else (if cards[0].cardType == cardType then [cards[0]] else []) + CardsOfType(cards[1..], cardType)
  }

  /** The cards of a type in two tables one after the other are those of the first
      followed by those of the second. */
  lemma {:induction false} CardsOfTypeAppend(a: seq<CardRow>, b: seq<CardRow>, cardType: string)
    ensures CardsOfType(a + b, cardType) == CardsOfType(a, cardType) + CardsOfType(b, cardType)
  {
    if a == [] {
      assert a + b == b;
    } else {
      assert (a + b)[1..] == a[1..] + b;
      CardsOfTypeAppend(a[1..], b, cardType);
    }
  }

  function CardOf(row: CardRow): Result<CreditCard> {
    NewCreditCard(row.cardId, row.name, row.issuer, row.cardType)
  }

  /** The index of the first row with the id. */
  function FirstRow(cards: seq<CardRow>, cardId: int): (r: Option<nat>)
    ensures r.None? <==> forall k :: 0 <= k < |cards| ==> cards[k].cardId != cardId
    ensures r.Some? ==> r.value < |cards| && cards[r.value].cardId == cardId
                        && forall j :: 0 <= j < r.value ==> cards[j].cardId != cardId
  {
    if cards == [] then None
    else if cards[0].cardId == cardId then Some(0)
    else
      match FirstRow(cards[1..], cardId)
      case None => None
      case Some(i) =>
        assert forall j :: 1 <= j <= i ==> cards[j] == cards[1..][j - 1];
        Some(i + 1)
  }

  /** `get_card_info`: the card built from the first row with the id, `None` when there
      is no such row; building it fails on an unknown card type. */
  function GetCardInfo(cards: seq<CardRow>, cardId: int): (r: Result<Option<CreditCard>>)
    ensures r == Ok(None) <==> FirstRow(cards, cardId).None?
    ensures r != Ok(None) ==>
              var i := FirstRow(cards, cardId).value;
              && (r.Ok? <==> cards[i].cardType in CardTypes)
              && (r.Ok? ==> r.value == Some(CreditCard(cardId, cards[i].name, cards[i].issuer, cards[i].cardType)))
  {
    match FirstRow(cards, cardId)
    case None => Ok(None)
    case Some(i) =>
      match CardOf(cards[i])
      case Ok(card) => Ok(Some(card))
      case Err(e) => Err(e)
  }

  /** `get_all_cards`: one card per row, in order; the first row with an unknown card
      type makes the whole call fail. */
  function GetAllCards(cards: seq<CardRow>): (r: Result<seq<CreditCard>>)
    ensures r.Ok? <==> forall k :: 0 <= k < |cards| ==> cards[k].cardType in CardTypes
    ensures r.Ok? ==> |r.value| == |cards| && forall k :: 0 <= k < |cards| ==>
              r.value[k] == CreditCard(cards[k].cardId, cards[k].name, cards[k].issuer, cards[k].cardType)
  {
    if cards == [] then Ok([])
    else
      match CardOf(cards[0])
      case Err(e) => Err(e)
      case Ok(card) =>
        match GetAllCards(cards[1..])
        case Err(e) => Err(e)
        case Ok(rest) => Ok([card] + rest)
  }

  // ---------------------------------------------------------------------
  // get_best_tier_for_spending

  /** The tiers whose minimum spend the total meets, in table order. */
  function Qualifying(tiers: seq<CardTier>, total: real): (r: seq<CardTier>)
    ensures forall k :: 0 <= k < |r| ==> r[k].minSpend <= total && r[k] in tiers
    ensures forall k :: 0 <= k < |tiers| && tiers[k].minSpend <= total ==> tiers[k] in r
    ensures r == [] <==> forall k :: 0 <= k < |tiers| ==> tiers[k].minSpend > total
  {
    if tiers == [] then []
    else (if tiers[0].minSpend <= total then [tiers[0]] else []) + Qualifying(tiers[1..], total)
  }

  /** `max()` of the minimum spends of a non-empty list of tiers. */
  function MaxMinSpend(tiers: seq<CardTier>): (m: real)
    requires tiers != []
    ensures forall k :: 0 <= k < |tiers| ==> tiers[k].minSpend <= m
    ensures exists k :: 0 <= k < |tiers| && tiers[k].minSpend == m
  {
    if |tiers| == 1 then tiers[0].minSpend
    else
      var m := MaxMinSpend(tiers[1..]);
      assert exists k :: 1 <= k < |tiers| && tiers[k].minSpend == m by {
        var k :| 0 <= k < |tiers[1..]| && tiers[1..][k].minSpend == m;
        assert tiers[k + 1] == tiers[1..][k];
      }
      Max(tiers[0].minSpend, m)
  }

  /** The first tier, in table order, whose minimum spend is `m`. */
  function FirstWithMinSpend(tiers: seq<CardTier>, m: real): (r: Option<CardTier>)
    ensures r.None? <==> forall k :: 0 <= k < |tiers| ==> tiers[k].minSpend != m
    ensures r.Some? ==> exists i :: 0 <= i < |tiers| && tiers[i] == r.value && r.value.minSpend == m
                          && forall j :: 0 <= j < i ==> tiers[j].minSpend != m
  {
    if tiers == [] then None
    else if tiers[0].minSpend == m then Some(tiers[0])
    else
      var r := FirstWithMinSpend(tiers[1..], m);
      assert r.Some? ==> exists i :: 1 <= i < |tiers| && tiers[i] == r.value && r.value.minSpend == m
                           && forall j :: 0 <= j < i ==> tiers[j].minSpend != m by {
        if r.Some? {
          var i :| 0 <= i < |tiers[1..]| && tiers[1..][i] == r.value && r.value.minSpend == m
                   && forall j :: 0 <= j < i ==> tiers[1..][j].minSpend != m;
          assert tiers[i + 1] == tiers[1..][i];
        }
      }
      r
  }

  /** Looking for a qualifying minimum spend among the qualifying tiers finds the same
      row as looking for it among all of them. */
  lemma {:induction false} FirstQualifying(tiers: seq<CardTier>, total: real, m: real)
    requires m <= total
    ensures FirstWithMinSpend(Qualifying(tiers, total), m) == FirstWithMinSpend(tiers, m)
  {
    if tiers != [] {
      FirstQualifying(tiers[1..], total, m);
      var q := Qualifying(tiers, total);
      var rest := Qualifying(tiers[1..], total);
      if tiers[0].minSpend <= total {
        assert q == [tiers[0]] + rest;
        assert q[0] == tiers[0] && q[1..] == rest;
      } else {
        assert q == rest;
        assert tiers[0].minSpend != m;
      }
    }
  }

  /** `get_best_tier_for_spending` over one card's tiers: among the tiers the total
      qualifies for, the highest minimum spend; on a tie, the first such row. */
  function BestTier(tiers: seq<CardTier>, total: real): (r: Option<CardTier>)
    ensures r.None? <==> forall k :: 0 <= k < |tiers| ==> tiers[k].minSpend > total
    ensures r.Some? ==> r.value in tiers && r.value.minSpend <= total
    ensures r.Some? ==> forall k :: 0 <= k < |tiers| && tiers[k].minSpend <= total ==>
                          tiers[k].minSpend <= r.value.minSpend
    ensures r.Some? ==> exists i :: 0 <= i < |tiers| && tiers[i] == r.value
                          && forall j :: 0 <= j < i ==> tiers[j].minSpend != r.value.minSpend
  {
    var suitable := Qualifying(tiers, total);
    if suitable == [] then None
    else
      var m := MaxMinSpend(suitable);
      FirstQualifying(tiers, total, m);
      var k :| 0 <= k < |suitable| && suitable[k].minSpend == m;
      assert suitable[k] in tiers;
      assert forall k :: 0 <= k < |tiers| && tiers[k].minSpend <= total ==> tiers[k].minSpend <= m by {
        forall k | 0 <= k < |tiers| && tiers[k].minSpend <= total ensures tiers[k].minSpend <= m {
          assert tiers[k] in suitable;
        }
      }
      FirstWithMinSpend(suitable, m)
  }

  /** The catalog-level call: the best tier among the card's own tiers. */
  function GetBestTierForSpending(c: Catalog, cardId: int, total: real): (r: Option<CardTier>)
    ensures r.Some? ==> r.value.cardId == cardId && r.value in c.tiers && r.value.minSpend <= total
    ensures r.None? <==> forall k :: 0 <= k < |c.tiers| && c.tiers[k].cardId == cardId ==>
                           c.tiers[k].minSpend > total
    ensures r.Some? ==> forall k :: 0 <= k < |c.tiers| && c.tiers[k].cardId == cardId && c.tiers[k].minSpend <= total ==>
                          c.tiers[k].minSpend <= r.value.minSpend
  {
    var ts := TiersOf(c.tiers, cardId);
    var r := BestTier(ts, total);
    assert r.Some? ==> forall k :: 0 <= k < |c.tiers| && c.tiers[k].cardId == cardId && c.tiers[k].minSpend <= total ==>
                         c.tiers[k].minSpend <= r.value.minSpend by {
      if r.Some? {
        forall k | 0 <= k < |c.tiers| && c.tiers[k].cardId == cardId && c.tiers[k].minSpend <= total
          ensures c.tiers[k].minSpend <= r.value.minSpend
        {
          assert c.tiers[k] in ts;
        }
      }
    }
    assert r.None? ==> forall k :: 0 <= k < |c.tiers| && c.tiers[k].cardId == cardId ==>
                         c.tiers[k].minSpend > total by {
      if r.None? {
        forall k | 0 <= k < |c.tiers| && c.tiers[k].cardId == cardId
          ensures c.tiers[k].minSpend > total
        {
          var ts := TiersOf(c.tiers, cardId);
          assert c.tiers[k] in ts;
        }
      }
    }
    r
  }

  /** On a tie the catalog-level choice is the first of the card's tiers, in table
      order, with the chosen minimum spend. */
  lemma BestTierFirstOnTie(c: Catalog, cardId: int, total: real, ts: seq<CardTier>) returns (i: nat)
    requires ts == TiersOf(c.tiers, cardId) && GetBestTierForSpending(c, cardId, total).Some?
    ensures i < |ts| && ts[i] == GetBestTierForSpending(c, cardId, total).value
    ensures forall j :: 0 <= j < i ==> ts[j].minSpend != ts[i].minSpend
  {
    var r := BestTier(ts, total);
    i :| 0 <= i < |ts| && ts[i] == r.value && forall j :: 0 <= j < i ==> ts[j].minSpend != r.value.minSpend;
  }

  /** Spending more never selects a tier with a lower minimum spend. */
  lemma BestTierMonotone(tiers: seq<CardTier>, t1: real, t2: real)
    requires t1 <= t2 && BestTier(tiers, t1).Some?
    ensures BestTier(tiers, t2).Some?
    ensures BestTier(tiers, t2).value.minSpend >= BestTier(tiers, t1).value.minSpend
  {
    var b1 := BestTier(tiers, t1).value;
    var i :| 0 <= i < |tiers| && tiers[i] == b1;
    assert tiers[i].minSpend <= t2;
  }

  // ---------------------------------------------------------------------
  // _build_lookup_tables_cached

  datatype CardInfo = CardInfo(name: string, cardType: string, issuer: string)
  datatype TierInfo = TierInfo(tierId: int, description: string, minSpend: real)
  datatype RateInfo = RateInfo(
    category: string, rateValue: real, rateType: string, capAmount: Option<real>, capType: Option<string>)

  datatype LookupTables = LookupTables(
    nameToId: map<string, int>, idToInfo: map<int, CardInfo>, idToCategories: map<int, seq<string>>,
    idToTiers: map<int, seq<TierInfo>>, tierToRates: map<int, seq<RateInfo>>)

  /** A cap type that reads 'nan' is a missing value. */
  function NormaliseCapType(t: Option<string>): (r: Option<string>)
    ensures r.Some? <==> t.Some? && t.value != "nan"
    ensures r.Some? ==> r == t
  {
    if t.Some? && t.value != "nan" then t else None
  }

  function CardName(r: CardRow): string { r.name }
  function CardIdOf(r: CardRow): int { r.cardId }
  function InfoOf(r: CardRow): CardInfo { CardInfo(r.name, r.cardType, r.issuer) }
  function CategoryCard(r: CardCategory): int { r.cardId }
  function CategoryName(r: CardCategory): string { r.category }
  function TierCard(t: CardTier): int { t.cardId }
  function TierInfoOf(t: CardTier): TierInfo { TierInfo(t.tierId, t.description, t.minSpend) }
  function RateTier(r: RateRow): int { r.tierId }

  /** A rate as the lookup table stores it: NaN cells are `None`, and so is a cap type
      reading 'nan'. */
  function RateInfoOf(r: RateRow): (i: RateInfo)
    ensures i.capAmount == r.capAmount && i.capType == NormaliseCapType(r.capType)
    ensures i.category == r.category && i.rateValue == r.rateValue && i.rateType == r.rateType
  {
    RateInfo(r.category, r.rateValue, r.rateType, r.capAmount, NormaliseCapType(r.capType))
  }

  /** Some row has key `k`. */
  predicate KeyOccurs<R, K(==)>(rows: seq<R>, key: R -> K, k: K) {
    exists i :: 0 <= i < |rows| && key(rows[i]) == k
  }

  /** Row `i` is the last row with its key. */
  predicate LastWithKey<R, K(==)>(rows: seq<R>, key: R -> K, i: nat)
    requires i < |rows|
  {
    forall j :: i < j < |rows| ==> key(rows[j]) != key(rows[i])
  }

  /** The values of the rows with key `k`, in row order. */
  function Grouped<R, K(==), V>(rows: seq<R>, key: R -> K, val: R -> V, k: K): (r: seq<V>)
    ensures |r| <= |rows|
    ensures r == [] <==> !KeyOccurs(rows, key, k)
  {
    if rows == [] then []
    else
      var rest := Grouped(rows[1..], key, val, k);
      assert KeyOccurs(rows[1..], key, k) ==> KeyOccurs(rows, key, k) by {
        if KeyOccurs(rows[1..], key, k) {
          var i :| 0 <= i < |rows[1..]| && key(rows[1..][i]) == k;
          assert rows[i + 1] == rows[1..][i];
        }
      }
      (if key(rows[0]) == k then [val(rows[0])] else []) + rest
  }

  lemma {:induction false} GroupedSnoc<R, K, V>(rows: seq<R>, x: R, key: R -> K, val: R -> V, k: K)
    ensures Grouped(rows + [x], key, val, k)
         == Grouped(rows, key, val, k) + (if key(x) == k then [val(x)] else [])
  {
    var tail := if key(x) == k then [val(x)] else [];
    if rows == [] {
      assert rows + [x] == [x];
      assert Grouped([x], key, val, k) == tail + Grouped([x][1..], key, val, k);
    } else {
      var head := if key(rows[0]) == k then [val(rows[0])] else [];
      var s := rows + [x];
      assert s[0] == rows[0];
      assert s[1..] == rows[1..] + [x];
      assert Grouped(s, key, val, k) == head + Grouped(rows[1..] + [x], key, val, k);
      GroupedSnoc(rows[1..], x, key, val, k);
      assert head + (Grouped(rows[1..], key, val, k) + tail)
          == (head + Grouped(rows[1..], key, val, k)) + tail;
    }
  }

  lemma KeyOccursSnoc<R, K>(rows: seq<R>, x: R, key: R -> K, k: K)
    ensures KeyOccurs(rows + [x], key, k) <==> KeyOccurs(rows, key, k) || key(x) == k
  {
    var s := rows + [x];
    if KeyOccurs(s, key, k) && key(x) != k {
      var j :| 0 <= j < |s| && key(s[j]) == k;
      assert s[j] == rows[j];
    }
    if KeyOccurs(rows, key, k) {
      var j :| 0 <= j < |rows| && key(rows[j]) == k;
      assert s[j] == rows[j];
    }
    assert s[|rows|] == x;
  }

  /** The dict of lists the grouping loops build, row by row: each row's value is
      appended to the list of its key, a key's list being created on its first row. */
  function GroupMap<R, K(==), V>(rows: seq<R>, key: R -> K, val: R -> V): map<K, seq<V>> {
    if rows == [] then map[]
    else
      var m := GroupMap(rows[..|rows| - 1], key, val);
      var k := key(rows[|rows| - 1]);
      m[k := (if k in m then m[k] else []) + [val(rows[|rows| - 1])]]
  }

  /** The keys of the grouped dict are the keys of the rows. */
  lemma {:induction false} GroupMapKeys<R, K(!new), V>(rows: seq<R>, key: R -> K, val: R -> V, k: K)
    ensures k in GroupMap(rows, key, val) <==> KeyOccurs(rows, key, k)
  {
    if rows != [] {
      var n := |rows| - 1;
      assert rows == rows[..n] + [rows[n]];
      GroupMapKeys(rows[..n], key, val, k);
      KeyOccursSnoc(rows[..n], rows[n], key, k);
    }
  }

  /** Each key of the grouped dict holds the values of its rows, in row order. */
  lemma {:induction false} GroupMapValues<R, K(!new), V>(rows: seq<R>, key: R -> K, val: R -> V, k: K)
    requires k in GroupMap(rows, key, val)
    ensures GroupMap(rows, key, val)[k] == Grouped(rows, key, val, k)
  {
    var n := |rows| - 1;
    var m := GroupMap(rows[..n], key, val);
    assert rows == rows[..n] + [rows[n]];
    GroupedSnoc(rows[..n], rows[n], key, val, k);
    if k in m {
      GroupMapValues(rows[..n], key, val, k);
    } else {
      GroupMapKeys(rows[..n], key, val, k);
    }
  }

  /** The loops that build dicts of lists. */
  method GroupBy<R, K(==), V>(rows: seq<R>, key: R -> K, val: R -> V) returns (m: map<K, seq<V>>)
    ensures m == GroupMap(rows, key, val)
  {
    m := map[];
    var i := 0;
    while i < |rows|
      invariant 0 <= i <= |rows|
      invariant m == GroupMap(rows[..i], key, val)
    {
      var k := key(rows[i]);
      var list := if k in m then m[k] else [];
      assert rows[..i + 1][..i] == rows[..i];
      m := m[k := list + [val(rows[i])]];
      i := i + 1;
    }
    assert rows[..i] == rows;
  }

  /** The dict a loop of plain assignments builds, row by row: every row writes its key. */
  function LastMap<R, K(==), V>(rows: seq<R>, key: R -> K, val: R -> V): map<K, V> {
    if rows == [] then map[]
    else LastMap(rows[..|rows| - 1], key, val)[key(rows[|rows| - 1]) := val(rows[|rows| - 1])]
  }

  lemma {:induction false} LastMapKeys<R, K(!new), V>(rows: seq<R>, key: R -> K, val: R -> V, k: K)
    ensures k in LastMap(rows, key, val) <==> KeyOccurs(rows, key, k)
  {
    if rows != [] {
      var n := |rows| - 1;
      assert rows == rows[..n] + [rows[n]];
      LastMapKeys(rows[..n], key, val, k);
      KeyOccursSnoc(rows[..n], rows[n], key, k);
    }
  }

  /** The last row with a key decides its value. */
  lemma {:induction false} LastMapValue<R, K(!new), V>(rows: seq<R>, key: R -> K, val: R -> V, i: nat)
    requires i < |rows| && LastWithKey(rows, key, i)
    ensures key(rows[i]) in LastMap(rows, key, val)
    ensures LastMap(rows, key, val)[key(rows[i])] == val(rows[i])
  {
    var n := |rows| - 1;
    if i < n {
      assert rows[..n][i] == rows[i];
      assert LastWithKey(rows[..n], key, i) by {
        forall j | i < j < n ensures key(rows[..n][j]) != key(rows[..n][i]) {
          assert rows[..n][j] == rows[j];
        }
      }
      assert key(rows[n]) != key(rows[i]);
      LastMapValue(rows[..n], key, val, i);
    }
  }

  /** The loops that fill a plain dict. */
  method LastWins<R, K(==), V>(rows: seq<R>, key: R -> K, val: R -> V) returns (m: map<K, V>)
    ensures m == LastMap(rows, key, val)
  {
    m := map[];
    var i := 0;
    while i < |rows|
      invariant 0 <= i <= |rows|
      invariant m == LastMap(rows[..i], key, val)
    {
      assert rows[..i + 1][..i] == rows[..i];
      m := m[key(rows[i]) := val(rows[i])];
      i := i + 1;
    }
    assert rows[..i] == rows;
  }

  /** `_build_lookup_tables_cached`: `dict(zip(names, ids))`, the info loop, and the
      three grouping loops. */
  method BuildLookupTables(c: Catalog) returns (t: LookupTables)
    ensures t.nameToId == LastMap(c.cards, CardName, CardIdOf)
    ensures t.idToInfo == LastMap(c.cards, CardIdOf, InfoOf)
    ensures t.idToCategories == GroupMap(c.categories, CategoryCard, CategoryName)
    ensures t.idToTiers == GroupMap(c.tiers, TierCard, TierInfoOf)
    ensures t.tierToRates == GroupMap(c.rates, RateTier, RateInfoOf)
  {
    var nameToId := LastWins(c.cards, CardName, CardIdOf);
    var idToInfo := LastWins(c.cards, CardIdOf, InfoOf);
    var idToCategories := GroupBy(c.categories, CategoryCard, CategoryName);
    var idToTiers := GroupBy(c.tiers, TierCard, TierInfoOf);
    var tierToRates := GroupBy(c.rates, RateTier, RateInfoOf);
    t := LookupTables(nameToId, idToInfo, idToCategories, idToTiers, tierToRates);
  }

  /** A duplicated card name maps to the id of its last row. */
  lemma NameTableLastId(cards: seq<CardRow>, i: nat)
    requires i < |cards| && forall j :: i < j < |cards| ==> cards[j].name != cards[i].name
    ensures cards[i].name in LastMap(cards, CardName, CardIdOf)
    ensures LastMap(cards, CardName, CardIdOf)[cards[i].name] == cards[i].cardId
  {
    LastMapValue(cards, CardName, CardIdOf, i);
  }

  /** A card's tier list in the lookup table is its tier rows, in table order. */
  lemma {:induction false} GroupedTiers(tiers: seq<CardTier>, cardId: int)
    ensures Grouped(tiers, TierCard, TierInfoOf, cardId) == TierInfos(TiersOf(tiers, cardId))
  {
    if tiers != [] {
      GroupedTiers(tiers[1..], cardId);
      var head := if tiers[0].cardId == cardId then [tiers[0]] else [];
      TierInfosAppend(head, TiersOf(tiers[1..], cardId));
    }
  }

  function TierInfos(ts: seq<CardTier>): (r: seq<TierInfo>)
    ensures |r| == |ts| && forall k :: 0 <= k < |ts| ==> r[k] == TierInfoOf(ts[k])
  {
    if ts == [] then [] else [TierInfoOf(ts[0])] + TierInfos(ts[1..])
  }

  lemma TierInfosAppend(a: seq<CardTier>, b: seq<CardTier>)
    ensures TierInfos(a + b) == TierInfos(a) + TierInfos(b)
  {
  }
}
