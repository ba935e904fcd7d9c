/** The engine's data classes: cards, tiers, category rates, a user's monthly
    spending and a reward result, with the checks their constructors make, and
    the referential-integrity check over the four catalog tables. */
module CardModel {
  import opened Common

  // ---------------------------------------------------------------------
  // Cards, tiers and rates

  datatype CreditCard = CreditCard(cardId: int, name: string, issuer: string, cardType: string)

  datatype CardTier = CardTier(tierId: int, cardId: int, minSpend: real, description: string)

  datatype CategoryRate = CategoryRate(
    tierId: int, category: string, rateValue: real, rateType: string,
    capAmount: Option<real>, capType: Option<string>)

  datatype CardCategory = CardCategory(cardId: int, category: string)

  const CardTypes: set<string> := {"Miles", "Cashback"}
  const RateTypes: set<string> := {"percentage", "mpd"}
  const CapTypes: set<string> := {"dollars_earned", "dollars_spent"}

  /** `CreditCard(...)`: the constructor raises on an unknown card type. */
  function NewCreditCard(cardId: int, name: string, issuer: string, cardType: string): (r: Result<CreditCard>)
    ensures r.Ok? <==> cardType in CardTypes
    ensures r.Ok? ==> r.value == CreditCard(cardId, name, issuer, cardType)
  {
    if cardType !in CardTypes then Err("Card type must be 'Miles' or 'Cashback'")
    else Ok(CreditCard(cardId, name, issuer, cardType))
  }

  /** A present, non-empty string: Python truthiness of an optional `str`. */
  predicate IsTruthy(s: Option<string>) {
    s.Some? && s.value != ""
  }

  /** `CategoryRate(...)`: the rate type must be known, and so must a truthy cap type. */
  function NewCategoryRate(tierId: int, category: string, rateValue: real, rateType: string,
                           capAmount: Option<real>, capType: Option<string>): (r: Result<CategoryRate>)
    ensures r.Ok? <==> rateType in RateTypes && (!IsTruthy(capType) || capType.value in CapTypes)
    ensures r.Ok? ==> r.value == CategoryRate(tierId, category, rateValue, rateType, capAmount, capType)
    ensures rateType !in RateTypes ==> r == Err("Rate type must be 'percentage' or 'mpd'")
  {
    if rateType !in RateTypes then Err("Rate type must be 'percentage' or 'mpd'")
    else if IsTruthy(capType) && capType.value !in CapTypes then
      Err("Cap type must be 'dollars_earned' or 'dollars_spent'")
    else Ok(CategoryRate(tierId, category, rateValue, rateType, capAmount, capType))
  }

  // ---------------------------------------------------------------------
  // Spending

  /** The thirteen spending categories, in declaration order. */
  const Categories: seq<string> := [
    "dining", "groceries", "petrol", "transport", "streaming", "entertainment",
    "utilities", "online", "travel", "overseas", "retail", "departmental", "other"]

  datatype UserSpending = UserSpending(
    dining: real, groceries: real, petrol: real, transport: real, streaming: real,
    entertainment: real, utilities: real, online: real, travel: real, overseas: real,
    retail: real, departmental: real, other: real)

  const NoSpending := UserSpending(0.0, 0.0, 0.0, 0.0, 0.0, 0.0, 0.0, 0.0, 0.0, 0.0, 0.0, 0.0, 0.0)

  /** The thirteen fields in declaration order. */
  function Amounts(s: UserSpending): (r: seq<real>)
    ensures |r| == |Categories|
  {
    [s.dining, s.groceries, s.petrol, s.transport, s.streaming, s.entertainment,
     s.utilities, s.online, s.travel, s.overseas, s.retail, s.departmental, s.other]
  }

  /** `UserSpending.total`: Python's `sum` over the thirteen fields. */
  function Total(s: UserSpending): real {
    Sum(Amounts(s))
  }

  lemma TotalNonNegative(s: UserSpending)
    requires forall i :: 0 <= i < |Categories| ==> Amounts(s)[i] >= 0.0
    ensures Total(s) >= 0.0
  {
    SumNonNegative(Amounts(s));
  }

  /** `UserSpending.to_dict()`: the thirteen fields, then 'total'. */
  function ToDict(s: UserSpending): (d: SpendDict)
    ensures |d| == |Categories| + 1
    ensures forall i :: 0 <= i < |Categories| ==> d[i] == Entry(Categories[i], Amounts(s)[i])
    ensures d[|Categories|] == Entry("total", Total(s))
  {
    [Entry("dining", s.dining), Entry("groceries", s.groceries), Entry("petrol", s.petrol),
     Entry("transport", s.transport), Entry("streaming", s.streaming),
     Entry("entertainment", s.entertainment), Entry("utilities", s.utilities),
     Entry("online", s.online), Entry("travel", s.travel), Entry("overseas", s.overseas),
     Entry("retail", s.retail), Entry("departmental", s.departmental), Entry("other", s.other),
     Entry("total", Total(s))]
  }

  /** A `UserSpending` built from a dict by `d.get(category, 0.0)` for each of the
      thirteen category keys. */
  function FromDict(d: SpendDict): UserSpending {
    UserSpending(Get(d, "dining"), Get(d, "groceries"), Get(d, "petrol"), Get(d, "transport"),
                 Get(d, "streaming"), Get(d, "entertainment"), Get(d, "utilities"),
                 Get(d, "online"), Get(d, "travel"), Get(d, "overseas"), Get(d, "retail"),
                 Get(d, "departmental"), Get(d, "other"))
  }

  /** No category name is repeated, and none is 'total'. */
  lemma CategoriesDistinct()
    ensures forall i, j :: 0 <= i < j < |Categories| ==> Categories[i] != Categories[j]
    ensures forall i :: 0 <= i < |Categories| ==> Categories[i] != "total"
  {
  }

  lemma ToDictDistinct(s: UserSpending)
    ensures DistinctKeys(ToDict(s))
  {
    CategoriesDistinct();
    var d := ToDict(s);
    assert forall i :: 0 <= i < |Categories| ==> d[i].key == Categories[i];
  }

  lemma ToDictGet(s: UserSpending, i: nat)
    requires i <= |Categories|
    ensures i < |Categories| ==> Get(ToDict(s), Categories[i]) == Amounts(s)[i]
    ensures i == |Categories| ==> Get(ToDict(s), "total") == Total(s)
  {
    ToDictDistinct(s);
    GetAt(ToDict(s), i);
  }

  /** Rebuilding a spending object from its dict gives the same object back. */
  lemma ToDictRoundTrip(s: UserSpending)
    ensures FromDict(ToDict(s)) == s
  {
    ToDictGet(s, 0); ToDictGet(s, 1); ToDictGet(s, 2); ToDictGet(s, 3); ToDictGet(s, 4);
    ToDictGet(s, 5); ToDictGet(s, 6); ToDictGet(s, 7); ToDictGet(s, 8); ToDictGet(s, 9);
    ToDictGet(s, 10); ToDictGet(s, 11); ToDictGet(s, 12);
  }

  /** `getattr(spending, name, 0.0)` for a category name already lower-cased: a field,
      the `total` property, or the default. */
  function Attr(s: UserSpending, name: string): (r: real)
    ensures name == "total" ==> r == Total(s)
    ensures name !in Categories && name != "total" ==> r == 0.0
  {
    if name == "total" then Total(s) else Get(ToDict(s), name)
  }

  lemma AttrField(s: UserSpending, i: nat)
    requires i < |Categories|
    ensures Attr(s, Categories[i]) == Amounts(s)[i]
  {
    ToDictGet(s, i);
  }

  // ---------------------------------------------------------------------
  // Reward results

  /** One line of a reward breakdown, kept as a record instead of formatted text. */
  datatype Detail =
    | Line(category: string, spend: real, rate: real, reward: real)
    | Note(text: string)

  datatype RewardCalculation = RewardCalculation(
    cardName: string, tierDescription: string, monthlyReward: real, capReached: bool,
    capDifference: Option<real>, originalReward: real, minSpendMet: bool, details: seq<Detail>)

  /** `RewardCalculation(...)`: missing details become an empty list. */
  function NewRewardCalculation(cardName: string, tierDescription: string, monthlyReward: real,
                                capReached: bool, capDifference: Option<real>, originalReward: real,
                                minSpendMet: bool, details: Option<seq<Detail>>): (r: RewardCalculation)
    ensures details.None? ==> r.details == []
    ensures details.Some? ==> r.details == details.value
    ensures r.monthlyReward == monthlyReward && r.capReached == capReached
    ensures r.capDifference == capDifference && r.originalReward == originalReward
    ensures r.minSpendMet == minSpendMet && r.cardName == cardName
  {
    RewardCalculation(cardName, tierDescription, monthlyReward, capReached, capDifference,
                      originalReward, minSpendMet, if details.None? then [] else details.value)
  }

  // ---------------------------------------------------------------------
  // Catalog tables as loaded, and their integrity check

  /** A cell of a loaded table. */
  datatype Cell = IntCell(i: int) | NumCell(x: real) | TextCell(s: string) | NaNCell

  /** A loaded table: its column names and the cells of each column. */
  datatype Frame = Frame(columns: seq<string>, data: map<string, seq<Cell>>)

  function Column(f: Frame, c: string): seq<Cell> {
    if c in f.data then f.data[c] else []
  }

  predicate HasColumns(f: Frame, cols: seq<string>) {
    forall i :: 0 <= i < |cols| ==> cols[i] in f.columns
  }

  /** `series.isin(allowed)` holds of every cell. */
  predicate AllTextIn(cells: seq<Cell>, allowed: set<string>) {
    forall i :: 0 <= i < |cells| ==> cells[i].TextCell? && cells[i].s in allowed
  }

  function CellSet(cells: seq<Cell>): set<Cell> {
    set i | 0 <= i < |cells| :: cells[i]
  }

  const RequiredCardsColumns: seq<string> := ["card_id", "name", "issuer", "card_type"]
  const RequiredTiersColumns: seq<string> := ["tier_id", "card_id", "min_spend"]
  const RequiredRatesColumns: seq<string> := ["tier_id", "category", "rate_value", "rate_type"]
  const RequiredCategoriesColumns: seq<string> := ["card_id", "category"]

  /** `set(a).issubset(set(b))`: every cell of `a` is a cell of `b`. */
  lemma CellSetSubset(a: seq<Cell>, b: seq<Cell>)
    ensures CellSet(a) <= CellSet(b) <==> forall i :: 0 <= i < |a| ==> a[i] in b
  {
    if CellSet(a) <= CellSet(b) {
      forall i | 0 <= i < |a| ensures a[i] in b {
        assert a[i] in CellSet(a);
      }
    }
    if forall i :: 0 <= i < |a| ==> a[i] in b {
      forall x | x in CellSet(a) ensures x in CellSet(b) {
        var i :| 0 <= i < |a| && a[i] == x;
        var j :| 0 <= j < |b| && b[j] == x;
      }
    }
  }

  /** `series.isin([x, y])` as membership of the two text cells. */
  lemma TextInTwo(cells: seq<Cell>, x: string, y: string)
    ensures AllTextIn(cells, {x, y}) <==> forall i :: 0 <= i < |cells| ==> cells[i] in {TextCell(x), TextCell(y)}
    ensures !AllTextIn(cells, {x, y}) <==> exists c :: c in cells && c !in {TextCell(x), TextCell(y)}
  {
    if !AllTextIn(cells, {x, y}) {
      var i :| 0 <= i < |cells| && !(cells[i].TextCell? && cells[i].s in {x, y});
      assert cells[i] in cells;
    }
  }

  /** `validate_credit_card_data`: the checks in the order the source makes them.
      When it passes, the required columns exist, every card type and rate type is
      a known kind, and every tier and category refers to a card of the cards table;
      when it fails, one of those is broken at a named column or cell. */
  function ValidateCreditCardData(cards: Frame, tiers: Frame, rates: Frame, categories: Frame): (ok: bool)
    ensures ok ==> && (forall c :: c in RequiredCardsColumns ==> c in cards.columns)
                   && (forall c :: c in RequiredTiersColumns ==> c in tiers.columns)
                   && (forall c :: c in RequiredRatesColumns ==> c in rates.columns)
                   && (forall c :: c in RequiredCategoriesColumns ==> c in categories.columns)
    ensures ok ==> forall i :: 0 <= i < |Column(cards, "card_type")| ==>
                     Column(cards, "card_type")[i] in {TextCell("Miles"), TextCell("Cashback")}
    ensures ok ==> forall i :: 0 <= i < |Column(rates, "rate_type")| ==>
                     Column(rates, "rate_type")[i] in {TextCell("percentage"), TextCell("mpd")}
    ensures ok ==> forall i :: 0 <= i < |Column(tiers, "card_id")| ==>
                     Column(tiers, "card_id")[i] in Column(cards, "card_id")
    ensures ok ==> forall i :: 0 <= i < |Column(categories, "card_id")| ==>
                     Column(categories, "card_id")[i] in Column(cards, "card_id")
    ensures !ok ==>
              || (exists c :: c in RequiredCardsColumns && c !in cards.columns)
              || (exists c :: c in RequiredTiersColumns && c !in tiers.columns)
              || (exists c :: c in RequiredRatesColumns && c !in rates.columns)
              || (exists c :: c in RequiredCategoriesColumns && c !in categories.columns)
              || (exists x :: x in Column(cards, "card_type") && x !in {TextCell("Miles"), TextCell("Cashback")})
              || (exists x :: x in Column(rates, "rate_type") && x !in {TextCell("percentage"), TextCell("mpd")})
              || (exists x :: x in Column(tiers, "card_id") && x !in Column(cards, "card_id"))
              || (exists x :: x in Column(categories, "card_id") && x !in Column(cards, "card_id"))
  {
    CellSetSubset(Column(tiers, "card_id"), Column(cards, "card_id"));
    CellSetSubset(Column(categories, "card_id"), Column(cards, "card_id"));
    TextInTwo(Column(cards, "card_type"), "Miles", "Cashback");
    TextInTwo(Column(rates, "rate_type"), "percentage", "mpd");
    if !HasColumns(cards, RequiredCardsColumns) then false
    else if !HasColumns(tiers, RequiredTiersColumns) then false
    else if !HasColumns(rates, RequiredRatesColumns) then false
    else if !HasColumns(categories, RequiredCategoriesColumns) then false
    else if !AllTextIn(Column(cards, "card_type"), CardTypes) then false
    else if !AllTextIn(Column(rates, "rate_type"), RateTypes) then false
    else if !(CellSet(Column(tiers, "card_id")) <= CellSet(Column(cards, "card_id"))) then false
    else if !(CellSet(Column(categories, "card_id")) <= CellSet(Column(cards, "card_id"))) then false
    else true
  }

  /** The rates table's `tier_id` column is never compared with anything: replacing its
      cells leaves the verdict unchanged. */
  lemma RateTierIdsUnchecked(cards: Frame, tiers: Frame, rates: Frame, categories: Frame, ids: seq<Cell>)
    ensures ValidateCreditCardData(cards, tiers, rates, categories)
         == ValidateCreditCardData(cards, tiers, rates.(data := rates.data["tier_id" := ids]), categories)
  {
    var rates' := rates.(data := rates.data["tier_id" := ids]);
    assert Column(rates', "rate_type") == Column(rates, "rate_type");
  }
}
