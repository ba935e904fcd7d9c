/** The card-data validator: the catalog integrity check of the data layer, and the
    check of a raw spending dictionary with the reason it fails. */
module CardValidator {
  import opened Common
  import opened CardModel

  /** `validate_card_data`: the same checks as the model module's validator, one
      table after the other, returning at the first failure. */
  function ValidateCardData(cards: Frame, tiers: Frame, rates: Frame, categories: Frame): (ok: bool)
    ensures !HasColumns(cards, RequiredCardsColumns) ==> !ok
    ensures !AllTextIn(Column(cards, "card_type"), CardTypes) ==> !ok
    ensures !AllTextIn(Column(rates, "rate_type"), RateTypes) ==> !ok
  {
    if !HasColumns(cards, RequiredCardsColumns) then false
    else if !HasColumns(tiers, RequiredTiersColumns) then false
    else if !HasColumns(rates, RequiredRatesColumns) then false
    else if !HasColumns(categories, RequiredCategoriesColumns) then false
    else if !AllTextIn(Column(cards, "card_type"), CardTypes) then false
    else if !AllTextIn(Column(rates, "rate_type"), RateTypes) then false
    else
      var cardIds := CellSet(Column(cards, "card_id"));
      CellSet(Column(tiers, "card_id")) <= cardIds && CellSet(Column(categories, "card_id")) <= cardIds
  }

  /** The data layer's validator and the model module's validator agree on every input. */
  lemma ValidatorsAgree(cards: Frame, tiers: Frame, rates: Frame, categories: Frame)
    ensures ValidateCardData(cards, tiers, rates, categories)
         == ValidateCreditCardData(cards, tiers, rates, categories)
  {
  }

  // ---------------------------------------------------------------------
  // Spending dictionaries as received from the caller

  /** A key and what `float(value)` makes of its value: None when it raises. */
  datatype RawEntry = RawEntry(key: string, number: Option<real>)

  type RawDict = seq<RawEntry>

  predicate HasRawKey(d: RawDict, k: string) {
    exists i :: 0 <= i < |d| && d[i].key == k
  }

  datatype Reason =
    | MissingCategory(category: string)
    | NegativeValue(category: string)
    | InvalidNumber(category: string)
    | DataIsValid

  /** The first name of `required`, in list order, that is not a key of `d`. */
  function FirstMissing(required: seq<string>, d: RawDict): (r: Option<string>)
    ensures r.None? <==> forall i :: 0 <= i < |required| ==> HasRawKey(d, required[i])
    ensures r.Some? ==> exists i :: 0 <= i < |required| && required[i] == r.value
                          && !HasRawKey(d, r.value)
                          && forall j :: 0 <= j < i ==> HasRawKey(d, required[j])
  {
    if required == [] then None
    else if !HasRawKey(d, required[0]) then Some(required[0])
    else
      var r := FirstMissing(required[1..], d);
      assert r.Some? ==> exists i :: 1 <= i < |required| && required[i] == r.value
                          && !HasRawKey(d, r.value)
                          && forall j :: 0 <= j < i ==> HasRawKey(d, required[j]) by {
        if r.Some? {
          var i :| 0 <= i < |required[1..]| && required[1..][i] == r.value && !HasRawKey(d, r.value)
                   && forall j :: 0 <= j < i ==> HasRawKey(d, required[1..][j]);
          assert required[i + 1] == r.value;
        }
      }
      r
  }

  /** An entry other than 'total' that is not a number or is negative. */
  predicate BadValue(e: RawEntry) {
    e.key != "total" && (e.number.None? || e.number.value < 0.0)
  }

  function ReasonFor(e: RawEntry): Reason
    requires BadValue(e)
  {
    if e.number.None? then InvalidNumber(e.key) else NegativeValue(e.key)
  }

  /** The reason the first bad entry, in dict order, is rejected. */
  function FirstBadValue(d: RawDict): (r: Option<Reason>)
    ensures r.None? <==> forall i :: 0 <= i < |d| ==> !BadValue(d[i])
    ensures r.Some? ==> exists i :: 0 <= i < |d| && BadValue(d[i]) && r.value == ReasonFor(d[i])
                          && forall j :: 0 <= j < i ==> !BadValue(d[j])
  {
    if d == [] then None
    else if BadValue(d[0]) then Some(ReasonFor(d[0]))
    else
      var r := FirstBadValue(d[1..]);
      assert r.Some? ==> exists i :: 1 <= i < |d| && BadValue(d[i]) && r.value == ReasonFor(d[i])
                          && forall j :: 0 <= j < i ==> !BadValue(d[j]) by {
        if r.Some? {
          var i :| 0 <= i < |d[1..]| && BadValue(d[1..][i]) && r.value == ReasonFor(d[1..][i])
                   && forall j :: 0 <= j < i ==> !BadValue(d[1..][j]);
          assert d[i + 1] == d[1..][i];
        }
      }
      r
  }

  /** The spending is usable: every category is present and every value other than
      'total' is a non-negative number. */
  ghost predicate SpendingValid(d: RawDict) {
    && (forall i :: 0 <= i < |Categories| ==> HasRawKey(d, Categories[i]))
    && (forall i :: 0 <= i < |d| ==> !BadValue(d[i]))
  }

  /** `validate_spending_data`: a verdict and the reason for it. */
  function ValidateSpendingData(d: RawDict): (r: (bool, Reason))
    ensures r.0 <==> SpendingValid(d)
    ensures r.0 <==> r.1 == DataIsValid
    ensures (exists i :: 0 <= i < |Categories| && !HasRawKey(d, Categories[i])) ==> r.1.MissingCategory?
    ensures r.1.MissingCategory? ==> r.1.category in Categories && !HasRawKey(d, r.1.category)
    ensures (r.1.NegativeValue? || r.1.InvalidNumber?) ==>
              r.1.category != "total" && HasRawKey(d, r.1.category)
  {
    match FirstMissing(Categories, d)
    case Some(c) => (false, MissingCategory(c))
    case None =>
      match FirstBadValue(d)
      case Some(reason) => (false, reason)
      case None => (true, DataIsValid)
  }
}
