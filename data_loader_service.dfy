/** The older data service's tier choice: the qualifying tiers of a card, and the row
    `idxmax` picks among them. */
module DataLoaderService {
  import opened Common
  import opened CardModel
  import CardLoader

  /** `Series.idxmax()` over the minimum spends: the position of the first maximum. */
  function IdxMax(tiers: seq<CardTier>): (i: nat)
    requires tiers != []
    ensures i < |tiers|
    ensures forall k :: 0 <= k < |tiers| ==> tiers[k].minSpend <= tiers[i].minSpend
    ensures forall k :: 0 <= k < i ==> tiers[k].minSpend < tiers[i].minSpend
  {
    if |tiers| == 1 then 0
    else
      var j := IdxMax(tiers[1..]) + 1;
      assert tiers[j] == tiers[1..][j - 1];
      assert forall k :: 1 <= k < |tiers| ==> tiers[k] == tiers[1..][k - 1];
      if tiers[0].minSpend >= tiers[j].minSpend then 0 else j
  }

  /** `DataLoader.get_best_tier_for_spending` over one card's tiers. */
  function BestTier(tiers: seq<CardTier>, total: real): (r: Option<CardTier>)
    ensures r.None? <==> forall k :: 0 <= k < |tiers| ==> tiers[k].minSpend > total
    ensures r.Some? ==> r.value in tiers && r.value.minSpend <= total
    ensures r.Some? ==> forall k :: 0 <= k < |tiers| && tiers[k].minSpend <= total ==>
                          tiers[k].minSpend <= r.value.minSpend
  {
    var suitable := CardLoader.Qualifying(tiers, total);
    if suitable == [] then None
    else
      var i := IdxMax(suitable);
      assert forall k :: 0 <= k < |tiers| && tiers[k].minSpend <= total ==>
               tiers[k].minSpend <= suitable[i].minSpend by {
        forall k | 0 <= k < |tiers| && tiers[k].minSpend <= total
          ensures tiers[k].minSpend <= suitable[i].minSpend
        {
          assert tiers[k] in suitable;
        }
      }
      Some(suitable[i])
  }

  /** The catalog-level call, over the rows `get_card_tiers` selects. */
  function GetBestTierForSpending(c: CardLoader.Catalog, cardId: int, total: real): (r: Option<CardTier>)
    ensures r.Some? ==> r.value.cardId == cardId && r.value in c.tiers && r.value.minSpend <= total
    ensures r.None? <==> forall k :: 0 <= k < |c.tiers| && c.tiers[k].cardId == cardId ==>
                           c.tiers[k].minSpend > total
    ensures r.Some? ==> forall k :: 0 <= k < |c.tiers| && c.tiers[k].cardId == cardId && c.tiers[k].minSpend <= total ==>
                          c.tiers[k].minSpend <= r.value.minSpend
  {
    var ts := CardLoader.TiersOf(c.tiers, cardId);
    var r := BestTier(ts, total);
    assert forall k :: 0 <= k < |c.tiers| && c.tiers[k].cardId == cardId ==> c.tiers[k] in ts;
    r
  }

  /** The first maximum `idxmax` finds is the first row holding the maximum. */
  lemma IdxMaxFirst(tiers: seq<CardTier>)
    requires tiers != []
    ensures CardLoader.FirstWithMinSpend(tiers, CardLoader.MaxMinSpend(tiers)) == Some(tiers[IdxMax(tiers)])
  {
    var i := IdxMax(tiers);
    var m := CardLoader.MaxMinSpend(tiers);
    var k :| 0 <= k < |tiers| && tiers[k].minSpend == m;
    assert tiers[i].minSpend == m;
    var r := CardLoader.FirstWithMinSpend(tiers, m);
    var p :| 0 <= p < |tiers| && tiers[p] == r.value && r.value.minSpend == m
             && forall j :: 0 <= j < p ==> tiers[j].minSpend != m;
    assert tiers[p].minSpend == m;
    assert p == i;
  }

  /** The two services choose the same tier for every table and total. */
  lemma ServicesAgree(tiers: seq<CardTier>, total: real)
    ensures BestTier(tiers, total) == CardLoader.BestTier(tiers, total)
  {
    var suitable := CardLoader.Qualifying(tiers, total);
    if suitable != [] {
      IdxMaxFirst(suitable);
    }
  }
}
