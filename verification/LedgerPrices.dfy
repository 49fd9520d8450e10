/**
 What contracts are formed from: each intent, listing and offer at most once, and no intent above its
 buyer's ceiling, whatever saturates on the way to comparing them.
 */
module LedgerPrices {
  import opened Wrappers
  import opened LedgerTypes
  import opened LedgerSteps
  import opened LedgerViews
  import opened LedgerEffects
  import opened LedgerRecords

  /** The freight a buyer pays beside the goods, in unbounded integers. */
  function BuyersFreight(freight: Option<Freight>): nat {
    if freight.Some? && freight.value.buyerPays && freight.value.estimated >= freight.value.allowance
    then freight.value.estimated - freight.value.allowance else 0
  }

  /** Goods and freight come to no more than the ceiling for the quantity, in unbounded integers. */
  predicate WithinCeiling(c: Contract, intent: Intent) {
    c.total + BuyersFreight(c.freight) <= intent.ceiling * intent.quantity / 1000
  }

  /** The saturating comparison passes only if the exact one would. */
  lemma SaturationIsSafe(c: Contract, intent: Intent)
    requires LandedTotal(c.total, c.freight) <= CeilingTotal(intent)
    ensures WithinCeiling(c, intent)
  {
    var product := intent.ceiling * intent.quantity;
    assert CeilingTotal(intent) <= product / 1000;
    assert CeilingTotal(intent) < U128_MAX;
  }

  /**
   The comparison is exact unless a product saturates: with u128 amounts and u64 quantities that is its only
   fault.
   */
  lemma ComparisonIsExact(c: Contract, intent: Intent)
    requires intent.ceiling * intent.quantity <= U128_MAX
    ensures LandedTotal(c.total, c.freight) <= CeilingTotal(intent) <==> WithinCeiling(c, intent)
  {
    if WithinCeiling(c, intent) {
      assert c.total + BuyersFreight(c.freight) <= U128_MAX;
    }
  }

  // ---- The invariant ----

  predicate CitedOk(c: Contract, intents: map<Id, Intent>, listings: map<Id, Listing>, offers: map<Id, Offer>) {
    && c.offer in offers && offers[c.offer].status.OfferAccepted?
    && (c.intent.Some? ==>
          && c.intent.value in intents && intents[c.intent.value].status.IntentContracted?
          && WithinCeiling(c, intents[c.intent.value]))
    && (c.listing.Some? ==> c.listing.value in listings && listings[c.listing.value].status.ListingContracted?)
  }

  /** No intent, listing or offer is cited by two contracts. */
  predicate Apart(a: Contract, b: Contract) {
    && (a.intent.Some? ==> a.intent != b.intent)
    && (a.listing.Some? ==> a.listing != b.listing)
    && a.offer != b.offer
  }

  ghost predicate Priced(s: State) {
    && (forall k :: k in s.contracts.rows ==> CitedOk(s.contracts.rows[k], s.intents.rows, s.listings.rows,
       s.offers.rows))
    && (forall j, k :: j in s.contracts.rows && k in s.contracts.rows && j != k ==>
       Apart(s.contracts.rows[j], s.contracts.rows[k]))
  }

  lemma CitedOkKept(c: Contract, s: State, s': State)
    requires CitedOk(c, s.intents.rows, s.listings.rows, s.offers.rows) && PapersKept(s, s')
    ensures CitedOk(c, s'.intents.rows, s'.listings.rows, s'.offers.rows)
  {
    hide Grew;
  }

  lemma FormedIsCitedOk(s: State, s': State, c: Contract)
    requires Cites(s, s', c) && PapersKept(s, s')
    ensures CitedOk(c, s'.intents.rows, s'.listings.rows, s'.offers.rows)
  {
    hide Grew, ListingsKept, OffersKept, LandedTotal, CeilingTotal, WithinCeiling;
    if c.intent.Some? {
      SaturationIsSafe(c, s.intents.rows[c.intent.value]);
      SameCeiling(c, s.intents.rows[c.intent.value], s'.intents.rows[c.intent.value]);
    }
  }

  lemma SameCeiling(c: Contract, a: Intent, b: Intent)
    requires WithinCeiling(c, a) && a.ceiling == b.ceiling && a.quantity == b.quantity
    ensures WithinCeiling(c, b)
  {
  }

  lemma FormedIsApart(s: State, s': State, c: Contract, d: Contract)
    requires Cites(s, s', c) && CitedOk(d, s.intents.rows, s.listings.rows, s.offers.rows)
    ensures Apart(c, d) && Apart(d, c)
  {
    hide WithinCeiling, LandedTotal, CeilingTotal;
  }

  lemma PricedKeptForming(s: State, s': State, c: Change)
    requires TablesOk(s) && Applies(s, s', c) && Priced(s) && c.Formed?
    ensures Priced(s')
  {
    hide Applies, TableOk, CitedOk, Apart, PapersKept, Cites;
    TermsOfForming(s, s', c);
    PapersOf(s, s', c);
    assert Cites(s, s', c.contract) by { CitesOf(s, s', c); }
    forall k | k in s'.contracts.rows ensures CitedOk(s'.contracts.rows[k], s'.intents.rows, s'.listings.rows,
        s'.offers.rows) {
      if k == c.id { FormedIsCitedOk(s, s', c.contract); }
      else { CitedOkKept(s.contracts.rows[k], s, s'); }
    }
    forall j, k | j in s'.contracts.rows && k in s'.contracts.rows && j != k
        ensures Apart(s'.contracts.rows[j], s'.contracts.rows[k]) {
      if j == c.id { FormedIsApart(s, s', c.contract, s.contracts.rows[k]); }
      else if k == c.id { FormedIsApart(s, s', c.contract, s.contracts.rows[j]); }
    }
  }

  lemma CitesOf(s: State, s': State, c: Change)
    requires Applies(s, s', c) && c.Formed?
    ensures Cites(s, s', c.contract)
  {
    hide Cites, IdFor, PapersKept, Logged, DrawnLots, Backed;
  }

  lemma StatusDoesNotMatter(a: Contract, b: Contract, s: State)
    requires b == a.(status := b.status) && CitedOk(a, s.intents.rows, s.listings.rows, s.offers.rows)
    ensures CitedOk(b, s.intents.rows, s.listings.rows, s.offers.rows)
  {
  }

  lemma PricedKept(s: State, s': State, c: Change)
    requires TablesOk(s) && Applies(s, s', c) && Priced(s)
    ensures Priced(s')
  {
    hide Applies, TablesOk, CitedOk, Apart, PapersKept;
    if c.Formed? { PricedKeptForming(s, s', c); }
    else {
      TermsOfChange(s, s', c);
      PapersOf(s, s', c);
      assert forall k :: k in s'.contracts.rows ==>
               k in s'.contracts.rows.Keys && k in s.contracts.rows.Keys &&
               k in s.contracts.rows;
      forall k | k in s'.contracts.rows ensures CitedOk(s'.contracts.rows[k], s'.intents.rows, s'.listings.rows,
          s'.offers.rows) {
        StatusDoesNotMatter(s.contracts.rows[k], s'.contracts.rows[k], s);
        CitedOkKept(s'.contracts.rows[k], s, s');
      }
      forall j, k | j in s'.contracts.rows && k in s'.contracts.rows && j != k
          ensures Apart(s'.contracts.rows[j], s'.contracts.rows[k]) {
        assert Apart(s.contracts.rows[j], s.contracts.rows[k]);
        ApartWhateverStatus(s.contracts.rows[j], s.contracts.rows[k], s'.contracts.rows[j], s'.contracts.rows[k]);
      }
    }
  }

  lemma ApartWhateverStatus(a: Contract, b: Contract, c: Contract, d: Contract)
    requires Apart(a, b) && c == a.(status := c.status) && d == b.(status := d.status)
    ensures Apart(c, d)
  {
  }
}
