/**
 The trade contract as the object it is: its methods change its maps and vectors step by step, and where
 they panic the runtime puts the object back as storage had it. A run of the object is exactly a history
 of the step functions, so what LedgerHistory.dfy proves holds of it.
 */
module LedgerContract {
  import opened Wrappers
  import opened LedgerTypes
  import opened LedgerSteps
  import opened LedgerViews
  import opened LedgerEffects
  import opened LedgerTracing

  /** A call's outcome: nothing if it panics, otherwise the id it returns and the state it leaves. */
  predicate Follows(o: Outcome, after: State, r: Option<Id>) {
    match o
    case Panic => r == None
    case Done(s, id) => r == Some(id) && after == s
  }

  lemma {:induction false} SumOfPart(amounts: seq<nat>, i: nat)
    requires i <= |amounts|
    ensures Sum(amounts[..i]) <= Sum(amounts)
    decreases |amounts| - i
  {
    if i < |amounts| {
      SumOfPart(amounts, i + 1);
      assert amounts[..i + 1][..i] == amounts[..i];
    } else {
      assert amounts[..i] == amounts;
    }
  }

  class DtpContract {
    var owner: AccountId
    var disputeWindowHours: nat
    var parties: map<AccountId, Party>
    var catalogs: Table<Catalog>
    var lots: Table<Lot>
    var intents: Table<Intent>
    var listings: Table<Listing>
    var offers: Table<Offer>
    var contracts: Table<Contract>
    var fulfillments: Table<Fulfillment>
    var settlements: Table<Settlement>
    var agreements: Table<Agreement>
    var relationships: map<string, Relationship>
    var pools: map<Id, Pool>
    var ctes: Table<Cte>
    var cteIndex: map<Id, seq<Id>>
    var log: seq<AuditEvent>
    var logIndex: map<string, seq<nat>>
    var counter: nat

    function Abs(): State
      reads this
    {
      State(owner, disputeWindowHours, parties, catalogs, lots, intents, listings, offers, contracts, fulfillments,
          settlements,
            agreements, relationships, pools, ctes, cteIndex, log, logIndex, counter)
    }

    constructor (owner: AccountId)
      ensures Abs() == Initial(owner)
    {
      this.owner, disputeWindowHours, parties, catalogs, lots := owner, 48, map[], EmptyTable(), EmptyTable();
      intents, listings, offers, contracts := EmptyTable(), EmptyTable(), EmptyTable(), EmptyTable();
      fulfillments, settlements, agreements, relationships := EmptyTable(), EmptyTable(), EmptyTable(), map[];
      pools, ctes, cteIndex, log, logIndex, counter := map[], EmptyTable(), map[], [], map[], 0;
    }

    /** The object as storage had it. */
    constructor From(s: State)
      ensures Abs() == s
    {
      owner, disputeWindowHours, parties, catalogs, lots := s.owner, s.disputeWindowHours, s.parties, s.catalogs,
          s.lots;
      intents, listings, offers, contracts := s.intents, s.listings, s.offers, s.contracts;
      fulfillments, settlements, agreements, relationships := s.fulfillments, s.settlements, s.agreements,
          s.relationships;
      pools, ctes, cteIndex, log, logIndex, counter := s.pools, s.ctes, s.cteIndex, s.log, s.logIndex, s.counter;
    }

    // ---- Internal helpers ----

    method NextIdFor(prefix: string) returns (id: Id)
      modifies this`counter
      ensures id == IdFor(prefix, old(Abs()).counter + 1) && Abs() == old(Abs()).(counter := old(Abs()).counter + 1)
    {
      counter := counter + 1;
      id := IdFor(prefix, counter);
    }

    method EmitEvent(entity: string, kind: EventType, actor: string, now: nat)
      modifies this`log, this`logIndex
      ensures Abs() == Emit(old(Abs()), entity, kind, actor, now)
    {
      var idx := |log|;
      log := log + [AuditEvent(entity, kind, actor, now)];
      var indices := if entity in logIndex then logIndex[entity] else [];
      indices := indices + [idx];
      logIndex := logIndex[entity := indices];
    }

    // ---- Parties, intents, listings, offers ----

    method RegisterPartyCall(caller: AccountId) returns (r: Option<Id>)
      modifies this`parties
      ensures Follows(RegisterParty(old(Abs()), caller), Abs(), r)
    {
      if caller in parties { return None; }
      parties := parties[caller := Party(NEW_REPUTATION, [])];
      r := Some("");
    }

    method AttachToPartyCall(caller: AccountId) returns (r: Option<Id>)
      ensures Follows(AttachToParty(Abs(), caller), Abs(), r)
    {
      r := if caller in parties then Some("") else None;
    }

    method UpdatePartyIdentityCall(caller: AccountId, now: nat, gln: Option<string>, duns: Option<string>)
        returns (r: Option<Id>)
      modifies this`log, this`logIndex
      ensures Follows(UpdatePartyIdentity(old(Abs()), caller, now, gln, duns), Abs(), r)
    {
      hide Emit, DigitCount;
      if caller !in parties { return None; }
      if gln.Some? && DigitCount(gln.value) != 13 { return None; }
      if duns.Some? && DigitCount(duns.value) != 9 { return None; }
      EmitEvent(caller, EvPartyIdentityUpdated, caller, now);
      r := Some("");
    }

    method AuthorizeAgentCall(caller: AccountId, agent: AccountId) returns (r: Option<Id>)
      modifies this`parties
      ensures Follows(AuthorizeAgent(old(Abs()), caller, agent), Abs(), r)
    {
      if caller !in parties || agent == caller { return None; }
      var party := parties[caller];
      if agent !in party.agents {
        parties := parties[caller := party.(agents := party.agents + [agent])];
      }
      r := Some("");
    }

    method RevokeAgentCall(caller: AccountId, agent: AccountId) returns (r: Option<Id>)
      modifies this`parties
      ensures Follows(RevokeAgent(old(Abs()), caller, agent), Abs(), r)
    {
      if caller !in parties { return None; }
      var party := parties[caller];
      parties := parties[caller := party.(agents := Without(party.agents, agent))];
      r := Some("");
    }

    method PostIntentCall(caller: AccountId, now: nat, terms: Intent, finance: Option<Finance>,
                          freight: Option<Freight>) returns (r: Option<Id>)
      modifies this`counter, this`intents, this`log, this`logIndex
      ensures Follows(PostIntent(old(Abs()), caller, now, terms, finance, freight), Abs(), r)
    {
      hide IdFor, Emit;
      if caller !in parties || !ValidFinance(finance) || !ValidFreight(freight) { return None; }
      var id := NextIdFor("int-");
      intents := intents.Put(id, terms.(buyer := caller, catalog := None, status := IntentPosted));
      EmitEvent(id, EvIntentPosted, caller, now);
      r := Some(id);
    }

    method CancelIntentCall(caller: AccountId, now: nat, id: Id) returns (r: Option<Id>)
      modifies this`intents, this`log, this`logIndex
      ensures Follows(CancelIntent(old(Abs()), caller, now, id), Abs(), r)
    {
      hide Emit;
      if !intents.Has(id) { return None; }
      var intent := intents.rows[id];
      if intent.buyer != caller || intent.status != IntentPosted { return None; }
      intents := intents.Put(id, intent.(status := IntentCancelled));
      EmitEvent(id, EvIntentCancelled, caller, now);
      r := Some("");
    }

    method PostListingCall(caller: AccountId, now: nat, terms: Listing, finance: Option<Finance>,
                           freight: Option<Freight>) returns (r: Option<Id>)
      modifies this`counter, this`listings, this`log, this`logIndex
      ensures Follows(PostListing(old(Abs()), caller, now, terms, finance, freight), Abs(), r)
    {
      hide IdFor, Emit, MayActFor;
      if caller !in parties || !ValidFinance(finance) || !ValidFreight(freight) { return None; }
      if terms.lot.Some? {
        if !lots.Has(terms.lot.value) { return None; }
        var lot := lots.rows[terms.lot.value];
        if !MayActFor(parties, lot.owner, caller) || !(lot.status.Available? || lot.status.PartiallyAllocated?) {
          return None;
        }
      }
      var id := NextIdFor("lst-");
      listings := listings.Put(id, terms.(seller := caller, status := ListingActive));
      EmitEvent(id, EvListingActivated, caller, now);
      r := Some(id);
    }

    method WithdrawListingCall(caller: AccountId, now: nat, id: Id) returns (r: Option<Id>)
      modifies this`listings, this`log, this`logIndex
      ensures Follows(WithdrawListing(old(Abs()), caller, now, id), Abs(), r)
    {
      hide Emit;
      if !listings.Has(id) { return None; }
      var listing := listings.rows[id];
      if listing.seller != caller || listing.status != ListingActive { return None; }
      listings := listings.Put(id, listing.(status := ListingWithdrawn));
      EmitEvent(id, EvListingWithdrawn, caller, now);
      r := Some("");
    }

    method SubmitOfferCall(caller: AccountId, now: nat, terms: Offer) returns (r: Option<Id>)
      modifies this`counter, this`offers, this`log, this`logIndex
      ensures Follows(SubmitOffer(old(Abs()), caller, now, terms), Abs(), r)
    {
      hide IdFor, Emit;
      if caller !in parties || !ValidFinance(terms.finance) || !ValidFreight(terms.freight) ||
          !TargetOpen(Abs(), terms.target) { return None; }
      var id := NextIdFor("off-");
      offers := offers.Put(id, terms.(offerer := caller, status := OfferSubmitted));
      EmitEvent(id, EvOfferSubmitted, caller, now);
      r := Some(id);
    }

    method RetractOfferCall(caller: AccountId, now: nat, id: Id) returns (r: Option<Id>)
      modifies this`offers, this`log, this`logIndex
      ensures Follows(RetractOffer(old(Abs()), caller, now, id), Abs(), r)
    {
      hide Emit;
      if !offers.Has(id) { return None; }
      var offer := offers.rows[id];
      if offer.offerer != caller || offer.status != OfferSubmitted { return None; }
      offers := offers.Put(id, offer.(status := OfferRetracted));
      EmitEvent(id, EvOfferRetracted, caller, now);
      r := Some("");
    }

    // ---- Lots ----

    method CreateCatalogEntryCall(caller: AccountId, now: nat) returns (r: Option<Id>)
      modifies this`counter, this`catalogs, this`log, this`logIndex
      ensures Follows(CreateCatalogEntry(old(Abs()), caller, now), Abs(), r)
    {
      hide IdFor, Emit;
      if caller !in parties { return None; }
      var id := NextIdFor("cat-");
      catalogs := catalogs.Put(id, Catalog(caller, 1));
      EmitEvent(id, EvCatalogCreated, caller, now);
      r := Some(id);
    }

    method UpdateCatalogEntryCall(caller: AccountId, now: nat, id: Id) returns (r: Option<Id>)
      modifies this`catalogs, this`log, this`logIndex
      ensures Follows(UpdateCatalogEntry(old(Abs()), caller, now, id), Abs(), r)
    {
      hide Emit, MayActFor;
      if !catalogs.Has(id) { return None; }
      var entry := catalogs.rows[id];
      if !MayActFor(parties, entry.owner, caller) || entry.version >= U32_MAX { return None; }
      catalogs := catalogs.Put(id, entry.(version := entry.version + 1));
      EmitEvent(id, EvCatalogUpdated, caller, now);
      r := Some("");
    }

    method AnchorCoaCall(caller: AccountId, now: nat, lot: Id, certType: string, issuer: string, docHash: string)
        returns (r: Option<Id>)
      modifies this`log, this`logIndex
      ensures Follows(AnchorCoa(old(Abs()), caller, now, lot, certType, issuer, docHash), Abs(), r)
    {
      hide Emit, MayActFor, Utf8Length, Blank;
      if !lots.Has(lot) || !MayActFor(parties, lots.rows[lot].owner, caller) { return None; }
      if Utf8Length(docHash) != 64 && !("baf" <= docHash) { return None; }
      if Blank(certType) || Blank(issuer) { return None; }
      EmitEvent(lot, EvCoaAnchored, caller, now);
      r := Some("");
    }

    method CreateLotCall(caller: AccountId, now: nat, catalog: Id, total: nat, inputs: seq<InputRef>)
        returns (r: Option<Id>)
      modifies this
      ensures Follows(CreateLot(old(Abs()), caller, now, catalog, total, inputs), Abs(), r)
    {
      hide IdFor, Emit;
      if caller !in parties || !catalogs.Has(catalog) || total == 0 { return None; }
      var id := NextIdFor("lot-");
      lots := lots.Put(id, Lot(caller, caller, total, total, Available, catalog, inputs, []));
      EmitEvent(id, EvLotCreated, caller, now);
      r := Some(id);
    }

    method DisposeLotCall(caller: AccountId, now: nat, id: Id, disposition: LotStatus) returns (r: Option<Id>)
      modifies this
      ensures Follows(DisposeLot(old(Abs()), caller, now, id, disposition), Abs(), r)
    {
      hide IdFor, Emit, MayActFor;
      if !lots.Has(id) { return None; }
      var lot := lots.rows[id];
      if !MayActFor(parties, lot.owner, caller) { return None; }
      if !(disposition.Spoiled? || disposition.Donated? || disposition.Recalled?) { return None; }
      if !(lot.status.Available? || lot.status.PartiallyAllocated?) { return None; }
      lots := lots.Put(id, lot.(status := disposition));
      EmitEvent(id, EvLotDisposed, caller, now);
      r := Some("");
    }

    method AllocateLotStep(id: Id, amount: nat) returns (ok: bool)
      modifies this`lots
      ensures ok <==> AllocateLot(old(Abs()), id, amount).Some?
      ensures Abs() == if ok then AllocateLot(old(Abs()), id, amount).value else old(Abs())
    {
      if !lots.Has(id) { return false; }
      var lot := lots.rows[id];
      if lot.available < amount { return false; }
      lot := lot.(available := lot.available - amount);
      lot := lot.(status := if lot.available == 0 then FullyAllocated else PartiallyAllocated);
      lots := lots.Put(id, lot);
      ok := true;
    }

    method TransferLotStep(id: Id, contract: Contract, contractId: Id, now: nat) returns (ok: bool)
      modifies this`lots, this`log, this`logIndex
      ensures ok <==> TransferLot(old(Abs()), id, contract, contractId, now).Some?
      ensures Abs() == if ok then TransferLot(old(Abs()), id, contract, contractId, now).value else old(Abs())
    {
      if !lots.Has(id) { return false; }
      var lot := lots.rows[id];
      lot := lot.(owner := contract.buyer);
      lot := lot.(status := Fulfilled);
      lot := lot.(provenance := lot.provenance + [Provenance(contract.seller, contract.buyer, contract.quantity,
          contractId, now)]);
      lots := lots.Put(id, lot);
      EmitEvent(id, EvLotTransferred, contractId, now);
      ok := true;
    }

    // ---- Tracking events ----

    method IndexUnder(lot: Id, cte: Id)
      modifies this`cteIndex
      ensures cteIndex == Indexed(old(cteIndex), lot, cte)
    {
      var idx := Entry(cteIndex, lot);
      if cte !in idx { idx := idx + [cte]; }
      cteIndex := cteIndex[lot := idx];
    }

    method WriteCte(cte: Cte) returns (id: Id)
      modifies this`counter, this`ctes, this`cteIndex, this`log, this`logIndex
      ensures id == IdFor("cte-", old(Abs()).counter + 1)
      ensures var s := old(Abs());
              var index := Indexed(s.cteIndex, cte.lot, id);
              Abs() == Emit(s.(counter := s.counter + 1, ctes := s.ctes.Put(id, cte),
                               cteIndex := if cte.output.Some? then Indexed(index, cte.output.value, id) else index),
                            id, EvCteRecorded, cte.actor, cte.at)
    {
      hide IdFor, Emit, Indexed;
      id := NextIdFor("cte-");
      ghost var s := Abs();
      ctes := ctes.Put(id, cte);
      IndexUnder(cte.lot, id);
      if cte.output.Some? { IndexUnder(cte.output.value, id); }
      assert Abs() == s.(ctes := s.ctes.Put(id, cte), cteIndex := cteIndex);
      EmitEvent(id, EvCteRecorded, cte.actor, cte.at);
    }

    method RecordCteCall(caller: AccountId, now: nat, kind: CteKind, lot: Id, commodity: string, amount: nat)
        returns (r: Option<Id>)
      modifies this
      ensures Follows(RecordCte(old(Abs()), caller, now, kind, lot, commodity, amount), Abs(), r)
    {
      hide IdFor, Emit, Indexed, MayActFor, Blank;
      if kind.Transforming? || !lots.Has(lot) { return None; }
      if !MayActFor(parties, lots.rows[lot].owner, caller) || caller !in parties { return None; }
      if (kind.Growing? || kind.Creating?) && Blank(commodity) { return None; }
      var id := WriteCte(Cte(kind, lot, None, caller, amount, now));
      r := Some("");
    }

    /** Debits the inputs one by one, in place. */
    method DebitInputs(caller: AccountId, inputs: seq<InputRef>) returns (ok: bool)
      modifies this`lots
      ensures ok <==> DebitAll(old(Abs()), caller, inputs).Some?
      ensures ok ==> Abs() == old(Abs()).(lots := DebitAll(old(Abs()), caller, inputs).value)
    {
      ghost var s := Abs();
      for i := 0 to |inputs|
        invariant DebitAll(s, caller, inputs[..i]) == Some(lots)
        invariant parties == s.parties
      {
        assert inputs[..i + 1][..i] == inputs[..i];
        var input := inputs[i];
        if !lots.Has(input.lot) || !MayActFor(parties, lots.rows[input.lot].owner, caller) ||
            lots.rows[input.lot].available < input.amount {
          DebitFails(s, caller, inputs, i + 1);
          return false;
        }
        var lot := lots.rows[input.lot];
        lot := lot.(available := lot.available - input.amount);
        lot := lot.(status := if lot.available == 0 then FullyAllocated else PartiallyAllocated);
        lots := lots.Put(input.lot, lot);
      }
      assert inputs[..|inputs|] == inputs;
      ok := true;
    }

    /** Once one debit fails, all of them have. */
    static lemma {:induction false} DebitFails(s: State, caller: AccountId, inputs: seq<InputRef>, i: nat)
      requires i <= |inputs| && DebitAll(s, caller, inputs[..i]).None?
      ensures DebitAll(s, caller, inputs).None?
      decreases |inputs| - i
    {
      if i < |inputs| {
        assert inputs[..i + 1][..i] == inputs[..i];
        DebitFails(s, caller, inputs, i + 1);
      } else {
        assert inputs[..i] == inputs;
      }
    }

    method IndexInputs(inputs: seq<InputRef>, cte: Id)
      modifies this`cteIndex
      ensures cteIndex == IndexedAll(old(cteIndex), inputs, cte)
    {
      ghost var index := cteIndex;
      for i := 0 to |inputs|
        invariant cteIndex == IndexedAll(index, inputs[..i], cte)
      {
        assert inputs[..i + 1][..i] == inputs[..i];
        IndexUnder(inputs[i].lot, cte);
      }
      assert inputs[..|inputs|] == inputs;
    }

    method MakeOutputStep(caller: AccountId, now: nat, output: Lot) returns (id: Id)
      modifies this`counter, this`lots, this`log, this`logIndex
      ensures id == IdFor("lot-", old(counter) + 1) && Abs() == MakeOutput(old(Abs()), caller, now, output)
    {
      hide IdFor, Emit;
      id := NextIdFor("lot-");
      lots := lots.Put(id, output);
      EmitEvent(id, EvLotCreated, caller, now);
      EmitEvent(id, EvLotTransformed, caller, now);
    }

    method NoteTransformStep(caller: AccountId, now: nat, output: Id, inputs: seq<InputRef>, amount: nat)
      requires inputs != []
      modifies this`counter, this`ctes, this`cteIndex, this`log, this`logIndex
      ensures Abs() == NoteTransform(old(Abs()), caller, now, output, inputs, amount)
    {
      hide IdFor, Emit, Indexed, IndexedAll;
      var id := NextIdFor("cte-");
      ctes := ctes.Put(id, Cte(Transforming, inputs[0].lot, Some(output), caller, amount, now));
      IndexInputs(inputs, id);
      IndexUnder(output, id);
      EmitEvent(id, EvCteRecorded, caller, now);
    }

    method TransformLotCall(caller: AccountId, now: nat, inputs: seq<InputRef>, catalog: Id, amount: nat)
        returns (r: Option<Id>)
      modifies this
      ensures Follows(TransformLot(old(Abs()), caller, now, inputs, catalog, amount), Abs(), r)
    {
      hide IdFor, DebitAll, MakeOutput, NoteTransform;
      if caller !in parties || inputs == [] || amount == 0 || !catalogs.Has(catalog) { return None; }
      var ok := DebitInputs(caller, inputs);
      if !ok {
        return None;
      }
      var lotId := MakeOutputStep(caller, now, Lot(caller, caller, amount, amount, Available, catalog, inputs, []));
      NoteTransformStep(caller, now, lotId, inputs, amount);
      r := Some(lotId);
    }

    // ---- Contract formation ----

    method FormContractStep(caller: AccountId, now: nat, offerId: Id, contract: Contract) returns (r: Option<Id>)
      requires offers.Has(offerId)
      modifies this
      ensures FormContract(old(Abs()), caller, now, offerId, contract) == if r.Some? then Done(Abs(), r.value)
              else Panic
    {
      hide IdFor, Emit, AllocateLot;
      ghost var s := Abs();
      offers := offers.Put(offerId, offers.rows[offerId].(status := OfferAccepted));
      assert Abs() == s.(offers := s.offers.Put(offerId, s.offers.rows[offerId].(status := OfferAccepted)));
      var id := NextIdFor("ctr-");
      ghost var s1 := Abs();
      assert s1 == s.(counter := s.counter + 1, offers := s.offers.Put(offerId,
          s.offers.rows[offerId].(status := OfferAccepted)));
      if contract.lot.Some? {
        var ok := AllocateLotStep(contract.lot.value, contract.quantity);
        if !ok { return None; }
      }
      ghost var s2 := Abs();
      contracts := contracts.Put(id, contract);
      assert Abs() == s2.(contracts := s2.contracts.Put(id, contract));
      EmitEvent(id, EvContractCreated, caller, now);
      EmitEvent(id, EvContractEscrowLocked, caller, now);
      if contract.finance.Some? && contract.finance.value.lpPool { EmitEvent(id, EvFinancingRequested, caller, now); }
      r := Some(id);
    }

    method AcceptOfferCall(caller: AccountId, now: nat, offerId: Id, arbitrator: Option<AccountId>)
        returns (r: Option<Id>)
      modifies this
      ensures Follows(AcceptOffer(old(Abs()), caller, now, offerId, arbitrator), Abs(), r)
    {
      hide FormContract, LandedTotal, SatMul;
      if !offers.Has(offerId) { return None; }
      var offer := offers.rows[offerId];
      if !(offer.status.OfferSubmitted? || offer.status.OfferShortlisted?) { return None; }
      var buyer, seller, lotId := caller, caller, None;
      var intentId, listingId := None, None;
      match offer.target {
        case OnIntent(i) =>
          if !intents.Has(i) || intents.rows[i].buyer != caller || intents.rows[i].status != IntentPosted {
            return None;
          }
          intents := intents.Put(i, intents.rows[i].(status := IntentContracted));
          seller, intentId := offer.offerer, Some(i);
        case OnListing(l) =>
          if !listings.Has(l) || listings.rows[l].seller != caller || listings.rows[l].status != ListingActive {
            return None;
          }
          lotId := listings.rows[l].lot;
          listings := listings.Put(l, listings.rows[l].(status := ListingContracted));
          buyer, listingId := offer.offerer, Some(l);
      }
      if intentId.Some? && LandedTotal(offer.total, offer.freight) > CeilingTotal(intents.rows[intentId.value]) {
        return None;
      }
      r := FormContractStep(caller, now, offerId, Contract(intentId, listingId, offerId, buyer, seller, lotId,
          offer.quantity, offer.finance,
                                                           offer.freight, offer.total, disputeWindowHours, arbitrator,
                                                           Active));
    }

    // ---- Finance pools ----

    method RegisterFinancePoolCall(caller: AccountId, now: nat, id: Id, account: AccountId, maxRateBps: nat,
                                   funds: nat) returns (r: Option<Id>)
      modifies this`pools, this`log, this`logIndex
      ensures Follows(RegisterFinancePool(old(Abs()), caller, now, id, account, maxRateBps, funds), Abs(), r)
    {
      hide Emit;
      if caller != owner || id in pools || maxRateBps > 5000 { return None; }
      pools := pools[id := Pool(account, maxRateBps, funds, true)];
      EmitEvent(id, EvPoolRegistered, caller, now);
      r := Some("");
    }

    method ConfirmFinancingCall(caller: AccountId, now: nat, contractId: Id, poolId: Id) returns (r: Option<Id>)
      modifies this`log, this`logIndex
      ensures Follows(ConfirmFinancing(old(Abs()), caller, now, contractId, poolId), Abs(), r)
    {
      hide Emit;
      if poolId !in pools || pools[poolId].account != caller || !pools[poolId].active { return None; }
      if !contracts.Has(contractId) || !PoolFinanced(contracts.rows[contractId]) { return None; }
      EmitEvent(contractId, EvFinancingConfirmed, caller, now);
      r := Some("");
    }

    // ---- Fulfillment and settlement ----

    method AlreadyFulfilled(contractId: Id) returns (found: bool)
      ensures found <==> HasFulfillment(Abs(), contractId)
    {
      for i := 0 to |fulfillments.keys|
        invariant forall j :: 0 <= j < i && fulfillments.keys[j] in fulfillments.rows ==>
                                fulfillments.rows[fulfillments.keys[j]].contract != contractId
      {
        var f := fulfillments.keys[i];
        if f in fulfillments.rows && fulfillments.rows[f].contract == contractId { return true; }
      }
      found := false;
    }

    method RecordFulfillmentStep(caller: AccountId, now: nat, contractId: Id, contract: Contract) returns (id: Id)
      modifies this`counter, this`fulfillments, this`contracts, this`log, this`logIndex
      ensures id == IdFor("ful-", old(Abs()).counter + 1)
      ensures var s := old(Abs());
              Abs() == Emit(s.(counter := s.counter + 1,
                  fulfillments := s.fulfillments.Put(id, Fulfillment(contractId, now, SellerAttested)),
                               contracts := s.contracts.Put(contractId, contract.(status := InFulfillment))),
                            id, EvSellerAttested, caller, now)
    {
      hide IdFor, Emit;
      id := NextIdFor("ful-");
      ghost var s := Abs();
      var fulfillment := Fulfillment(contractId, now, SellerAttested);
      fulfillments := fulfillments.Put(id, fulfillment);
      contracts := contracts.Put(contractId, contract.(status := InFulfillment));
      assert Abs() == s.(fulfillments := s.fulfillments.Put(id, fulfillment),
          contracts := s.contracts.Put(contractId, contract.(status := InFulfillment)));
      EmitEvent(id, EvSellerAttested, caller, now);
    }

    method SellerAttestCall(caller: AccountId, now: nat, contractId: Id) returns (r: Option<Id>)
      modifies this
      ensures Follows(SellerAttest(old(Abs()), caller, now, contractId), Abs(), r)
    {
      hide IdFor, Emit, HasFulfillment;
      if !contracts.Has(contractId) { return None; }
      var contract := contracts.rows[contractId];
      if contract.seller != caller || !(contract.status.Active? || contract.status.InFulfillment?) { return None; }
      var fulfilled := AlreadyFulfilled(contractId);
      if fulfilled { return None; }
      var id := RecordFulfillmentStep(caller, now, contractId, contract);
      r := Some(id);
    }

    method TotalOf(amounts: seq<nat>) returns (total: Option<nat>)
      ensures total == if Sum(amounts) > U128_MAX then None else Some(Sum(amounts))
    {
      var sum := 0;
      for i := 0 to |amounts|
        invariant sum == Sum(amounts[..i]) <= U128_MAX
      {
        assert amounts[..i + 1][..i] == amounts[..i];
        SumOfPart(amounts, i + 1);
        if sum + amounts[i] > U128_MAX { return None; }
        sum := sum + amounts[i];
      }
      assert amounts[..|amounts|] == amounts;
      total := Some(sum);
    }

    method UpdateReputationStep(account: AccountId, disputed: bool) returns (ok: bool)
      modifies this`parties
      ensures ok <==> UpdateReputation(old(parties), account, disputed).Some?
      ensures ok ==> parties == UpdateReputation(old(parties), account, disputed).value
    {
      if account !in parties { return true; }
      var party := parties[account];
      var record := party.reputation;
      if record.completed >= U32_MAX { return false; }
      record := record.(completed := record.completed + 1);
      if disputed {
        if record.disputed >= U32_MAX { return false; }
        record := record.(disputed := record.disputed + 1);
      } else {
        if record.onTime >= U32_MAX { return false; }
        record := record.(onTime := record.onTime + 1);
      }
      parties := parties[account := party.(reputation := Recomputed(record))];
      ok := true;
    }

    method UpdateRelationshipStep(buyer: AccountId, seller: AccountId, volume: nat, now: nat) returns (ok: bool)
      modifies this`relationships, this`log, this`logIndex
      ensures UpdateRelationship(old(Abs()), PairKey(buyer, seller), volume, now) == if ok then Some(Abs()) else None
    {
      hide PairKey, DeriveTier, Emit, OnTimeAverage;
      var key := PairKey(buyer, seller);
      var rel := if key in relationships then relationships[key] else NEW_RELATIONSHIP;
      if rel.trades >= U32_MAX || rel.volume + volume > U128_MAX { return false; }
      rel := rel.(trades := rel.trades + 1, volume := rel.volume + volume);
      rel := rel.(onTimeRate := OnTimeAverage(rel.onTimeRate, rel.trades));
      rel := rel.(tier := DeriveTier(rel.trades, rel.volume, rel.agreements != []));
      assert rel == Traded(RelationshipAt(relationships, key), volume);
      relationships := relationships[key := rel];
      ghost var s := Abs();
      EmitEvent(key, EvTierUpdated, "contract", now);
      ok := true;
    }

    method RecordSettlementStep(t: Settlement, contract: Contract) returns (ok: bool, id: Id)
      modifies this`counter, this`settlements, this`lots, this`contracts, this`log, this`logIndex
      ensures id == IdFor("set-", old(Abs()).counter + 1)
      ensures RecordSettlement(old(Abs()), t, contract) == if ok then Some(Abs()) else None
    {
      hide IdFor, Emit, Moved;
      id := NextIdFor("set-");
      settlements := settlements.Put(id, t);
      if contract.lot.Some? {
        ok := TransferLotStep(contract.lot.value, contract, t.contract, t.at);
        if !ok { return; }
      }
      contracts := contracts.Put(t.contract, contract.(status := Settled));
      ok := true;
    }

    method RateParties(contract: Contract, loser: Option<AccountId>) returns (ok: bool)
      modifies this`parties
      ensures RatedParties(old(Abs()).parties, contract, loser) == if ok then Some(Abs().parties) else None
      ensures Abs() == old(Abs()).(parties := Abs().parties)
    {
      hide UpdateReputation;
      ok := UpdateReputationStep(contract.buyer, loser == Some(contract.buyer));
      if !ok { return false; }
      ok := UpdateReputationStep(contract.seller, loser == Some(contract.seller));
    }

    method ExecuteSettlementStep(fulfillmentId: Id, contractId: Id, contract: Contract, deductions: seq<nat>,
                                 loser: Option<AccountId>, now: nat) returns (r: Option<Id>)
      modifies this
      ensures ExecuteSettlement(old(Abs()), fulfillmentId, contractId, contract, deductions, loser, now) ==
              if r.Some? then Done(Abs(), r.value) else Panic
    {
      hide Abs, RecordSettlement, UpdateRelationship, RatedParties, PairKey, Emit, IdFor;
      var total := TotalOf(deductions);
      if total.None? { return None; }
      var net := SatSub(contract.total, total.value);
      var recorded, id := RecordSettlementStep(Settlement(contractId, fulfillmentId, contract.total, net, now),
          contract);
      if !recorded { return None; }
      var related := UpdateRelationshipStep(contract.buyer, contract.seller, net, now);
      if !related { return None; }
      var rated := RateParties(contract, loser);
      if !rated { return None; }
      EmitEvent(id, EvSettlementCreated, contract.buyer, now);
      EmitEvent(id, EvEscrowReleased, "contract", now);
      r := Some(id);
    }

    method BuyerAttestCall(caller: AccountId, now: nat, fulfillmentId: Id, deductions: seq<nat>) returns (r: Option<Id>)
      modifies this
      ensures Follows(BuyerAttest(old(Abs()), caller, now, fulfillmentId, deductions), Abs(), r)
    {
      hide ExecuteSettlement, Emit, IdFor;
      if !fulfillments.Has(fulfillmentId) || !contracts.Has(fulfillments.rows[fulfillmentId].contract) { return None; }
      var f := fulfillments.rows[fulfillmentId];
      var contract := contracts.rows[f.contract];
      if contract.buyer != caller || f.status != SellerAttested { return None; }
      fulfillments := fulfillments.Put(fulfillmentId, f.(status := Complete));
      contract := contract.(status := Delivered);
      contracts := contracts.Put(f.contract, contract);
      EmitEvent(fulfillmentId, EvBuyerAttested, caller, now);
      r := ExecuteSettlementStep(fulfillmentId, f.contract, contract, deductions, None, now);
    }

    method InitiateDisputeCall(caller: AccountId, now: nat, fulfillmentId: Id) returns (r: Option<Id>)
      modifies this
      ensures Follows(InitiateDispute(old(Abs()), caller, now, fulfillmentId), Abs(), r)
    {
      hide IdFor, Emit;
      if !fulfillments.Has(fulfillmentId) || !contracts.Has(fulfillments.rows[fulfillmentId].contract) { return None; }
      var f := fulfillments.rows[fulfillmentId];
      var contract := contracts.rows[f.contract];
      if contract.buyer != caller || !(contract.status.InFulfillment? || contract.status.Delivered?) { return None; }
      if now > f.signedAt + WindowMs(contract) { return None; }
      fulfillments := fulfillments.Put(fulfillmentId, f.(status := DisputeOpened));
      contracts := contracts.Put(f.contract, contract.(status := Disputed));
      EmitEvent(fulfillmentId, EvFulfillmentDisputed, caller, now);
      r := Some("");
    }

    method TriggerAutoSettlementCall(now: nat, fulfillmentId: Id) returns (r: Option<Id>)
      modifies this
      ensures Follows(TriggerAutoSettlement(old(Abs()), now, fulfillmentId), Abs(), r)
    {
      hide ExecuteSettlement, Emit, IdFor;
      if !fulfillments.Has(fulfillmentId) || !contracts.Has(fulfillments.rows[fulfillmentId].contract) { return None; }
      var f := fulfillments.rows[fulfillmentId];
      var contract := contracts.rows[f.contract];
      if f.status != SellerAttested || now <= f.signedAt + WindowMs(contract) { return None; }
      r := ExecuteSettlementStep(fulfillmentId, f.contract, contract, [], None, now);
    }

    method FindFulfillmentOf(contractId: Id) returns (r: Option<Id>)
      ensures r == FindFulfillment(fulfillments.keys, fulfillments.rows, contractId)
    {
      for i := 0 to |fulfillments.keys|
        invariant FindFulfillment(fulfillments.keys, fulfillments.rows, contractId) ==
                  FindFulfillment(fulfillments.keys[i..], fulfillments.rows, contractId)
      {
        var f := fulfillments.keys[i];
        assert fulfillments.keys[i..][1..] == fulfillments.keys[i + 1..];
        if f in fulfillments.rows && fulfillments.rows[f].contract == contractId { return Some(f); }
      }
      r := None;
    }

    method ResolveDisputeCall(caller: AccountId, now: nat, contractId: Id, forBuyer: bool, deductions: seq<nat>)
        returns (r: Option<Id>)
      modifies this
      ensures Follows(ResolveDispute(old(Abs()), caller, now, contractId, forBuyer, deductions), Abs(), r)
    {
      hide ExecuteSettlement, FindFulfillment, Emit, IdFor;
      if !contracts.Has(contractId) { return None; }
      var contract := contracts.rows[contractId];
      if !(contract.arbitrator == Some(caller) || caller == owner) || contract.status != Disputed { return None; }
      var found := FindFulfillmentOf(contractId);
      if found.None? { return None; }
      var loser, final := contract.seller, ResolvedBuyer;
      if !forBuyer { loser, final := contract.buyer, ResolvedSeller; }
      r := ExecuteSettlementStep(found.value, contractId, contract, deductions, Some(loser), now);
      if r.None? || !contracts.Has(contractId) {
        return None;
      }
      contract := contracts.rows[contractId].(status := final);
      contracts := contracts.Put(contractId, contract);
      EmitEvent(contractId, if forBuyer then EvContractResolvedBuyer else EvContractResolvedSeller, caller, now);
      r := Some("");
    }

    // ---- Standing agreements ----

    method ProposeAgreementCall(caller: AccountId, now: nat, asBuyer: bool, counterparty: AccountId)
        returns (r: Option<Id>)
      modifies this`counter, this`agreements, this`log, this`logIndex
      ensures Follows(ProposeAgreement(old(Abs()), caller, now, asBuyer, counterparty), Abs(), r)
    {
      hide IdFor, Emit;
      if caller !in parties || counterparty !in parties { return None; }
      var id := NextIdFor("agr-");
      var buyer, seller := caller, counterparty;
      if !asBuyer { buyer, seller := counterparty, caller; }
      agreements := agreements.Put(id, Agreement(buyer, seller, asBuyer, !asBuyer, false));
      EmitEvent(id, EvAgreementProposed, caller, now);
      r := Some(id);
    }

    method SignAgreementCall(caller: AccountId, now: nat, id: Id) returns (r: Option<Id>)
      modifies this`agreements, this`relationships, this`log, this`logIndex
      ensures Follows(SignAgreement(old(Abs()), caller, now, id), Abs(), r)
    {
      hide Emit, PairKey, DeriveTier;
      if !agreements.Has(id) { return None; }
      var a := agreements.rows[id];
      if a.buyer == caller {
        if a.buyerSigned { return None; }
        a := a.(buyerSigned := true);
      } else if a.seller == caller {
        if a.sellerSigned { return None; }
        a := a.(sellerSigned := true);
      } else {
        return None;
      }
      if a.buyerSigned && a.sellerSigned {
        a := a.(active := true);
        var key := PairKey(a.buyer, a.seller);
        if key in relationships {
          var rel := relationships[key];
          if id !in rel.agreements {
            rel := rel.(agreements := rel.agreements + [id]);
            rel := rel.(tier := DeriveTier(rel.trades, rel.volume, rel.agreements != []));
            relationships := relationships[key := rel];
          }
        }
        EmitEvent(id, EvAgreementActivated, caller, now);
      }
      agreements := agreements.Put(id, a);
      r := Some("");
    }

    // ---- Any call ----

    predicate IsPartyCall(call: Call) {
      call.CallRegisterParty? || call.CallAddCertification? || call.CallAddKyb? ||
      call.CallUpdatePartyIdentity? || call.CallAuthorizeAgent? || call.CallRevokeAgent? ||
      call.CallPostIntent? || call.CallCancelIntent? || call.CallPostListing? || call.CallWithdrawListing?
    }

    predicate IsGoodsCall(call: Call) {
      call.CallCreateCatalogEntry? || call.CallUpdateCatalogEntry? || call.CallAnchorCoa? ||
      call.CallCreateLot? || call.CallDisposeLot? || call.CallRecordCte? || call.CallTransformLot? ||
      call.CallRegisterFinancePool? || call.CallConfirmFinancing?
    }

    method RunPartyCall(caller: AccountId, now: nat, call: Call) returns (r: Option<Id>)
      requires IsPartyCall(call)
      modifies this
      ensures Follows(Run(old(Abs()), caller, now, call), Abs(), r)
    {
      hide Abs, RegisterParty, AttachToParty, UpdatePartyIdentity, UpdateCatalogEntry, AnchorCoa, RegisterFinancePool,
        ConfirmFinancing, AuthorizeAgent, RevokeAgent, PostIntent, CancelIntent, PostListing, WithdrawListing,
        SubmitOffer, RetractOffer, CreateCatalogEntry, CreateLot, DisposeLot, RecordCte, TransformLot, AcceptOffer,
        SellerAttest, BuyerAttest, InitiateDispute, TriggerAutoSettlement, ResolveDispute, ProposeAgreement,
        SignAgreement;
      match call
      case CallRegisterParty => r := RegisterPartyCall(caller);
      case CallAddCertification => r := AttachToPartyCall(caller);
      case CallAddKyb => r := AttachToPartyCall(caller);
      case CallUpdatePartyIdentity(gln, duns) => r := UpdatePartyIdentityCall(caller, now, gln, duns);
      case CallAuthorizeAgent(agent) => r := AuthorizeAgentCall(caller, agent);
      case CallRevokeAgent(agent) => r := RevokeAgentCall(caller, agent);
      case CallPostIntent(intent, finance, freight) => r := PostIntentCall(caller, now, intent, finance, freight);
      case CallCancelIntent(id) => r := CancelIntentCall(caller, now, id);
      case CallPostListing(listing, finance, freight) => r := PostListingCall(caller, now, listing, finance, freight);
      case CallWithdrawListing(id) => r := WithdrawListingCall(caller, now, id);
    }

    method RunGoodsCall(caller: AccountId, now: nat, call: Call) returns (r: Option<Id>)
      requires IsGoodsCall(call)
      modifies this
      ensures Follows(Run(old(Abs()), caller, now, call), Abs(), r)
    {
      hide Abs, RegisterParty, AttachToParty, UpdatePartyIdentity, UpdateCatalogEntry, AnchorCoa, RegisterFinancePool,
        ConfirmFinancing, AuthorizeAgent, RevokeAgent, PostIntent, CancelIntent, PostListing, WithdrawListing,
        SubmitOffer, RetractOffer, CreateCatalogEntry, CreateLot, DisposeLot, RecordCte, TransformLot, AcceptOffer,
        SellerAttest, BuyerAttest, InitiateDispute, TriggerAutoSettlement, ResolveDispute, ProposeAgreement,
        SignAgreement;
      match call
      case CallCreateCatalogEntry => r := CreateCatalogEntryCall(caller, now);
      case CallUpdateCatalogEntry(id) => r := UpdateCatalogEntryCall(caller, now, id);
      case CallAnchorCoa(lot, certType, issuer, docHash) =>
          r := AnchorCoaCall(caller, now, lot, certType, issuer, docHash);
      case CallCreateLot(catalog, total, inputs) => r := CreateLotCall(caller, now, catalog, total, inputs);
      case CallDisposeLot(id, disposition) => r := DisposeLotCall(caller, now, id, disposition);
      case CallRecordCte(kind, lot, commodity, amount) => r := RecordCteCall(caller, now, kind, lot, commodity, amount);
      case CallTransformLot(inputs, catalog, amount) => r := TransformLotCall(caller, now, inputs, catalog, amount);
      case CallRegisterFinancePool(id, account, maxRateBps, funds) =>
        r := RegisterFinancePoolCall(caller, now, id, account, maxRateBps, funds);
      case CallConfirmFinancing(contract, pool) => r := ConfirmFinancingCall(caller, now, contract, pool);
    }

    method RunDealCall(caller: AccountId, now: nat, call: Call) returns (r: Option<Id>)
      requires !IsPartyCall(call) && !IsGoodsCall(call)
      modifies this
      ensures Follows(Run(old(Abs()), caller, now, call), Abs(), r)
    {
      hide Abs, RegisterParty, AttachToParty, UpdatePartyIdentity, UpdateCatalogEntry, AnchorCoa, RegisterFinancePool,
        ConfirmFinancing, AuthorizeAgent, RevokeAgent, PostIntent, CancelIntent, PostListing, WithdrawListing,
        SubmitOffer, RetractOffer, CreateCatalogEntry, CreateLot, DisposeLot, RecordCte, TransformLot, AcceptOffer,
        SellerAttest, BuyerAttest, InitiateDispute, TriggerAutoSettlement, ResolveDispute, ProposeAgreement,
        SignAgreement;
      match call
      case CallSubmitOffer(offer) => r := SubmitOfferCall(caller, now, offer);
      case CallRetractOffer(id) => r := RetractOfferCall(caller, now, id);
      case CallAcceptOffer(id, arbitrator) => r := AcceptOfferCall(caller, now, id, arbitrator);
      case CallSellerAttest(id) => r := SellerAttestCall(caller, now, id);
      case CallBuyerAttest(id, deductions) => r := BuyerAttestCall(caller, now, id, deductions);
      case CallInitiateDispute(id) => r := InitiateDisputeCall(caller, now, id);
      case CallTriggerAutoSettlement(id) => r := TriggerAutoSettlementCall(now, id);
      case CallResolveDispute(id, forBuyer, deductions) =>
          r := ResolveDisputeCall(caller, now, id, forBuyer, deductions);
      case CallProposeAgreement(asBuyer, counterparty) => r := ProposeAgreementCall(caller, now, asBuyer, counterparty);
      case CallSignAgreement(id) => r := SignAgreementCall(caller, now, id);
    }

    method RunCall(caller: AccountId, now: nat, call: Call) returns (r: Option<Id>)
      modifies this
      ensures Follows(Run(old(Abs()), caller, now, call), Abs(), r)
    {
      if IsPartyCall(call) {
        r := RunPartyCall(caller, now, call);
      } else if IsGoodsCall(call) {
        r := RunGoodsCall(caller, now, call);
      } else {
        r := RunDealCall(caller, now, call);
      }
    }

    // ---- Queries ----

    /** The recorded events that name a lot, by its index. */
    method GetLotCtes(lot: Id) returns (found: seq<Cte>)
      requires CteIndexOk(Abs()) && ctes.Ok()
      ensures found == CtesNaming(Trackings(ctes, lots), ctes.rows, lot)
    {
      var ids := Entry(cteIndex, lot);
      found := [];
      for i := 0 to |ids|
        invariant found == RowsOf(ctes.rows, ids[..i])
      {
        assert ids[..i + 1][..i] == ids[..i];
        if ids[i] in ctes.rows { found := found + [ctes.rows[ids[i]]]; }
      }
      assert ids[..|ids|] == ids;
      RowsOfNaming(Trackings(ctes, lots), ctes.rows, lot);
    }

    /** A page of an entity's events, by the audit index; a page whose end does not fit u64 panics. */
    method GetAuditTrail(entity: string, offset: nat, limit: nat) returns (page: Option<seq<AuditEvent>>)
      requires LogOk(log, logIndex)
      ensures page == if offset + limit > U64_MAX then None else Some(Page(About(log, entity), offset, limit))
    {
      hide About, Positions;
      if offset + limit > U64_MAX { return None; }
      var indices := Entry(logIndex, entity);
      ghost var all := About(log, entity);
      PositionsAscend(log, entity);
      AboutIsAtPositions(log, entity);
      assert |indices| == |all| && forall k :: 0 <= k < |indices| ==> all[k] == AtPositions(log, indices)[k];
      var start, end := Min(offset, |indices|), Min(offset + limit, |indices|);
      var events := [];
      for i := start to end
        invariant events == all[start..i]
      {
        assert all[i] == log[indices[i]];
        events := events + [log[indices[i]]];
      }
      page := Some(events);
    }
  }

  /** One transaction: what storage holds afterwards is what the call left, or what was there if it panicked. */
  method Transact(contract: DtpContract, t: Transaction) returns (after: DtpContract)
    modifies contract
    ensures after == contract || fresh(after)
    ensures after.Abs() == After(old(contract.Abs()), t)
  {
    hide Run, DtpContract.Abs;
    var stored := contract.Abs();
    var r := contract.RunCall(t.caller, t.now, t.call);
    if r.None? { after := new DtpContract.From(stored); } else { after := contract; }
  }

  /** Deployed and sent any transactions, the object is in the state of that history. */
  method RunAll(owner: AccountId, ts: seq<Transaction>) returns (contract: DtpContract)
    ensures fresh(contract) && contract.Abs() == History(owner, ts)
  {
    hide After, Initial, DtpContract.Abs;
    contract := new DtpContract(owner);
    for i := 0 to |ts|
      invariant fresh(contract) && contract.Abs() == History(owner, ts[..i])
    {
      assert ts[..i + 1] == ts[..i] + [ts[i]];
      OneMore(owner, ts[..i], ts[i]);
      contract := Transact(contract, ts[i]);
    }
    assert ts[..|ts|] == ts;
  }

  function RowsOf(rows: map<Id, Cte>, ids: seq<Id>): seq<Cte> {
    if ids == [] then []
    else
      var last := ids[|ids| - 1];
      RowsOf(rows, ids[..|ids| - 1]) + if last in rows then [rows[last]] else []
  }

  /** The events that name a lot, by scanning all of them. */
  function CtesNaming(ts: seq<Tracking>, rows: map<Id, Cte>, lot: Id): seq<Cte> {
    if ts == [] then []
    else
      var t := ts[|ts| - 1];
      CtesNaming(ts[..|ts| - 1], rows, lot) + if Names(t, lot) && t.id in rows then [rows[t.id]] else []
  }

  lemma {:induction false} RowsOfNaming(ts: seq<Tracking>, rows: map<Id, Cte>, lot: Id)
    ensures RowsOf(rows, Naming(ts, lot)) == CtesNaming(ts, rows, lot)
  {
    if ts != [] {
      var before := ts[..|ts| - 1];
      RowsOfNaming(before, rows, lot);
      if Names(ts[|ts| - 1], lot) { AppendLast(Naming(before, lot), ts[|ts| - 1].id); }
      else { assert Naming(ts, lot) == Naming(before, lot); }
    }
  }
}
