/**
 What every call of the trade contract does to the state, as functions from a state to an `Outcome`.
 A panic anywhere leaves the state as it was. The class in LedgerContract.dfy runs the same calls step
 by step; the invariants in the Ledger*.dfy modules are proved about these functions.
 */
module LedgerSteps {
  import opened Wrappers
  import opened LedgerTypes

  // ---- Internal helpers ----

  function Emit(s: State, entity: string, kind: EventType, actor: string, now: nat): State {
    s.(log := s.log + [AuditEvent(entity, kind, actor, now)],
       logIndex := s.logIndex[entity := Entry(s.logIndex, entity) + [|s.log|]])
  }

  /** The owner, or an account the owner has authorized as agent. */
  predicate MayActFor(parties: map<AccountId, Party>, owner: AccountId, caller: AccountId) {
    caller == owner || (owner in parties && caller in parties[owner].agents)
  }

  predicate ValidFreight(f: Option<Freight>) {
    f.Some? ==> f.value.quoteExpires >= f.value.quotedAt && f.value.estimated >= f.value.allowance
  }

  predicate ValidFinance(f: Option<Finance>) {
    f.Some? ==>
      && f.value.netDays <= 60
      && (f.value.pacaCovered ==> f.value.netDays <= 30)
      && f.value.feeBps <= 5000
      && (!f.value.lpPool ==> f.value.pool.None? && f.value.financer.None?)
  }

  // ---- Parties ----

  function RegisterParty(s: State, caller: AccountId): Outcome {
    if caller in s.parties then Panic else Done(s.(parties := s.parties[caller := Party(NEW_REPUTATION, [])]), "")
  }

  /** `add_certification` and `add_kyb_attestation`: what they attach to the party is not kept here. */
  function AttachToParty(s: State, caller: AccountId): Outcome {
    if caller !in s.parties then Panic else Done(s, "")
  }

  predicate HasDigits(s: Option<string>, n: nat) {
    s.Some? ==> DigitCount(s.value) == n
  }

  function UpdatePartyIdentity(s: State, caller: AccountId, now: nat, gln: Option<string>,
                               duns: Option<string>): Outcome {
    if caller !in s.parties || !HasDigits(gln, 13) || !HasDigits(duns, 9) then Panic
    else Done(Emit(s, caller, EvPartyIdentityUpdated, caller, now), "")
  }

  function AuthorizeAgent(s: State, caller: AccountId, agent: AccountId): Outcome {
    if caller !in s.parties || agent == caller then Panic
    else if agent in s.parties[caller].agents then Done(s, "")
    else Done(s.(parties := s.parties[caller := s.parties[caller].(agents := s.parties[caller].agents + [agent])]), "")
  }

  function Without(agents: seq<AccountId>, agent: AccountId): seq<AccountId> {
    if agents == [] then []
    else if agents[0] == agent then Without(agents[1..], agent)
    else [agents[0]] + Without(agents[1..], agent)
  }

  function RevokeAgent(s: State, caller: AccountId, agent: AccountId): Outcome {
    if caller !in s.parties then Panic
    else Done(s.(parties := s.parties[caller := s.parties[caller].(agents := Without(s.parties[caller].agents,
        agent))]), "")
  }

  // ---- Intents, listings, offers ----

  /** `terms` is the intent as asked for; buyer, catalog and status are the contract's to set. */
  function PostIntent(s: State, caller: AccountId, now: nat, terms: Intent, finance: Option<Finance>,
                      freight: Option<Freight>): Outcome {
    if caller !in s.parties || !ValidFinance(finance) || !ValidFreight(freight) then Panic
    else
      var id := IdFor("int-", s.counter + 1);
      var intent := terms.(buyer := caller, catalog := None, status := IntentPosted);
      Done(Emit(s.(counter := s.counter + 1, intents := s.intents.Put(id, intent)), id, EvIntentPosted, caller, now),
          id)
  }

  function CancelIntent(s: State, caller: AccountId, now: nat, id: Id): Outcome {
    if !s.intents.Has(id) || s.intents.rows[id].buyer != caller || s.intents.rows[id].status != IntentPosted then Panic
    else Done(Emit(s.(intents := s.intents.Put(id, s.intents.rows[id].(status := IntentCancelled))), id,
        EvIntentCancelled, caller, now), "")
  }

  function PostListing(s: State, caller: AccountId, now: nat, terms: Listing, finance: Option<Finance>,
                       freight: Option<Freight>): Outcome {
    if caller !in s.parties || !ValidFinance(finance) || !ValidFreight(freight) then Panic
    else if terms.lot.Some? &&
            (!s.lots.Has(terms.lot.value)
             || !MayActFor(s.parties, s.lots.rows[terms.lot.value].owner, caller)
             || !(s.lots.rows[terms.lot.value].status.Available? ||
                s.lots.rows[terms.lot.value].status.PartiallyAllocated?)) then Panic
    else
      var id := IdFor("lst-", s.counter + 1);
      var listing := terms.(seller := caller, status := ListingActive);
      Done(Emit(s.(counter := s.counter + 1, listings := s.listings.Put(id, listing)), id, EvListingActivated, caller,
          now), id)
  }

  function WithdrawListing(s: State, caller: AccountId, now: nat, id: Id): Outcome {
    if !s.listings.Has(id) || s.listings.rows[id].seller != caller || s.listings.rows[id].status != ListingActive
        then Panic
    else Done(Emit(s.(listings := s.listings.Put(id, s.listings.rows[id].(status := ListingWithdrawn))), id,
        EvListingWithdrawn, caller, now), "")
  }

  predicate TargetOpen(s: State, target: OfferTarget) {
    match target
    case OnIntent(i) => s.intents.Has(i) && s.intents.rows[i].status == IntentPosted
    case OnListing(l) => s.listings.Has(l) && s.listings.rows[l].status == ListingActive
  }

  function SubmitOffer(s: State, caller: AccountId, now: nat, terms: Offer): Outcome {
    if caller !in s.parties || !ValidFinance(terms.finance) || !ValidFreight(terms.freight) ||
        !TargetOpen(s, terms.target) then Panic
    else
      var id := IdFor("off-", s.counter + 1);
      var offer := terms.(offerer := caller, status := OfferSubmitted);
      Done(Emit(s.(counter := s.counter + 1, offers := s.offers.Put(id, offer)), id, EvOfferSubmitted, caller, now), id)
  }

  function RetractOffer(s: State, caller: AccountId, now: nat, id: Id): Outcome {
    if !s.offers.Has(id) || s.offers.rows[id].offerer != caller || s.offers.rows[id].status != OfferSubmitted then Panic
    else Done(Emit(s.(offers := s.offers.Put(id, s.offers.rows[id].(status := OfferRetracted))), id, EvOfferRetracted,
        caller, now), "")
  }

  // ---- Lots ----

  function StatusAfterDebit(available: nat): LotStatus {
    if available == 0 then FullyAllocated else PartiallyAllocated
  }

  /** Takes `amount` out of what is available of a lot. */
  function Debited(lot: Lot, amount: nat): Lot
    requires amount <= lot.available
  {
    lot.(available := lot.available - amount, status := StatusAfterDebit(lot.available - amount))
  }

  function CreateCatalogEntry(s: State, caller: AccountId, now: nat): Outcome {
    if caller !in s.parties then Panic
    else
      var id := IdFor("cat-", s.counter + 1);
      Done(Emit(s.(counter := s.counter + 1, catalogs := s.catalogs.Put(id, Catalog(caller, 1))), id,
          EvCatalogCreated, caller, now), id)
  }

  function UpdateCatalogEntry(s: State, caller: AccountId, now: nat, id: Id): Outcome {
    if !s.catalogs.Has(id) || !MayActFor(s.parties, s.catalogs.rows[id].owner, caller) ||
        s.catalogs.rows[id].version >= U32_MAX then Panic
    else
      var entry := s.catalogs.rows[id].(version := s.catalogs.rows[id].version + 1);
      Done(Emit(s.(catalogs := s.catalogs.Put(id, entry)), id, EvCatalogUpdated, caller, now), "")
  }

  /** Attaches a document to a lot by its hash; the document is not kept here. */
  function AnchorCoa(s: State, caller: AccountId, now: nat, lot: Id, certType: string, issuer: string,
                     docHash: string): Outcome {
    if !s.lots.Has(lot) || !MayActFor(s.parties, s.lots.rows[lot].owner, caller) then Panic
    else if !(Utf8Length(docHash) == 64 || "baf" <= docHash) || Blank(certType) || Blank(issuer) then Panic
    else Done(Emit(s, lot, EvCoaAnchored, caller, now), "")
  }

  /** The caller chooses the catalog, the total and, freely, the listed inputs. */
  function CreateLot(s: State, caller: AccountId, now: nat, catalog: Id, total: nat, inputs: seq<InputRef>): Outcome {
    if caller !in s.parties || !s.catalogs.Has(catalog) || total == 0 then Panic
    else
      var id := IdFor("lot-", s.counter + 1);
      var lot := Lot(caller, caller, total, total, Available, catalog, inputs, []);
      Done(Emit(s.(counter := s.counter + 1, lots := s.lots.Put(id, lot)), id, EvLotCreated, caller, now), id)
  }

  function DisposeLot(s: State, caller: AccountId, now: nat, id: Id, disposition: LotStatus): Outcome {
    if !s.lots.Has(id) || !MayActFor(s.parties, s.lots.rows[id].owner, caller) then Panic
    else if !(disposition.Spoiled? || disposition.Donated? || disposition.Recalled?) then Panic
    else if !(s.lots.rows[id].status.Available? || s.lots.rows[id].status.PartiallyAllocated?) then Panic
    else Done(Emit(s.(lots := s.lots.Put(id, s.lots.rows[id].(status := disposition))), id, EvLotDisposed, caller,
        now), "")
  }

  function AllocateLot(s: State, lot: Id, amount: nat): Option<State> {
    if !s.lots.Has(lot) || s.lots.rows[lot].available < amount then None
    else Some(s.(lots := s.lots.Put(lot, Debited(s.lots.rows[lot], amount))))
  }

  /** A lot after settlement of a contract it backs. */
  function Moved(lot: Lot, contract: Contract, contractId: Id, now: nat): Lot {
    lot.(owner := contract.buyer, status := Fulfilled,
         provenance := lot.provenance + [Provenance(contract.seller, contract.buyer, contract.quantity, contractId,
         now)])
  }

  function TransferLot(s: State, lot: Id, contract: Contract, contractId: Id, now: nat): Option<State> {
    if !s.lots.Has(lot) then None
    else
      Some(Emit(s.(lots := s.lots.Put(lot, Moved(s.lots.rows[lot], contract, contractId, now))), lot,
          EvLotTransferred, contractId, now))
  }

  // ---- Tracking events ----

  /** Adds an event to a lot's index unless it is there already. */
  function Indexed(index: map<Id, seq<Id>>, lot: Id, cte: Id): map<Id, seq<Id>> {
    index[lot := if cte in Entry(index, lot) then Entry(index, lot) else Entry(index, lot) + [cte]]
  }

  function IndexedAll(index: map<Id, seq<Id>>, inputs: seq<InputRef>, cte: Id): map<Id, seq<Id>> {
    if inputs == [] then index else Indexed(IndexedAll(index, inputs[..|inputs| - 1], cte), inputs[|inputs| - 1].lot,
        cte)
  }

  /** The four single-lot events; growing and creating ask for a commodity. */
  function RecordCte(s: State, caller: AccountId, now: nat, kind: CteKind, lot: Id, commodity: string,
                     amount: nat): Outcome {
    if kind.Transforming? || !s.lots.Has(lot) || !MayActFor(s.parties, s.lots.rows[lot].owner, caller) ||
        caller !in s.parties then Panic
    else if (kind.Growing? || kind.Creating?) && Blank(commodity) then Panic
    else
      var id := IdFor("cte-", s.counter + 1);
      var cte := Cte(kind, lot, None, caller, amount, now);
      Done(Emit(s.(counter := s.counter + 1, ctes := s.ctes.Put(id, cte), cteIndex := Indexed(s.cteIndex, lot, id)),
                id, EvCteRecorded, caller, now), "")
  }

  /** Debits the inputs in order; a lot listed twice is debited twice. */
  function DebitAll(s: State, caller: AccountId, inputs: seq<InputRef>): Option<Table<Lot>> {
    if inputs == [] then Some(s.lots)
    else
      match DebitAll(s, caller, inputs[..|inputs| - 1])
      case None => None
      case Some(lots) =>
        var input := inputs[|inputs| - 1];
        if !lots.Has(input.lot) || !MayActFor(s.parties, lots.rows[input.lot].owner, caller) ||
            lots.rows[input.lot].available < input.amount then None
        else Some(lots.Put(input.lot, Debited(lots.rows[input.lot], input.amount)))
  }

  /** The new lot of a transform, its inputs debited already. */
  function MakeOutput(s: State, caller: AccountId, now: nat, output: Lot): State {
    var id := IdFor("lot-", s.counter + 1);
    Emit(Emit(s.(counter := s.counter + 1, lots := s.lots.Put(id, output)), id, EvLotCreated, caller, now), id,
        EvLotTransformed, caller, now)
  }

  /** The event of a transform, indexed under its inputs and its output. */
  function NoteTransform(s: State, caller: AccountId, now: nat, output: Id, inputs: seq<InputRef>, amount: nat): State
    requires inputs != []
  {
    var id := IdFor("cte-", s.counter + 1);
    Emit(s.(counter := s.counter + 1,
            ctes := s.ctes.Put(id, Cte(Transforming, inputs[0].lot, Some(output), caller, amount, now)),
            cteIndex := Indexed(IndexedAll(s.cteIndex, inputs, id), output, id)),
         id, EvCteRecorded, caller, now)
  }

  function TransformLot(s: State, caller: AccountId, now: nat, inputs: seq<InputRef>, catalog: Id,
                        amount: nat): Outcome {
    if caller !in s.parties || inputs == [] || amount == 0 || !s.catalogs.Has(catalog) then Panic
    else
      match DebitAll(s, caller, inputs)
      case None => Panic
      case Some(lots) =>
        var id := IdFor("lot-", s.counter + 1);
        var made := MakeOutput(s.(lots := lots), caller, now,
            Lot(caller, caller, amount, amount, Available, catalog, inputs, []));
        Done(NoteTransform(made, caller, now, id, inputs, amount), id)
  }

  // ---- Contract formation ----

  function SatAdd(a: nat, b: nat): nat {
    if a + b > U128_MAX then U128_MAX else a + b
  }

  function SatMul(a: nat, b: nat): nat {
    if a * b > U128_MAX then U128_MAX else a * b
  }

  function SatSub(a: nat, b: nat): nat {
    if a < b then 0 else a - b
  }

  /** Goods total plus the freight the buyer pays, in saturating u128. */
  function LandedTotal(total: nat, freight: Option<Freight>): nat {
    if freight.Some? && freight.value.buyerPays then SatAdd(total,
        SatSub(freight.value.estimated, freight.value.allowance)) else total
  }

  function CeilingTotal(intent: Intent): nat {
    SatMul(intent.ceiling, intent.quantity) / 1000
  }

  /** The common end of accepting an offer: mark it, draw on the lot if there is one, record the contract. */
  function FormContract(s: State, caller: AccountId, now: nat, offerId: Id, contract: Contract): Outcome
    requires s.offers.Has(offerId)
  {
    var id := IdFor("ctr-", s.counter + 1);
    var s1 := s.(counter := s.counter + 1, offers := s.offers.Put(offerId,
        s.offers.rows[offerId].(status := OfferAccepted)));
    match (if contract.lot.Some? then AllocateLot(s1, contract.lot.value, contract.quantity) else Some(s1))
    case None => Panic
    case Some(s2) =>
      var s3 := s2.(contracts := s2.contracts.Put(id, contract));
      Done(RequestFinancing(Emit(Emit(s3, id, EvContractCreated, caller, now), id, EvContractEscrowLocked, caller,
          now), caller, now, id, contract), id)
  }

  predicate PoolFinanced(contract: Contract) {
    contract.finance.Some? && contract.finance.value.lpPool
  }

  function RequestFinancing(s: State, caller: AccountId, now: nat, id: Id, contract: Contract): State {
    if PoolFinanced(contract) then Emit(s, id, EvFinancingRequested, caller, now) else s
  }

  function RegisterFinancePool(s: State, caller: AccountId, now: nat, id: Id, account: AccountId, maxRateBps: nat,
                               funds: nat): Outcome {
    if caller != s.owner || id in s.pools || maxRateBps > 5000 then Panic
    else Done(Emit(s.(pools := s.pools[id := Pool(account, maxRateBps, funds, true)]), id, EvPoolRegistered, caller,
        now), "")
  }

  function ConfirmFinancing(s: State, caller: AccountId, now: nat, contract: Id, pool: Id): Outcome {
    if pool !in s.pools || s.pools[pool].account != caller || !s.pools[pool].active then Panic
    else if !s.contracts.Has(contract) || !PoolFinanced(s.contracts.rows[contract]) then Panic
    else Done(Emit(s, contract, EvFinancingConfirmed, caller, now), "")
  }

  function NewContract(s: State, offerId: Id, offer: Offer, buyer: AccountId, seller: AccountId,
                       intent: Option<Id>, listing: Option<Id>, lot: Option<Id>,
                       arbitrator: Option<AccountId>): Contract {
    Contract(intent, listing, offerId, buyer, seller, lot, offer.quantity, offer.finance, offer.freight, offer.total,
             s.disputeWindowHours, arbitrator, Active)
  }

  function AcceptOffer(s: State, caller: AccountId, now: nat, offerId: Id, arbitrator: Option<AccountId>): Outcome {
    if !s.offers.Has(offerId) || !(s.offers.rows[offerId].status.OfferSubmitted? ||
        s.offers.rows[offerId].status.OfferShortlisted?) then Panic
    else
      var offer := s.offers.rows[offerId];
      match offer.target
      case OnIntent(i) =>
        if !s.intents.Has(i) || s.intents.rows[i].buyer != caller || s.intents.rows[i].status != IntentPosted then Panic
        else if LandedTotal(offer.total, offer.freight) > CeilingTotal(s.intents.rows[i]) then Panic
        else
          FormContract(s.(intents := s.intents.Put(i, s.intents.rows[i].(status := IntentContracted))), caller, now,
              offerId,
                       NewContract(s, offerId, offer, caller, offer.offerer, Some(i), None, None, arbitrator))
      case OnListing(l) =>
        if !s.listings.Has(l) || s.listings.rows[l].seller != caller || s.listings.rows[l].status != ListingActive
            then Panic
        else
          FormContract(s.(listings := s.listings.Put(l, s.listings.rows[l].(status := ListingContracted))), caller,
              now, offerId,
                       NewContract(s, offerId, offer, offer.offerer, caller, None, Some(l), s.listings.rows[l].lot,
                       arbitrator))
  }

  // ---- Fulfillment and settlement ----

  predicate HasFulfillment(s: State, contract: Id) {
    exists f :: f in s.fulfillments.keys && f in s.fulfillments.rows && s.fulfillments.rows[f].contract == contract
  }

  function SellerAttest(s: State, caller: AccountId, now: nat, contractId: Id): Outcome {
    if !s.contracts.Has(contractId) then Panic
    else
      var contract := s.contracts.rows[contractId];
      if contract.seller != caller || !(contract.status.Active? || contract.status.InFulfillment?) ||
          HasFulfillment(s, contractId) then Panic
      else
        var id := IdFor("ful-", s.counter + 1);
        Done(Emit(s.(counter := s.counter + 1,
                     fulfillments := s.fulfillments.Put(id, Fulfillment(contractId, now, SellerAttested)),
                     contracts := s.contracts.Put(contractId, contract.(status := InFulfillment))),
                  id, EvSellerAttested, caller, now), id)
  }

  function Sum(amounts: seq<nat>): nat {
    if amounts == [] then 0 else Sum(amounts[..|amounts| - 1]) + amounts[|amounts| - 1]
  }

  function UpdateReputation(parties: map<AccountId, Party>, account: AccountId, disputed: bool): Option<map<AccountId,
                            Party>> {
    if account !in parties then Some(parties)
    else
      var r := parties[account].reputation;
      if r.completed >= U32_MAX || (if disputed then r.disputed else r.onTime) >= U32_MAX then None
      else
        var r' := r.(completed := r.completed + 1,
                     disputed := if disputed then r.disputed + 1 else r.disputed,
                     onTime := if disputed then r.onTime else r.onTime + 1);
        Some(parties[account := parties[account].(reputation := Recomputed(r'))])
  }

  /** The running average, in basis points, after an n-th trade on time. */
  function OnTimeAverage(prev: nat, n: nat): nat
    requires n > 0
  {
    var weighted := prev * (n - 1);
    assert weighted >= 0;
    (weighted + 10000) / n
  }

  /** Every settlement counts as on time here. */
  function Traded(rel: Relationship, volume: nat): Relationship {
    var n := rel.trades + 1;
    Relationship(n, rel.volume + volume, OnTimeAverage(rel.onTimeRate, n),
                 DeriveTier(n, rel.volume + volume, rel.agreements != []), rel.agreements)
  }

  function RelationshipAt(rels: map<string, Relationship>, key: string): Relationship {
    if key in rels then rels[key] else NEW_RELATIONSHIP
  }

  function UpdateRelationship(s: State, key: string, volume: nat, now: nat): Option<State> {
    var rel := RelationshipAt(s.relationships, key);
    if rel.trades >= U32_MAX || rel.volume + volume > U128_MAX then None
    else Some(Emit(s.(relationships := s.relationships[key := Traded(rel, volume)]), key, EvTierUpdated, "contract",
        now))
  }

  /** The settlement itself: recorded, the lot behind it moved, the contract settled. */
  function RecordSettlement(s: State, t: Settlement, contract: Contract): Option<State> {
    var id := IdFor("set-", s.counter + 1);
    var s1 := s.(counter := s.counter + 1, settlements := s.settlements.Put(id, t));
    match (if contract.lot.Some? then TransferLot(s1, contract.lot.value, contract, t.contract, t.at) else Some(s1))
    case None => None
    case Some(s2) => Some(s2.(contracts := s2.contracts.Put(t.contract, contract.(status := Settled))))
  }

  /** The buyer's reputation, then the seller's; whoever lost a dispute is marked disputed. */
  function RatedParties(parties: map<AccountId, Party>, contract: Contract,
                        loser: Option<AccountId>): Option<map<AccountId, Party>> {
    match UpdateReputation(parties, contract.buyer, loser == Some(contract.buyer))
    case None => None
    case Some(rated) => UpdateReputation(rated, contract.seller, loser == Some(contract.seller))
  }

  function ExecuteSettlement(s: State, fulfillmentId: Id, contractId: Id, contract: Contract, deductions: seq<nat>,
                             loser: Option<AccountId>, now: nat): Outcome {
    var id := IdFor("set-", s.counter + 1);
    var net := SatSub(contract.total, Sum(deductions));
    if Sum(deductions) > U128_MAX then Panic
    else
      match RecordSettlement(s, Settlement(contractId, fulfillmentId, contract.total, net, now), contract)
      case None => Panic
      case Some(s1) =>
        match UpdateRelationship(s1, PairKey(contract.buyer, contract.seller), net, now)
        case None => Panic
        case Some(s2) =>
          match RatedParties(s2.parties, contract, loser)
          case None => Panic
          case Some(parties) =>
            Done(Emit(Emit(s2.(parties := parties), id, EvSettlementCreated, contract.buyer, now), id,
                EvEscrowReleased, "contract", now), id)
  }

  function BuyerAttest(s: State, caller: AccountId, now: nat, fulfillmentId: Id, deductions: seq<nat>): Outcome {
    if !s.fulfillments.Has(fulfillmentId) || !s.contracts.Has(s.fulfillments.rows[fulfillmentId].contract) then Panic
    else
      var f := s.fulfillments.rows[fulfillmentId];
      var contract := s.contracts.rows[f.contract];
      if contract.buyer != caller || f.status != SellerAttested then Panic
      else
        var delivered := contract.(status := Delivered);
        var s1 := Emit(s.(fulfillments := s.fulfillments.Put(fulfillmentId, f.(status := Complete)),
                          contracts := s.contracts.Put(f.contract, delivered)), fulfillmentId, EvBuyerAttested,
                          caller, now);
        ExecuteSettlement(s1, fulfillmentId, f.contract, delivered, deductions, None, now)
  }

  function WindowMs(contract: Contract): nat {
    contract.windowHours * 3_600_000
  }

  function InitiateDispute(s: State, caller: AccountId, now: nat, fulfillmentId: Id): Outcome {
    if !s.fulfillments.Has(fulfillmentId) || !s.contracts.Has(s.fulfillments.rows[fulfillmentId].contract) then Panic
    else
      var f := s.fulfillments.rows[fulfillmentId];
      var contract := s.contracts.rows[f.contract];
      if contract.buyer != caller || !(contract.status.InFulfillment? || contract.status.Delivered?) ||
          now > f.signedAt + WindowMs(contract) then Panic
      else
        Done(Emit(s.(fulfillments := s.fulfillments.Put(fulfillmentId, f.(status := DisputeOpened)),
                     contracts := s.contracts.Put(f.contract, contract.(status := Disputed))),
                  fulfillmentId, EvFulfillmentDisputed, caller, now), "")
  }

  /** Leaves the fulfillment as it is. */
  function TriggerAutoSettlement(s: State, now: nat, fulfillmentId: Id): Outcome {
    if !s.fulfillments.Has(fulfillmentId) || !s.contracts.Has(s.fulfillments.rows[fulfillmentId].contract) then Panic
    else
      var f := s.fulfillments.rows[fulfillmentId];
      var contract := s.contracts.rows[f.contract];
      if f.status != SellerAttested || now <= f.signedAt + WindowMs(contract) then Panic
      else ExecuteSettlement(s, fulfillmentId, f.contract, contract, [], None, now)
  }

  /** The first fulfillment, in insertion order, that is for the contract. */
  function FindFulfillment(keys: seq<Id>, rows: map<Id, Fulfillment>, contract: Id): Option<Id> {
    if keys == [] then None
    else if keys[0] in rows && rows[keys[0]].contract == contract then Some(keys[0])
    else FindFulfillment(keys[1..], rows, contract)
  }

  function ResolveDispute(s: State, caller: AccountId, now: nat, contractId: Id, forBuyer: bool,
                          deductions: seq<nat>): Outcome {
    if !s.contracts.Has(contractId) then Panic
    else
      var contract := s.contracts.rows[contractId];
      if !(contract.arbitrator == Some(caller) || caller == s.owner) || contract.status != Disputed then Panic
      else
        match FindFulfillment(s.fulfillments.keys, s.fulfillments.rows, contractId)
        case None => Panic
        case Some(f) =>
          match ExecuteSettlement(s, f, contractId, contract, deductions,
              Some(if forBuyer then contract.seller else contract.buyer), now)
          case Panic => Panic
          case Done(s1, _) =>
            if !s1.contracts.Has(contractId) then Panic
            else
              var resolved := s1.contracts.rows[contractId].(status := if forBuyer then ResolvedBuyer
                  else ResolvedSeller);
              Done(Emit(s1.(contracts := s1.contracts.Put(contractId, resolved)), contractId,
                        if forBuyer then EvContractResolvedBuyer else EvContractResolvedSeller, caller, now), "")
  }

  // ---- Standing agreements ----

  function ProposeAgreement(s: State, caller: AccountId, now: nat, asBuyer: bool, counterparty: AccountId): Outcome {
    if caller !in s.parties || counterparty !in s.parties then Panic
    else
      var id := IdFor("agr-", s.counter + 1);
      var a := if asBuyer then Agreement(caller, counterparty, true, false, false)
          else Agreement(counterparty, caller, false, true, false);
      Done(Emit(s.(counter := s.counter + 1, agreements := s.agreements.Put(id, a)), id, EvAgreementProposed, caller,
          now), id)
  }

  function Signed(a: Agreement, caller: AccountId): Option<Agreement> {
    var b := if a.buyer == caller then a.(buyerSigned := true) else a.(sellerSigned := true);
    if a.buyer == caller && a.buyerSigned then None
    else if a.buyer != caller && (a.seller != caller || a.sellerSigned) then None
    else Some(b.(active := a.active || (b.buyerSigned && b.sellerSigned)))
  }

  /** An activated agreement is noted on the relationship, if the two have traded before. */
  function NoteAgreement(rels: map<string, Relationship>, key: string, id: Id): map<string, Relationship> {
    if key in rels && id !in rels[key].agreements then
      var rel := rels[key].(agreements := rels[key].agreements + [id]);
      rels[key := rel.(tier := DeriveTier(rel.trades, rel.volume, true))]
    else rels
  }

  function SignAgreement(s: State, caller: AccountId, now: nat, id: Id): Outcome {
    if !s.agreements.Has(id) then Panic
    else
      match Signed(s.agreements.rows[id], caller)
      case None => Panic
      case Some(a) =>
        var s1 := if a.buyerSigned && a.sellerSigned then
                    Emit(s.(relationships := NoteAgreement(s.relationships, PairKey(a.buyer, a.seller), id)), id,
                        EvAgreementActivated, caller, now)
                  else s;
        Done(s1.(agreements := s1.agreements.Put(id, a)), "")
  }

  // ---- Runs ----

  datatype Call =
    | CallRegisterParty
    | CallAddCertification
    | CallAddKyb
    | CallUpdatePartyIdentity(gln: Option<string>, duns: Option<string>)
    | CallAuthorizeAgent(agent: AccountId)
    | CallRevokeAgent(agent: AccountId)
    | CallPostIntent(intent: Intent, finance: Option<Finance>, freight: Option<Freight>)
    | CallCancelIntent(id: Id)
    | CallPostListing(listing: Listing, finance: Option<Finance>, freight: Option<Freight>)
    | CallWithdrawListing(id: Id)
    | CallSubmitOffer(offer: Offer)
    | CallRetractOffer(id: Id)
    | CallCreateCatalogEntry
    | CallUpdateCatalogEntry(id: Id)
    | CallAnchorCoa(lot: Id, certType: string, issuer: string, docHash: string)
    | CallCreateLot(catalog: Id, total: nat, inputs: seq<InputRef>)
    | CallDisposeLot(id: Id, disposition: LotStatus)
    | CallRecordCte(kind: CteKind, lot: Id, commodity: string, amount: nat)
    | CallTransformLot(inputs: seq<InputRef>, catalog: Id, amount: nat)
    | CallAcceptOffer(id: Id, arbitrator: Option<AccountId>)
    | CallSellerAttest(id: Id)
    | CallBuyerAttest(id: Id, deductions: seq<nat>)
    | CallInitiateDispute(id: Id)
    | CallTriggerAutoSettlement(id: Id)
    | CallResolveDispute(id: Id, forBuyer: bool, deductions: seq<nat>)
    | CallProposeAgreement(asBuyer: bool, counterparty: AccountId)
    | CallSignAgreement(id: Id)
    | CallRegisterFinancePool(id: Id, account: AccountId, maxRateBps: nat, funds: nat)
    | CallConfirmFinancing(contract: Id, pool: Id)

  function Run(s: State, caller: AccountId, now: nat, call: Call): Outcome {
    match call
    case CallRegisterParty => RegisterParty(s, caller)
    case CallAddCertification => AttachToParty(s, caller)
    case CallAddKyb => AttachToParty(s, caller)
    case CallUpdatePartyIdentity(gln, duns) => UpdatePartyIdentity(s, caller, now, gln, duns)
    case CallAuthorizeAgent(agent) => AuthorizeAgent(s, caller, agent)
    case CallRevokeAgent(agent) => RevokeAgent(s, caller, agent)
    case CallPostIntent(intent, finance, freight) => PostIntent(s, caller, now, intent, finance, freight)
    case CallCancelIntent(id) => CancelIntent(s, caller, now, id)
    case CallPostListing(listing, finance, freight) => PostListing(s, caller, now, listing, finance, freight)
    case CallWithdrawListing(id) => WithdrawListing(s, caller, now, id)
    case CallSubmitOffer(offer) => SubmitOffer(s, caller, now, offer)
    case CallRetractOffer(id) => RetractOffer(s, caller, now, id)
    case CallCreateCatalogEntry => CreateCatalogEntry(s, caller, now)
    case CallUpdateCatalogEntry(id) => UpdateCatalogEntry(s, caller, now, id)
    case CallAnchorCoa(lot, certType, issuer, docHash) => AnchorCoa(s, caller, now, lot, certType, issuer, docHash)
    case CallCreateLot(catalog, total, inputs) => CreateLot(s, caller, now, catalog, total, inputs)
    case CallDisposeLot(id, disposition) => DisposeLot(s, caller, now, id, disposition)
    case CallRecordCte(kind, lot, commodity, amount) => RecordCte(s, caller, now, kind, lot, commodity, amount)
    case CallTransformLot(inputs, catalog, amount) => TransformLot(s, caller, now, inputs, catalog, amount)
    case CallAcceptOffer(id, arbitrator) => AcceptOffer(s, caller, now, id, arbitrator)
    case CallSellerAttest(id) => SellerAttest(s, caller, now, id)
    case CallBuyerAttest(id, deductions) => BuyerAttest(s, caller, now, id, deductions)
    case CallInitiateDispute(id) => InitiateDispute(s, caller, now, id)
    case CallTriggerAutoSettlement(id) => TriggerAutoSettlement(s, now, id)
    case CallResolveDispute(id, forBuyer, deductions) => ResolveDispute(s, caller, now, id, forBuyer, deductions)
    case CallProposeAgreement(asBuyer, counterparty) => ProposeAgreement(s, caller, now, asBuyer, counterparty)
    case CallSignAgreement(id) => SignAgreement(s, caller, now, id)
    case CallRegisterFinancePool(id, account, maxRateBps, funds) =>
        RegisterFinancePool(s, caller, now, id, account, maxRateBps, funds)
    case CallConfirmFinancing(contract, pool) => ConfirmFinancing(s, caller, now, contract, pool)
  }

  /** One transaction: who calls what, and when. */
  datatype Transaction = Transaction(caller: AccountId, now: nat, call: Call)

  function Initial(owner: AccountId): State {
    State(owner, 48, map[], EmptyTable(), EmptyTable(), EmptyTable(), EmptyTable(), EmptyTable(), EmptyTable(),
        EmptyTable(),
          EmptyTable(), EmptyTable(), map[], map[], EmptyTable(), map[], [], map[], 0)
  }

  function After(s: State, t: Transaction): State {
    match Run(s, t.caller, t.now, t.call)
    case Panic => s
    case Done(s', _) => s'
  }

  /**
   The state after a whole history of transactions, panicking ones included. The last transaction is two
   recursive functions away, so that a statement about histories does not by itself unfold every call.
   */
  function History(owner: AccountId, ts: seq<Transaction>): State
    decreases |ts|, 2
  {
    if ts == [] then Initial(owner) else LastOf(owner, ts)
  }

  function LastOf(owner: AccountId, ts: seq<Transaction>): State
    requires ts != []
    decreases |ts|, 1
  {
    Extended(owner, ts[..|ts| - 1], ts[|ts| - 1])
  }

  function Extended(owner: AccountId, ts: seq<Transaction>, t: Transaction): State
    decreases |ts| + 1, 0
  {
    After(History(owner, ts), t)
  }

  lemma NoHistory(owner: AccountId)
    ensures History(owner, []) == Initial(owner)
  {
  }

  lemma OneMore(owner: AccountId, ts: seq<Transaction>, t: Transaction)
    ensures History(owner, ts + [t]) == After(History(owner, ts), t)
  {
    hide After, Initial;
    var more := ts + [t];
    assert more[..|more| - 1] == ts && more[|more| - 1] == t;
    assert History(owner, more) == LastOf(owner, more);
    assert LastOf(owner, more) == Extended(owner, ts, t);
  }

  /** A history that is not empty ends in a transaction. */
  lemma LastTransaction(owner: AccountId, ts: seq<Transaction>)
    requires ts != []
    ensures History(owner, ts) == After(History(owner, ts[..|ts| - 1]), ts[|ts| - 1])
  {
    hide After;
    assert ts == ts[..|ts| - 1] + [ts[|ts| - 1]];
    OneMore(owner, ts[..|ts| - 1], ts[|ts| - 1]);
  }

  lemma ThreeMore(owner: AccountId, ts: seq<Transaction>, a: Transaction, b: Transaction, c: Transaction)
    ensures History(owner, ts + [a, b, c]) == After(After(After(History(owner, ts), a), b), c)
  {
    hide After;
    OneMore(owner, ts, a);
    OneMore(owner, ts + [a], b);
    OneMore(owner, ts + [a] + [b], c);
    assert ts + [a, b, c] == ts + [a] + [b] + [c];
  }

  lemma HistoryOfSix(owner: AccountId, a: Transaction, b: Transaction, c: Transaction, d: Transaction, e: Transaction,
                     f: Transaction)
    ensures History(owner, [a, b, c, d, e, f]) == After(After(After(After(After(After(Initial(owner), a), b), c), d),
            e), f)
  {
    hide After, Initial;
    NoHistory(owner);
    ThreeMore(owner, [], a, b, c);
    ThreeMore(owner, [] + [a, b, c], d, e, f);
    assert [a, b, c, d, e, f] == [] + [a, b, c] + [d, e, f];
  }
}
