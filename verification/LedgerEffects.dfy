/**
 What one transaction changes, stripped of who may call what and when: every successful call makes one
 of nine changes to the stores. The invariants of the other Ledger modules are proved change by change.

 `Change` names what was done and `Applies` relates the state before to the state after. The lemmas
 named after a call show which change it makes when it succeeds, and `CallMakes` gathers them. A
 settlement makes the same change whether the buyer, the clock or the arbitrator brought it about; what
 differs is the status it leaves behind and who lost, if anyone did.
 */
module LedgerEffects {
  import opened Wrappers
  import opened LedgerTypes
  import opened LedgerSteps
  import opened LedgerViews

  datatype Change =
    | Paperwork
    | LotMade(id: Id, lot: Lot)
    | LotDisposed(id: Id, disposition: LotStatus)
    | Tracked(id: Id, cte: Cte)
    | LotsMadeInto(inputs: seq<InputRef>, id: Id, lot: Lot, cteId: Id, cte: Cte, debited: Table<Lot>)
    | Formed(id: Id, contract: Contract)
    | Attested(id: Id, of: Id, at: nat)
    | Disputing(id: Id)
    | Settling(id: Id, settlement: Settlement, loser: Option<AccountId>, final: ContractStatus)

  // ---- The parts a change may touch ----

  /** Registered parties stay, with the reputation they had; new ones start afresh. */
  predicate PartiesKept(a: map<AccountId, Party>, b: map<AccountId, Party>) {
    && (forall p :: p in a ==> p in b && b[p].reputation == a[p].reputation)
    && (forall p :: p in b && p !in a ==> b[p].reputation == NEW_REPUTATION)
  }

  predicate Derived(r: Relationship) {
    r.tier == DeriveTier(r.trades, r.volume, r.agreements != [])
  }

  predicate RelationshipsKept(a: map<string, Relationship>, b: map<string, Relationship>) {
    && a.Keys == b.Keys
    && (forall k :: k in a ==>
          b[k].trades == a[k].trades && b[k].volume == a[k].volume &&
          b[k].onTimeRate == a[k].onTimeRate)
    && (forall k :: k in a ==> b[k] == a[k] || Derived(b[k]))
  }

  /** Rows stay, contracted ones stay contracted, and a new row belongs to a registered party. */
  predicate IntentsKept(a: map<Id, Intent>, b: map<Id, Intent>, parties: map<AccountId, Party>) {
    && (forall k :: k in a ==>
          k in b && b[k].ceiling == a[k].ceiling && b[k].quantity == a[k].quantity &&
          b[k].buyer == a[k].buyer &&
          (a[k].status.IntentContracted? ==> b[k].status.IntentContracted?))
    && (forall k :: k in b && k !in a ==> b[k].buyer in parties)
  }

  predicate ListingsKept(a: map<Id, Listing>, b: map<Id, Listing>, parties: map<AccountId, Party>, lots: Table<Lot>) {
    && (forall k :: k in a ==> k in b && b[k].seller == a[k].seller && b[k].lot == a[k].lot &&
                               (a[k].status.ListingContracted? ==> b[k].status.ListingContracted?))
    && (forall k :: k in b && k !in a ==> b[k].seller in parties && InLots(lots, b[k].lot))
  }

  predicate OffersKept(a: map<Id, Offer>, b: map<Id, Offer>, parties: map<AccountId, Party>) {
    && (forall k :: k in a ==>
          k in b && b[k].offerer == a[k].offerer &&
          (a[k].status.OfferAccepted? ==> b[k].status.OfferAccepted?))
    && (forall k :: k in b && k !in a ==> b[k].offerer in parties)
  }

  predicate PapersKept(s: State, s': State) {
    && IntentsKept(s.intents.rows, s'.intents.rows, s.parties)
    && ListingsKept(s.listings.rows, s'.listings.rows, s.parties, s.lots)
    && OffersKept(s.offers.rows, s'.offers.rows, s.parties)
    && Grew(s.intents, s'.intents, "int-", s.counter, s'.counter)
    && Grew(s.listings, s'.listings, "lst-", s.counter, s'.counter)
    && Grew(s.offers, s'.offers, "off-", s.counter, s'.counter)
  }

  /** If the audit index was right, it still is. */
  ghost predicate Logged(s: State, s': State) {
    LogOk(s.log, s.logIndex) ==> LogOk(s'.log, s'.logIndex)
  }

  predicate SameLots(s: State, s': State) {
    s'.lots == s.lots && s'.ctes == s.ctes && s'.cteIndex == s.cteIndex
  }

  predicate SameTrades(s: State, s': State) {
    s'.contracts == s.contracts && s'.fulfillments == s.fulfillments && s'.settlements == s.settlements
  }

  predicate SameBooks(s: State, s': State) {
    s'.parties == s.parties && s'.relationships == s.relationships
  }

  predicate SamePapers(s: State, s': State) {
    s'.intents == s.intents && s'.listings == s.listings && s'.offers == s.offers && s.counter <= s'.counter
  }

  // ---- The changes ----

  function MovedLots(lots: Table<Lot>, contract: Contract, contractId: Id, now: nat): Table<Lot>
    requires InLots(lots, contract.lot)
  {
    if contract.lot.None? then lots
    else lots.Put(contract.lot.value, Moved(lots.rows[contract.lot.value], contract, contractId, now))
  }

  predicate Backed(lots: Table<Lot>, c: Contract) {
    c.lot.Some? ==> c.lot.value in lots.rows && c.quantity <= lots.rows[c.lot.value].available
  }

  function DrawnLots(lots: Table<Lot>, c: Contract): Table<Lot>
    requires Backed(lots, c)
  {
    if c.lot.None? then lots else lots.Put(c.lot.value, Debited(lots.rows[c.lot.value], c.quantity))
  }

  ghost predicate Forms(s: State, s': State, id: Id, c: Contract) {
    && Logged(s, s')
    && id == IdFor("ctr-", s.counter + 1) && s.counter < s'.counter
    && Backed(s.lots, c)
    && c.status == Active
    && c.buyer in s.parties && c.seller in s.parties
    && s'.contracts == s.contracts.Put(id, c)
    && s'.lots == DrawnLots(s.lots, c)
    && s'.ctes == s.ctes && s'.cteIndex == s.cteIndex
    && s'.fulfillments == s.fulfillments && s'.settlements == s.settlements
    && SameBooks(s, s')
    && PapersKept(s, s')
    && Cites(s, s', c)
  }

  /** What a contract is formed from: open before, closed after, and within its ceiling if it is an intent. */
  predicate Cites(s: State, s': State, c: Contract) {
    && c.offer in s.offers.rows && !s.offers.rows[c.offer].status.OfferAccepted?
    && c.offer in s'.offers.rows && s'.offers.rows[c.offer].status.OfferAccepted?
    && (c.intent.Some? <==> c.listing.None?)
    && (c.intent.Some? ==>
          && c.lot.None?
          && c.intent.value in s.intents.rows && s.intents.rows[c.intent.value].status.IntentPosted?
          && c.intent.value in s'.intents.rows && s'.intents.rows[c.intent.value].status.IntentContracted?
          && LandedTotal(c.total, c.freight) <= CeilingTotal(s.intents.rows[c.intent.value]))
    && (c.listing.Some? ==>
          && c.listing.value in s.listings.rows && s.listings.rows[c.listing.value].status.ListingActive?
          && c.listing.value in s'.listings.rows && s'.listings.rows[c.listing.value].status.ListingContracted?)
  }

  ghost predicate Attests(s: State, s': State, id: Id, contract: Id, at: nat) {
    && Logged(s, s')
    && id == IdFor("ful-", s.counter + 1) && s.counter < s'.counter
    && contract in s.contracts.rows
    && (s.contracts.rows[contract].status.Active? || s.contracts.rows[contract].status.InFulfillment?)
    && (forall f :: f in s.fulfillments.rows ==> s.fulfillments.rows[f].contract != contract)
    && s'.fulfillments == s.fulfillments.Put(id, Fulfillment(contract, at, SellerAttested))
    && s'.contracts == s.contracts.Put(contract, s.contracts.rows[contract].(status := InFulfillment))
    && s'.settlements == s.settlements
    && SameLots(s, s') && SameBooks(s, s') && SamePapers(s, s')
  }

  ghost predicate Disputes(s: State, s': State, id: Id) {
    && Logged(s, s')
    && id in s.fulfillments.rows
    && var f := s.fulfillments.rows[id];
    && f.contract in s.contracts.rows
    && (s.contracts.rows[f.contract].status.InFulfillment? || s.contracts.rows[f.contract].status.Delivered?)
    && s'.fulfillments == s.fulfillments.Put(id, f.(status := DisputeOpened))
    && s'.contracts == s.contracts.Put(f.contract, s.contracts.rows[f.contract].(status := Disputed))
    && s'.settlements == s.settlements
    && SameLots(s, s') && SameBooks(s, s') && SamePapers(s, s')
  }

  /** By the buyer, who completes the fulfillment, or by time, which leaves it as it is. */
  predicate Undisputed(s: State, s': State, id: Id, f: Fulfillment, loser: Option<AccountId>, final: ContractStatus) {
    && final == Settled && loser == None && f.status == SellerAttested
    && (s'.fulfillments == s.fulfillments || s'.fulfillments == s.fulfillments.Put(id, f.(status := Complete)))
  }

  predicate Resolved(s: State, s': State, c: Contract, loser: Option<AccountId>, final: ContractStatus) {
    && c.status == Disputed && s'.fulfillments == s.fulfillments
    && ((final == ResolvedBuyer && loser == Some(c.seller)) || (final == ResolvedSeller && loser == Some(c.buyer)))
  }

  ghost predicate Settles(s: State, s': State, id: Id, t: Settlement, loser: Option<AccountId>, final: ContractStatus) {
    && Logged(s, s')
    && id == IdFor("set-", s.counter + 1) && s.counter < s'.counter
    && t.contract in s.contracts.rows && t.fulfillment in s.fulfillments.rows
    && s.fulfillments.rows[t.fulfillment].contract == t.contract
    && var c := s.contracts.rows[t.contract];
    var f := s.fulfillments.rows[t.fulfillment];
    var key := PairKey(c.buyer, c.seller);
    && InLots(s.lots, c.lot)
    && t.gross == c.total && t.net <= t.gross
    && (Undisputed(s, s', t.fulfillment, f, loser, final) || Resolved(s, s', c, loser, final))
    && s'.contracts == s.contracts.Put(t.contract, c.(status := final))
    && s'.settlements == s.settlements.Put(id, t)
    && s'.lots == MovedLots(s.lots, c, t.contract, t.at)
    && s'.ctes == s.ctes && s'.cteIndex == s.cteIndex
    && RelationshipAt(s.relationships, key).trades < U32_MAX
    && s'.relationships == s.relationships[key := Traded(RelationshipAt(s.relationships, key), t.net)]
    && RatedParties(s.parties, c, loser) == Some(s'.parties)
    && SamePapers(s, s')
  }

  ghost predicate MadeInto(s: State, s': State, inputs: seq<InputRef>, id: Id, lot: Lot, cteId: Id, cte: Cte,
                           debited: Table<Lot>) {
    && Logged(s, s')
    && id == IdFor("lot-", s.counter + 1) && cteId == IdFor("cte-", s.counter + 2) && s.counter + 2 <= s'.counter
    && inputs != []
    && DebitAll(s, cte.actor, inputs) == Some(debited)
    && lot.total == lot.available && lot.status == Available && lot.inputs == inputs && lot.provenance == [] &&
       lot.owner == lot.origin
    && cte.lot == inputs[0].lot && cte.output == Some(id)
    && s'.lots == debited.Put(id, lot)
    && s'.ctes == s.ctes.Put(cteId, cte)
    && s'.cteIndex == Indexed(IndexedAll(s.cteIndex, inputs, cteId), id, cteId)
    && SameTrades(s, s') && SameBooks(s, s') && SamePapers(s, s')
  }

  ghost predicate KeepsTrades(s: State, s': State) {
    && Logged(s, s')
    && PartiesKept(s.parties, s'.parties) && RelationshipsKept(s.relationships, s'.relationships)
    && PapersKept(s, s') && SameLots(s, s') && SameTrades(s, s')
  }

  ghost predicate MakesLot(s: State, s': State, id: Id, lot: Lot) {
    && Logged(s, s')
    && id == IdFor("lot-", s.counter + 1) && s.counter < s'.counter
    && lot.total == lot.available && lot.status == Available && lot.provenance == [] && lot.owner == lot.origin
    && s'.lots == s.lots.Put(id, lot) && s'.ctes == s.ctes && s'.cteIndex == s.cteIndex
    && SameTrades(s, s') && SameBooks(s, s') && SamePapers(s, s')
  }

  ghost predicate DisposesLot(s: State, s': State, id: Id, disposition: LotStatus) {
    && Logged(s, s')
    && id in s.lots.rows
    && (s.lots.rows[id].status.Available? || s.lots.rows[id].status.PartiallyAllocated?)
    && (disposition.Spoiled? || disposition.Donated? || disposition.Recalled?)
    && s'.lots == s.lots.Put(id, s.lots.rows[id].(status := disposition)) && s'.ctes == s.ctes &&
       s'.cteIndex == s.cteIndex
    && SameTrades(s, s') && SameBooks(s, s') && SamePapers(s, s')
  }

  ghost predicate Tracks(s: State, s': State, id: Id, cte: Cte) {
    && Logged(s, s')
    && id == IdFor("cte-", s.counter + 1) && s.counter < s'.counter
    && cte.lot in s.lots.rows && cte.output == None
    && s'.lots == s.lots && s'.ctes == s.ctes.Put(id, cte) && s'.cteIndex == Indexed(s.cteIndex, cte.lot, id)
    && SameTrades(s, s') && SameBooks(s, s') && SamePapers(s, s')
  }

  ghost predicate Applies(s: State, s': State, c: Change) {
    match c
    case Paperwork => KeepsTrades(s, s')
    case LotMade(id, lot) => MakesLot(s, s', id, lot)
    case LotDisposed(id, disposition) => DisposesLot(s, s', id, disposition)
    case Tracked(id, cte) => Tracks(s, s', id, cte)
    case LotsMadeInto(inputs, id, lot, cteId, cte, debited) => MadeInto(s, s', inputs, id, lot, cteId, cte, debited)
    case Formed(id, contract) => Forms(s, s', id, contract)
    case Attested(id, contract, at) => Attests(s, s', id, contract, at)
    case Disputing(id) => Disputes(s, s', id)
    case Settling(id, t, loser, final) => Settles(s, s', id, t, loser, final)
  }

  // ---- The audit log ----

  lemma EmitKeepsLog(s: State, entity: string, kind: EventType, actor: string, now: nat)
    requires LogOk(s.log, s.logIndex)
    ensures LogOk(Emit(s, entity, kind, actor, now).log, Emit(s, entity, kind, actor, now).logIndex)
  {
    var s' := Emit(s, entity, kind, actor, now);
    AppendLast(s.log, AuditEvent(entity, kind, actor, now));
    forall e: string ensures Entry(s'.logIndex, e) == Positions(s'.log, e) {
      assert Entry(s.logIndex, e) == Positions(s.log, e);
    }
  }

  lemma EveryEmitKeepsLog()
    ensures forall s: State, e: string, k: EventType, a: string, n: nat {:trigger Emit(s, e, k, a, n)} ::
              LogOk(s.log, s.logIndex) ==> LogOk(Emit(s, e, k, a, n).log, Emit(s, e, k, a, n).logIndex)
  {
    forall s: State, e: string, k: EventType, a: string, n: nat | LogOk(s.log, s.logIndex)
      ensures LogOk(Emit(s, e, k, a, n).log, Emit(s, e, k, a, n).logIndex)
    {
      EmitKeepsLog(s, e, k, a, n);
    }
  }

  // ---- Settlement, flattened ----

  lemma RecordEffect(s: State, t: Settlement, c: Contract)
    requires InLots(s.lots, c.lot)
    ensures var r := RecordSettlement(s, t, c);
            && r.Some? && Logged(s, r.value)
            && r.value == s.(counter := s.counter + 1,
                             settlements := s.settlements.Put(IdFor("set-", s.counter + 1), t),
                             lots := MovedLots(s.lots, c, t.contract, t.at),
                             contracts := s.contracts.Put(t.contract, c.(status := Settled)),
                             log := r.value.log, logIndex := r.value.logIndex)
  {
    hide Moved, LogOk;
    EveryEmitKeepsLog();
  }

  /** Everything a successful settlement changes but the log. */
  lemma SettlementEffect(s: State, f: Id, contractId: Id, c: Contract, deductions: seq<nat>, loser: Option<AccountId>,
                         now: nat)
    requires InLots(s.lots, c.lot)
    ensures var r := ExecuteSettlement(s, f, contractId, c, deductions, loser, now);
            r.Done? ==>
              var net := SatSub(c.total, Sum(deductions));
              var key := PairKey(c.buyer, c.seller);
              && RatedParties(s.parties, c, loser) == Some(r.state.parties) && Logged(s, r.state)
              && RelationshipAt(s.relationships, key).trades < U32_MAX
              && r.state == s.(counter := s.counter + 1,
                               settlements := s.settlements.Put(IdFor("set-", s.counter + 1),
                               Settlement(contractId, f, c.total, net, now)),
                               lots := MovedLots(s.lots, c, contractId, now),
                               contracts := s.contracts.Put(contractId, c.(status := Settled)),
                               relationships := s.relationships[key := Traded(RelationshipAt(s.relationships, key),
                               net)],
                               parties := r.state.parties, log := r.state.log, logIndex := r.state.logIndex)
  {
    hide LogOk, RecordSettlement, RatedParties, MovedLots, Traded, PairKey, IdFor, Sum, SatSub;
    EveryEmitKeepsLog();
    RecordEffect(s, Settlement(contractId, f, c.total, SatSub(c.total, Sum(deductions)), now), c);
  }

  // ---- Call by call ----

  lemma IntentStatusPut(s: State, id: Id, status: IntentStatus, later: nat)
    requires s.counter <= later && id in s.intents.rows &&
             (s.intents.rows[id].status.IntentContracted? ==> status.IntentContracted?)
    ensures var after := s.intents.Put(id, s.intents.rows[id].(status := status));
            IntentsKept(s.intents.rows, after.rows, s.parties) && Grew(s.intents, after, "int-", s.counter, later)
  {
    hide IdFor;
    PutOldGrew(s.intents, "int-", s.counter, later, id, s.intents.rows[id].(status := status));
  }

  lemma ListingStatusPut(s: State, id: Id, status: ListingStatus, later: nat)
    requires s.counter <= later && id in s.listings.rows &&
             (s.listings.rows[id].status.ListingContracted? ==> status.ListingContracted?)
    ensures var after := s.listings.Put(id, s.listings.rows[id].(status := status));
            ListingsKept(s.listings.rows, after.rows, s.parties, s.lots) &&
                Grew(s.listings, after, "lst-", s.counter, later)
  {
    hide IdFor;
    PutOldGrew(s.listings, "lst-", s.counter, later, id, s.listings.rows[id].(status := status));
  }

  lemma OfferStatusPut(s: State, id: Id, status: OfferStatus, later: nat)
    requires s.counter <= later && id in s.offers.rows &&
             (s.offers.rows[id].status.OfferAccepted? ==> status.OfferAccepted?)
    ensures var after := s.offers.Put(id, s.offers.rows[id].(status := status));
            OffersKept(s.offers.rows, after.rows, s.parties) && Grew(s.offers, after, "off-", s.counter, later)
  {
    hide IdFor;
    PutOldGrew(s.offers, "off-", s.counter, later, id, s.offers.rows[id].(status := status));
  }

  lemma IntentsAsTheyWere(s: State, later: nat)
    requires s.counter <= later
    ensures IntentsKept(s.intents.rows, s.intents.rows, s.parties) &&
            Grew(s.intents, s.intents, "int-", s.counter, later)
  {
  }

  lemma ListingsAsTheyWere(s: State, later: nat)
    requires s.counter <= later
    ensures ListingsKept(s.listings.rows, s.listings.rows, s.parties, s.lots) &&
            Grew(s.listings, s.listings, "lst-", s.counter, later)
  {
  }

  lemma OffersAsTheyWere(s: State, later: nat)
    requires s.counter <= later
    ensures OffersKept(s.offers.rows, s.offers.rows, s.parties) && Grew(s.offers, s.offers, "off-", s.counter, later)
  {
  }

  lemma PapersAsTheyWere(s: State, s': State)
    requires SamePapers(s, s')
    ensures PapersKept(s, s')
  {
  }

  lemma RegisterPartyMakes(s: State, caller: AccountId)
    ensures var r := RegisterParty(s, caller);
            r.Done? ==> KeepsTrades(s, r.state)
  {
    hide LogOk, PapersKept, IdFor;
    EveryEmitKeepsLog();
    if RegisterParty(s, caller).Done? { PapersAsTheyWere(s, RegisterParty(s, caller).state); }
  }

  lemma AttachToPartyMakes(s: State, caller: AccountId)
    ensures var r := AttachToParty(s, caller);
            r.Done? ==> KeepsTrades(s, r.state)
  {
    hide LogOk, PapersKept, IdFor;
    PapersAsTheyWere(s, s);
  }

  lemma UpdatePartyIdentityMakes(s: State, caller: AccountId, now: nat, gln: Option<string>, duns: Option<string>)
    ensures var r := UpdatePartyIdentity(s, caller, now, gln, duns);
            r.Done? ==> KeepsTrades(s, r.state)
  {
    hide LogOk, PapersKept, IdFor, HasDigits;
    EveryEmitKeepsLog();
    var r := UpdatePartyIdentity(s, caller, now, gln, duns);
    if r.Done? { PapersAsTheyWere(s, r.state); }
  }

  lemma AuthorizeAgentMakes(s: State, caller: AccountId, agent: AccountId)
    ensures var r := AuthorizeAgent(s, caller, agent);
            r.Done? ==> KeepsTrades(s, r.state)
  {
    hide LogOk, PapersKept, IdFor;
    EveryEmitKeepsLog();
    if AuthorizeAgent(s, caller, agent).Done? { PapersAsTheyWere(s, AuthorizeAgent(s, caller, agent).state); }
  }

  lemma RevokeAgentMakes(s: State, caller: AccountId, agent: AccountId)
    ensures var r := RevokeAgent(s, caller, agent);
            r.Done? ==> KeepsTrades(s, r.state)
  {
    hide LogOk, PapersKept, IdFor;
    EveryEmitKeepsLog();
    if RevokeAgent(s, caller, agent).Done? { PapersAsTheyWere(s, RevokeAgent(s, caller, agent).state); }
  }

  lemma PostIntentMakes(s: State, caller: AccountId, now: nat, terms: Intent, finance: Option<Finance>,
                        freight: Option<Freight>)
    requires TableOk(s.intents, "int-", s.counter)
    ensures var r := PostIntent(s, caller, now, terms, finance, freight);
            r.Done? ==> KeepsTrades(s, r.state)
  {
    hide LogOk, TableOk, IdFor;
    EveryEmitKeepsLog();
    NextIsNew(s.intents, "int-", s.counter, s.counter + 1);
    PutNewGrew(s.intents, "int-", s.counter, s.counter + 1,
        terms.(buyer := caller, catalog := None, status := IntentPosted));
  }

  lemma CancelIntentMakes(s: State, caller: AccountId, now: nat, id: Id)
    ensures var r := CancelIntent(s, caller, now, id);
            r.Done? ==> KeepsTrades(s, r.state)
  {
    hide LogOk, IntentsKept, ListingsKept, OffersKept, Grew, IdFor, TableOk;
    EveryEmitKeepsLog();
    if id in s.intents.rows && !s.intents.rows[id].status.IntentContracted? {
      IntentStatusPut(s, id, IntentCancelled, s.counter);
    }
    ListingsAsTheyWere(s, s.counter);
    OffersAsTheyWere(s, s.counter);
  }

  lemma PostListingMakes(s: State, caller: AccountId, now: nat, terms: Listing, finance: Option<Finance>,
                         freight: Option<Freight>)
    requires TableOk(s.listings, "lst-", s.counter)
    ensures var r := PostListing(s, caller, now, terms, finance, freight);
            r.Done? ==> KeepsTrades(s, r.state)
  {
    hide LogOk, TableOk, IdFor;
    EveryEmitKeepsLog();
    NextIsNew(s.listings, "lst-", s.counter, s.counter + 1);
    PutNewGrew(s.listings, "lst-", s.counter, s.counter + 1, terms.(seller := caller, status := ListingActive));
  }

  lemma WithdrawListingMakes(s: State, caller: AccountId, now: nat, id: Id)
    ensures var r := WithdrawListing(s, caller, now, id);
            r.Done? ==> KeepsTrades(s, r.state)
  {
    hide LogOk, IntentsKept, ListingsKept, OffersKept, Grew, IdFor, TableOk;
    EveryEmitKeepsLog();
    if id in s.listings.rows && !s.listings.rows[id].status.ListingContracted? {
      ListingStatusPut(s, id, ListingWithdrawn, s.counter);
    }
    IntentsAsTheyWere(s, s.counter);
    OffersAsTheyWere(s, s.counter);
  }

  lemma SubmitOfferMakes(s: State, caller: AccountId, now: nat, terms: Offer)
    requires TableOk(s.offers, "off-", s.counter)
    ensures var r := SubmitOffer(s, caller, now, terms);
            r.Done? ==> KeepsTrades(s, r.state)
  {
    hide LogOk, TableOk, IdFor;
    EveryEmitKeepsLog();
    NextIsNew(s.offers, "off-", s.counter, s.counter + 1);
    PutNewGrew(s.offers, "off-", s.counter, s.counter + 1, terms.(offerer := caller, status := OfferSubmitted));
  }

  lemma RetractOfferMakes(s: State, caller: AccountId, now: nat, id: Id)
    ensures var r := RetractOffer(s, caller, now, id);
            r.Done? ==> KeepsTrades(s, r.state)
  {
    hide LogOk, IntentsKept, ListingsKept, OffersKept, Grew, IdFor, TableOk;
    EveryEmitKeepsLog();
    if id in s.offers.rows && !s.offers.rows[id].status.OfferAccepted? {
      OfferStatusPut(s, id, OfferRetracted, s.counter);
    }
    IntentsAsTheyWere(s, s.counter);
    ListingsAsTheyWere(s, s.counter);
  }

  lemma CreateCatalogEntryMakes(s: State, caller: AccountId, now: nat)
    ensures var r := CreateCatalogEntry(s, caller, now);
            r.Done? ==> KeepsTrades(s, r.state)
  {
    hide LogOk, PapersKept, IdFor;
    EveryEmitKeepsLog();
    if CreateCatalogEntry(s, caller, now).Done? { PapersAsTheyWere(s, CreateCatalogEntry(s, caller, now).state); }
  }

  lemma UpdateCatalogEntryMakes(s: State, caller: AccountId, now: nat, id: Id)
    ensures var r := UpdateCatalogEntry(s, caller, now, id);
            r.Done? ==> KeepsTrades(s, r.state)
  {
    hide LogOk, PapersKept, IdFor;
    EveryEmitKeepsLog();
    if UpdateCatalogEntry(s, caller, now, id).Done? {
      PapersAsTheyWere(s, UpdateCatalogEntry(s, caller, now, id).state);
    }
  }

  lemma AnchorCoaMakes(s: State, caller: AccountId, now: nat, lot: Id, certType: string, issuer: string,
                       docHash: string)
    ensures var r := AnchorCoa(s, caller, now, lot, certType, issuer, docHash);
            r.Done? ==> KeepsTrades(s, r.state)
  {
    hide LogOk, PapersKept, IdFor, Utf8Length, Blank;
    EveryEmitKeepsLog();
    var r := AnchorCoa(s, caller, now, lot, certType, issuer, docHash);
    if r.Done? { PapersAsTheyWere(s, r.state); }
  }

  lemma RegisterFinancePoolMakes(s: State, caller: AccountId, now: nat, id: Id, account: AccountId, maxRateBps: nat,
                                 funds: nat)
    ensures var r := RegisterFinancePool(s, caller, now, id, account, maxRateBps, funds);
            r.Done? ==> KeepsTrades(s, r.state)
  {
    hide LogOk, PapersKept, IdFor;
    EveryEmitKeepsLog();
    var r := RegisterFinancePool(s, caller, now, id, account, maxRateBps, funds);
    if r.Done? { PapersAsTheyWere(s, r.state); }
  }

  lemma ConfirmFinancingMakes(s: State, caller: AccountId, now: nat, contract: Id, pool: Id)
    ensures var r := ConfirmFinancing(s, caller, now, contract, pool);
            r.Done? ==> KeepsTrades(s, r.state)
  {
    hide LogOk, PapersKept, IdFor;
    EveryEmitKeepsLog();
    if ConfirmFinancing(s, caller, now, contract, pool).Done? {
      PapersAsTheyWere(s, ConfirmFinancing(s, caller, now, contract, pool).state);
    }
  }

  lemma ProposeAgreementMakes(s: State, caller: AccountId, now: nat, asBuyer: bool, counterparty: AccountId)
    ensures var r := ProposeAgreement(s, caller, now, asBuyer, counterparty);
            r.Done? ==> KeepsTrades(s, r.state)
  {
    hide LogOk, PapersKept, IdFor;
    EveryEmitKeepsLog();
    if ProposeAgreement(s, caller, now, asBuyer, counterparty).Done? {
      PapersAsTheyWere(s, ProposeAgreement(s, caller, now, asBuyer, counterparty).state);
    }
  }

  lemma KeptAsIs(rels: map<string, Relationship>)
    ensures RelationshipsKept(rels, rels)
  {
  }

  lemma NoteAgreementKeeps(rels: map<string, Relationship>, key: string, id: Id)
    ensures RelationshipsKept(rels, NoteAgreement(rels, key, id))
  {
  }

  lemma SignAgreementMakes(s: State, caller: AccountId, now: nat, id: Id)
    ensures var r := SignAgreement(s, caller, now, id);
            r.Done? ==> KeepsTrades(s, r.state)
  {
    hide LogOk, PairKey, RelationshipsKept, NoteAgreement, DeriveTier, PapersKept;
    EveryEmitKeepsLog();
    if s.agreements.Has(id) && Signed(s.agreements.rows[id], caller).Some? {
      PapersAsTheyWere(s, SignAgreement(s, caller, now, id).state);
      var a := Signed(s.agreements.rows[id], caller).value;
      NoteAgreementKeeps(s.relationships, PairKey(a.buyer, a.seller), id);
      KeptAsIs(s.relationships);
    }
  }

  lemma CreateLotMakes(s: State, caller: AccountId, now: nat, catalog: Id, total: nat, inputs: seq<InputRef>)
    ensures var r := CreateLot(s, caller, now, catalog, total, inputs);
            r.Done? ==> MakesLot(s, r.state, IdFor("lot-", s.counter + 1),
                Lot(caller, caller, total, total, Available, catalog, inputs, []))
  {
    hide LogOk, IdFor;
    EveryEmitKeepsLog();
  }

  lemma DisposeLotMakes(s: State, caller: AccountId, now: nat, id: Id, disposition: LotStatus)
    ensures var r := DisposeLot(s, caller, now, id, disposition);
            r.Done? ==> DisposesLot(s, r.state, id, disposition)
  {
    hide LogOk;
    EveryEmitKeepsLog();
  }

  lemma RecordCteMakes(s: State, caller: AccountId, now: nat, kind: CteKind, lot: Id, commodity: string, amount: nat)
    ensures var r := RecordCte(s, caller, now, kind, lot, commodity, amount);
            r.Done? ==> Tracks(s, r.state, IdFor("cte-", s.counter + 1), Cte(kind, lot, None, caller, amount, now))
  {
    hide LogOk, IdFor, Indexed, Blank;
    EveryEmitKeepsLog();
  }

  lemma SellerAttestMakes(s: State, caller: AccountId, now: nat, id: Id)
    requires s.fulfillments.Ok()
    ensures var r := SellerAttest(s, caller, now, id);
            r.Done? ==> Attests(s, r.state, IdFor("ful-", s.counter + 1), id, now)
  {
    hide LogOk, IdFor;
    EveryEmitKeepsLog();
  }

  lemma InitiateDisputeMakes(s: State, caller: AccountId, now: nat, id: Id)
    ensures var r := InitiateDispute(s, caller, now, id);
            r.Done? ==> Disputes(s, r.state, id)
  {
    hide LogOk;
    EveryEmitKeepsLog();
  }

  // ---- Accepting an offer ----

  lemma AllocateEffect(s: State, c: Contract)
    requires c.lot.Some?
    ensures var r := AllocateLot(s, c.lot.value, c.quantity);
            r.Some? ==> Backed(s.lots, c) && r.value == s.(lots := DrawnLots(s.lots, c))
  {
    hide Debited;
  }

  lemma FormContractEffect(s: State, caller: AccountId, now: nat, offerId: Id, c: Contract)
    requires s.offers.Has(offerId)
    ensures var r := FormContract(s, caller, now, offerId, c);
            r.Done? ==>
              && Backed(s.lots, c) && Logged(s, r.state)
              && r.state == s.(counter := s.counter + 1,
                               offers := s.offers.Put(offerId, s.offers.rows[offerId].(status := OfferAccepted)),
                               lots := DrawnLots(s.lots, c),
                               contracts := s.contracts.Put(IdFor("ctr-", s.counter + 1), c),
                               log := r.state.log, logIndex := r.state.logIndex)
  {
    hide AllocateLot, LogOk, IdFor;
    EveryEmitKeepsLog();
    if c.lot.Some? {
      AllocateEffect(s.(counter := s.counter + 1, offers := s.offers.Put(offerId,
          s.offers.rows[offerId].(status := OfferAccepted))), c);
    }
  }

  /** The contract that accepting an offer forms. */
  function Accepted(s: State, caller: AccountId, offerId: Id, arbitrator: Option<AccountId>): Contract
    requires s.offers.Has(offerId)
    requires s.offers.rows[offerId].target.OnListing? ==> s.listings.Has(s.offers.rows[offerId].target.listing)
  {
    var offer := s.offers.rows[offerId];
    match offer.target
    case OnIntent(i) => NewContract(s, offerId, offer, caller, offer.offerer, Some(i), None, None, arbitrator)
    case OnListing(l) => NewContract(s, offerId, offer, offer.offerer, caller, None, Some(l), s.listings.rows[l].lot,
        arbitrator)
  }

  lemma AcceptOnIntentMakes(s: State, caller: AccountId, now: nat, offerId: Id, arbitrator: Option<AccountId>)
    requires RefsOk(s) && s.offers.Has(offerId) && s.offers.rows[offerId].target.OnIntent?
    ensures var r := AcceptOffer(s, caller, now, offerId, arbitrator);
            r.Done? ==> Forms(s, r.state, IdFor("ctr-", s.counter + 1), Accepted(s, caller, offerId, arbitrator))
  {
    hide LogOk, IdFor, FormContract, LandedTotal, CeilingTotal, OffersKept, IntentsKept, ListingsKept, Grew;
    EveryEmitKeepsLog();
    var r := AcceptOffer(s, caller, now, offerId, arbitrator);
    if r.Done? {
      var i := s.offers.rows[offerId].target.intent;
      var s1 := s.(intents := s.intents.Put(i, s.intents.rows[i].(status := IntentContracted)));
      FormContractEffect(s1, caller, now, offerId, Accepted(s, caller, offerId, arbitrator));
      OfferStatusPut(s, offerId, OfferAccepted, r.state.counter);
      IntentStatusPut(s, i, IntentContracted, r.state.counter);
      ListingsAsTheyWere(s, r.state.counter);
    }
  }

  lemma AcceptOnListingMakes(s: State, caller: AccountId, now: nat, offerId: Id, arbitrator: Option<AccountId>)
    requires RefsOk(s) && s.offers.Has(offerId) && s.offers.rows[offerId].target.OnListing?
    ensures var r := AcceptOffer(s, caller, now, offerId, arbitrator);
            r.Done? ==> s.listings.Has(s.offers.rows[offerId].target.listing) &&
                        Forms(s, r.state, IdFor("ctr-", s.counter + 1), Accepted(s, caller, offerId, arbitrator))
  {
    hide LogOk, IdFor, FormContract, LandedTotal, CeilingTotal, OffersKept, IntentsKept, ListingsKept, Grew;
    EveryEmitKeepsLog();
    var r := AcceptOffer(s, caller, now, offerId, arbitrator);
    if r.Done? {
      var l := s.offers.rows[offerId].target.listing;
      var s1 := s.(listings := s.listings.Put(l, s.listings.rows[l].(status := ListingContracted)));
      FormContractEffect(s1, caller, now, offerId, Accepted(s, caller, offerId, arbitrator));
      OfferStatusPut(s, offerId, OfferAccepted, r.state.counter);
      ListingStatusPut(s, l, ListingContracted, r.state.counter);
      IntentsAsTheyWere(s, r.state.counter);
    }
  }

  // ---- Transforming lots ----

  lemma MakeOutputEffect(s: State, caller: AccountId, now: nat, output: Lot)
    ensures var r := MakeOutput(s, caller, now, output);
            && Logged(s, r)
            && r == s.(counter := s.counter + 1, lots := s.lots.Put(IdFor("lot-", s.counter + 1), output),
               log := r.log, logIndex := r.logIndex)
  {
    hide LogOk, IdFor;
    EveryEmitKeepsLog();
  }

  lemma NoteTransformEffect(s: State, caller: AccountId, now: nat, output: Id, inputs: seq<InputRef>, amount: nat)
    requires inputs != []
    ensures var r := NoteTransform(s, caller, now, output, inputs, amount);
            var id := IdFor("cte-", s.counter + 1);
            && Logged(s, r)
            && r == s.(counter := s.counter + 1,
                       ctes := s.ctes.Put(id, Cte(Transforming, inputs[0].lot, Some(output), caller, amount, now)),
                       cteIndex := Indexed(IndexedAll(s.cteIndex, inputs, id), output, id),
                       log := r.log, logIndex := r.logIndex)
  {
    hide LogOk, IdFor, Indexed, IndexedAll;
    EveryEmitKeepsLog();
  }

  lemma LoggedTwice(s: State, debited: State, made: State, end: State)
    requires debited.log == s.log && debited.logIndex == s.logIndex && Logged(debited, made) && Logged(made, end)
    ensures Logged(s, end)
  {
  }

  lemma TransformLotMakes(s: State, caller: AccountId, now: nat, inputs: seq<InputRef>, catalog: Id, amount: nat)
    ensures var r := TransformLot(s, caller, now, inputs, catalog, amount);
            r.Done? ==>
              var lotId, cteId := IdFor("lot-", s.counter + 1), IdFor("cte-", s.counter + 2);
              && inputs != [] && DebitAll(s, caller, inputs).Some?
              && MadeInto(s, r.state, inputs, lotId, Lot(caller, caller, amount, amount, Available, catalog, inputs,
                 []),
                          cteId, Cte(Transforming, inputs[0].lot, Some(lotId), caller, amount, now),
                          DebitAll(s, caller, inputs).value)
  {
    hide LogOk, Logged, IdFor, DebitAll, IndexedAll, Indexed, MakeOutput, NoteTransform;
    var r := TransformLot(s, caller, now, inputs, catalog, amount);
    if r.Done? {
      var output := Lot(caller, caller, amount, amount, Available, catalog, inputs, []);
      var debited := s.(lots := DebitAll(s, caller, inputs).value);
      MakeOutputEffect(debited, caller, now, output);
      NoteTransformEffect(MakeOutput(debited, caller, now, output), caller, now, IdFor("lot-", s.counter + 1), inputs,
          amount);
      LoggedTwice(s, debited, MakeOutput(debited, caller, now, output), r.state);
    }
  }

  // ---- Settling ----

  lemma PutTwice<T>(t: Table<T>, k: Id, v: T, w: T)
    requires k in t.rows
    ensures t.Put(k, v).Put(k, w) == t.Put(k, w)
  {
    assert t.rows[k := v][k := w] == t.rows[k := w];
  }

  /** The settlement a call records, if it records one. */
  function Recorded(s: State, fulfillment: Id, deductions: seq<nat>, now: nat): Settlement
    requires fulfillment in s.fulfillments.rows && s.fulfillments.rows[fulfillment].contract in s.contracts.rows
  {
    var c := s.contracts.rows[s.fulfillments.rows[fulfillment].contract];
    Settlement(s.fulfillments.rows[fulfillment].contract, fulfillment, c.total, SatSub(c.total, Sum(deductions)), now)
  }

  lemma BuyerAttestMakes(s: State, caller: AccountId, now: nat, f: Id, deductions: seq<nat>)
    requires RefsOk(s)
    ensures var r := BuyerAttest(s, caller, now, f, deductions);
            r.Done? ==> s.fulfillments.Has(f) && s.contracts.Has(s.fulfillments.rows[f].contract) &&
                        Settles(s, r.state, IdFor("set-", s.counter + 1), Recorded(s, f, deductions, now), None,
                        Settled) &&
                        r.state.fulfillments == s.fulfillments.Put(f, s.fulfillments.rows[f].(status := Complete))
  {
    hide LogOk, IdFor, ExecuteSettlement, RatedParties, Traded, PairKey, Sum;
    EveryEmitKeepsLog();
    var r := BuyerAttest(s, caller, now, f, deductions);
    if r.Done? {
      var cid := s.fulfillments.rows[f].contract;
      var c := s.contracts.rows[cid];
      var delivered := c.(status := Delivered);
      var s1 := Emit(s.(fulfillments := s.fulfillments.Put(f, s.fulfillments.rows[f].(status := Complete)),
                        contracts := s.contracts.Put(cid, delivered)), f, EvBuyerAttested, caller, now);
      SettlementEffect(s1, f, cid, delivered, deductions, None, now);
      PutTwice(s.contracts, cid, delivered, c.(status := Settled));
      RatedSame(s.parties, c, delivered, None);
      MovedSame(s.lots, c, delivered, cid, now);
    }
  }

  lemma RatedSame(parties: map<AccountId, Party>, c: Contract, d: Contract, loser: Option<AccountId>)
    requires c.buyer == d.buyer && c.seller == d.seller
    ensures RatedParties(parties, c, loser) == RatedParties(parties, d, loser)
  {
  }

  lemma MovedSame(lots: Table<Lot>, c: Contract, d: Contract, id: Id, now: nat)
    requires InLots(lots, c.lot) && SameTerms(c, d)
    ensures MovedLots(lots, c, id, now) == MovedLots(lots, d, id, now)
  {
  }

  lemma TriggerAutoSettlementMakes(s: State, now: nat, f: Id)
    requires RefsOk(s)
    ensures var r := TriggerAutoSettlement(s, now, f);
            r.Done? ==> s.fulfillments.Has(f) && s.contracts.Has(s.fulfillments.rows[f].contract) &&
                        Settles(s, r.state, IdFor("set-", s.counter + 1), Recorded(s, f, [], now), None, Settled)
  {
    hide LogOk, IdFor, ExecuteSettlement, RatedParties, Traded, PairKey, Sum, MovedLots;
    EveryEmitKeepsLog();
    if s.fulfillments.Has(f) && s.contracts.Has(s.fulfillments.rows[f].contract) {
      var cid := s.fulfillments.rows[f].contract;
      SettlementEffect(s, f, cid, s.contracts.rows[cid], [], None, now);
    }
  }

  lemma {:induction false} FoundFulfillment(keys: seq<Id>, rows: map<Id, Fulfillment>, contract: Id)
    ensures var r := FindFulfillment(keys, rows, contract);
            && (r.Some? ==> r.value in keys && r.value in rows && rows[r.value].contract == contract)
            && (r.None? ==> forall k :: k in keys && k in rows ==> rows[k].contract != contract)
  {
    if keys != [] && !(keys[0] in rows && rows[keys[0]].contract == contract) {
      FoundFulfillment(keys[1..], rows, contract);
      assert keys == [keys[0]] + keys[1..];
    }
  }

  lemma ResolveDisputeMakes(s: State, caller: AccountId, now: nat, cid: Id, forBuyer: bool, deductions: seq<nat>)
    requires RefsOk(s)
    ensures var r := ResolveDispute(s, caller, now, cid, forBuyer, deductions);
            r.Done? ==>
              var f := FindFulfillment(s.fulfillments.keys, s.fulfillments.rows, cid);
              && cid in s.contracts.rows && f.Some? && f.value in s.fulfillments.rows &&
                 s.fulfillments.rows[f.value].contract == cid
              && var c := s.contracts.rows[cid];
              Settles(s, r.state, IdFor("set-", s.counter + 1), Recorded(s, f.value, deductions, now),
                      Some(if forBuyer then c.seller else c.buyer), if forBuyer then ResolvedBuyer else ResolvedSeller)
  {
    hide LogOk, IdFor, ExecuteSettlement, RatedParties, Traded, PairKey, Sum, MovedLots, FindFulfillment;
    EveryEmitKeepsLog();
    var r := ResolveDispute(s, caller, now, cid, forBuyer, deductions);
    if r.Done? {
      FoundFulfillment(s.fulfillments.keys, s.fulfillments.rows, cid);
      var f := FindFulfillment(s.fulfillments.keys, s.fulfillments.rows, cid).value;
      var c := s.contracts.rows[cid];
      SettlementEffect(s, f, cid, c, deductions, Some(if forBuyer then c.seller else c.buyer), now);
      PutTwice(s.contracts, cid, c.(status := Settled),
          c.(status := if forBuyer then ResolvedBuyer else ResolvedSeller));
    }
  }

  // ---- Every call makes one of the changes ----

  predicate BringsSettlement(call: Call) {
    call.CallBuyerAttest? || call.CallTriggerAutoSettlement? || call.CallResolveDispute?
  }

  /** The lot behind the listing that an offer is for. */
  function LotAskedFor(s: State, offer: Id): Option<Id> {
    if !s.offers.Has(offer) || s.offers.rows[offer].target.OnIntent? ||
        !s.listings.Has(s.offers.rows[offer].target.listing) then None
    else s.listings.rows[s.offers.rows[offer].target.listing].lot
  }

  /** The contract that a call would settle. */
  function ContractToSettle(s: State, call: Call): Option<Id> {
    match call
    case CallBuyerAttest(f, _) => if s.fulfillments.Has(f) then Some(s.fulfillments.rows[f].contract) else None
    case CallTriggerAutoSettlement(f) => if s.fulfillments.Has(f) then Some(s.fulfillments.rows[f].contract) else None
    case CallResolveDispute(c, _, _) => Some(c)
    case _ => None
  }

  /** Which call a change comes from, and what it takes from it. */
  predicate ComesFrom(s: State, call: Call, c: Change) {
    match c
    case Formed(_, k) => call.CallAcceptOffer? && k.lot == LotAskedFor(s, call.id)
    case LotsMadeInto(inputs, _, _, _, _, _) => call.CallTransformLot? && inputs == call.inputs
    case Settling(_, t, _, _) => BringsSettlement(call) && ContractToSettle(s, call) == Some(t.contract)
    case _ => !call.CallAcceptOffer? && !call.CallTransformLot? && !BringsSettlement(call)
  }

  lemma CallMakes(s: State, t: Transaction) returns (c: Change)
    requires TablesOk(s) && RefsOk(s)
    ensures Run(s, t.caller, t.now, t.call).Done? ==> Applies(s, After(s, t), c)
    ensures Run(s, t.caller, t.now, t.call).Done? ==> ComesFrom(s, t.call, c)
    ensures t.call.CallTriggerAutoSettlement? || !c.Settling? || c.final != Settled ||
            Run(s, t.caller, t.now, t.call).Panic? || Completes(s, After(s, t), c)
  {
    hide RegisterParty, AttachToParty, UpdatePartyIdentity, UpdateCatalogEntry, AnchorCoa, RegisterFinancePool,
      ConfirmFinancing, AuthorizeAgent, RevokeAgent, PostIntent, CancelIntent, PostListing, WithdrawListing,
      SubmitOffer, RetractOffer, CreateCatalogEntry, CreateLot, DisposeLot, RecordCte, TransformLot, AcceptOffer,
      SellerAttest, BuyerAttest, InitiateDispute, TriggerAutoSettlement, ResolveDispute, ProposeAgreement,
      SignAgreement;
    hide KeepsTrades, MakesLot, DisposesLot, Tracks, MadeInto, Forms, Attests, Disputes, Settles, RefsOk, IdFor,
      Accepted, Recorded, DebitAll, FindFulfillment;
    var caller, now := t.caller, t.now;
    match t.call
    case CallRegisterParty => RegisterPartyMakes(s, caller); c := Paperwork;
    case CallAddCertification => AttachToPartyMakes(s, caller); c := Paperwork;
    case CallAddKyb => AttachToPartyMakes(s, caller); c := Paperwork;
    case CallUpdatePartyIdentity(gln, duns) => UpdatePartyIdentityMakes(s, caller, now, gln, duns); c := Paperwork;
    case CallAuthorizeAgent(agent) => AuthorizeAgentMakes(s, caller, agent); c := Paperwork;
    case CallRevokeAgent(agent) => RevokeAgentMakes(s, caller, agent); c := Paperwork;
    case CallPostIntent(intent, finance, freight) => PostIntentMakes(s, caller, now, intent, finance, freight);
        c := Paperwork;
    case CallCancelIntent(id) => CancelIntentMakes(s, caller, now, id); c := Paperwork;
    case CallPostListing(listing, finance, freight) => PostListingMakes(s, caller, now, listing, finance, freight);
        c := Paperwork;
    case CallWithdrawListing(id) => WithdrawListingMakes(s, caller, now, id); c := Paperwork;
    case CallSubmitOffer(offer) => SubmitOfferMakes(s, caller, now, offer); c := Paperwork;
    case CallRetractOffer(id) => RetractOfferMakes(s, caller, now, id); c := Paperwork;
    case CallCreateCatalogEntry => CreateCatalogEntryMakes(s, caller, now); c := Paperwork;
    case CallUpdateCatalogEntry(id) => UpdateCatalogEntryMakes(s, caller, now, id); c := Paperwork;
    case CallAnchorCoa(lot, certType, issuer, docHash) =>
        AnchorCoaMakes(s, caller, now, lot, certType, issuer, docHash); c := Paperwork;
    case CallCreateLot(catalog, total, inputs) =>
      CreateLotMakes(s, caller, now, catalog, total, inputs);
      c := LotMade(IdFor("lot-", s.counter + 1), Lot(caller, caller, total, total, Available, catalog, inputs, []));
    case CallDisposeLot(id, disposition) => DisposeLotMakes(s, caller, now, id, disposition);
        c := LotDisposed(id, disposition);
    case CallRecordCte(kind, lot, commodity, amount) =>
      RecordCteMakes(s, caller, now, kind, lot, commodity, amount);
      c := Tracked(IdFor("cte-", s.counter + 1), Cte(kind, lot, None, caller, amount, now));
    case CallTransformLot(inputs, catalog, amount) => c := TransformCallMakes(s, t);
    case CallAcceptOffer(id, arbitrator) => c := AcceptCallMakes(s, t);
    case CallSellerAttest(id) => SellerAttestMakes(s, caller, now, id);
        c := Attested(IdFor("ful-", s.counter + 1), id, now);
    case CallBuyerAttest(id, deductions) => c := SettlingCallMakes(s, t);
    case CallInitiateDispute(id) => InitiateDisputeMakes(s, caller, now, id); c := Disputing(id);
    case CallTriggerAutoSettlement(id) => c := SettlingCallMakes(s, t);
    case CallResolveDispute(id, forBuyer, deductions) => c := SettlingCallMakes(s, t);
    case CallProposeAgreement(asBuyer, counterparty) => ProposeAgreementMakes(s, caller, now, asBuyer, counterparty);
        c := Paperwork;
    case CallSignAgreement(id) => SignAgreementMakes(s, caller, now, id); c := Paperwork;
    case CallRegisterFinancePool(id, account, maxRateBps, funds) =>
      RegisterFinancePoolMakes(s, caller, now, id, account, maxRateBps, funds);
      c := Paperwork;
    case CallConfirmFinancing(contract, pool) => ConfirmFinancingMakes(s, caller, now, contract, pool); c := Paperwork;
  }

  predicate Completes(s: State, s': State, c: Change)
    requires c.Settling?
  {
    && c.settlement.fulfillment in s'.fulfillments.rows
    && s'.fulfillments.rows[c.settlement.fulfillment].status == Complete
  }

  lemma TransformCallMakes(s: State, t: Transaction) returns (c: Change)
    requires t.call.CallTransformLot?
    ensures Run(s, t.caller, t.now, t.call).Done? ==> Applies(s, After(s, t), c)
    ensures Run(s, t.caller, t.now, t.call).Done? ==> ComesFrom(s, t.call, c)
    ensures !c.Settling?
  {
    hide TransformLot, MadeInto, DebitAll, IdFor;
    c := Paperwork;
    TransformLotMakes(s, t.caller, t.now, t.call.inputs, t.call.catalog, t.call.amount);
    if Run(s, t.caller, t.now, t.call).Done? {
      var lotId, cteId := IdFor("lot-", s.counter + 1), IdFor("cte-", s.counter + 2);
      c := LotsMadeInto(t.call.inputs, lotId, Lot(t.caller, t.caller, t.call.amount, t.call.amount, Available,
          t.call.catalog, t.call.inputs, []),
                        cteId, Cte(Transforming, t.call.inputs[0].lot, Some(lotId), t.caller, t.call.amount, t.now),
                        DebitAll(s, t.caller, t.call.inputs).value);
    }
  }

  lemma LotOfAccepted(s: State, caller: AccountId, offerId: Id, arbitrator: Option<AccountId>)
    requires s.offers.Has(offerId)
    requires s.offers.rows[offerId].target.OnListing? ==> s.listings.Has(s.offers.rows[offerId].target.listing)
    ensures Accepted(s, caller, offerId, arbitrator).lot == LotAskedFor(s, offerId)
  {
  }

  lemma AcceptCallMakes(s: State, t: Transaction) returns (c: Change)
    requires RefsOk(s) && t.call.CallAcceptOffer?
    ensures Run(s, t.caller, t.now, t.call).Done? ==> Applies(s, After(s, t), c)
    ensures Run(s, t.caller, t.now, t.call).Done? ==> ComesFrom(s, t.call, c)
    ensures !c.Settling?
  {
    hide RefsOk, Forms, IdFor, Accepted, FormContract;
    c := Paperwork;
    var id := t.call.id;
    if Run(s, t.caller, t.now, t.call).Done? {
      if s.offers.rows[id].target.OnIntent? {
        AcceptOnIntentMakes(s, t.caller, t.now, id, t.call.arbitrator);
      } else {
        AcceptOnListingMakes(s, t.caller, t.now, id, t.call.arbitrator);
      }
      c := Formed(IdFor("ctr-", s.counter + 1), Accepted(s, t.caller, id, t.call.arbitrator));
      assert c.contract.lot == LotAskedFor(s, id) by { LotOfAccepted(s, t.caller, id, t.call.arbitrator); }
    }
  }

  lemma SettlingCallMakes(s: State, t: Transaction) returns (c: Change)
    requires RefsOk(s) && BringsSettlement(t.call)
    ensures Run(s, t.caller, t.now, t.call).Done? ==> ComesFrom(s, t.call, c)
    ensures Run(s, t.caller, t.now, t.call).Done? ==> Applies(s, After(s, t), c)
    ensures t.call.CallTriggerAutoSettlement? || !c.Settling? || c.final != Settled ||
            Run(s, t.caller, t.now, t.call).Panic? || Completes(s, After(s, t), c)
  {
    hide RefsOk, Settles, IdFor, Recorded, BuyerAttest, TriggerAutoSettlement, ResolveDispute, FindFulfillment;
    c := Paperwork;
    if Run(s, t.caller, t.now, t.call).Done? {
      match t.call
      case CallBuyerAttest(f, deductions) =>
        BuyerAttestMakes(s, t.caller, t.now, f, deductions);
        c := Settling(IdFor("set-", s.counter + 1), Recorded(s, f, deductions, t.now), None, Settled);
        FulfillmentOf(s, f, deductions, t.now);
      case CallTriggerAutoSettlement(f) =>
        TriggerAutoSettlementMakes(s, t.now, f);
        c := Settling(IdFor("set-", s.counter + 1), Recorded(s, f, [], t.now), None, Settled);
        FulfillmentOf(s, f, [], t.now);
      case CallResolveDispute(cid, forBuyer, deductions) =>
        ResolveDisputeMakes(s, t.caller, t.now, cid, forBuyer, deductions);
        var k := s.contracts.rows[cid];
        var f := FindFulfillment(s.fulfillments.keys, s.fulfillments.rows, cid).value;
        FulfillmentOf(s, f, deductions, t.now);
        c := Settling(IdFor("set-", s.counter + 1), Recorded(s, f, deductions, t.now),
                      Some(if forBuyer then k.seller else k.buyer), if forBuyer then ResolvedBuyer else ResolvedSeller);
    }
  }

  lemma FulfillmentOf(s: State, f: Id, deductions: seq<nat>, now: nat)
    requires f in s.fulfillments.rows && s.fulfillments.rows[f].contract in s.contracts.rows
    ensures Recorded(s, f, deductions, now).fulfillment == f
    ensures Recorded(s, f, deductions, now).contract == s.fulfillments.rows[f].contract
  {
  }
}
