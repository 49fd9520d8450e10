/**
 Standing agreements. An agreement is active once both have signed, and what it is for is the tier of the two
 parties' relationship; but the relationship is touched by the activating signature only if it exists already,
 and later trades look at nothing but the agreements it has been given. So an active agreement counts exactly
 if the pair had a relationship in the state in which that signature was made (`AgreementCountsIff`), and an
 agreement signed before the first trade of the pair never counts (`SignedButNotCounted` has a run). The proof
 goes over all calls: each either leaves agreements alone, or is one of the two that make and sign them, or
 settles and so rewrites a relationship without its list of agreements changing.
 */
module LedgerAgreements {
  import opened Wrappers
  import opened LedgerTypes
  import opened LedgerSteps
  import opened LedgerViews
  import opened LedgerEffects
  import opened LedgerHistory
  import opened LedgerTwice

  /** The agreements that count towards the tier of the two accounts. */
  function Noted(rels: map<string, Relationship>, key: string): seq<Id> {
    RelationshipAt(rels, key).agreements
  }

  function KeyOf(a: Agreement): string {
    PairKey(a.buyer, a.seller)
  }

  /** Active means signed by both, and only active agreements are noted, on their own pair. */
  ghost predicate AgreementsOk(s: State) {
    && TableOk(s.agreements, "agr-", s.counter)
    && (forall id :: id in s.agreements.rows ==>
          (s.agreements.rows[id].active <==> s.agreements.rows[id].buyerSigned && s.agreements.rows[id].sellerSigned))
    && (forall key, id :: id in Noted(s.relationships, key) ==>
          id in s.agreements.rows && s.agreements.rows[id].active && KeyOf(s.agreements.rows[id]) == key)
  }

  predicate ActiveIn(s: State, id: Id) {
    s.agreements.Has(id) && s.agreements.rows[id].active
  }

  /** Nothing is noted or forgotten, though pairs may have come to trade. */
  ghost predicate SameNotes(a: map<string, Relationship>, b: map<string, Relationship>) {
    && (forall key :: key in a ==> key in b)
    && (forall key: string :: Noted(b, key) == Noted(a, key))
  }

  ghost predicate AgreementsAside(s: State, s': State) {
    s'.agreements == s.agreements && s.counter <= s'.counter && SameNotes(s.relationships, s'.relationships)
  }

  /** Parties and activity stay; what is active already is neither noted nor forgotten. */
  ghost predicate AgreementsMove(s: State, s': State) {
    && (forall id :: id in s.agreements.rows ==>
          id in s'.agreements.rows &&
          KeyOf(s'.agreements.rows[id]) == KeyOf(s.agreements.rows[id]))
    && (forall id :: ActiveIn(s, id) ==> ActiveIn(s', id))
    && (forall key, id :: ActiveIn(s, id) ==> (id in Noted(s'.relationships, key) <==>
       id in Noted(s.relationships, key)))
  }

  // ---- Calls that leave agreements alone ----

  lemma SameNotesAsIs(rels: map<string, Relationship>)
    ensures SameNotes(rels, rels)
  {
  }

  lemma TradingKeepsNotes(rels: map<string, Relationship>, key: string, net: nat)
    ensures SameNotes(rels, rels[key := Traded(RelationshipAt(rels, key), net)])
  {
    hide OnTimeAverage, DeriveTier;
  }

  lemma SettlingLeavesAgreements(s: State, t: Transaction)
    requires RefsOk(s) && BringsSettlement(t.call)
    ensures AgreementsAside(s, After(s, t))
  {
    hide ExecuteSettlement, SameNotes, RefsOk, FindFulfillment, Emit, PairKey, Traded;
    SameNotesAsIs(s.relationships);
    if Run(s, t.caller, t.now, t.call).Done? {
      match t.call
      case CallBuyerAttest(f, deductions) => BuyerSettles(s, t.caller, t.now, f, deductions);
      case CallTriggerAutoSettlement(f) => SettlementAside(s, f, s.fulfillments.rows[f].contract, [], None, t.now);
      case CallResolveDispute(id, forBuyer, deductions) =>
          ArbitratorSettles(s, t.caller, t.now, id, forBuyer, deductions);
    }
  }

  lemma ArbitratorSettles(s: State, caller: AccountId, now: nat, id: Id, forBuyer: bool, deductions: seq<nat>)
    requires RefsOk(s)
    ensures var r := ResolveDispute(s, caller, now, id, forBuyer, deductions);
            r.Done? ==> AgreementsAside(s, r.state)
  {
    hide ExecuteSettlement, SameNotes, RefsOk, FindFulfillment;
    if ResolveDispute(s, caller, now, id, forBuyer, deductions).Done? {
      var f := FindFulfillment(s.fulfillments.keys, s.fulfillments.rows, id).value;
      var c := s.contracts.rows[id];
      SettlementAside(s, f, id, deductions, Some(if forBuyer then c.seller else c.buyer), now);
    }
  }

  lemma SettlementAside(s: State, f: Id, id: Id, deductions: seq<nat>, loser: Option<AccountId>, now: nat)
    requires RefsOk(s) && id in s.contracts.rows
    ensures var r := ExecuteSettlement(s, f, id, s.contracts.rows[id], deductions, loser, now);
            r.Done? ==> AgreementsAside(s, r.state)
  {
    hide ExecuteSettlement, SameNotes, PairKey, Traded, RatedParties, RelationshipAt, Sum;
    var c := s.contracts.rows[id];
    SettlementEffect(s, f, id, c, deductions, loser, now);
    TradingKeepsNotes(s.relationships, PairKey(c.buyer, c.seller), SatSub(c.total, Sum(deductions)));
  }

  lemma BuyerSettles(s: State, caller: AccountId, now: nat, f: Id, deductions: seq<nat>)
    requires RefsOk(s)
    ensures var r := BuyerAttest(s, caller, now, f, deductions);
            r.Done? ==> AgreementsAside(s, r.state)
  {
    hide ExecuteSettlement, SameNotes, PairKey, Traded, RatedParties, RelationshipAt, Sum;
    var r := BuyerAttest(s, caller, now, f, deductions);
    if r.Done? {
      var cid := s.fulfillments.rows[f].contract;
      var delivered := s.contracts.rows[cid].(status := Delivered);
      var s1 := Emit(s.(fulfillments := s.fulfillments.Put(f, s.fulfillments.rows[f].(status := Complete)),
                        contracts := s.contracts.Put(cid, delivered)), f, EvBuyerAttested, caller, now);
      SettlementEffect(s1, f, cid, delivered, deductions, None, now);
      TradingKeepsNotes(s.relationships, PairKey(delivered.buyer, delivered.seller),
          SatSub(delivered.total, Sum(deductions)));
    }
  }

  predicate Untouched(s: State, s': State) {
    s'.agreements == s.agreements && s'.relationships == s.relationships && s.counter <= s'.counter
  }

  lemma EveryEmitLeavesThem()
    ensures forall s: State, e: string, k: EventType, a: string, n: nat {:trigger Emit(s, e, k, a, n)} ::
            Untouched(s, Emit(s, e, k, a, n))
  {
  }

  lemma TransformLeavesAgreements(s: State, caller: AccountId, now: nat, inputs: seq<InputRef>, catalog: Id,
                                  amount: nat)
    ensures var r := TransformLot(s, caller, now, inputs, catalog, amount);
            r.Done? ==> Untouched(s, r.state)
  {
    hide IdFor, DebitAll, Indexed, IndexedAll;
  }

  lemma FormingLeavesAgreements(s: State, caller: AccountId, now: nat, offerId: Id, c: Contract)
    requires s.offers.Has(offerId)
    ensures var r := FormContract(s, caller, now, offerId, c);
            r.Done? ==> Untouched(s, r.state)
  {
    hide FormContract, DrawnLots, IdFor;
    FormContractEffect(s, caller, now, offerId, c);
  }

  lemma AcceptingLeavesAgreements(s: State, caller: AccountId, now: nat, offerId: Id, arbitrator: Option<AccountId>)
    ensures var r := AcceptOffer(s, caller, now, offerId, arbitrator);
            r.Done? ==> Untouched(s, r.state)
  {
    hide FormContract, LandedTotal, CeilingTotal;
    if AcceptOffer(s, caller, now, offerId, arbitrator).Done? {
      match s.offers.rows[offerId].target
      case OnIntent(i) =>
        FormingLeavesAgreements(s.(intents := s.intents.Put(i, s.intents.rows[i].(status := IntentContracted))),
            caller, now, offerId,
                                Accepted(s, caller, offerId, arbitrator));
      case OnListing(l) =>
        FormingLeavesAgreements(s.(listings := s.listings.Put(l, s.listings.rows[l].(status := ListingContracted))),
            caller, now, offerId,
                                Accepted(s, caller, offerId, arbitrator));
    }
  }

  predicate OnPaper(call: Call) {
    || call.CallPostIntent? || call.CallCancelIntent? || call.CallPostListing? || call.CallWithdrawListing?
  }

  predicate OnDeal(call: Call) {
    call.CallSubmitOffer? || call.CallRetractOffer? || call.CallSellerAttest? || call.CallInitiateDispute?
  }

  lemma PaperLeavesAgreements(s: State, t: Transaction)
    requires OnPaper(t.call)
    ensures Untouched(s, After(s, t))
  {
    hide AcceptOffer, TransformLot, BuyerAttest, TriggerAutoSettlement, ResolveDispute, ProposeAgreement,
      SignAgreement, IdFor, MayActFor, Emit, HasFulfillment, ValidFinance, ValidFreight, CreateLot, DisposeLot,
      RecordCte, UpdateCatalogEntry, AnchorCoa, RegisterFinancePool, ConfirmFinancing, CreateCatalogEntry,
      AuthorizeAgent, RevokeAgent, RegisterParty, UpdatePartyIdentity, SubmitOffer, RetractOffer, SellerAttest,
      InitiateDispute;
    EveryEmitLeavesThem();
  }

  lemma DealLeavesAgreements(s: State, t: Transaction)
    requires OnDeal(t.call)
    ensures Untouched(s, After(s, t))
  {
    hide AcceptOffer, TransformLot, BuyerAttest, TriggerAutoSettlement, ResolveDispute, ProposeAgreement,
      SignAgreement, IdFor, MayActFor, Emit, HasFulfillment, ValidFinance, ValidFreight, CreateLot, DisposeLot,
      RecordCte, UpdateCatalogEntry, AnchorCoa, RegisterFinancePool, ConfirmFinancing, CreateCatalogEntry,
      AuthorizeAgent, RevokeAgent, RegisterParty, UpdatePartyIdentity, PostIntent, CancelIntent, PostListing,
      WithdrawListing;
    EveryEmitLeavesThem();
  }

  predicate OnGoods(call: Call) {
    || call.CallCreateCatalogEntry? || call.CallUpdateCatalogEntry? || call.CallAnchorCoa? || call.CallCreateLot? ||
       call.CallDisposeLot?
    || call.CallRecordCte? || call.CallRegisterFinancePool? || call.CallConfirmFinancing?
  }

  lemma GoodsLeaveAgreements(s: State, t: Transaction)
    requires OnGoods(t.call)
    ensures Untouched(s, After(s, t))
  {
    hide AcceptOffer, TransformLot, BuyerAttest, TriggerAutoSettlement, ResolveDispute, ProposeAgreement,
      SignAgreement, IdFor, MayActFor, Emit, Blank, Utf8Length, Indexed, PoolFinanced, PostIntent, CancelIntent,
      PostListing, WithdrawListing, SubmitOffer, RetractOffer, SellerAttest, InitiateDispute, AuthorizeAgent,
      RevokeAgent, RegisterParty, UpdatePartyIdentity;
    EveryEmitLeavesThem();
  }

  predicate OnParty(call: Call) {
    || call.CallRegisterParty? || call.CallAddCertification? || call.CallAddKyb? || call.CallUpdatePartyIdentity?
    || call.CallAuthorizeAgent? || call.CallRevokeAgent?
  }

  lemma PartyLeavesAgreements(s: State, t: Transaction)
    requires OnParty(t.call)
    ensures Untouched(s, After(s, t))
  {
    hide AcceptOffer, TransformLot, BuyerAttest, TriggerAutoSettlement, ResolveDispute, ProposeAgreement,
      SignAgreement, IdFor, MayActFor, Emit, HasDigits, PostIntent, CancelIntent, PostListing, WithdrawListing,
      SubmitOffer, RetractOffer, SellerAttest, InitiateDispute, CreateLot, DisposeLot, RecordCte, UpdateCatalogEntry,
      AnchorCoa, RegisterFinancePool, ConfirmFinancing, CreateCatalogEntry;
    EveryEmitLeavesThem();
  }

  /** Every other call but the two on agreements touches neither agreements nor relationships. */
  lemma OthersLeaveAgreements(s: State, t: Transaction)
    requires !BringsSettlement(t.call) && !t.call.CallProposeAgreement? && !t.call.CallSignAgreement?
    ensures Untouched(s, After(s, t))
  {
    if OnPaper(t.call) { PaperLeavesAgreements(s, t); }
    else if OnDeal(t.call) { DealLeavesAgreements(s, t); }
    else if OnGoods(t.call) { GoodsLeaveAgreements(s, t); }
    else if OnParty(t.call) { PartyLeavesAgreements(s, t); }
    else {
      hide AcceptOffer, TransformLot;
      match t.call
      case CallAcceptOffer(id, arbitrator) => AcceptingLeavesAgreements(s, t.caller, t.now, id, arbitrator);
      case CallTransformLot(inputs, catalog, amount) =>
          TransformLeavesAgreements(s, t.caller, t.now, inputs, catalog, amount);
    }
  }

  // ---- What one transaction does to agreements ----

  lemma AsideKeepsOk(s: State, s': State)
    requires AgreementsOk(s) && AgreementsAside(s, s')
    ensures AgreementsOk(s') && AgreementsMove(s, s')
  {
    hide TableOk, KeyOf, Noted;
    TableLater(s.agreements, "agr-", s.counter, s'.counter);
  }

  lemma ProposingKeepsOk(s: State, caller: AccountId, now: nat, asBuyer: bool, counterparty: AccountId)
    requires AgreementsOk(s)
    ensures var r := ProposeAgreement(s, caller, now, asBuyer, counterparty);
            r.Done? ==> AgreementsOk(r.state) && AgreementsMove(s, r.state) && forall id :: ActiveIn(r.state, id) ==>
                ActiveIn(s, id)
  {
    hide TableOk, KeyOf, Noted, IdFor;
    var a := if asBuyer then Agreement(caller, counterparty, true, false, false)
        else Agreement(counterparty, caller, false, true, false);
    PutNew(s.agreements, s.counter, a);
  }

  lemma PutNew(t: Table<Agreement>, counter: nat, a: Agreement)
    requires TableOk(t, "agr-", counter)
    ensures TableOk(t.Put(IdFor("agr-", counter + 1), a), "agr-", counter + 1)
    ensures IdFor("agr-", counter + 1) !in t.rows
  {
    hide TableOk, IdFor, Grew;
    NextIsNew(t, "agr-", counter, counter + 1);
    PutNewGrew(t, "agr-", counter, counter + 1, a);
    GrewOk(t, t.Put(IdFor("agr-", counter + 1), a), "agr-", counter, counter + 1);
  }

  lemma PutOld(t: Table<Agreement>, counter: nat, id: Id, a: Agreement)
    requires TableOk(t, "agr-", counter) && id in t.rows
    ensures TableOk(t.Put(id, a), "agr-", counter)
  {
    hide TableOk, Grew;
    PutOldGrew(t, "agr-", counter, counter, id, a);
    GrewOk(t, t.Put(id, a), "agr-", counter, counter);
  }

  lemma SignedIs(a: Agreement, caller: AccountId)
    requires a.active <==> a.buyerSigned && a.sellerSigned
    ensures var r := Signed(a, caller);
            r.Some? ==>
              !a.active && KeyOf(r.value) == KeyOf(a) &&
              (r.value.active <==> r.value.buyerSigned && r.value.sellerSigned)
  {
    hide PairKey;
  }

  lemma NotingAdds(rels: map<string, Relationship>, key: string, id: Id)
    ensures var after := NoteAgreement(rels, key, id);
            && (forall k: string, i: Id :: k != key || i != id ==> (i in Noted(after, k) <==> i in Noted(rels, k)))
            && (id !in Noted(rels, key) ==> (id in Noted(after, key) <==> key in rels))
  {
    hide DeriveTier;
  }

  lemma SigningKeepsOk(s: State, caller: AccountId, now: nat, id: Id)
    requires AgreementsOk(s)
    ensures var r := SignAgreement(s, caller, now, id);
            r.Done? ==>
              && s.agreements.Has(id) && !ActiveIn(s, id)
              && AgreementsOk(r.state) && AgreementsMove(s, r.state)
              && (forall i :: i != id ==> (ActiveIn(r.state, i) <==> ActiveIn(s, i)))
              && (ActiveIn(r.state, id) ==>
                    (id in Noted(r.state.relationships, KeyOf(s.agreements.rows[id])) <==>
                    KeyOf(s.agreements.rows[id]) in s.relationships))
  {
    hide TableOk, Noted, NoteAgreement, PairKey, Emit, Signed;
    EveryEmitLeavesNotes();
    var r := SignAgreement(s, caller, now, id);
    if r.Done? {
      var a := Signed(s.agreements.rows[id], caller).value;
      SignedIs(s.agreements.rows[id], caller);
      PutOld(s.agreements, s.counter, id, a);
      NotingAdds(s.relationships, KeyOf(a), id);
    }
  }

  lemma EveryEmitLeavesNotes()
    ensures forall s: State, e: string, k: EventType, a: string, n: nat {:trigger Emit(s, e, k, a, n)} ::
              var r := Emit(s, e, k, a, n);
              r.agreements == s.agreements && r.relationships == s.relationships && r.counter == s.counter
  {
  }

  /**
   One transaction keeps agreements in order, and activates one only by its second signature, noting it if the
   pair has traded.
   */
  lemma AgreementsKept(s: State, t: Transaction)
    requires AgreementsOk(s) && RefsOk(s)
    ensures AgreementsOk(After(s, t)) && AgreementsMove(s, After(s, t))
    ensures forall id :: ActiveIn(After(s, t), id) && !ActiveIn(s, id) ==>
                           && t.call == CallSignAgreement(id) && s.agreements.Has(id)
                           && (id in Noted(After(s, t).relationships, KeyOf(s.agreements.rows[id])) <==>
                               KeyOf(s.agreements.rows[id]) in s.relationships)
  {
    hide AgreementsMove, Noted, KeyOf, AgreementsOk, RefsOk, SameNotes, ProposeAgreement, SignAgreement, After;
    RunsOf(s, t);
    NothingMoves(s);
    match t.call
    case CallProposeAgreement(asBuyer, counterparty) => ProposingKeepsOk(s, t.caller, t.now, asBuyer, counterparty);
    case CallSignAgreement(id) => SigningKeepsOk(s, t.caller, t.now, id);
    case _ =>
      if BringsSettlement(t.call) { SettlingLeavesAgreements(s, t); } else {
        OthersLeaveAgreements(s, t);
        SameNotesAsIs(s.relationships);
      }
      AsideKeepsOk(s, After(s, t));
  }

  lemma NothingMoves(s: State)
    requires AgreementsOk(s)
    ensures AgreementsMove(s, s)
  {
  }

  lemma RunsOf(s: State, t: Transaction)
    ensures t.call.CallProposeAgreement? ==>
              After(s, t) == match ProposeAgreement(s, t.caller, t.now, t.call.asBuyer,
              t.call.counterparty) { case Panic => s case Done(s', _) => s' }
    ensures t.call.CallSignAgreement? ==>
              After(s, t) == match SignAgreement(s, t.caller, t.now, t.call.id) { case Panic => s case Done(s', _) =>
              s' }
  {
    hide ProposeAgreement, SignAgreement;
  }

  // ---- Over whole histories ----

  lemma {:induction false} AgreementsAlways(owner: AccountId, ts: seq<Transaction>)
    ensures AgreementsOk(History(owner, ts))
  {
    hide AgreementsOk, Invariant, After, RefsOk;
    if ts == [] {
      NoHistory(owner);
      AgreementsAtFirst(owner);
    } else {
      var before := ts[..|ts| - 1];
      AgreementsAlways(owner, before);
      InvariantAlways(owner, before);
      InvariantOfRefs(History(owner, before));
      LastTransaction(owner, ts);
      AgreementsKept(History(owner, before), ts[|ts| - 1]);
    }
  }

  lemma AgreementsAtFirst(owner: AccountId)
    ensures AgreementsOk(Initial(owner))
  {
  }

  lemma OneMoreStep(owner: AccountId, ts: seq<Transaction>, t: Transaction)
    ensures var s, s' := History(owner, ts), History(owner, ts + [t]);
            && AgreementsMove(s, s')
            && forall id :: ActiveIn(s', id) && !ActiveIn(s, id) ==>
                              && t.call == CallSignAgreement(id) && s.agreements.Has(id)
                              && (id in Noted(s'.relationships, KeyOf(s.agreements.rows[id])) <==>
                                  KeyOf(s.agreements.rows[id]) in s.relationships)
  {
    hide AgreementsOk, AgreementsMove, Invariant, After, RefsOk, History, Noted, KeyOf;
    AgreementsAlways(owner, ts);
    InvariantAlways(owner, ts);
    InvariantOfRefs(History(owner, ts));
    OneMore(owner, ts, t);
    AgreementsKept(History(owner, ts), t);
  }

  /** The k-th transaction of the history makes the agreement active. */
  predicate ActivatedAt(owner: AccountId, ts: seq<Transaction>, k: nat, id: Id)
    requires k < |ts|
  {
    !ActiveIn(History(owner, ts[..k]), id) && ActiveIn(History(owner, ts[..k + 1]), id)
  }

  /** Once active, an agreement stays active and is between the same two, and whether it is noted no longer changes. */
  lemma {:induction false} ActiveStays(owner: AccountId, ts: seq<Transaction>, k: nat, id: Id)
    requires k <= |ts| && ActiveIn(History(owner, ts[..k]), id)
    ensures ActiveIn(History(owner, ts), id)
    ensures var s, s' := History(owner, ts[..k]), History(owner, ts);
            var key := KeyOf(s.agreements.rows[id]);
            KeyOf(s'.agreements.rows[id]) == key && (id in Noted(s'.relationships, key) <==>
                id in Noted(s.relationships, key))
    decreases |ts|
  {
    hide History, Noted, KeyOf;
    if k == |ts| {
      assert ts[..k] == ts;
    } else {
      var before := ts[..|ts| - 1];
      assert before[..k] == ts[..k] && ts == before + [ts[|ts| - 1]];
      ActiveStays(owner, before, k, id);
      OneMoreStep(owner, before, ts[|ts| - 1]);
    }
  }

  lemma {:induction false} ActivationFound(owner: AccountId, ts: seq<Transaction>, id: Id) returns (k: nat)
    requires ActiveIn(History(owner, ts), id)
    ensures k < |ts| && ActivatedAt(owner, ts, k, id)
    decreases |ts|
  {
    hide History, ActiveIn;
    if ts == [] { NeverAtFirst(owner, id); }
    var before := ts[..|ts| - 1];
    assert ts[..|ts|] == ts;
    if ActiveIn(History(owner, before), id) {
      k := ActivationFound(owner, before, id);
      assert before[..k] == ts[..k] && before[..k + 1] == ts[..k + 1];
    } else {
      k := |ts| - 1;
    }
  }

  lemma NeverAtFirst(owner: AccountId, id: Id)
    ensures !ActiveIn(History(owner, []), id)
  {
  }

  /**
   After every history, an active agreement was made active by one transaction, a signature of it, and it counts
   towards its pair's tier exactly if the two had traded before that signature.
   */
  lemma AgreementCountsIff(owner: AccountId, ts: seq<Transaction>, id: Id)
    requires ActiveIn(History(owner, ts), id)
    ensures exists k: nat :: k < |ts| && ActivatedAt(owner, ts, k, id)
    ensures forall k: nat :: k < |ts| && ActivatedAt(owner, ts, k, id) ==>
              var key := KeyOf(History(owner, ts).agreements.rows[id]);
              && ts[k].call == CallSignAgreement(id)
              && (id in Noted(History(owner, ts).relationships, key) <==> key in History(owner, ts[..k]).relationships)
  {
    hide History, Noted, KeyOf, ActivatedAt;
    var k0 := ActivationFound(owner, ts, id);
    forall k: nat | k < |ts| && ActivatedAt(owner, ts, k, id)
      ensures ts[k].call == CallSignAgreement(id)
      ensures id in Noted(History(owner, ts).relationships, KeyOf(History(owner, ts).agreements.rows[id])) <==>
              KeyOf(History(owner, ts).agreements.rows[id]) in History(owner, ts[..k]).relationships
    {
      CountsFromActivation(owner, ts, k, id);
    }
  }

  lemma CountsFromActivation(owner: AccountId, ts: seq<Transaction>, k: nat, id: Id)
    requires k < |ts| && ActivatedAt(owner, ts, k, id)
    ensures ActiveIn(History(owner, ts), id) && ts[k].call == CallSignAgreement(id)
    ensures var key := KeyOf(History(owner, ts).agreements.rows[id]);
            id in Noted(History(owner, ts).relationships, key) <==> key in History(owner, ts[..k]).relationships
  {
    hide History, Noted, KeyOf, AgreementsMove;
    assert ts[..k + 1] == ts[..k] + [ts[k]];
    OneMoreStep(owner, ts[..k], ts[k]);
    KeyStays(owner, ts[..k], ts[k], id);
    ActiveStays(owner, ts, k + 1, id);
  }

  lemma KeyStays(owner: AccountId, ts: seq<Transaction>, t: Transaction, id: Id)
    requires History(owner, ts).agreements.Has(id)
    ensures History(owner, ts + [t]).agreements.Has(id)
    ensures KeyOf(History(owner, ts + [t]).agreements.rows[id]) == KeyOf(History(owner, ts).agreements.rows[id])
  {
    hide History, KeyOf, Noted;
    OneMoreStep(owner, ts, t);
  }

  // ---- An active agreement that does not count ----

  const PROPOSE := Transaction(BUYER, 0, CallProposeAgreement(true, SELLER))
  const SIGN := Transaction(SELLER, 0, CallSignAgreement("agr-5"))
  const RECEIVE := Transaction(BUYER, 0, CallBuyerAttest("ful-4", []))

  const PROPOSED := Agreement(BUYER, SELLER, true, false, false)
  const SIGNED := Agreement(BUYER, SELLER, true, true, true)

  predicate Awaiting(s: State, counter: nat) {
    && s.parties == map[BUYER := Party(NEW_REPUTATION, []), SELLER := Party(NEW_REPUTATION, [])]
    && s.relationships == map[] && s.counter == counter
    && s.fulfillments.Has("ful-4") && s.fulfillments.rows["ful-4"] == Fulfillment("ctr-3", 0, SellerAttested)
    && s.contracts.Has("ctr-3") && s.contracts.rows["ctr-3"] == FORMED.(status := InFulfillment)
  }

  lemma Proposed(s: State)
    requires Awaiting(s, 4) && s.agreements == EmptyTable()
    ensures var s' := After(s, PROPOSE);
            Awaiting(s', 5) && s'.agreements == Table(["agr-5"], map["agr-5" := PROPOSED])
  {
    hide IdFor;
    IdOfFifth();
  }

  lemma IdOfFifth()
    ensures IdFor("agr-", 5) == "agr-5"
  {
    assert Numeral(5) == "5";
  }

  lemma ActiveNow(s: State)
    requires Awaiting(s, 5) && s.agreements == Table(["agr-5"], map["agr-5" := PROPOSED])
    ensures var s' := After(s, SIGN);
            Awaiting(s', 5) && s'.agreements == Table(["agr-5"], map["agr-5" := SIGNED])
  {
    hide PairKey;
    assert map["agr-5" := PROPOSED]["agr-5" := SIGNED] == map["agr-5" := SIGNED];
  }

  /**
   An agreement is signed by both, then the pair trades for the first time, and its tier is the one without the
   agreement.
   */
  lemma SignedButNotCounted(owner: AccountId)
    ensures var s := History(owner, [REGISTER_BUYER, REGISTER_SELLER, POST, OFFER_IT, ACCEPT, ATTEST, PROPOSE, SIGN,
            RECEIVE]);
            var key := PairKey(BUYER, SELLER);
            && ActiveIn(s, "agr-5") && KeyOf(s.agreements.rows["agr-5"]) == key
            && key in s.relationships && s.relationships[key].trades == 1 && s.relationships[key].tier == New
            && DeriveTier(1, s.relationships[key].volume, true) == Preferred
  {
    hide After, RefsOk, History, PairKey, Traded;
    var s := SignedFirst(owner);
    FirstTradeOf(s);
    FirstTrade();
  }

  lemma SignedFirst(owner: AccountId) returns (s: State)
    ensures Awaiting(s, 5) && s.agreements == Table(["agr-5"], map["agr-5" := SIGNED]) && RefsOk(s)
    ensures History(owner, [REGISTER_BUYER, REGISTER_SELLER, POST, OFFER_IT, ACCEPT, ATTEST, PROPOSE, SIGN,
            RECEIVE]) == After(s, RECEIVE)
  {
    hide After, Invariant, RefsOk, History;
    var six := [REGISTER_BUYER, REGISTER_SELLER, POST, OFFER_IT, ACCEPT, ATTEST];
    s := BeforeTheTimer(owner);
    Proposed(s);
    s := After(s, PROPOSE);
    ActiveNow(s);
    s := After(s, SIGN);
    ThreeMore(owner, six, PROPOSE, SIGN, RECEIVE);
    OneMore(owner, six, PROPOSE);
    OneMore(owner, six + [PROPOSE], SIGN);
    InvariantAlways(owner, six + [PROPOSE] + [SIGN]);
    InvariantOfRefs(s);
    assert six + [PROPOSE, SIGN, RECEIVE] == [REGISTER_BUYER, REGISTER_SELLER, POST, OFFER_IT, ACCEPT, ATTEST,
        PROPOSE, SIGN, RECEIVE];
  }

  lemma FirstTradeOf(s: State)
    requires Awaiting(s, 5) && RefsOk(s)
    ensures var s' := After(s, RECEIVE);
            s'.agreements == s.agreements && s'.relationships ==
                map[PairKey(BUYER, SELLER) := Traded(NEW_RELATIONSHIP, 5)]
  {
    hide After, RefsOk, PairKey, Traded, RatedParties, Room;
    RoomWhenAwaiting(s);
    BuyerRuns(s, "ful-4", 0);
    BuyerAttestRuns(s, RECEIVE);
  }

  lemma FirstTrade()
    ensures var r := Traded(NEW_RELATIONSHIP, 5);
            r.trades == 1 && r.volume == 5 && r.tier == New && DeriveTier(1, 5, true) == Preferred
  {
  }

  lemma RoomWhenAwaiting(s: State)
    requires Awaiting(s, 5)
    ensures Room(s, s.contracts.rows["ctr-3"])
  {
    hide PairKey;
  }
}
