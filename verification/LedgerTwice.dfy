/**
 Settlement by time leaves its fulfillment open, so it can be asked for again and again: when that
 succeeds, and a history in which one contract is settled twice.

 First, the general fact. A fulfillment that is overdue stays overdue after a settlement by time, and as
 long as no counter is full the next call settles its contract once more. Then the history: two parties
 register, one posts an intent, the other makes an offer and has it accepted, attests to the delivery,
 and after the dispute window anyone at all calls the timer two times. Its steps are computed call by
 call, each from the state that the one before is known to leave.
 */
module LedgerTwice {
  import opened Wrappers
  import opened LedgerTypes
  import opened LedgerSteps
  import opened LedgerViews
  import opened LedgerEffects
  import opened LedgerRecords
  import opened LedgerBooks
  import opened LedgerLifecycle
  import opened LedgerHistory

  // ---- When settlement by time succeeds ----

  predicate RoomFor(parties: map<AccountId, Party>, p: AccountId) {
    p in parties ==> parties[p].reputation.completed + 2 <= U32_MAX && parties[p].reputation.onTime + 2 <= U32_MAX
  }

  /** No counter that a settlement of the contract adds to is at its end. */
  predicate Room(s: State, c: Contract) {
    var rel := RelationshipAt(s.relationships, PairKey(c.buyer, c.seller));
    && rel.trades < U32_MAX && rel.volume + c.total <= U128_MAX
    && RoomFor(s.parties, c.buyer) && RoomFor(s.parties, c.seller)
  }

  /** A fulfillment whose dispute window is over, and that neither the buyer nor a dispute has closed. */
  predicate Overdue(s: State, f: Id, now: nat) {
    && s.fulfillments.Has(f) && s.fulfillments.rows[f].status.SellerAttested?
    && s.contracts.Has(s.fulfillments.rows[f].contract)
    && now > s.fulfillments.rows[f].signedAt + WindowMs(s.contracts.rows[s.fulfillments.rows[f].contract])
  }

  predicate OneMoreAtMost(a: Reputation, b: Reputation) {
    b.completed <= a.completed + 1 && b.onTime <= a.onTime + 1
  }

  lemma UpdatesWithRoom(parties: map<AccountId, Party>, p: AccountId)
    requires p in parties ==> parties[p].reputation.completed < U32_MAX && parties[p].reputation.onTime < U32_MAX
    ensures var r := UpdateReputation(parties, p, false);
            && r.Some? && r.value.Keys == parties.Keys
            && (forall q :: q in parties ==>
                  q in r.value &&
                  OneMoreAtMost(parties[q].reputation, r.value[q].reputation))
  {
    hide Recomputed;
    UpdateReputationKeys(parties, p, false);
    if p in parties {
      var r := parties[p].reputation;
      OnlyTheScore(r.(completed := r.completed + 1, onTime := r.onTime + 1));
    }
  }

  lemma RatedWithRoom(parties: map<AccountId, Party>, c: Contract)
    requires RoomFor(parties, c.buyer) && RoomFor(parties, c.seller)
    ensures RatedParties(parties, c, None).Some?
  {
    hide UpdateReputation;
    UpdatesWithRoom(parties, c.buyer);
    var rated := UpdateReputation(parties, c.buyer, false).value;
    assert c.seller in rated ==> c.seller in rated.Keys && c.seller in parties;
    UpdatesWithRoom(rated, c.seller);
  }

  lemma SettlesWithRoom(s: State, f: Id, of: Id, c: Contract, now: nat)
    requires InLots(s.lots, c.lot) && Room(s, c)
    ensures ExecuteSettlement(s, f, of, c, [], None, now).Done?
  {
    hide RatedParties, PairKey, RecordSettlement, IdFor, MovedLots;
    RatedWithRoom(s.parties, c);
    RecordEffect(s, Settlement(of, f, c.total, SatSub(c.total, Sum([])), now), c);
  }

  lemma OverdueRuns(s: State, f: Id, now: nat)
    requires RefsOk(s) && Overdue(s, f, now) && Room(s, s.contracts.rows[s.fulfillments.rows[f].contract])
    ensures TriggerAutoSettlement(s, now, f).Done?
  {
    hide ExecuteSettlement, Room;
    SettlesWithRoom(s, f, s.fulfillments.rows[f].contract, s.contracts.rows[s.fulfillments.rows[f].contract], now);
  }

  lemma TimerRuns(s: State, t: Transaction)
    requires t.call.CallTriggerAutoSettlement? && TriggerAutoSettlement(s, t.now, t.call.id).Done?
    ensures After(s, t) == TriggerAutoSettlement(s, t.now, t.call.id).state
  {
    hide TriggerAutoSettlement;
  }

  predicate BooksAfter(s: State, s': State, c: Contract) {
    var key := PairKey(c.buyer, c.seller);
    && s'.relationships == s.relationships[key := Traded(RelationshipAt(s.relationships, key), c.total)]
    && RatedParties(s.parties, c, None) == Some(s'.parties)
  }

  lemma InvariantOfRefs(s: State)
    requires Invariant(s)
    ensures RefsOk(s) && TablesOk(s)
  {
  }

  /** An overdue fulfillment settles, adds to its contract's settlements, and is as overdue as before. */
  lemma OverdueSettles(s: State, f: Id, caller: AccountId, now: nat)
    requires Invariant(s) && Overdue(s, f, now) && Room(s, s.contracts.rows[s.fulfillments.rows[f].contract])
    ensures var s' := After(s, Transaction(caller, now, CallTriggerAutoSettlement(f)));
            var of := s.fulfillments.rows[f].contract;
            && Overdue(s', f, now) && s'.fulfillments == s.fulfillments
            && s'.contracts == s.contracts.Put(of, s.contracts.rows[of].(status := Settled))
            && BooksAfter(s, s', s.contracts.rows[of])
            && CountOf(Trades(s'.settlements, s'.contracts), of) == CountOf(Trades(s.settlements, s.contracts), of) + 1
  {
    hide TriggerAutoSettlement, After, Trades, CountOf, Room, Settles, IdFor, RefsOk, Invariant, RatedParties, Traded,
      PairKey;
    InvariantOfRefs(s);
    var t := Transaction(caller, now, CallTriggerAutoSettlement(f));
    OverdueRuns(s, f, now);
    TimerRuns(s, t);
    TriggerAutoSettlementMakes(s, now, f);
    SettledByTime(s, After(s, t), Settling(IdFor("set-", s.counter + 1), Recorded(s, f, [], now), None, Settled));
    TimerLeavesFulfillments(s, now, f);
  }

  lemma SettledByTime(s: State, s': State, c: Change)
    requires TablesOk(s) && RefsOk(s) && c.Settling? && Applies(s, s', c)
    ensures CountOf(Trades(s'.settlements, s'.contracts), c.settlement.contract) ==
            CountOf(Trades(s.settlements, s.contracts), c.settlement.contract) + 1
  {
    hide Applies, Trades, CountOf, TablesOk, LogOk, TradeRefs;
    RefsSplit(s);
    TradesOfChange(s, s', c);
    CountAppend(Trades(s.settlements, s.contracts), TradeFor(s.contracts.rows, c.id, c.settlement),
        c.settlement.contract);
  }

  // ---- The buyer, too, can settle it again ----

  /** Attested by the seller, and neither completed nor disputed. */
  predicate Open(s: State, f: Id) {
    && s.fulfillments.Has(f) && s.fulfillments.rows[f].status.SellerAttested?
    && s.contracts.Has(s.fulfillments.rows[f].contract)
  }

  lemma BuyerRuns(s: State, f: Id, now: nat)
    requires RefsOk(s) && Open(s, f) && Room(s, s.contracts.rows[s.fulfillments.rows[f].contract])
    ensures var c := s.contracts.rows[s.fulfillments.rows[f].contract];
            var r := BuyerAttest(s, c.buyer, now, f, []);
            r.Done? && BooksAfter(s, r.state, c) && r.state.agreements == s.agreements
  {
    hide ExecuteSettlement, RatedParties, Traded, PairKey, IdFor, MovedLots, RelationshipAt, LogOk, RoomFor;
    var cid := s.fulfillments.rows[f].contract;
    var c := s.contracts.rows[cid];
    var delivered := c.(status := Delivered);
    var s1 := Emit(s.(fulfillments := s.fulfillments.Put(f, s.fulfillments.rows[f].(status := Complete)),
                      contracts := s.contracts.Put(cid, delivered)), f, EvBuyerAttested, c.buyer, now);
    SettlesWithRoom(s1, f, cid, delivered, now);
    SettlementEffect(s1, f, cid, delivered, [], None, now);
    RatedSame(s.parties, c, delivered, None);
  }

  lemma BuyerAttestRuns(s: State, t: Transaction)
    requires t.call.CallBuyerAttest? && BuyerAttest(s, t.caller, t.now, t.call.id, t.call.deductions).Done?
    ensures After(s, t) == BuyerAttest(s, t.caller, t.now, t.call.id, t.call.deductions).state
  {
    hide BuyerAttest;
  }

  /** Settled by time any number of times or not at all, an open fulfillment is still settled by its buyer. */
  lemma BuyerSettlesOpen(s: State, f: Id, now: nat)
    requires Invariant(s) && Open(s, f) && Room(s, s.contracts.rows[s.fulfillments.rows[f].contract])
    ensures var of := s.fulfillments.rows[f].contract;
            var s' := After(s, Transaction(s.contracts.rows[of].buyer, now, CallBuyerAttest(f, [])));
            && CountOf(Trades(s'.settlements, s'.contracts), of) == CountOf(Trades(s.settlements, s.contracts), of) + 1
            && s'.fulfillments == s.fulfillments.Put(f, s.fulfillments.rows[f].(status := Complete))
  {
    hide BuyerAttest, After, Trades, CountOf, Room, Settles, IdFor, RefsOk, Invariant, RatedParties, Traded, PairKey,
      BooksAfter;
    InvariantOfRefs(s);
    var buyer := s.contracts.rows[s.fulfillments.rows[f].contract].buyer;
    var t := Transaction(buyer, now, CallBuyerAttest(f, []));
    BuyerRuns(s, f, now);
    BuyerAttestRuns(s, t);
    BuyerAttestMakes(s, buyer, now, f, []);
    SettledByTime(s, After(s, t), Settling(IdFor("set-", s.counter + 1), Recorded(s, f, [], now), None, Settled));
  }

  lemma TimerLeavesFulfillments(s: State, now: nat, f: Id)
    requires RefsOk(s)
    ensures var r := TriggerAutoSettlement(s, now, f);
            r.Done? ==>
              && s.fulfillments.Has(f) && s.contracts.Has(s.fulfillments.rows[f].contract)
              && r.state.fulfillments == s.fulfillments
              && BooksAfter(s, r.state, s.contracts.rows[s.fulfillments.rows[f].contract])
              && var of := s.fulfillments.rows[f].contract;
              r.state.contracts == s.contracts.Put(of, s.contracts.rows[of].(status := Settled))
  {
    hide ExecuteSettlement, RatedParties, Traded, PairKey, IdFor, MovedLots, RelationshipAt, LogOk;
    var r := TriggerAutoSettlement(s, now, f);
    if r.Done? {
      var of := s.fulfillments.rows[f].contract;
      SettlementEffect(s, f, of, s.contracts.rows[of], [], None, now);
    }
  }

  // ---- A contract settled twice ----

  const BUYER: AccountId := "b"
  const SELLER: AccountId := "s"
  const WINDOW_OVER: nat := 48 * 3_600_000 + 1

  const INTENT := Intent(BUYER, 1000, [], 0, 0, 5, None, 0, IntentPosted)
  const OFFER := Offer(OnIntent("int-1"), SELLER, 1000, None, None, 5, OfferSubmitted)
  const FORMED := Contract(Some("int-1"), None, "off-2", BUYER, SELLER, None, 1000, None, None, 5, 48, None, Active)

  const REGISTER_BUYER := Transaction(BUYER, 0, CallRegisterParty)
  const REGISTER_SELLER := Transaction(SELLER, 0, CallRegisterParty)
  const POST := Transaction(BUYER, 0, CallPostIntent(INTENT, None, None))
  const OFFER_IT := Transaction(SELLER, 0, CallSubmitOffer(OFFER))
  const ACCEPT := Transaction(BUYER, 0, CallAcceptOffer("off-2", None))
  const ATTEST := Transaction(SELLER, 0, CallSellerAttest("ctr-3"))
  const TIMER := Transaction(BUYER, WINDOW_OVER, CallTriggerAutoSettlement("ful-4"))

  lemma Ids()
    ensures IdFor("int-", 1) == "int-1" && IdFor("off-", 2) == "off-2" && IdFor("ctr-", 3) == "ctr-3" &&
            IdFor("ful-", 4) == "ful-4"
  {
    assert Numeral(1) == "1" && Numeral(2) == "2" && Numeral(3) == "3" && Numeral(4) == "4";
  }

  /** What the history so far leaves alone: books at their start, nothing fulfilled. */
  predicate Fresh(s: State, counter: nat) {
    && s.parties == map[BUYER := Party(NEW_REPUTATION, []), SELLER := Party(NEW_REPUTATION, [])]
    && s.relationships == map[] && s.counter == counter && s.disputeWindowHours == 48
    && s.fulfillments == EmptyTable() && s.settlements == EmptyTable() && s.agreements == EmptyTable()
  }

  lemma Registered(owner: AccountId)
    ensures Fresh(After(After(Initial(owner), REGISTER_BUYER), REGISTER_SELLER), 0)
  {
    hide PostIntent, SubmitOffer, AcceptOffer, SellerAttest, TriggerAutoSettlement;
  }

  lemma Posted(s: State)
    requires Fresh(s, 0)
    ensures var s' := After(s, POST);
            Fresh(s', 1) && s'.intents.Has("int-1") && s'.intents.rows["int-1"] == INTENT
  {
    hide IdFor;
    Ids();
  }

  lemma Offered(s: State)
    requires Fresh(s, 1) && s.intents.Has("int-1") && s.intents.rows["int-1"] == INTENT
    ensures var s' := After(s, OFFER_IT);
            Fresh(s', 2) && s'.intents == s.intents && s'.offers.Has("off-2") && s'.offers.rows["off-2"] == OFFER
  {
    hide IdFor;
    Ids();
  }

  lemma Accepts(s: State)
    requires Fresh(s, 2) && s.intents.Has("int-1") && s.intents.rows["int-1"] == INTENT
    requires s.offers.Has("off-2") && s.offers.rows["off-2"] == OFFER
    ensures var s' := After(s, ACCEPT);
            Fresh(s', 3) && s'.contracts.Has("ctr-3") && s'.contracts.rows["ctr-3"] == FORMED
  {
    hide IdFor;
    Ids();
    assert LandedTotal(5, None) <= CeilingTotal(INTENT);
  }

  lemma AttestsIt(s: State)
    requires Fresh(s, 3) && s.contracts.Has("ctr-3") && s.contracts.rows["ctr-3"] == FORMED
    ensures var s' := After(s, ATTEST);
            && s'.parties == s.parties && s'.relationships == s.relationships && s'.settlements == s.settlements
            && s'.agreements == EmptyTable() && s'.counter == 4
            && s'.fulfillments.Has("ful-4") && s'.fulfillments.rows["ful-4"] == Fulfillment("ctr-3", 0, SellerAttested)
            && s'.contracts.Has("ctr-3") && s'.contracts.rows["ctr-3"] == FORMED.(status := InFulfillment)
  {
    hide IdFor;
    Ids();
  }

  lemma BeforeTheTimer(owner: AccountId) returns (s: State)
    ensures s == History(owner, [REGISTER_BUYER, REGISTER_SELLER, POST, OFFER_IT, ACCEPT, ATTEST])
    ensures Attested(s)
  {
    hide After, Initial;
    s := After(After(Initial(owner), REGISTER_BUYER), REGISTER_SELLER);
    Registered(owner);
    Posted(s);
    s := After(s, POST);
    Offered(s);
    s := After(s, OFFER_IT);
    Accepts(s);
    s := After(s, ACCEPT);
    AttestsIt(s);
    s := After(s, ATTEST);
    HistoryOfSix(owner, REGISTER_BUYER, REGISTER_SELLER, POST, OFFER_IT, ACCEPT, ATTEST);
  }

  predicate Attested(s: State) {
    && s.parties == map[BUYER := Party(NEW_REPUTATION, []), SELLER := Party(NEW_REPUTATION, [])]
    && s.relationships == map[] && s.settlements == EmptyTable() && s.agreements == EmptyTable() && s.counter == 4
    && s.fulfillments.Has("ful-4") && s.fulfillments.rows["ful-4"] == Fulfillment("ctr-3", 0, SellerAttested)
    && s.contracts.Has("ctr-3") && s.contracts.rows["ctr-3"] == FORMED.(status := InFulfillment)
  }

  lemma RoomAtFirst(s: State)
    requires Attested(s)
    ensures Overdue(s, "ful-4", WINDOW_OVER) && Room(s, s.contracts.rows["ctr-3"])
  {
    hide PairKey;
  }

  lemma NotSettledYet(s: State)
    requires Attested(s)
    ensures CountOf(Trades(s.settlements, s.contracts), "ctr-3") == 0
  {
    assert Trades(s.settlements, s.contracts) == [];
  }

  lemma RoomAfterOne(s: State, s': State)
    requires Attested(s) && BooksAfter(s, s', s.contracts.rows["ctr-3"])
    ensures Room(s', FORMED.(status := Settled))
  {
    hide PairKey, UpdateReputation, DeriveTier;
    UpdatesWithRoom(s.parties, BUYER);
    UpdatesWithRoom(UpdateReputation(s.parties, BUYER, false).value, SELLER);
  }

  /** The window over, anyone may have the contract settled by time; and then again. */
  lemma SettledTwice(owner: AccountId)
    ensures var s := History(owner, [REGISTER_BUYER, REGISTER_SELLER, POST, OFFER_IT, ACCEPT, ATTEST, TIMER, TIMER]);
            "ctr-3" in s.contracts.rows && CountOf(Trades(s.settlements, s.contracts), "ctr-3") == 2
  {
    hide After, History, Invariant, Trades, Overdue, Room;
    var ts := [REGISTER_BUYER, REGISTER_SELLER, POST, OFFER_IT, ACCEPT, ATTEST];
    var s := BeforeTheTimer(owner);
    InvariantAlways(owner, ts);
    RoomAtFirst(s);
    NotSettledYet(s);
    OverdueSettles(s, "ful-4", BUYER, WINDOW_OVER);
    InvariantKept(s, TIMER);
    var s' := After(s, TIMER);
    RoomAfterOne(s, s');
    OverdueSettles(s', "ful-4", BUYER, WINDOW_OVER);
    assert ts + [TIMER] + [TIMER] == [REGISTER_BUYER, REGISTER_SELLER, POST, OFFER_IT, ACCEPT, ATTEST, TIMER, TIMER];
    OneMore(owner, ts, TIMER);
    OneMore(owner, ts + [TIMER], TIMER);
  }
}
