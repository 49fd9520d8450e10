/**
 Lots that are disposed of while contracts or transforms have drawn on them. The documentation of `dispose_lot`
 asks for a lot without active allocations; the code asks for a lot that is Available or PartiallyAllocated. So
 an allocated lot is disposed of exactly when the caller may act for its owner, the disposition is one of the
 three and the lot is partially allocated (`AllocatedIsDisposedIff`). And a disposition does not last: it is
 overwritten exactly by a successful transaction that draws on the lot for a contract, debits it in a transform
 or settles a contract it backs (`DispositionIsLostIff`); `DisposedAndUsedUp` is a run in which a spoiled lot is
 used up afterwards.
 */
module LedgerDisposal {
  import opened Wrappers
  import opened LedgerTypes
  import opened LedgerSteps
  import opened LedgerViews
  import opened LedgerEffects
  import opened LedgerRecords
  import opened LedgerLots
  import opened LedgerHistory

  predicate Disposed(status: LotStatus) {
    status.Spoiled? || status.Donated? || status.Recalled?
  }

  /** What contracts draw on a lot and transforms take from it. */
  function Allocated(s: State, l: Id): nat {
    Drawn(Draws(s.contracts), l) + Transformed(Trackings(s.ctes, s.lots), l)
  }

  // ---- When an allocated lot is disposed of ----

  /**
   After every history: a lot that something has been allocated from is disposed of exactly while it is
   partially allocated.
   */
  lemma AllocatedIsDisposedIff(owner: AccountId, ts: seq<Transaction>, caller: AccountId, now: nat, l: Id,
                               disposition: LotStatus)
    requires l in History(owner, ts).lots.rows && Allocated(History(owner, ts), l) > 0
    ensures var s := History(owner, ts);
            DisposeLot(s, caller, now, l, disposition).Done? <==>
            MayActFor(s.parties, s.lots.rows[l].owner, caller) && Disposed(disposition) &&
            s.lots.rows[l].status.PartiallyAllocated?
  {
    hide History, Draws, Trackings, Drawn, Transformed, MayActFor, Emit;
    LotsAreConserved(owner, ts, l);
  }

  // ---- When a disposition is lost ----

  /** The call forms a contract on the lot, transforms some of it, or settles a contract that it backs. */
  predicate DrawsOn(s: State, call: Call, l: Id) {
    match call
    case CallAcceptOffer(offer, _) => LotAskedFor(s, offer) == Some(l)
    case CallTransformLot(inputs, _, _) => Touched(inputs, l)
    case _ =>
      var settled := ContractToSettle(s, call);
      settled.Some? && s.contracts.Has(settled.value) && s.contracts.rows[settled.value].lot == Some(l)
  }

  predicate Overwrites(s: State, c: Change, l: Id) {
    match c
    case LotsMadeInto(inputs, _, _, _, _, _) => Touched(inputs, l)
    case Formed(_, k) => k.lot == Some(l)
    case Settling(_, t, _, _) => t.contract in s.contracts.rows && s.contracts.rows[t.contract].lot == Some(l)
    case _ => false
  }

  lemma OverwrittenByChange(s: State, s': State, c: Change, l: Id)
    requires TableOk(s.lots, "lot-", s.counter) && Applies(s, s', c) && l in s.lots.rows &&
             Disposed(s.lots.rows[l].status)
    ensures l in s'.lots.rows
    ensures if Overwrites(s, c, l) then !Disposed(s'.lots.rows[l].status)
            else s'.lots.rows[l].status == s.lots.rows[l].status
  {
    hide TableOk, Applies, DebitedRow;
    LotsOfChange(s, s', c);
    match c
    case LotDisposed(id, _) => NotDisposedBefore(s, s', c);
    case LotsMadeInto(inputs, id, lot, _, _, debited) =>
      assert l in debited.rows by { assert l in debited.rows.Keys; }
      RowAfterDebit(s.lots.rows[l], debited.rows[l], inputs, l);
    case _ =>
  }

  lemma NotDisposedBefore(s: State, s': State, c: Change)
    requires Applies(s, s', c) && c.LotDisposed?
    ensures c.id in s.lots.rows && !Disposed(s.lots.rows[c.id].status)
  {
  }

  lemma RowAfterDebit(a: Lot, b: Lot, inputs: seq<InputRef>, l: Id)
    requires DebitedRow(a, b, inputs, l)
    ensures if Touched(inputs, l) then !Disposed(b.status) else b.status == a.status
  {
  }

  lemma OverwrittenByCall(s: State, t: Transaction, l: Id)
    requires TablesOk(s) && RefsOk(s) && Run(s, t.caller, t.now, t.call).Done?
    requires l in s.lots.rows && Disposed(s.lots.rows[l].status)
    ensures l in After(s, t).lots.rows
    ensures if DrawsOn(s, t.call, l) then !Disposed(After(s, t).lots.rows[l].status)
            else After(s, t).lots.rows[l].status == s.lots.rows[l].status
  {
    hide Run, RefsOk, TableOk, Touched, Disposed, Applies;
    var c := CallMakes(s, t);
    OverwrittenByChange(s, After(s, t), c, l);
  }

  /**
   After every history: the next transaction overwrites a lot's disposition exactly if it succeeds and forms a
   contract on the lot, transforms some of it, or settles a contract that it backs.
   */
  lemma DispositionIsLostIff(owner: AccountId, ts: seq<Transaction>, t: Transaction, l: Id)
    requires l in History(owner, ts).lots.rows && Disposed(History(owner, ts).lots.rows[l].status)
    ensures l in History(owner, ts + [t]).lots.rows
    ensures var s, s' := History(owner, ts), History(owner, ts + [t]);
            && (s'.lots.rows[l].status != s.lots.rows[l].status <==>
                  Run(s, t.caller, t.now, t.call).Done? &&
                  DrawsOn(s, t.call, l))
            && (s'.lots.rows[l].status != s.lots.rows[l].status ==> !Disposed(s'.lots.rows[l].status))
  {
    hide History, Run, DrawsOn, TablesOk, RefsOk;
    InvariantAlways(owner, ts);
    OneMore(owner, ts, t);
    var s := History(owner, ts);
    if Run(s, t.caller, t.now, t.call).Done? { OverwrittenByCall(s, t, l); }
  }

  // ---- A lot disposed of and drawn on ----

  const GROWER: AccountId := "s"
  const BUYER: AccountId := "b"

  const NEW_LOT := Lot(GROWER, GROWER, 10, 10, Available, "cat-1", [], [])
  const GOODS := Listing(GROWER, Some("lot-2"), 4, 0, 0, 5, [], 0, ListingActive)
  const OFFER := Offer(OnListing("lst-3"), BUYER, 4, None, None, 5, OfferSubmitted)
  const FORMED := Contract(None, Some("lst-3"), "off-4", BUYER, GROWER, Some("lot-2"), 4, None, None, 5, 48, None,
      Active)
  const DRAWN_ON := NEW_LOT.(available := 6, status := PartiallyAllocated)

  const REGISTER_GROWER := Transaction(GROWER, 0, CallRegisterParty)
  const REGISTER_BUYER := Transaction(BUYER, 0, CallRegisterParty)
  const LIST_PRODUCT := Transaction(GROWER, 0, CallCreateCatalogEntry)
  const BRING := Transaction(GROWER, 0, CallCreateLot("cat-1", 10, []))
  const OFFER_GOODS := Transaction(GROWER, 0, CallPostListing(GOODS, None, None))
  const ASK := Transaction(BUYER, 0, CallSubmitOffer(OFFER))
  const ACCEPT := Transaction(GROWER, 0, CallAcceptOffer("off-4", None))
  const SPOIL := Transaction(GROWER, 0, CallDisposeLot("lot-2", Spoiled))
  const USE_UP := Transaction(GROWER, 0, CallTransformLot(LEFT, "cat-1", 1))

  lemma Ids()
    ensures IdFor("cat-", 1) == "cat-1" && IdFor("lot-", 2) == "lot-2" && IdFor("lst-", 3) == "lst-3"
    ensures IdFor("off-", 4) == "off-4" && IdFor("ctr-", 5) == "ctr-5"
    ensures IdFor("lot-", 6) == "lot-6"
  {
    assert Numeral(1) == "1" && Numeral(2) == "2" && Numeral(3) == "3" && Numeral(4) == "4" && Numeral(5) == "5" &&
        Numeral(6) == "6";
  }

  predicate Registered(s: State, counter: nat) {
    s.parties.Keys == {GROWER, BUYER} && s.catalogs.Has("cat-1") && s.counter == counter && s.disputeWindowHours == 48
  }

  lemma Begun(owner: AccountId)
    ensures var s := After(After(After(Initial(owner), REGISTER_GROWER), REGISTER_BUYER), LIST_PRODUCT);
            Registered(s, 1) && s.lots == EmptyTable() && s.contracts == EmptyTable()
  {
    hide IdFor;
    Ids();
  }

  lemma Brought(s: State)
    requires Registered(s, 1) && s.lots == EmptyTable()
    ensures var s' := After(s, BRING);
            Registered(s', 2) && s'.lots == Table(["lot-2"], map["lot-2" := NEW_LOT]) && s'.contracts == s.contracts
  {
    hide IdFor;
    Ids();
  }

  lemma Listed(s: State)
    requires Registered(s, 2) && s.lots == Table(["lot-2"], map["lot-2" := NEW_LOT])
    ensures var s' := After(s, OFFER_GOODS);
            Registered(s', 3) && s'.lots == s.lots && s'.contracts == s.contracts && s'.listings.Has("lst-3") &&
                s'.listings.rows["lst-3"] == GOODS
  {
    hide IdFor;
    Ids();
  }

  lemma Asked(s: State)
    requires Registered(s, 3) && s.listings.Has("lst-3") && s.listings.rows["lst-3"] == GOODS
    ensures var s' := After(s, ASK);
            && Registered(s', 4) && s'.lots == s.lots && s'.contracts == s.contracts && s'.listings == s.listings
            && s'.offers.Has("off-4") && s'.offers.rows["off-4"] == OFFER
  {
    hide IdFor;
    Ids();
  }

  lemma FormsIt(s: State)
    requires Registered(s, 4) && s.lots == Table(["lot-2"], map["lot-2" := NEW_LOT]) && s.contracts == EmptyTable() &&
             s.offers.Has("off-4")
    ensures var r := FormContract(s, GROWER, 0, "off-4", FORMED);
            && r.Done? && Registered(r.state, 5) && r.state.lots == Table(["lot-2"], map["lot-2" := DRAWN_ON])
            && r.state.contracts == Table(["ctr-5"], map["ctr-5" := FORMED])
  {
    hide IdFor;
    Ids();
    assert map["lot-2" := NEW_LOT]["lot-2" := DRAWN_ON] == map["lot-2" := DRAWN_ON];
  }

  lemma AcceptsIt(s: State)
    requires Registered(s, 4) && s.lots == Table(["lot-2"], map["lot-2" := NEW_LOT]) && s.contracts == EmptyTable()
    requires s.listings.Has("lst-3") && s.listings.rows["lst-3"] == GOODS && s.offers.Has("off-4") &&
             s.offers.rows["off-4"] == OFFER
    ensures var s' := After(s, ACCEPT);
            && Registered(s', 5) && s'.lots == Table(["lot-2"], map["lot-2" := DRAWN_ON])
            && s'.contracts == Table(["ctr-5"], map["ctr-5" := FORMED])
  {
    hide FormContract;
    FormsIt(s.(listings := s.listings.Put("lst-3", GOODS.(status := ListingContracted))));
  }

  lemma Disposes(s: State)
    requires Registered(s, 5) && s.lots == Table(["lot-2"], map["lot-2" := DRAWN_ON])
    ensures var s' := After(s, SPOIL);
            Registered(s', 5) && s'.lots == Table(["lot-2"], map["lot-2" := DRAWN_ON.(status := Spoiled)]) &&
                s'.contracts == s.contracts
  {
    hide IdFor;
    assert map["lot-2" := DRAWN_ON]["lot-2" := DRAWN_ON.(status := Spoiled)] ==
        map["lot-2" := DRAWN_ON.(status := Spoiled)];
  }

  const LEFT: seq<InputRef> := [InputRef("lot-2", 6)]
  const USED := DRAWN_ON.(available := 0, status := FullyAllocated)

  lemma DebitsTheRest(s: State)
    requires GROWER in s.parties && s.lots == Table(["lot-2"], map["lot-2" := DRAWN_ON.(status := Spoiled)])
    ensures var r := DebitAll(s, GROWER, LEFT);
            r.Some? && "lot-2" in r.value.rows && r.value.rows["lot-2"] == USED
  {
    assert LEFT[..|LEFT| - 1] == [];
    assert DebitAll(s, GROWER, []) == Some(s.lots);
  }

  lemma TransformsTheRest(s: State)
    requires Registered(s, 5) && s.lots == Table(["lot-2"], map["lot-2" := DRAWN_ON.(status := Spoiled)])
    ensures var r := TransformLot(s, GROWER, 0, LEFT, "cat-1", 1);
            r.Done? && "lot-2" in r.state.lots.rows && r.state.lots.rows["lot-2"] == USED
  {
    hide IdFor, NoteTransform, MakeOutput, DebitAll;
    Ids();
    assert GROWER in s.parties by { assert GROWER in s.parties.Keys; }
    DebitsTheRest(s);
    var lots := DebitAll(s, GROWER, LEFT).value;
    var output := Lot(GROWER, GROWER, 1, 1, Available, "cat-1", LEFT, []);
    MakeOutputEffect(s.(lots := lots), GROWER, 0, output);
    NoteTransformEffect(MakeOutput(s.(lots := lots), GROWER, 0, output), GROWER, 0, "lot-6", LEFT, 1);
  }

  lemma UsesUp(s: State)
    requires Registered(s, 5) && s.lots == Table(["lot-2"], map["lot-2" := DRAWN_ON.(status := Spoiled)])
    ensures var s' := After(s, USE_UP);
            "lot-2" in s'.lots.rows && s'.lots.rows["lot-2"] == USED
  {
    hide TransformLot, Registered;
    TransformsTheRest(s);
  }

  /** A lot that a contract draws on is disposed of, and what is left of it is used up all the same. */
  lemma DisposedAndUsedUp(owner: AccountId)
    ensures var ts := [REGISTER_GROWER, REGISTER_BUYER, LIST_PRODUCT, BRING, OFFER_GOODS, ASK, ACCEPT];
            var disposed, used := History(owner, ts + [SPOIL]), History(owner, ts + [SPOIL, USE_UP]);
            && "lot-2" in disposed.lots.rows && disposed.lots.rows["lot-2"].status == Spoiled
            && Drawn(Draws(disposed.contracts), "lot-2") == 4
            && "lot-2" in used.lots.rows && used.lots.rows["lot-2"].status == FullyAllocated
  {
    hide After, History, Draws;
    var six := [REGISTER_GROWER, REGISTER_BUYER, LIST_PRODUCT, BRING, OFFER_GOODS, ASK];
    HistoryOfSix(owner, REGISTER_GROWER, REGISTER_BUYER, LIST_PRODUCT, BRING, OFFER_GOODS, ASK);
    ThreeMore(owner, six, ACCEPT, SPOIL, USE_UP);
    OneMore(owner, six, ACCEPT);
    OneMore(owner, six + [ACCEPT], SPOIL);
    var s := After(After(After(Initial(owner), REGISTER_GROWER), REGISTER_BUYER), LIST_PRODUCT);
    Begun(owner);
    Brought(s);
    s := After(s, BRING);
    Listed(s);
    s := After(s, OFFER_GOODS);
    Asked(s);
    s := After(s, ASK);
    AcceptsIt(s);
    s := After(s, ACCEPT);
    Disposes(s);
    UsesUp(After(s, SPOIL));
    DrawnByOne(After(s, SPOIL).contracts);
    assert six + [ACCEPT] + [SPOIL] == [REGISTER_GROWER, REGISTER_BUYER, LIST_PRODUCT, BRING, OFFER_GOODS, ASK,
        ACCEPT] + [SPOIL];
    assert six + [ACCEPT, SPOIL, USE_UP] == [REGISTER_GROWER, REGISTER_BUYER, LIST_PRODUCT, BRING, OFFER_GOODS, ASK,
        ACCEPT] + [SPOIL, USE_UP];
  }

  lemma DrawnByOne(contracts: Table<Contract>)
    requires contracts == Table(["ctr-5"], map["ctr-5" := FORMED])
    ensures Drawn(Draws(contracts), "lot-2") == 4
  {
    assert Draws(contracts) == [Draw(Some("lot-2"), 4)];
    assert [Draw(Some("lot-2"), 4)][..0] == [];
  }
}
