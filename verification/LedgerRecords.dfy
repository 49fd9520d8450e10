/**
 Every change keeps the stores in order: ids are unique and of their own kind, and nothing refers to
 what is not there.

 A store is a table in insertion order whose ids were issued by the one counter under the store's own
 prefix. First comes what the debit loop of a transform does to the lots as a whole: it runs through the
 inputs, but what it comes to can be said of each lot by itself. Then every change is shown to keep the
 tables and the references between them, and to append at most one row to each of the three views that
 the sums of the other Ledger modules run over: trades, draws and trackings. What it writes to rows that
 were there already never alters what these views show of them.
 */
module LedgerRecords {
  import opened Wrappers
  import opened LedgerTypes
  import opened LedgerSteps
  import opened LedgerViews
  import opened LedgerEffects

  // ---- Debiting the inputs of a transform ----

  predicate Touched(inputs: seq<InputRef>, lot: Id) {
    exists k :: 0 <= k < |inputs| && inputs[k].lot == lot
  }

  /** A lot after all the debits of a transform. */
  predicate DebitedRow(a: Lot, b: Lot, inputs: seq<InputRef>, id: Id) {
    && Consumed(inputs, id) <= a.available
    && b == a.(available := a.available - Consumed(inputs, id),
               status := if Touched(inputs, id) then StatusAfterDebit(a.available - Consumed(inputs, id)) else a.status)
  }

  ghost predicate DebitedTable(a: Table<Lot>, b: Table<Lot>, inputs: seq<InputRef>) {
    && b.keys == a.keys
    && b.rows.Keys == a.rows.Keys
    && (forall k :: k in a.rows ==> DebitedRow(a.rows[k], b.rows[k], inputs, k))
    && (forall i :: 0 <= i < |inputs| ==> inputs[i].lot in a.rows)
  }

  lemma TouchedLast(inputs: seq<InputRef>, lot: Id)
    requires inputs != []
    ensures Touched(inputs, lot) <==> Touched(inputs[..|inputs| - 1], lot) || inputs[|inputs| - 1].lot == lot
  {
    if Touched(inputs, lot) {
      var k :| 0 <= k < |inputs| && inputs[k].lot == lot;
      if k < |inputs| - 1 { assert inputs[..|inputs| - 1][k].lot == lot; }
    }
    if Touched(inputs[..|inputs| - 1], lot) {
      var k :| 0 <= k < |inputs| - 1 && inputs[..|inputs| - 1][k].lot == lot;
      assert inputs[k].lot == lot;
    }
  }

  lemma DebitOneMore(a: Lot, b: Lot, inputs: seq<InputRef>, id: Id)
    requires inputs != [] && DebitedRow(a, b, inputs[..|inputs| - 1], id)
    requires inputs[|inputs| - 1].lot == id ==> inputs[|inputs| - 1].amount <= b.available
    ensures DebitedRow(a, if inputs[|inputs| - 1].lot == id then Debited(b, inputs[|inputs| - 1].amount)
            else b, inputs, id)
  {
    TouchedLast(inputs, id);
  }

  /** The loop over the inputs debits each lot by all that it is listed for. */
  lemma {:induction false} DebitAllEffect(s: State, caller: AccountId, inputs: seq<InputRef>)
    ensures DebitAll(s, caller, inputs).Some? ==> DebitedTable(s.lots, DebitAll(s, caller, inputs).value, inputs)
  {
    hide DebitedRow, Debited, MayActFor;
    var r := DebitAll(s, caller, inputs);
    if inputs == [] {
      forall k | k in s.lots.rows ensures DebitedRow(s.lots.rows[k], s.lots.rows[k], inputs, k) {
        NotDebited(s.lots.rows[k], k);
      }
    } else if r.Some? {
      var before := inputs[..|inputs| - 1];
      DebitAllEffect(s, caller, before);
      var lots := DebitAll(s, caller, before).value;
      forall k | k in s.lots.rows ensures DebitedRow(s.lots.rows[k], r.value.rows[k], inputs, k) {
        DebitOneMore(s.lots.rows[k], lots.rows[k], inputs, k);
      }
      forall i | 0 <= i < |inputs| ensures inputs[i].lot in s.lots.rows {
        if i < |inputs| - 1 { assert inputs[i] == before[i]; }
      }
    }
  }

  lemma NotDebited(a: Lot, id: Id)
    ensures DebitedRow(a, a, [], id)
  {
  }

  // ---- Stores in order ----

  lemma LotsGrew(a: Table<Lot>, b: Table<Lot>, inputs: seq<InputRef>, counter: nat, later: nat, lot: Lot)
    requires TableOk(a, "lot-", counter) && DebitedTable(a, b, inputs) && counter < later
    ensures TableOk(b.Put(IdFor("lot-", counter + 1), lot), "lot-", later)
    ensures IdFor("lot-", counter + 1) !in a.rows
  {
    hide DebitedRow, TableOk, IdFor, Grew;
    assert TableOk(b, "lot-", counter) by { OnlyKeysMatter(a, b, "lot-", counter); }
    NextIsNew(b, "lot-", counter, counter + 1);
    PutNewGrew(b, "lot-", counter, later, lot);
    GrewOk(b, b.Put(IdFor("lot-", counter + 1), lot), "lot-", counter, later);
  }

  lemma OnlyKeysMatter<T>(a: Table<T>, b: Table<T>, prefix: string, counter: nat)
    requires TableOk(a, prefix, counter) && b.keys == a.keys && b.rows.Keys == a.rows.Keys
    ensures TableOk(b, prefix, counter)
  {
    forall k ensures k in b.keys <==> k in b.rows {
      assert k in b.rows <==> k in b.rows.Keys;
      assert k in a.rows <==> k in a.rows.Keys;
    }
  }

  lemma OldRow<T>(t: Table<T>, prefix: string, counter: nat, later: nat, k: Id, v: T)
    requires TableOk(t, prefix, counter) && k in t.rows && counter <= later
    ensures TableOk(t.Put(k, v), prefix, later)
  {
    hide TableOk, Grew;
    PutOldGrew(t, prefix, counter, later, k, v);
    GrewOk(t, t.Put(k, v), prefix, counter, later);
  }

  lemma NewRow<T>(t: Table<T>, prefix: string, counter: nat, later: nat, v: T)
    requires TableOk(t, prefix, counter) && counter < later
    ensures TableOk(t.Put(IdFor(prefix, counter + 1), v), prefix, later)
    ensures IdFor(prefix, counter + 1) !in t.rows
  {
    hide TableOk, Grew, IdFor;
    NextIsNew(t, prefix, counter, counter + 1);
    PutNewGrew(t, prefix, counter, later, v);
    GrewOk(t, t.Put(IdFor(prefix, counter + 1), v), prefix, counter, later);
  }

  lemma NewRowSkipping<T>(t: Table<T>, prefix: string, counter: nat, later: nat, v: T)
    requires TableOk(t, prefix, counter) && counter + 2 <= later
    ensures TableOk(t.Put(IdFor(prefix, counter + 2), v), prefix, later)
    ensures IdFor(prefix, counter + 2) !in t.rows
  {
    hide TableOk, IdFor;
    NextIsNew(t, prefix, counter, counter + 2);
    TableLater(t, prefix, counter, counter + 1);
    NewRow(t, prefix, counter + 1, later, v);
  }

  ghost predicate PapersOk(s: State, counter: nat) {
    && TableOk(s.intents, "int-", counter)
    && TableOk(s.listings, "lst-", counter)
    && TableOk(s.offers, "off-", counter)
  }

  ghost predicate StoresOk(s: State, counter: nat) {
    && TableOk(s.lots, "lot-", counter)
    && TableOk(s.contracts, "ctr-", counter)
    && TableOk(s.fulfillments, "ful-", counter)
    && TableOk(s.settlements, "set-", counter)
    && TableOk(s.ctes, "cte-", counter)
  }

  lemma StoresLater(s: State, later: nat)
    requires StoresOk(s, s.counter) && s.counter <= later
    ensures StoresOk(s, later)
  {
    hide TableOk;
    TableLater(s.lots, "lot-", s.counter, later);
    TableLater(s.contracts, "ctr-", s.counter, later);
    TableLater(s.fulfillments, "ful-", s.counter, later);
    TableLater(s.settlements, "set-", s.counter, later);
    TableLater(s.ctes, "cte-", s.counter, later);
  }

  lemma PapersKeepOk(s: State, s': State)
    requires PapersOk(s, s.counter) && PapersKept(s, s')
    ensures PapersOk(s', s'.counter)
  {
    hide TableOk, Grew, IntentsKept, ListingsKept, OffersKept;
    GrewOk(s.intents, s'.intents, "int-", s.counter, s'.counter);
    GrewOk(s.listings, s'.listings, "lst-", s.counter, s'.counter);
    GrewOk(s.offers, s'.offers, "off-", s.counter, s'.counter);
  }

  lemma StoresKeptByLots(s: State, s': State, c: Change)
    requires StoresOk(s, s.counter) && Applies(s, s', c)
    requires c.LotMade? || c.LotDisposed? || c.Tracked? || c.LotsMadeInto?
    ensures StoresOk(s', s'.counter)
  {
    hide TableOk, IdFor, DebitedRow, DebitAll;
    StoresLater(s, s'.counter);
    match c
    case LotMade(id, lot) => NewRow(s.lots, "lot-", s.counter, s'.counter, lot);
    case LotDisposed(id, d) => OldRow(s.lots, "lot-", s.counter, s'.counter, id, s.lots.rows[id].(status := d));
    case Tracked(id, cte) => NewRow(s.ctes, "cte-", s.counter, s'.counter, cte);
    case LotsMadeInto(inputs, id, lot, cteId, cte, debited) =>
      DebitAllEffect(s, cte.actor, inputs);
      LotsGrew(s.lots, debited, inputs, s.counter, s'.counter, lot);
      NewRowSkipping(s.ctes, "cte-", s.counter, s'.counter, cte);
  }

  lemma StoresKeptByTrades(s: State, s': State, c: Change)
    requires StoresOk(s, s.counter) && Applies(s, s', c)
    requires c.Formed? || c.Attested? || c.Disputing?
    ensures StoresOk(s', s'.counter)
  {
    hide TableOk, IdFor, PapersKept, Cites;
    StoresLater(s, s'.counter);
    match c
    case Formed(id, contract) =>
      NewRow(s.contracts, "ctr-", s.counter, s'.counter, contract);
      if contract.lot.Some? {
        OldRow(s.lots, "lot-", s.counter, s'.counter, contract.lot.value,
            Debited(s.lots.rows[contract.lot.value], contract.quantity));
      }
    case Attested(id, of, at) =>
      NewRow(s.fulfillments, "ful-", s.counter, s'.counter, Fulfillment(of, at, SellerAttested));
      OldRow(s.contracts, "ctr-", s.counter, s'.counter, of, s.contracts.rows[of].(status := InFulfillment));
    case Disputing(id) =>
      var f := s.fulfillments.rows[id];
      OldRow(s.fulfillments, "ful-", s.counter, s'.counter, id, f.(status := DisputeOpened));
      OldRow(s.contracts, "ctr-", s.counter, s'.counter, f.contract, s.contracts.rows[f.contract].(status := Disputed));
  }

  lemma StoresKeptBySettling(s: State, s': State, c: Change)
    requires StoresOk(s, s.counter) && Applies(s, s', c) && c.Settling?
    ensures StoresOk(s', s'.counter)
  {
    hide TableOk, IdFor, RatedParties, Traded, PairKey, RelationshipAt;
    StoresLater(s, s'.counter);
    var t := c.settlement;
    var k := s.contracts.rows[t.contract];
    NewRow(s.settlements, "set-", s.counter, s'.counter, t);
    OldRow(s.contracts, "ctr-", s.counter, s'.counter, t.contract, k.(status := c.final));
    OldRow(s.fulfillments, "ful-", s.counter, s'.counter, t.fulfillment,
        s.fulfillments.rows[t.fulfillment].(status := Complete));
    if k.lot.Some? {
      OldRow(s.lots, "lot-", s.counter, s'.counter, k.lot.value, Moved(s.lots.rows[k.lot.value], k, t.contract, t.at));
    }
  }

  lemma TablesKept(s: State, s': State, c: Change)
    requires TablesOk(s) && Applies(s, s', c)
    ensures TablesOk(s')
  {
    hide TableOk, IdFor;
    assert PapersOk(s, s.counter) && StoresOk(s, s.counter);
    assert PapersOk(s', s'.counter) by { PapersOfChange(s, s', c); }
    assert StoresOk(s', s'.counter) by {
      hide KeepsTrades, MakesLot, DisposesLot, Tracks, MadeInto, Forms, Attests, Disputes, Settles;
      if c.Paperwork? { StoresOfPaperwork(s, s'); }
      else if c.LotMade? || c.LotDisposed? || c.Tracked? || c.LotsMadeInto? { StoresKeptByLots(s, s', c); }
      else if c.Settling? { StoresKeptBySettling(s, s', c); }
      else { StoresKeptByTrades(s, s', c); }
    }
  }

  lemma StoresOfPaperwork(s: State, s': State)
    requires StoresOk(s, s.counter) && KeepsTrades(s, s')
    ensures StoresOk(s', s'.counter)
  {
    hide TableOk, PartiesKept, RelationshipsKept, IntentsKept, ListingsKept, OffersKept;
    StoresLater(s, s'.counter);
  }

  lemma PapersOfChange(s: State, s': State, c: Change)
    requires PapersOk(s, s.counter) && Applies(s, s', c)
    ensures PapersOk(s', s'.counter)
  {
    hide Applies, PapersKept, PapersOk;
    PapersOf(s, s', c);
    PapersKeepOk(s, s');
  }

  lemma PapersOf(s: State, s': State, c: Change)
    requires Applies(s, s', c)
    ensures PapersKept(s, s')
  {
    hide TableOk, IdFor, PapersKept, Cites, DebitAll, PartiesKept, RelationshipsKept, RatedParties, Traded, MovedLots,
      DrawnLots;
    if !c.Paperwork? && !c.Formed? { PapersAsTheyWere(s, s'); }
  }

  // ---- References ----

  predicate PaperRefs(s: State) {
    && (forall k :: k in s.intents.rows ==> s.intents.rows[k].buyer in s.parties)
    && (forall k :: k in s.listings.rows ==>
          s.listings.rows[k].seller in s.parties &&
          InLots(s.lots, s.listings.rows[k].lot))
    && (forall k :: k in s.offers.rows ==> s.offers.rows[k].offerer in s.parties)
  }

  predicate TradeRefs(s: State) {
    && (forall k :: k in s.contracts.rows ==>
          s.contracts.rows[k].buyer in s.parties && s.contracts.rows[k].seller in s.parties &&
          InLots(s.lots, s.contracts.rows[k].lot))
    && (forall k :: k in s.settlements.rows ==> s.settlements.rows[k].contract in s.contracts.rows)
  }

  predicate CteRefs(s: State) {
    forall k :: k in s.ctes.rows ==> CteOk(s.lots, s.ctes.rows[k])
  }

  lemma RefsSplit(s: State)
    ensures RefsOk(s) <==> PaperRefs(s) && TradeRefs(s) && CteRefs(s)
  {
  }

  /** What a lot was made from, who began it and how much of it there was. */
  predicate LotKept(a: Lot, b: Lot) {
    b.inputs == a.inputs && b.origin == a.origin && b.total == a.total
  }

  predicate LotsGrow(a: Table<Lot>, b: Table<Lot>) {
    forall k :: k in a.rows ==> k in b.rows && LotKept(a.rows[k], b.rows[k])
  }

  predicate Grows(s: State, s': State) {
    s.parties.Keys <= s'.parties.Keys && LotsGrow(s.lots, s'.lots)
  }

  lemma UpdateReputationKeys(parties: map<AccountId, Party>, account: AccountId, disputed: bool)
    ensures var r := UpdateReputation(parties, account, disputed);
            r.Some? ==> r.value.Keys == parties.Keys
  {
    var r := UpdateReputation(parties, account, disputed);
    if r.Some? && account in parties {
      assert r.value.Keys == parties.Keys + {account};
    }
  }

  lemma RatedKeys(parties: map<AccountId, Party>, c: Contract, loser: Option<AccountId>)
    ensures var r := RatedParties(parties, c, loser);
            r.Some? ==> r.value.Keys == parties.Keys
  {
    hide UpdateReputation;
    UpdateReputationKeys(parties, c.buyer, loser == Some(c.buyer));
    var rated := UpdateReputation(parties, c.buyer, loser == Some(c.buyer));
    if rated.Some? { UpdateReputationKeys(rated.value, c.seller, loser == Some(c.seller)); }
  }

  lemma PutGrows(t: Table<Lot>, k: Id, v: Lot)
    requires k in t.rows ==> LotKept(t.rows[k], v)
    ensures LotsGrow(t, t.Put(k, v))
  {
  }

  lemma DebitedGrows(a: Table<Lot>, b: Table<Lot>, inputs: seq<InputRef>, k: Id, v: Lot)
    requires DebitedTable(a, b, inputs) && k !in a.rows
    ensures LotsGrow(a, b.Put(k, v))
  {
  }

  lemma ChangeGrows(s: State, s': State, c: Change)
    requires TablesOk(s) && Applies(s, s', c)
    ensures Grows(s, s')
  {
    hide TableOk, LotsGrow, KeepsTrades, MakesLot, DisposesLot, Tracks, MadeInto, Forms, Attests, Disputes, Settles;
    match c
    case Paperwork => PaperworkGrows(s, s');
    case LotMade(id, lot) => LotMadeGrows(s, s', id, lot);
    case LotDisposed(id, d) => LotDisposedGrows(s, s', id, d);
    case Tracked(id, cte) => TrackedGrows(s, s', id, cte);
    case LotsMadeInto(inputs, id, lot, cteId, cte, debited) => MadeIntoGrows(s, s', c);
    case Formed(id, contract) => FormedGrows(s, s', id, contract);
    case Attested(id, of, at) => AttestedGrows(s, s', id, of, at);
    case Disputing(id) => DisputingGrows(s, s', id);
    case Settling(id, t, loser, final) => SettlingGrows(s, s', c);
  }

  lemma PaperworkGrows(s: State, s': State)
    requires KeepsTrades(s, s')
    ensures Grows(s, s')
  {
    hide PapersKept, RelationshipsKept;
  }

  lemma LotMadeGrows(s: State, s': State, id: Id, lot: Lot)
    requires TableOk(s.lots, "lot-", s.counter) && MakesLot(s, s', id, lot)
    ensures Grows(s, s')
  {
    hide TableOk, IdFor, LotsGrow;
    NewRow(s.lots, "lot-", s.counter, s'.counter, lot);
    PutGrows(s.lots, id, lot);
  }

  lemma LotDisposedGrows(s: State, s': State, id: Id, d: LotStatus)
    requires DisposesLot(s, s', id, d)
    ensures Grows(s, s')
  {
    hide LotsGrow;
    PutGrows(s.lots, id, s.lots.rows[id].(status := d));
  }

  lemma TrackedGrows(s: State, s': State, id: Id, cte: Cte)
    requires Tracks(s, s', id, cte)
    ensures Grows(s, s')
  {
    hide IdFor, Indexed;
  }

  lemma MadeIntoGrows(s: State, s': State, c: Change)
    requires TableOk(s.lots, "lot-", s.counter) && c.LotsMadeInto? && Applies(s, s', c)
    ensures Grows(s, s')
  {
    hide TableOk, IdFor, LotsGrow, DebitAll, DebitedTable, Indexed, IndexedAll;
    DebitAllEffect(s, c.cte.actor, c.inputs);
    LotsGrew(s.lots, c.debited, c.inputs, s.counter, s'.counter, c.lot);
    DebitedGrows(s.lots, c.debited, c.inputs, c.id, c.lot);
  }

  lemma FormedGrows(s: State, s': State, id: Id, contract: Contract)
    requires Forms(s, s', id, contract)
    ensures Grows(s, s')
  {
    hide PapersKept, Cites, IdFor;
  }

  lemma AttestedGrows(s: State, s': State, id: Id, of: Id, at: nat)
    requires Attests(s, s', id, of, at)
    ensures Grows(s, s')
  {
    hide IdFor;
  }

  lemma DisputingGrows(s: State, s': State, id: Id)
    requires Disputes(s, s', id)
    ensures Grows(s, s')
  {
  }

  lemma SettlingGrows(s: State, s': State, c: Change)
    requires c.Settling? && Applies(s, s', c)
    ensures Grows(s, s')
  {
    hide IdFor, RatedParties, Traded, PairKey, RelationshipAt;
    RatedKeys(s.parties, s.contracts.rows[c.settlement.contract], c.loser);
  }

  // ---- References stay good ----

  lemma PaperRefsKept(s: State, s': State)
    requires PaperRefs(s) && Grows(s, s') && PapersKept(s, s')
    ensures PaperRefs(s')
  {
    hide Grew;
    assert forall p :: p in s.parties ==> p in s.parties.Keys && p in s'.parties.Keys && p in s'.parties;
  }

  lemma CteOkGrows(a: Table<Lot>, b: Table<Lot>, c: Cte)
    requires CteOk(a, c) && LotsGrow(a, b)
    ensures CteOk(b, c)
  {
    if c.output.Some? {
      assert LotKept(a.rows[c.output.value], b.rows[c.output.value]);
    }
  }

  lemma CteRefsGrow(ctes: map<Id, Cte>, a: Table<Lot>, b: Table<Lot>)
    requires (forall k :: k in ctes ==> CteOk(a, ctes[k])) && LotsGrow(a, b)
    ensures forall k :: k in ctes ==> CteOk(b, ctes[k])
  {
    hide CteOk, LotsGrow;
    forall k | k in ctes ensures CteOk(b, ctes[k]) { CteOkGrows(a, b, ctes[k]); }
  }

  lemma CteRefsKept(s: State, s': State, c: Change)
    requires TablesOk(s) && CteRefs(s) && Applies(s, s', c) && Grows(s, s')
    ensures CteRefs(s')
  {
    hide LotsGrow, CteOk, TableOk, IdFor;
    assert forall k :: k in s.ctes.rows ==> CteOk(s'.lots,
        s.ctes.rows[k]) by { CteRefsGrow(s.ctes.rows, s.lots, s'.lots); }
    if c.Tracked? {
      assert CteOk(s'.lots, c.cte) by { TrackedCteOk(s, s', c); }
      assert s'.ctes == s.ctes.Put(c.id, c.cte) by { hide SameTrades, SameBooks, SamePapers; }
    } else if c.LotsMadeInto? {
      assert CteOk(s'.lots, c.cte) by { MadeIntoCteOk(s, s', c); }
      assert s'.ctes == s.ctes.Put(c.cteId, c.cte) by { hide SameTrades, SameBooks, SamePapers, DebitAll; }
    } else {
      assert s'.ctes == s.ctes by { CtesAsTheyWere(s, s', c); }
    }
  }

  lemma CtesAsTheyWere(s: State, s': State, c: Change)
    requires Applies(s, s', c) && !c.Tracked? && !c.LotsMadeInto?
    ensures s'.ctes == s.ctes && s'.cteIndex == s.cteIndex
  {
    hide IdFor, PapersKept, Cites, RelationshipsKept, PartiesKept, RatedParties, Traded, MovedLots, DrawnLots,
      SamePapers, SameBooks, SameTrades;
  }

  lemma TrackedCteOk(s: State, s': State, c: Change)
    requires c.Tracked? && Applies(s, s', c)
    ensures CteOk(s'.lots, c.cte)
  {
    hide IdFor;
  }

  lemma MadeIntoCteOk(s: State, s': State, c: Change)
    requires TableOk(s.lots, "lot-", s.counter) && c.LotsMadeInto? && Applies(s, s', c)
    ensures CteOk(s'.lots, c.cte)
  {
    hide TableOk, IdFor, DebitAll, DebitedRow, Indexed, IndexedAll;
    DebitAllEffect(s, c.cte.actor, c.inputs);
    LotsGrew(s.lots, c.debited, c.inputs, s.counter, s'.counter, c.lot);
  }

  /** The same contracts on the same terms; only a status may differ. */
  predicate TermsKept(a: Table<Contract>, b: Table<Contract>) {
    && b.keys == a.keys && b.rows.Keys == a.rows.Keys
    && (forall k :: k in a.rows ==> b.rows[k] == a.rows[k].(status := b.rows[k].status))
  }

  lemma StatusPut(t: Table<Contract>, k: Id, status: ContractStatus)
    requires k in t.rows
    ensures TermsKept(t, t.Put(k, t.rows[k].(status := status)))
  {
    assert t.Put(k, t.rows[k].(status := status)).rows.Keys == t.rows.Keys;
  }

  lemma TermsOfChange(s: State, s': State, c: Change)
    requires Applies(s, s', c) && !c.Formed?
    ensures TermsKept(s.contracts, s'.contracts)
    ensures s'.settlements == if c.Settling? then s.settlements.Put(c.id, c.settlement) else s.settlements
    ensures c.Settling? ==> c.settlement.contract in s.contracts.rows
  {
    hide IdFor, PapersKept, RelationshipsKept, PartiesKept, RatedParties, Traded, MovedLots, SamePapers, SameBooks,
      SameLots, TermsKept, PairKey, RelationshipAt, DebitAll;
    match c
    case Attested(id, of, at) => StatusPut(s.contracts, of, InFulfillment);
    case Disputing(id) => StatusPut(s.contracts, s.fulfillments.rows[id].contract, Disputed);
    case Settling(id, t, loser, final) => StatusPut(s.contracts, t.contract, final);
    case _ => TermsAsTheyWere(s.contracts);
  }

  lemma TermsAsTheyWere(t: Table<Contract>)
    ensures TermsKept(t, t)
  {
  }

  lemma TermsOfForming(s: State, s': State, c: Change)
    requires TableOk(s.contracts, "ctr-", s.counter) && Applies(s, s', c) && c.Formed?
    ensures c.id !in s.contracts.rows && s'.contracts == s.contracts.Put(c.id, c.contract)
    ensures s'.settlements == s.settlements
    ensures c.contract.buyer in s.parties && c.contract.seller in s.parties && InLots(s.lots, c.contract.lot)
  {
    hide TableOk, IdFor, PapersKept, Cites, SameBooks, DrawnLots;
    NewRow(s.contracts, "ctr-", s.counter, s'.counter, c.contract);
  }

  lemma TradeRefsKept(s: State, s': State, c: Change)
    requires TablesOk(s) && TradeRefs(s) && Applies(s, s', c) && Grows(s, s')
    ensures TradeRefs(s')
  {
    hide TableOk, Applies, LotsGrow;
    assert forall p :: p in s.parties ==> p in s.parties.Keys && p in s'.parties.Keys && p in s'.parties;
    LotsStay(s.lots, s'.lots);
    if c.Formed? {
      TermsOfForming(s, s', c);
    } else {
      TermsOfChange(s, s', c);
      assert forall k :: k in s'.contracts.rows ==>
               k in s'.contracts.rows.Keys && k in s.contracts.rows.Keys &&
               k in s.contracts.rows;
      assert forall k :: k in s.contracts.rows ==>
               k in s.contracts.rows.Keys && k in s'.contracts.rows.Keys &&
               k in s'.contracts.rows;
    }
  }

  lemma LotsStay(a: Table<Lot>, b: Table<Lot>)
    requires LotsGrow(a, b)
    ensures forall k :: k in a.rows ==> k in b.rows
  {
  }

  /** Every change keeps all references good. */
  lemma RefsKept(s: State, s': State, c: Change)
    requires TablesOk(s) && RefsOk(s) && Applies(s, s', c)
    ensures RefsOk(s')
  {
    hide TablesOk, RefsOk, PaperRefs, TradeRefs, CteRefs, Grows, Applies;
    RefsSplit(s);
    RefsSplit(s');
    ChangeGrows(s, s', c);
    assert PaperRefs(s') by { PapersOf(s, s', c); PaperRefsKept(s, s'); }
    TradeRefsKept(s, s', c);
    CteRefsKept(s, s', c);
  }

  // ---- How the views change ----

  function TradeFor(contracts: map<Id, Contract>, id: Id, t: Settlement): Trade
    requires t.contract in contracts
  {
    var c := contracts[t.contract];
    Trade(id, t.contract, c.buyer, c.seller, c.lot, c.quantity, t.net, t.at)
  }

  lemma TradesOfChange(s: State, s': State, c: Change)
    requires TablesOk(s) && TradeRefs(s) && Applies(s, s', c)
    ensures c.Settling? ==> c.settlement.contract in s.contracts.rows
    ensures Trades(s'.settlements, s'.contracts) ==
            if c.Settling? then Trades(s.settlements, s.contracts) + [TradeFor(s.contracts.rows, c.id, c.settlement)]
            else Trades(s.settlements, s.contracts)
  {
    hide Applies, TableOk, IdFor, Trades;
    if c.Formed? {
      TermsOfForming(s, s', c);
      TradesUnderContracts(s.settlements, s.contracts, s'.contracts);
    } else {
      TermsOfChange(s, s', c);
      assert forall k :: k in s.contracts.rows ==>
               k in s.contracts.rows.Keys && k in s'.contracts.rows.Keys &&
               k in s'.contracts.rows;
      TradesUnderContracts(s.settlements, s.contracts, s'.contracts);
      if c.Settling? {
        assert c.id !in s.settlements.rows && s.settlements.Ok() by { SettlementIsNew(s, s', c); }
        TradesAppend(s.settlements, s'.contracts, c.id, c.settlement);
      }
    }
  }

  lemma SettlementIsNew(s: State, s': State, c: Change)
    requires TableOk(s.settlements, "set-", s.counter) && c.Settling? && Applies(s, s', c)
    ensures c.id !in s.settlements.rows && s.settlements.Ok()
  {
    hide IdFor, PairKey, Traded, RatedParties, MovedLots, RelationshipAt;
    NextIsNew(s.settlements, "set-", s.counter, s.counter + 1);
  }

  lemma DrawsOfChange(s: State, s': State, c: Change)
    requires TablesOk(s) && Applies(s, s', c)
    ensures Draws(s'.contracts) ==
            if c.Formed? then Draws(s.contracts) + [Draw(c.contract.lot, c.contract.quantity)] else Draws(s.contracts)
  {
    hide Applies, IdFor, Draws;
    if c.Formed? {
      TermsOfForming(s, s', c);
      DrawsAppend(s.contracts, c.id, c.contract);
    } else {
      TermsOfChange(s, s', c);
      assert forall k :: k in s.contracts.rows ==>
               k in s.contracts.rows.Keys && k in s'.contracts.rows.Keys &&
               k in s'.contracts.rows;
      DrawsUnderContracts(s.contracts, s'.contracts);
    }
  }

  lemma InputsStay(ctes: Table<Cte>, a: Table<Lot>, b: Table<Lot>)
    requires (forall k :: k in ctes.rows ==> CteOk(a, ctes.rows[k])) && LotsGrow(a, b)
    ensures SameInputs(ctes, a, b)
  {
    forall k | k in ctes.rows && ctes.rows[k].output.Some?
      ensures ctes.rows[k].output.value in a.rows && ctes.rows[k].output.value in b.rows &&
              a.rows[ctes.rows[k].output.value].inputs == b.rows[ctes.rows[k].output.value].inputs
    {
      assert CteOk(a, ctes.rows[k]);
      assert LotKept(a.rows[ctes.rows[k].output.value], b.rows[ctes.rows[k].output.value]);
    }
  }

  /** The tracking event that a change records. */
  function Noted(c: Change): Tracking
    requires c.Tracked? || c.LotsMadeInto?
  {
    if c.Tracked? then Tracking(c.id, c.cte.lot, None, []) else Tracking(c.cteId, c.cte.lot, Some(c.id), c.inputs)
  }

  lemma CteIsNew(s: State, s': State, c: Change)
    requires TableOk(s.ctes, "cte-", s.counter) && Applies(s, s', c)
    ensures c.Tracked? ==> c.id !in s.ctes.rows && s'.ctes == s.ctes.Put(c.id, c.cte) && c.cte.output == None
    ensures c.LotsMadeInto? ==>
              c.cteId !in s.ctes.rows && s'.ctes == s.ctes.Put(c.cteId, c.cte) && c.cte.output == Some(c.id) &&
              c.id in s'.lots.rows && s'.lots.rows[c.id].inputs == c.inputs
  {
    hide TableOk, IdFor, DebitAll, Indexed, IndexedAll, KeepsTrades, MakesLot, DisposesLot, Forms, Attests, Disputes,
      Settles;
    NextIsNew(s.ctes, "cte-", s.counter, s.counter + 1);
    NextIsNew(s.ctes, "cte-", s.counter, s.counter + 2);
  }

  lemma TrackingsOfChange(s: State, s': State, c: Change)
    requires TablesOk(s) && CteRefs(s) && Applies(s, s', c)
    ensures Trackings(s'.ctes, s'.lots) ==
            if c.Tracked? || c.LotsMadeInto? then Trackings(s.ctes, s.lots) + [Noted(c)] else Trackings(s.ctes, s.lots)
  {
    hide Applies, TablesOk, CteOk, LotsGrow, Trackings, IdFor, SameInputs;
    assert s.ctes.Ok() && TableOk(s.ctes, "cte-", s.counter) by { hide IdFor; CtesOk(s); }
    ChangeGrows(s, s', c);
    InputsStay(s.ctes, s.lots, s'.lots);
    TrackingsUnderLots(s.ctes, s.lots, s'.lots);
    CteIsNew(s, s', c);
    if c.Tracked? {
      TrackingsAppend(s.ctes, s'.lots, c.id, c.cte);
    } else if c.LotsMadeInto? {
      TrackingsAppend(s.ctes, s'.lots, c.cteId, c.cte);
    } else {
      CtesAsTheyWere(s, s', c);
    }
  }

  lemma CtesOk(s: State)
    requires TablesOk(s)
    ensures TableOk(s.ctes, "cte-", s.counter) && s.ctes.Ok()
  {
  }
}
