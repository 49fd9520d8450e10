/**
 What holds after every history of transactions of the trade contract, whoever sends them and in whatever
 order, the panicking ones included.
 */
module LedgerHistory {
  import opened Wrappers
  import opened LedgerTypes
  import opened LedgerSteps
  import opened LedgerViews
  import opened LedgerEffects
  import opened LedgerRecords
  import opened LedgerLots
  import opened LedgerTracing
  import opened LedgerBooks
  import opened LedgerLifecycle
  import opened LedgerPrices

  ghost predicate Invariant(s: State) {
    && TablesOk(s)
    && RefsOk(s)
    && LogOk(s.log, s.logIndex)
    && Conserved(s)
    && Owned(s)
    && CteIndexOk(s)
    && AllRated(s)
    && AllRelated(s)
    && Lifecycle(s)
    && Priced(s)
  }

  lemma InvariantAtFirst(owner: AccountId)
    ensures Invariant(Initial(owner))
  {
  }

  lemma LogKept(s: State, s': State, c: Change)
    requires Applies(s, s', c) && LogOk(s.log, s.logIndex)
    ensures LogOk(s'.log, s'.logIndex)
  {
    hide LogOk, IdFor, DebitAll, Indexed, IndexedAll, PapersKept, Cites, PartiesKept, RelationshipsKept, RatedParties,
      Traded, PairKey, RelationshipAt, MovedLots, DrawnLots, SameBooks, SameLots, SamePapers, SameTrades;
  }

  /** One transaction keeps everything, whether it succeeds or panics. */
  lemma InvariantKept(s: State, t: Transaction)
    requires Invariant(s)
    ensures Invariant(After(s, t))
  {
    hide Run, TablesOk, RefsOk, LogOk, Conserved, Owned, CteIndexOk, AllRated, AllRelated, Lifecycle, Priced, Applies,
      TradeRefs, CteRefs, PaperRefs;
    var c := CallMakes(s, t);
    var s' := After(s, t);
    RefsSplit(s);
    if Run(s, t.caller, t.now, t.call).Done? {
      TablesKept(s, s', c);
      RefsKept(s, s', c);
      LogKept(s, s', c);
      ConservedKept(s, s', c);
      OwnedKept(s, s', c);
      CteIndexKept(s, s', c);
      AllRatedKept(s, s', c);
      AllRelatedKept(s, s', c);
      LifecycleKept(s, s', c);
      PricedKept(s, s', c);
    }
  }

  lemma {:induction false} InvariantAlways(owner: AccountId, ts: seq<Transaction>)
    ensures Invariant(History(owner, ts))
  {
    hide Invariant, After, Initial;
    if ts == [] {
      InvariantAtFirst(owner);
    } else {
      LastTransaction(owner, ts);
      InvariantAlways(owner, ts[..|ts| - 1]);
      InvariantKept(History(owner, ts[..|ts| - 1]), ts[|ts| - 1]);
    }
  }

  // ---- Lots ----

  /** Quantity is conserved: what is gone from a lot is in contracts on it or in lots made of it. */
  lemma LotsAreConserved(owner: AccountId, ts: seq<Transaction>, l: Id)
    requires l in History(owner, ts).lots.rows
    ensures var s := History(owner, ts);
            var lot, drawn, made := s.lots.rows[l], Drawn(Draws(s.contracts), l),
                Transformed(Trackings(s.ctes, s.lots), l);
            && lot.total == lot.available + drawn + made
            && (lot.status.Available? ==> drawn == 0 && made == 0)
            && (lot.status.FullyAllocated? ==> lot.total == drawn + made)
  {
    hide History, Draws, Trackings, Drawn, Transformed;
    InvariantAlways(owner, ts);
    var s := History(owner, ts);
    assert Balanced(s.lots.rows, Draws(s.contracts), Trackings(s.ctes, s.lots), l);
  }

  /** A lot has one provenance entry for each settlement of a contract it backs, and belongs to the last recipient. */
  lemma OwnershipFollowsSettlements(owner: AccountId, ts: seq<Transaction>, l: Id)
    requires l in History(owner, ts).lots.rows
    ensures var s := History(owner, ts);
            var lot, moves := s.lots.rows[l], Moves(Trades(s.settlements, s.contracts), l);
            && lot.provenance == moves
            && lot.owner == if moves == [] then lot.origin else moves[|moves| - 1].to
  {
    hide History, Trades, Moves;
    InvariantAlways(owner, ts);
    var s := History(owner, ts);
    assert Traced(s.lots.rows, Trades(s.settlements, s.contracts), l);
  }

  // ---- Books ----

  lemma ReputationFollowsSettlements(owner: AccountId, ts: seq<Transaction>, p: AccountId)
    requires p in History(owner, ts).parties
    ensures var s := History(owner, ts);
            var r := s.parties[p].reputation;
            && r.completed == Appearances(Trades(s.settlements, s.contracts), p)
            && r.completed == r.disputed + r.onTime
            && r == Recomputed(r) && r.score <= 10000
  {
    hide History, Trades, Appearances, Recomputed;
    InvariantAlways(owner, ts);
    var s := History(owner, ts);
    assert Rated(s.parties, Trades(s.settlements, s.contracts), p);
  }

  lemma RelationshipFollowsSettlements(owner: AccountId, ts: seq<Transaction>, a: AccountId, b: AccountId)
    ensures var s := History(owner, ts);
            var trades := Between(Trades(s.settlements, s.contracts), PairKey(a, b));
            && (forall t :: t in trades <==> t in Trades(s.settlements, s.contracts) &&
                                             ((t.buyer == a && t.seller == b) || (t.buyer == b && t.seller == a)))
            && (PairKey(a, b) in s.relationships <==> trades != [])
            && (PairKey(a, b) in s.relationships ==>
                  var r := s.relationships[PairKey(a, b)];
                  && r.trades == |trades| && r.volume == Volume(trades) && r.onTimeRate == 10000
                  && r.tier == DeriveTier(r.trades, r.volume, r.agreements != []))
  {
    hide History, Trades, Between, Volume, PairKey, DeriveTier;
    InvariantAlways(owner, ts);
    var s := History(owner, ts);
    assert Related(s.relationships, Trades(s.settlements, s.contracts), PairKey(a, b));
    BetweenIsOfThePair(Trades(s.settlements, s.contracts), a, b);
  }

  // ---- Lifecycle ----

  lemma ContractsAreInStep(owner: AccountId, ts: seq<Transaction>, id: Id)
    requires id in History(owner, ts).contracts.rows
    ensures var s := History(owner, ts);
            var c, count := s.contracts.rows[id], CountOf(Trades(s.settlements, s.contracts), id);
            && !c.status.Delivered? && !c.status.Cancelled?
            && (c.status.Active? <==> Unfulfilled(s.fulfillments.rows, id))
            && (count > 0 <==> c.status.Settled? || c.status.ResolvedBuyer? || c.status.ResolvedSeller?)
            && (c.status.ResolvedBuyer? || c.status.ResolvedSeller? ==> count == 1)
  {
    hide History, Trades, CountOf, Unfulfilled;
    InvariantAlways(owner, ts);
    var s := History(owner, ts);
    assert SettledInStep(s.contracts.rows[id].status, CountOf(Trades(s.settlements, s.contracts), id));
  }

  /** A disputed fulfillment was not settled before, and is settled once when the dispute is resolved. */
  lemma DisputedSettlesAtResolution(owner: AccountId, ts: seq<Transaction>, f: Id)
    requires f in History(owner, ts).fulfillments.rows && History(owner, ts).fulfillments.rows[f].status.DisputeOpened?
    ensures var s := History(owner, ts);
            var of := s.fulfillments.rows[f].contract;
            && of in s.contracts.rows
            && CountOf(Trades(s.settlements, s.contracts), of) == if s.contracts.rows[of].status.Disputed? then 0 else 1
  {
    hide History, Trades, CountOf;
    InvariantAlways(owner, ts);
    var s := History(owner, ts);
    StatusOf(s.fulfillments.rows, s.contracts.rows, f);
    var of := s.fulfillments.rows[f].contract;
    assert SettledInStep(s.contracts.rows[of].status, CountOf(Trades(s.settlements, s.contracts), of));
  }

  /** A contract has at most one fulfillment, so the arbitrator's scan finds the right one. */
  lemma TheFulfillmentIsFound(owner: AccountId, ts: seq<Transaction>, f: Id)
    requires f in History(owner, ts).fulfillments.rows
    ensures var s := History(owner, ts);
            FindFulfillment(s.fulfillments.keys, s.fulfillments.rows, s.fulfillments.rows[f].contract) == Some(f)
  {
    hide History, FindFulfillment;
    InvariantAlways(owner, ts);
    var s := History(owner, ts);
    FoundFulfillment(s.fulfillments.keys, s.fulfillments.rows, s.fulfillments.rows[f].contract);
    assert f in s.fulfillments.keys;
  }

  /** Whatever happens later, a contract's status only moves on; a final one stays. */
  lemma {:induction false} FinalIsFinal(owner: AccountId, ts: seq<Transaction>, more: seq<Transaction>, id: Id)
    requires id in History(owner, ts).contracts.rows && Final(History(owner, ts).contracts.rows[id].status)
    ensures id in History(owner, ts + more).contracts.rows
    ensures History(owner, ts + more).contracts.rows[id].status == History(owner, ts).contracts.rows[id].status
  {
    hide Invariant, After;
    if more == [] {
      assert ts + more == ts;
    } else {
      var before := more[..|more| - 1];
      FinalIsFinal(owner, ts, before, id);
      InvariantAlways(owner, ts + before);
      MovesOn(History(owner, ts + before), more[|more| - 1], id);
      assert ts + more == (ts + before) + [more[|more| - 1]];
      OneMore(owner, ts + before, more[|more| - 1]);
    }
  }

  lemma MovesOn(s: State, t: Transaction, id: Id)
    requires Invariant(s) && id in s.contracts.rows
    ensures id in After(s, t).contracts.rows && MayBecome(s.contracts.rows[id].status,
            After(s, t).contracts.rows[id].status)
  {
    hide Run, TablesOk, RefsOk, LogOk, Conserved, Owned, CteIndexOk, AllRated, AllRelated, Lifecycle, Priced, Applies;
    var c := CallMakes(s, t);
    if Run(s, t.caller, t.now, t.call).Done? { StatusMovesOn(s, After(s, t), c, id); }
  }

  predicate Untimed(ts: seq<Transaction>) {
    forall i :: 0 <= i < |ts| ==> !ts[i].call.CallTriggerAutoSettlement?
  }

  lemma OnceAtFirst(owner: AccountId)
    ensures Once(Initial(owner))
  {
  }

  lemma OnceKeptBy(s: State, t: Transaction)
    requires Invariant(s) && Once(s) && !t.call.CallTriggerAutoSettlement?
    ensures Once(After(s, t))
  {
    hide Run, TablesOk, RefsOk, LogOk, Conserved, Owned, CteIndexOk, AllRated, AllRelated, Lifecycle, Priced, Applies,
      Once, Completes, TradeRefs, CteRefs, PaperRefs;
    var c := CallMakes(s, t);
    RefsSplit(s);
    if Run(s, t.caller, t.now, t.call).Done? { OnceKept(s, After(s, t), c); }
  }

  lemma {:induction false} OnceAlways(owner: AccountId, ts: seq<Transaction>)
    requires Untimed(ts)
    ensures Once(History(owner, ts))
  {
    hide Invariant, After, Initial, Once;
    if ts == [] {
      OnceAtFirst(owner);
    } else {
      LastTransaction(owner, ts);
      OnceAlways(owner, ts[..|ts| - 1]);
      InvariantAlways(owner, ts[..|ts| - 1]);
      OnceKeptBy(History(owner, ts[..|ts| - 1]), ts[|ts| - 1]);
    }
  }

  /** As long as nobody settles by time, no contract is settled twice. */
  lemma SettledOnceIfUntimed(owner: AccountId, ts: seq<Transaction>, id: Id)
    requires Untimed(ts) && id in History(owner, ts).contracts.rows
    ensures var s := History(owner, ts);
            CountOf(Trades(s.settlements, s.contracts), id) == if Final(s.contracts.rows[id].status) then 1 else 0
  {
    hide History, Trades, CountOf;
    OnceAlways(owner, ts);
    ContractsAreInStep(owner, ts, id);
  }

  /** A call settles a contract for the first time exactly when it finds the contract other than Settled. */
  lemma FirstSettlementIff(owner: AccountId, ts: seq<Transaction>, t: Transaction, id: Id)
    requires var s, s' := History(owner, ts), History(owner, ts + [t]);
             && id in s.contracts.rows
             && CountOf(Trades(s'.settlements, s'.contracts), id) > CountOf(Trades(s.settlements, s.contracts), id)
    ensures var s, s' := History(owner, ts), History(owner, ts + [t]);
            CountOf(Trades(s'.settlements, s'.contracts), id) == 1 <==> !s.contracts.rows[id].status.Settled?
  {
    hide History, Run, Trades, CountOf, Applies, TablesOk, RefsOk, LogOk, Conserved, Owned, CteIndexOk, AllRated,
      AllRelated, Priced, TradeRefs, CteRefs, PaperRefs;
    InvariantAlways(owner, ts);
    OneMore(owner, ts, t);
    var s := History(owner, ts);
    var c := CallMakes(s, t);
    RefsSplit(s);
    TradesOfChange(s, After(s, t), c);
    CountAppend(Trades(s.settlements, s.contracts), TradeFor(s.contracts.rows, c.id, c.settlement), id);
    StepsOfChange(s, After(s, t), c);
    StatusOf(s.fulfillments.rows, s.contracts.rows, c.settlement.fulfillment);
    assert SettledInStep(s.contracts.rows[id].status, CountOf(Trades(s.settlements, s.contracts), id));
  }

  // ---- Prices ----

  lemma LandedCostWithinCeiling(owner: AccountId, ts: seq<Transaction>, id: Id)
    requires id in History(owner, ts).contracts.rows && History(owner, ts).contracts.rows[id].intent.Some?
    ensures var s := History(owner, ts);
            var c := s.contracts.rows[id];
            && c.intent.value in s.intents.rows
            && c.total + BuyersFreight(c.freight) <=
               s.intents.rows[c.intent.value].ceiling * s.intents.rows[c.intent.value].quantity / 1000
  {
    hide History;
    InvariantAlways(owner, ts);
    var s := History(owner, ts);
    assert CitedOk(s.contracts.rows[id], s.intents.rows, s.listings.rows, s.offers.rows);
  }

  /** No two contracts are formed from the same intent, listing or offer. */
  lemma FormedOnce(owner: AccountId, ts: seq<Transaction>, j: Id, k: Id)
    requires j in History(owner, ts).contracts.rows && k in History(owner, ts).contracts.rows && j != k
    ensures var a, b := History(owner, ts).contracts.rows[j], History(owner, ts).contracts.rows[k];
            a.offer != b.offer && (a.intent.Some? ==> a.intent != b.intent) &&
                (a.listing.Some? ==> a.listing != b.listing)
  {
    hide History;
    InvariantAlways(owner, ts);
    assert Apart(History(owner, ts).contracts.rows[j], History(owner, ts).contracts.rows[k]);
  }

  // ---- Indexes ----

  /** The audit index of an entity is the ascending list of exactly the log positions about it. */
  lemma AuditIndexIsAFullScan(owner: AccountId, ts: seq<Transaction>, entity: string)
    ensures var s := History(owner, ts);
            AscendingScan(s.log, entity, Entry(s.logIndex, entity))
  {
    hide History, AscendingScan;
    InvariantAlways(owner, ts);
    var s := History(owner, ts);
    assert Entry(s.logIndex, entity) == Positions(s.log, entity);
    PositionsScan(s.log, entity);
  }

  predicate AscendingScan(log: seq<AuditEvent>, entity: string, at: seq<nat>) {
    && (forall i, j :: 0 <= i < j < |at| ==> at[i] < at[j])
    && (forall i :: 0 <= i < |at| ==> at[i] < |log|)
    && (forall n :: 0 <= n < |log| ==> (n in at <==> log[n].entity == entity))
    && AtPositions(log, at) == About(log, entity)
  }

  lemma PositionsScan(log: seq<AuditEvent>, entity: string)
    ensures AscendingScan(log, entity, Positions(log, entity))
  {
    hide About, Positions;
    PositionsAscend(log, entity);
    AboutIsAtPositions(log, entity);
  }

  /** A lot's index lists, once each and in recording order, exactly the tracking events that name it. */
  lemma LotIndexIsAFullScan(owner: AccountId, ts: seq<Transaction>, l: Id)
    ensures var s := History(owner, ts);
            var ids, all := Entry(s.cteIndex, l), Trackings(s.ctes, s.lots);
            && ids == Naming(all, l)
            && (forall i, j :: 0 <= i < j < |ids| ==> ids[i] != ids[j])
            && (forall i :: 0 <= i < |all| ==> (all[i].id in ids <==> Names(all[i], l)))
  {
    hide History, Names, Naming, Entry;
    InvariantAlways(owner, ts);
    var s := History(owner, ts);
    IndexSays(s, l);
    CtesOk(s);
    var all := Trackings(s.ctes, s.lots);
    forall i, j | 0 <= i < j < |all| ensures all[i].id != all[j].id {
      assert all[i].id == s.ctes.keys[i] && all[j].id == s.ctes.keys[j];
    }
    NamingAscends(all, l);
  }
}
