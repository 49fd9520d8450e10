/**
 Lots: no quantity is ever lost or made up, and ownership follows the settlements.

 Both are facts about a lot that its own record does not tell. What is available of it, what the contracts
 it backs draw on it and what other lots were made of add up to its total, where a lot listed twice among
 the inputs of one transform counts twice. Its provenance has one entry for each settlement of each
 contract it backs, in the order in which they were settled, and its owner is whoever the last entry
 names, or the one who began it if there is none. Each kind of change is shown to keep both on its own,
 and then all of them together.
 */
module LedgerLots {
  import opened Wrappers
  import opened LedgerTypes
  import opened LedgerSteps
  import opened LedgerViews
  import opened LedgerEffects
  import opened LedgerRecords

  // ---- Quantity ----

  predicate StatusFits(lot: Lot) {
    && (lot.status.Available? ==> lot.available == lot.total)
    && (lot.status.FullyAllocated? ==> lot.available == 0)
  }

  /** A lot's total is what is available, what contracts draw and what transforms consume. */
  predicate Balanced(lots: map<Id, Lot>, draws: seq<Draw>, ts: seq<Tracking>, l: Id) {
    if l in lots then lots[l].total == lots[l].available + Drawn(draws, l) + Transformed(ts, l) && StatusFits(lots[l])
    else Drawn(draws, l) == 0 && Transformed(ts, l) == 0
  }

  ghost predicate Conserved(s: State) {
    forall l: Id :: Balanced(s.lots.rows, Draws(s.contracts), Trackings(s.ctes, s.lots), l)
  }

  lemma {:induction false} ConsumedOnlyIfTouched(inputs: seq<InputRef>, l: Id)
    requires !Touched(inputs, l)
    ensures Consumed(inputs, l) == 0
  {
    if inputs != [] {
      TouchedLast(inputs, l);
      ConsumedOnlyIfTouched(inputs[..|inputs| - 1], l);
    }
  }

  lemma TransformedAppend(ts: seq<Tracking>, t: Tracking, l: Id)
    ensures Transformed(ts + [t], l) == Transformed(ts, l) + Consumed(t.inputs, l)
  {
    AppendLast(ts, t);
  }

  lemma DrawnAppend(draws: seq<Draw>, d: Draw, l: Id)
    ensures Drawn(draws + [d], l) == Drawn(draws, l) + if d.lot == Some(l) then d.amount else 0
  {
    AppendLast(draws, d);
  }

  lemma BalancedAfterDebit(a: Lot, b: Lot, inputs: seq<InputRef>, l: Id)
    requires DebitedRow(a, b, inputs, l) && StatusFits(a)
    ensures b.total == a.total && a.available == b.available + Consumed(inputs, l) && StatusFits(b)
  {
    if !Touched(inputs, l) { ConsumedOnlyIfTouched(inputs, l); }
  }

  lemma BalancedByTransform(lots: Table<Lot>, draws: seq<Draw>, ts: seq<Tracking>, inputs: seq<InputRef>,
                            debited: Table<Lot>, id: Id, lot: Lot, t: Tracking, l: Id)
    requires Balanced(lots.rows, draws, ts, l) && DebitedTable(lots, debited, inputs) && id !in lots.rows
    requires lot.total == lot.available && lot.status.Available? && t.inputs == inputs
    ensures Balanced(debited.Put(id, lot).rows, draws, ts + [t], l)
  {
    hide DebitedRow, Touched, StatusFits, Drawn, Transformed, Consumed;
    TransformedAppend(ts, t, l);
    if l in lots.rows {
      BalancedAfterDebit(lots.rows[l], debited.rows[l], inputs, l);
    } else {
      assert l !in debited.rows by { assert l !in debited.rows.Keys; }
      if Touched(inputs, l) { TouchedIsThere(lots, inputs, l); }
      ConsumedOnlyIfTouched(inputs, l);
      if l == id { NewFits(lot); }
    }
  }

  lemma TouchedIsThere(lots: Table<Lot>, inputs: seq<InputRef>, l: Id)
    requires (forall i :: 0 <= i < |inputs| ==> inputs[i].lot in lots.rows) && Touched(inputs, l)
    ensures l in lots.rows
  {
  }

  lemma NewFits(lot: Lot)
    requires lot.total == lot.available && lot.status.Available?
    ensures StatusFits(lot)
  {
  }

  lemma BalancedByForming(lots: Table<Lot>, draws: seq<Draw>, ts: seq<Tracking>, c: Contract, l: Id)
    requires Balanced(lots.rows, draws, ts, l) && Backed(lots, c)
    ensures Balanced(DrawnLots(lots, c).rows, draws + [Draw(c.lot, c.quantity)], ts, l)
  {
    DrawnAppend(draws, Draw(c.lot, c.quantity), l);
  }

  lemma BalancedBySettling(lots: Table<Lot>, draws: seq<Draw>, ts: seq<Tracking>, c: Contract, id: Id, at: nat, l: Id)
    requires Balanced(lots.rows, draws, ts, l) && InLots(lots, c.lot)
    ensures Balanced(MovedLots(lots, c, id, at).rows, draws, ts, l)
  {
  }

  lemma BalancedByMaking(lots: Table<Lot>, draws: seq<Draw>, ts: seq<Tracking>, id: Id, lot: Lot, l: Id)
    requires Balanced(lots.rows, draws, ts, l) && id !in lots.rows && lot.total == lot.available &&
             lot.status.Available?
    ensures Balanced(lots.Put(id, lot).rows, draws, ts, l)
  {
  }

  lemma BalancedByDisposing(lots: Table<Lot>, draws: seq<Draw>, ts: seq<Tracking>, id: Id, d: LotStatus, l: Id)
    requires Balanced(lots.rows, draws, ts, l) && id in lots.rows && (d.Spoiled? || d.Donated? || d.Recalled?)
    ensures Balanced(lots.Put(id, lots.rows[id].(status := d)).rows, draws, ts, l)
  {
  }

  /** What a change does to the lots. */
  lemma LotsOfChange(s: State, s': State, c: Change)
    requires TableOk(s.lots, "lot-", s.counter) && Applies(s, s', c)
    ensures match c
      case LotMade(id, lot) => id !in s.lots.rows && s'.lots == s.lots.Put(id, lot) && lot.total == lot.available &&
          lot.status.Available? && lot.provenance == [] && lot.owner == lot.origin
      case LotDisposed(id, d) => id in s.lots.rows && (d.Spoiled? || d.Donated? || d.Recalled?) &&
          s'.lots == s.lots.Put(id, s.lots.rows[id].(status := d))
      case LotsMadeInto(inputs, id, lot, cteId, cte, debited) =>
        id !in s.lots.rows && DebitedTable(s.lots, debited, inputs) && s'.lots == debited.Put(id, lot) &&
            lot.total == lot.available && lot.status.Available? && lot.provenance == [] && lot.owner == lot.origin
      case Formed(id, contract) => Backed(s.lots, contract) && s'.lots == DrawnLots(s.lots, contract)
      case Settling(id, t, loser, final) =>
        t.contract in s.contracts.rows && InLots(s.lots, s.contracts.rows[t.contract].lot) &&
        s'.lots == MovedLots(s.lots, s.contracts.rows[t.contract], t.contract, t.at)
      case _ => s'.lots == s.lots
  {
    hide TableOk, IdFor, DebitAll, Indexed, IndexedAll, DebitedTable, PapersKept, Cites, PartiesKept,
      RelationshipsKept, RatedParties, Traded, PairKey, RelationshipAt;
    match c
    case LotMade(id, lot) => NextIsNew(s.lots, "lot-", s.counter, s.counter + 1);
    case LotsMadeInto(inputs, id, lot, cteId, cte, debited) =>
      DebitAllEffect(s, cte.actor, inputs);
      NextIsNew(s.lots, "lot-", s.counter, s.counter + 1);
    case _ =>
  }

  lemma BalancedKept(s: State, s': State, c: Change, l: Id)
    requires TablesOk(s) && CteRefs(s) && Applies(s, s', c)
    requires Balanced(s.lots.rows, Draws(s.contracts), Trackings(s.ctes, s.lots), l)
    ensures Balanced(s'.lots.rows, Draws(s'.contracts), Trackings(s'.ctes, s'.lots), l)
  {
    hide Applies, TableOk, Balanced, Draws, Trackings, CteRefs, Transformed, DebitedTable;
    var draws, ts := Draws(s.contracts), Trackings(s.ctes, s.lots);
    LotsOfChange(s, s', c);
    DrawsOfChange(s, s', c);
    TrackingsOfChange(s, s', c);
    match c
    case LotMade(id, lot) => BalancedByMaking(s.lots, draws, ts, id, lot, l);
    case LotDisposed(id, d) => BalancedByDisposing(s.lots, draws, ts, id, d, l);
    case Tracked(id, cte) => BalancedByTracking(s.lots.rows, draws, ts, Noted(c), l);
    case LotsMadeInto(inputs, id, lot, cteId, cte, debited) =>
      BalancedByTransform(s.lots, draws, ts, inputs, debited, id, lot, Noted(c), l);
    case Formed(id, contract) => BalancedByForming(s.lots, draws, ts, contract, l);
    case Settling(id, t, loser, final) => BalancedBySettling(s.lots, draws, ts, s.contracts.rows[t.contract],
        t.contract, t.at, l);
    case _ =>
  }

  lemma BalancedByTracking(lots: map<Id, Lot>, draws: seq<Draw>, ts: seq<Tracking>, t: Tracking, l: Id)
    requires Balanced(lots, draws, ts, l) && t.inputs == []
    ensures Balanced(lots, draws, ts + [t], l)
  {
    TransformedAppend(ts, t, l);
  }

  lemma ConservedKept(s: State, s': State, c: Change)
    requires TablesOk(s) && CteRefs(s) && Applies(s, s', c) && Conserved(s)
    ensures Conserved(s')
  {
    hide Applies, TablesOk, Balanced, Draws, Trackings, CteRefs;
    forall l: Id ensures Balanced(s'.lots.rows, Draws(s'.contracts), Trackings(s'.ctes, s'.lots), l) {
      BalancedKept(s, s', c, l);
    }
  }

  // ---- Ownership ----

  function OwnerBy(lot: Lot): AccountId {
    if lot.provenance == [] then lot.origin else lot.provenance[|lot.provenance| - 1].to
  }

  /** A lot's provenance lists the settlements of the contracts it backs, and its owner is the last recipient. */
  predicate Traced(lots: map<Id, Lot>, trades: seq<Trade>, l: Id) {
    if l in lots then lots[l].provenance == Moves(trades, l) && lots[l].owner == OwnerBy(lots[l])
    else Moves(trades, l) == []
  }

  ghost predicate Owned(s: State) {
    forall l: Id :: Traced(s.lots.rows, Trades(s.settlements, s.contracts), l)
  }

  predicate SameHands(a: map<Id, Lot>, b: map<Id, Lot>, l: Id) {
    && (l in a ==>
          l in b && b[l].provenance == a[l].provenance && b[l].owner == a[l].owner &&
          b[l].origin == a[l].origin)
    && (l !in a && l in b ==> b[l].provenance == [] && b[l].owner == b[l].origin)
  }

  lemma MovesAppend(ts: seq<Trade>, t: Trade, l: Id)
    ensures Moves(ts + [t], l) == Moves(ts, l) + if t.lot == Some(l)
            then [Provenance(t.seller, t.buyer, t.quantity, t.contract, t.at)] else []
  {
    AppendLast(ts, t);
  }

  lemma TracedBySettling(lots: Table<Lot>, contracts: map<Id, Contract>, trades: seq<Trade>, id: Id, t: Settlement,
                         l: Id)
    requires t.contract in contracts && InLots(lots, contracts[t.contract].lot)
    requires Traced(lots.rows, trades, l)
    ensures Traced(MovedLots(lots, contracts[t.contract], t.contract, t.at).rows,
            trades + [TradeFor(contracts, id, t)], l)
  {
    hide Moves;
    MovesAppend(trades, TradeFor(contracts, id, t), l);
  }

  lemma HandsOfChange(s: State, s': State, c: Change, l: Id)
    requires TableOk(s.lots, "lot-", s.counter) && Applies(s, s', c) && !c.Settling?
    ensures SameHands(s.lots.rows, s'.lots.rows, l)
  {
    hide Applies, TableOk, DebitedTable;
    LotsOfChange(s, s', c);
    if c.LotsMadeInto? { HandsByDebit(s.lots, c.debited, c.inputs, l); }
  }

  lemma HandsByDebit(a: Table<Lot>, b: Table<Lot>, inputs: seq<InputRef>, l: Id)
    requires DebitedTable(a, b, inputs)
    ensures SameHands(a.rows, b.rows, l) && (l in a.rows <==> l in b.rows)
  {
    assert l in a.rows <==> l in a.rows.Keys;
    assert l in b.rows <==> l in b.rows.Keys;
    if l in a.rows { assert DebitedRow(a.rows[l], b.rows[l], inputs, l); }
  }

  lemma OwnedKept(s: State, s': State, c: Change)
    requires TablesOk(s) && TradeRefs(s) && Applies(s, s', c) && Owned(s)
    ensures Owned(s')
  {
    hide Applies, TableOk, TradeRefs, Traced, Trades, SameHands;
    TradesOfChange(s, s', c);
    var trades := Trades(s.settlements, s.contracts);
    forall l: Id ensures Traced(s'.lots.rows, Trades(s'.settlements, s'.contracts), l) {
      assert Traced(s.lots.rows, trades, l);
      if c.Settling? {
        LotsOfChange(s, s', c);
        TracedBySettling(s.lots, s.contracts.rows, trades, c.id, c.settlement, l);
      } else {
        HandsOfChange(s, s', c, l);
        TracedInSameHands(s.lots.rows, s'.lots.rows, trades, l);
      }
    }
  }

  lemma TracedInSameHands(a: map<Id, Lot>, b: map<Id, Lot>, trades: seq<Trade>, l: Id)
    requires Traced(a, trades, l) && SameHands(a, b, l)
    ensures Traced(b, trades, l)
  {
  }
}
