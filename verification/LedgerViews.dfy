/**
 What the stores of the trade contract say, read as plain sequences in insertion order: the trades
 settled, the draws contracts make on lots, and what each tracking event names. The invariants of the
 other Ledger modules are sums and filters over these.
 */
module LedgerViews {
  import opened Wrappers
  import opened LedgerTypes
  import opened LedgerSteps

  // ---- Views ----

  /** A settlement with the parts of its contract that never change. */
  datatype Trade = Trade(id: Id, contract: Id, buyer: AccountId, seller: AccountId, lot: Option<Id>, quantity: nat,
      net: nat, at: nat)

  function TradeOf(settlements: map<Id, Settlement>, contracts: map<Id, Contract>, id: Id): Trade {
    if id in settlements && settlements[id].contract in contracts then
      var t, c := settlements[id], contracts[settlements[id].contract];
      Trade(id, t.contract, c.buyer, c.seller, c.lot, c.quantity, t.net, t.at)
    else Trade(id, "", "", "", None, 0, 0, 0)
  }

  function Trades(settlements: Table<Settlement>, contracts: Table<Contract>): seq<Trade> {
    seq(|settlements.keys|, i requires 0 <= i < |settlements.keys| =>
        TradeOf(settlements.rows, contracts.rows, settlements.keys[i]))
  }

  /** What a contract draws on a lot. */
  datatype Draw = Draw(lot: Option<Id>, amount: nat)

  function DrawOf(contracts: map<Id, Contract>, id: Id): Draw {
    if id in contracts then Draw(contracts[id].lot, contracts[id].quantity) else Draw(None, 0)
  }

  function Draws(contracts: Table<Contract>): seq<Draw> {
    seq(|contracts.keys|, i requires 0 <= i < |contracts.keys| => DrawOf(contracts.rows, contracts.keys[i]))
  }

  /** A tracking event with the inputs of the lot it made, if it made one. */
  datatype Tracking = Tracking(id: Id, lot: Id, output: Option<Id>, inputs: seq<InputRef>)

  function TrackingOf(ctes: map<Id, Cte>, lots: map<Id, Lot>, id: Id): Tracking {
    if id in ctes then
      var out := ctes[id].output;
      Tracking(id, ctes[id].lot, out, if out.Some? && out.value in lots then lots[out.value].inputs else [])
    else Tracking(id, "", None, [])
  }

  function Trackings(ctes: Table<Cte>, lots: Table<Lot>): seq<Tracking> {
    seq(|ctes.keys|, i requires 0 <= i < |ctes.keys| => TrackingOf(ctes.rows, lots.rows, ctes.keys[i]))
  }

  // ---- Sums and filters over views ----

  function Drawn(draws: seq<Draw>, lot: Id): nat {
    if draws == [] then 0
    else Drawn(draws[..|draws| - 1], lot) + if draws[|draws| - 1].lot == Some(lot) then draws[|draws| - 1].amount else 0
  }

  function Consumed(inputs: seq<InputRef>, lot: Id): nat {
    if inputs == [] then 0
    else Consumed(inputs[..|inputs| - 1], lot) + if inputs[|inputs| - 1].lot == lot then inputs[|inputs| - 1].amount
        else 0
  }

  /** The inputs counted are those of lots that `transform_lot` made: only its events have an output. */
  function Transformed(ts: seq<Tracking>, lot: Id): nat {
    if ts == [] then 0 else Transformed(ts[..|ts| - 1], lot) + Consumed(ts[|ts| - 1].inputs, lot)
  }

  function Appearances(ts: seq<Trade>, p: AccountId): nat {
    if ts == [] then 0
    else
      var t := ts[|ts| - 1];
      Appearances(ts[..|ts| - 1], p) + (if t.buyer == p then 1 else 0) + (if t.seller == p then 1 else 0)
  }

  /** The trades of one relationship, by its key. */
  function Between(ts: seq<Trade>, key: string): seq<Trade> {
    if ts == [] then []
    else
      var t := ts[|ts| - 1];
      Between(ts[..|ts| - 1], key) + if PairKey(t.buyer, t.seller) == key then [t] else []
  }

  function Volume(ts: seq<Trade>): nat {
    if ts == [] then 0 else Volume(ts[..|ts| - 1]) + ts[|ts| - 1].net
  }

  function CountOf(ts: seq<Trade>, contract: Id): nat {
    if ts == [] then 0 else CountOf(ts[..|ts| - 1], contract) + if ts[|ts| - 1].contract == contract then 1 else 0
  }

  /** The provenance a lot should carry: one entry for each settlement of each contract backed by it, in order. */
  function Moves(ts: seq<Trade>, lot: Id): seq<Provenance> {
    if ts == [] then []
    else
      var t := ts[|ts| - 1];
      Moves(ts[..|ts| - 1], lot) + if t.lot == Some(lot)
          then [Provenance(t.seller, t.buyer, t.quantity, t.contract, t.at)] else []
  }

  predicate Names(t: Tracking, lot: Id) {
    t.lot == lot || t.output == Some(lot) || exists k :: 0 <= k < |t.inputs| && t.inputs[k].lot == lot
  }

  /** A full scan of the recorded events for those that name a lot. */
  function Naming(ts: seq<Tracking>, lot: Id): seq<Id> {
    if ts == [] then []
    else Naming(ts[..|ts| - 1], lot) + if Names(ts[|ts| - 1], lot) then [ts[|ts| - 1].id] else []
  }

  /** A full scan of the audit log for the positions of one entity's events. */
  function Positions(log: seq<AuditEvent>, entity: string): seq<nat> {
    if log == [] then []
    else Positions(log[..|log| - 1], entity) + if log[|log| - 1].entity == entity then [|log| - 1] else []
  }

  /** The audit index says for every entity what a full scan of the log would. */
  ghost predicate LogOk(log: seq<AuditEvent>, index: map<string, seq<nat>>) {
    forall e: string :: Entry(index, e) == Positions(log, e)
  }

  // ---- How the views change ----

  /** The parts of a contract that the views show. */
  predicate SameTerms(a: Contract, b: Contract) {
    a.buyer == b.buyer && a.seller == b.seller && a.lot == b.lot && a.quantity == b.quantity
  }

  lemma TradesUnderContracts(settlements: Table<Settlement>, a: Table<Contract>, b: Table<Contract>)
    requires forall k :: k in settlements.rows ==>
                           settlements.rows[k].contract in a.rows && settlements.rows[k].contract in b.rows &&
                           SameTerms(a.rows[settlements.rows[k].contract], b.rows[settlements.rows[k].contract])
    ensures Trades(settlements, a) == Trades(settlements, b)
  {
    forall i | 0 <= i < |settlements.keys|
      ensures TradeOf(settlements.rows, a.rows, settlements.keys[i]) ==
              TradeOf(settlements.rows, b.rows, settlements.keys[i])
    {
    }
  }

  lemma TradesAppend(settlements: Table<Settlement>, contracts: Table<Contract>, id: Id, t: Settlement)
    requires settlements.Ok() && id !in settlements.rows
    ensures Trades(settlements.Put(id, t), contracts) ==
            Trades(settlements, contracts) + [TradeOf(settlements.Put(id, t).rows, contracts.rows, id)]
  {
    var after := settlements.Put(id, t);
    forall i | 0 <= i < |settlements.keys|
      ensures TradeOf(after.rows, contracts.rows, after.keys[i]) ==
              TradeOf(settlements.rows, contracts.rows, settlements.keys[i])
    {
      assert settlements.keys[i] in settlements.keys;
    }
  }

  lemma DrawsUnderContracts(a: Table<Contract>, b: Table<Contract>)
    requires a.keys == b.keys && a.rows.Keys == b.rows.Keys
    requires forall k :: k in a.rows && k in b.rows ==> SameTerms(a.rows[k], b.rows[k])
    ensures Draws(a) == Draws(b)
  {
    forall i | 0 <= i < |a.keys| ensures DrawOf(a.rows, a.keys[i]) == DrawOf(b.rows, b.keys[i]) {
      assert a.keys[i] in a.rows <==> a.keys[i] in a.rows.Keys;
      assert b.keys[i] in b.rows <==> b.keys[i] in b.rows.Keys;
    }
  }

  lemma DrawsAppend(contracts: Table<Contract>, id: Id, c: Contract)
    requires contracts.Ok() && id !in contracts.rows
    ensures Draws(contracts.Put(id, c)) == Draws(contracts) + [Draw(c.lot, c.quantity)]
  {
    var after := contracts.Put(id, c);
    forall i | 0 <= i < |contracts.keys| ensures DrawOf(after.rows, after.keys[i]) ==
        DrawOf(contracts.rows, contracts.keys[i]) {
      assert contracts.keys[i] in contracts.keys;
    }
  }

  /** Lots may change, but not their inputs, and not which ones events have made. */
  predicate SameInputs(ctes: Table<Cte>, a: Table<Lot>, b: Table<Lot>) {
    forall k :: k in ctes.rows && ctes.rows[k].output.Some? ==>
      ctes.rows[k].output.value in a.rows && ctes.rows[k].output.value in b.rows &&
      a.rows[ctes.rows[k].output.value].inputs == b.rows[ctes.rows[k].output.value].inputs
  }

  lemma TrackingsUnderLots(ctes: Table<Cte>, a: Table<Lot>, b: Table<Lot>)
    requires ctes.Ok() && SameInputs(ctes, a, b)
    ensures Trackings(ctes, a) == Trackings(ctes, b)
  {
    forall i | 0 <= i < |ctes.keys| ensures TrackingOf(ctes.rows, a.rows, ctes.keys[i]) ==
        TrackingOf(ctes.rows, b.rows, ctes.keys[i]) {
      assert ctes.keys[i] in ctes.keys;
    }
  }

  lemma TrackingsAppend(ctes: Table<Cte>, lots: Table<Lot>, id: Id, c: Cte)
    requires ctes.Ok() && id !in ctes.rows
    ensures Trackings(ctes.Put(id, c), lots) == Trackings(ctes,
            lots) + [TrackingOf(ctes.Put(id, c).rows, lots.rows, id)]
  {
    var after := ctes.Put(id, c);
    forall i | 0 <= i < |ctes.keys| ensures TrackingOf(after.rows, lots.rows, after.keys[i]) ==
        TrackingOf(ctes.rows, lots.rows, ctes.keys[i]) {
      assert ctes.keys[i] in ctes.keys;
    }
  }

  /** Appending to a sequence and taking the last off again. */
  lemma AppendLast<T>(s: seq<T>, x: T)
    ensures (s + [x])[..|s + [x]| - 1] == s && (s + [x])[|s + [x]| - 1] == x
  {
  }

  // ---- Ids and references ----

  ghost predicate Numbered(keys: set<Id>, prefix: string, counter: nat) {
    forall k :: k in keys ==> exists n: nat :: n <= counter && k == IdFor(prefix, n)
  }

  /** A table in order whose ids come from the counter. */
  ghost predicate TableOk<T>(t: Table<T>, prefix: string, counter: nat) {
    t.Ok() && Numbered(t.rows.Keys, prefix, counter)
  }

  lemma NextIsNew<T>(t: Table<T>, prefix: string, counter: nat, next: nat)
    requires TableOk(t, prefix, counter) && counter < next
    ensures IdFor(prefix, next) !in t.rows
  {
    if IdFor(prefix, next) in t.rows {
      var n: nat :| n <= counter && IdFor(prefix, next) == IdFor(prefix, n);
      IdInjective(prefix, n, next);
    }
  }

  lemma TableLater<T>(t: Table<T>, prefix: string, counter: nat, later: nat)
    requires TableOk(t, prefix, counter) && counter <= later
    ensures TableOk(t, prefix, later)
  {
    forall k | k in t.rows.Keys ensures exists n: nat :: n <= later && k == IdFor(prefix, n) {
      var n: nat :| n <= counter && k == IdFor(prefix, n);
    }
  }

  /** At most one row was written: an old one, or a new one under the next id. */
  predicate Grew<T>(a: Table<T>, b: Table<T>, prefix: string, counter: nat, later: nat) {
    && counter <= later
    && ((b.keys == a.keys && b.rows.Keys == a.rows.Keys)
        || (counter < later && b.keys == a.keys + [IdFor(prefix, counter + 1)] &&
           b.rows.Keys == a.rows.Keys + {IdFor(prefix, counter + 1)}))
  }

  lemma PutOldGrew<T>(t: Table<T>, prefix: string, counter: nat, later: nat, k: Id, v: T)
    requires counter <= later && k in t.rows
    ensures Grew(t, t.Put(k, v), prefix, counter, later)
  {
    assert t.Put(k, v).rows.Keys == t.rows.Keys;
  }

  lemma PutNewGrew<T>(t: Table<T>, prefix: string, counter: nat, later: nat, v: T)
    requires counter < later && IdFor(prefix, counter + 1) !in t.rows
    ensures Grew(t, t.Put(IdFor(prefix, counter + 1), v), prefix, counter, later)
  {
    var id := IdFor(prefix, counter + 1);
    assert t.Put(id, v).rows.Keys == t.rows.Keys + {id};
  }

  lemma GrewOk<T>(a: Table<T>, b: Table<T>, prefix: string, counter: nat, later: nat)
    requires TableOk(a, prefix, counter) && Grew(a, b, prefix, counter, later)
    ensures TableOk(b, prefix, later)
  {
    TableLater(a, prefix, counter, later);
    if b.keys != a.keys {
      var id := IdFor(prefix, counter + 1);
      if id in a.rows {
        var n: nat :| n <= counter && id == IdFor(prefix, n);
        IdInjective(prefix, n, counter + 1);
      }
      forall i, j | 0 <= i < j < |b.keys| ensures b.keys[i] != b.keys[j] {
        assert b.keys[i] in a.keys;
      }
    }
  }

  /** Every store is in order, with ids of its own kind. */
  ghost predicate TablesOk(s: State) {
    && TableOk(s.lots, "lot-", s.counter)
    && TableOk(s.intents, "int-", s.counter)
    && TableOk(s.listings, "lst-", s.counter)
    && TableOk(s.offers, "off-", s.counter)
    && TableOk(s.contracts, "ctr-", s.counter)
    && TableOk(s.fulfillments, "ful-", s.counter)
    && TableOk(s.settlements, "set-", s.counter)
    && TableOk(s.ctes, "cte-", s.counter)
  }

  /** Nothing refers to a party, lot or contract that is not there. */
  predicate RefsOk(s: State) {
    && (forall k :: k in s.intents.rows ==> s.intents.rows[k].buyer in s.parties)
    && (forall k :: k in s.listings.rows ==>
          s.listings.rows[k].seller in s.parties &&
          InLots(s.lots, s.listings.rows[k].lot))
    && (forall k :: k in s.offers.rows ==> s.offers.rows[k].offerer in s.parties)
    && (forall k :: k in s.contracts.rows ==>
          s.contracts.rows[k].buyer in s.parties && s.contracts.rows[k].seller in s.parties &&
          InLots(s.lots, s.contracts.rows[k].lot))
    && (forall k :: k in s.settlements.rows ==> s.settlements.rows[k].contract in s.contracts.rows)
    && (forall k :: k in s.ctes.rows ==> CteOk(s.lots, s.ctes.rows[k]))
  }

  predicate InLots(lots: Table<Lot>, lot: Option<Id>) {
    lot.Some? ==> lot.value in lots.rows
  }

  predicate CteOk(lots: Table<Lot>, c: Cte) {
    && c.lot in lots.rows
    && InLots(lots, c.output)
    && (c.output.Some? ==> forall k :: 0 <= k < |lots.rows[c.output.value].inputs| ==>
       lots.rows[c.output.value].inputs[k].lot in lots.rows)
  }
}
