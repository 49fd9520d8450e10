/**
 Contracts, fulfillments and settlements move together: at most one fulfillment to a contract, no
 settlement before its time, and never a way back.

 The status of a contract says which statuses its fulfillment may have and whether it has been settled:
 not at all before it is final, exactly once if an arbitrator ended it, and at least once if it is
 Settled. That much every change keeps, and with it the order of the statuses: Active, in fulfillment,
 then Settled, or disputed and resolved. That a Settled contract was settled only once is kept by every
 change but one, settlement by time, and so it is stated apart, for changes that complete the fulfillment
 they settle.
 */
module LedgerLifecycle {
  import opened Wrappers
  import opened LedgerTypes
  import opened LedgerSteps
  import opened LedgerViews
  import opened LedgerEffects
  import opened LedgerRecords

  // ---- The invariant ----

  predicate Final(status: ContractStatus) {
    status.Settled? || status.ResolvedBuyer? || status.ResolvedSeller?
  }

  /** How far a contract is and how far its fulfillment is. */
  predicate InStep(c: ContractStatus, f: FulfillmentStatus) {
    match c
    case InFulfillment => f == SellerAttested
    case Settled => f == SellerAttested || f == Complete
    case Disputed => f == DisputeOpened
    case ResolvedBuyer => f == DisputeOpened
    case ResolvedSeller => f == DisputeOpened
    case _ => false
  }

  /** Every fulfillment is for a contract that is in step with it, and for one that no other fulfillment is for. */
  ghost predicate Fulfilling(fs: map<Id, Fulfillment>, cs: map<Id, Contract>) {
    && (forall f :: f in fs ==> fs[f].contract in cs && InStep(cs[fs[f].contract].status, fs[f].status))
    && (forall f, g :: f in fs && g in fs && fs[f].contract == fs[g].contract ==> f == g)
  }

  /** A contract is Active until it has a fulfillment; Delivered and Cancelled are never seen between calls. */
  ghost predicate Started(fs: map<Id, Fulfillment>, cs: map<Id, Contract>) {
    forall c :: c in cs ==>
      && (cs[c].status.Active? <==> Unfulfilled(fs, c))
      && !cs[c].status.Delivered? && !cs[c].status.Cancelled?
  }

  predicate Unfulfilled(fs: map<Id, Fulfillment>, c: Id) {
    forall f :: f in fs ==> fs[f].contract != c
  }

  /** A contract has been settled once it is in a final state, and only then; by an arbitrator, exactly once. */
  predicate SettledInStep(c: ContractStatus, count: nat) {
    && (count > 0 <==> Final(c))
    && (c.ResolvedBuyer? || c.ResolvedSeller? ==> count == 1)
  }

  ghost predicate Counted(cs: map<Id, Contract>, trades: seq<Trade>) {
    && (forall c :: c in cs ==> SettledInStep(cs[c].status, CountOf(trades, c)))
    && (forall c: Id :: c !in cs ==> CountOf(trades, c) == 0)
  }

  ghost predicate Lifecycle(s: State) {
    && Fulfilling(s.fulfillments.rows, s.contracts.rows)
    && Started(s.fulfillments.rows, s.contracts.rows)
    && Counted(s.contracts.rows, Trades(s.settlements, s.contracts))
  }

  // ---- Kept by every change ----

  lemma CountAppend(ts: seq<Trade>, t: Trade, c: Id)
    ensures CountOf(ts + [t], c) == CountOf(ts, c) + if t.contract == c then 1 else 0
  {
    AppendLast(ts, t);
  }

  lemma FormingKeepsStep(fs: map<Id, Fulfillment>, cs: map<Id, Contract>, trades: seq<Trade>, id: Id, c: Contract)
    requires Fulfilling(fs, cs) && Started(fs, cs) && Counted(cs, trades) && id !in cs && c.status == Active
    ensures Fulfilling(fs, cs[id := c]) && Started(fs, cs[id := c]) && Counted(cs[id := c], trades)
  {
    hide CountOf, InStep;
    assert Unfulfilled(fs, id);
  }

  lemma AttestingKeepsStep(fs: map<Id, Fulfillment>, cs: map<Id, Contract>, trades: seq<Trade>, id: Id, of: Id, at: nat)
    requires Fulfilling(fs, cs) && Started(fs, cs) && Counted(cs, trades) && id !in fs && of in cs
    requires (cs[of].status.Active? || cs[of].status.InFulfillment?) && Unfulfilled(fs, of)
    ensures var fs', cs' := fs[id := Fulfillment(of, at, SellerAttested)], cs[of := cs[of].(status := InFulfillment)];
            Fulfilling(fs', cs') && Started(fs', cs') && Counted(cs', trades)
  {
    hide CountOf;
    var fs', cs' := fs[id := Fulfillment(of, at, SellerAttested)], cs[of := cs[of].(status := InFulfillment)];
    forall c | c in cs' ensures cs'[c].status.Active? <==> Unfulfilled(fs', c) {
      if c == of { assert fs'[id].contract == c; }
      else {
        assert cs[c].status.Active? <==> Unfulfilled(fs, c);
        UnfulfilledElsewhere(fs, id, Fulfillment(of, at, SellerAttested), c);
      }
    }
  }

  lemma UnfulfilledElsewhere(fs: map<Id, Fulfillment>, id: Id, f: Fulfillment, c: Id)
    requires f.contract != c && (id in fs ==> fs[id].contract != c)
    ensures Unfulfilled(fs[id := f], c) <==> Unfulfilled(fs, c)
  {
    if Unfulfilled(fs[id := f], c) {
      forall g | g in fs ensures fs[g].contract != c {
        if g != id { assert fs[id := f][g] == fs[g]; }
      }
    }
  }

  lemma SameFulfillments(fs: map<Id, Fulfillment>, id: Id, f: Fulfillment, c: Id)
    requires id in fs && f.contract == fs[id].contract
    ensures Unfulfilled(fs[id := f], c) <==> Unfulfilled(fs, c)
  {
    if f.contract == c { assert fs[id := f][id].contract == c; }
    else { UnfulfilledElsewhere(fs, id, f, c); }
  }

  /** A contract and its fulfillment moving on together. */
  lemma MovingKeepsStep(fs: map<Id, Fulfillment>, cs: map<Id, Contract>, id: Id, f: FulfillmentStatus,
                        c: ContractStatus)
    requires Fulfilling(fs, cs) && Started(fs, cs) && id in fs && InStep(c, f)
    ensures var fs' := fs[id := fs[id].(status := f)];
            var cs' := cs[fs[id].contract := cs[fs[id].contract].(status := c)];
            Fulfilling(fs', cs') && Started(fs', cs')
  {
    var fs', of := fs[id := fs[id].(status := f)], fs[id].contract;
    var cs' := cs[of := cs[of].(status := c)];
    assert Fulfilling(fs', cs');
    forall k | k in cs' ensures cs'[k].status.Active? <==> Unfulfilled(fs', k) {
      SameFulfillments(fs, id, fs[id].(status := f), k);
      if k == of { assert fs[id].contract == k; }
    }
  }

  lemma DisputingKeepsCount(cs: map<Id, Contract>, trades: seq<Trade>, of: Id)
    requires Counted(cs, trades) && of in cs && !Final(cs[of].status)
    ensures Counted(cs[of := cs[of].(status := Disputed)], trades)
  {
    hide CountOf;
  }

  lemma SettlingKeepsCount(cs: map<Id, Contract>, trades: seq<Trade>, id: Id, t: Settlement, final: ContractStatus)
    requires Counted(cs, trades) && t.contract in cs && Final(final)
    requires !final.Settled? ==> !Final(cs[t.contract].status)
    ensures Counted(cs[t.contract := cs[t.contract].(status := final)], trades + [TradeFor(cs, id, t)])
  {
    hide CountOf;
    var trade, cs' := TradeFor(cs, id, t), cs[t.contract := cs[t.contract].(status := final)];
    forall c | c in cs' ensures SettledInStep(cs'[c].status, CountOf(trades + [trade], c)) {
      CountAppend(trades, trade, c);
    }
    forall c: Id | c !in cs' ensures CountOf(trades + [trade], c) == 0 {
      CountAppend(trades, trade, c);
    }
  }

  /** What a change does to contracts and fulfillments. */
  lemma StepsOfChange(s: State, s': State, c: Change)
    requires Applies(s, s', c)
    ensures match c
      case Formed(id, contract) => s'.contracts == s.contracts.Put(id, contract) &&
          s'.fulfillments == s.fulfillments && contract.status == Active
      case Attested(id, of, at) => Attests(s, s', id, of, at)
      case Disputing(id) => Disputes(s, s', id)
      case Settling(id, t, loser, final) =>
        && t.fulfillment in s.fulfillments.rows && s.fulfillments.rows[t.fulfillment].contract == t.contract &&
           t.contract in s.contracts.rows
        && s'.contracts == s.contracts.Put(t.contract, s.contracts.rows[t.contract].(status := final))
        && (Undisputed(s, s', t.fulfillment, s.fulfillments.rows[t.fulfillment], loser, final)
            || Resolved(s, s', s.contracts.rows[t.contract], loser, final))
      case _ => s'.contracts == s.contracts && s'.fulfillments == s.fulfillments
  {
    hide IdFor, DebitAll, Indexed, IndexedAll, PapersKept, Cites, PartiesKept, RelationshipsKept, RatedParties,
      Traded, PairKey, RelationshipAt, MovedLots, DrawnLots, Logged, SameBooks, SameLots, SamePapers, Attests,
      Disputes;
  }

  lemma LifecycleKeptForming(s: State, s': State, c: Change)
    requires TablesOk(s) && TradeRefs(s) && Applies(s, s', c) && Lifecycle(s) && c.Formed?
    ensures Lifecycle(s')
  {
    hide Applies, TablesOk, TradeRefs, Trades, Fulfilling, Started, Counted, TableOk;
    assert c.id !in s.contracts.rows by { hide TradeRefs; TermsOfFormingIn(s, s', c); }
    TradesOfChange(s, s', c);
    StepsOfChange(s, s', c);
    FormingKeepsStep(s.fulfillments.rows, s.contracts.rows, Trades(s.settlements, s.contracts), c.id, c.contract);
  }

  lemma TermsOfFormingIn(s: State, s': State, c: Change)
    requires TablesOk(s) && Applies(s, s', c) && c.Formed?
    ensures c.id !in s.contracts.rows
  {
    hide Applies, TableOk;
    TermsOfForming(s, s', c);
  }

  lemma FulfillmentIsNew(s: State, s': State, c: Change)
    requires TablesOk(s) && Applies(s, s', c) && c.Attested?
    ensures c.id !in s.fulfillments.rows
  {
    hide IdFor, TableOk, SameLots, SameBooks, SamePapers, Logged;
    NextIsNew(s.fulfillments, "ful-", s.counter, s.counter + 1);
  }

  lemma LifecycleKeptAttesting(s: State, s': State, c: Change)
    requires TablesOk(s) && TradeRefs(s) && Applies(s, s', c) && Lifecycle(s) && c.Attested?
    ensures Lifecycle(s')
  {
    hide Applies, TablesOk, TradeRefs, Trades, Fulfilling, Started, Counted, TableOk, IdFor, Logged, SameLots,
      SameBooks, SamePapers;
    TradesOfChange(s, s', c);
    StepsOfChange(s, s', c);
    FulfillmentIsNew(s, s', c);
    AttestingKeepsStep(s.fulfillments.rows, s.contracts.rows, Trades(s.settlements, s.contracts), c.id, c.of, c.at);
  }

  lemma LifecycleKeptDisputing(s: State, s': State, c: Change)
    requires TablesOk(s) && TradeRefs(s) && Applies(s, s', c) && Lifecycle(s) && c.Disputing?
    ensures Lifecycle(s')
  {
    hide Applies, TablesOk, TradeRefs, Trades, Fulfilling, Started, Counted, TableOk, IdFor, Logged, SameLots,
      SameBooks, SamePapers;
    TradesOfChange(s, s', c);
    StepsOfChange(s, s', c);
    MovingKeepsStep(s.fulfillments.rows, s.contracts.rows, c.id, DisputeOpened, Disputed);
    DisputingKeepsCount(s.contracts.rows, Trades(s.settlements, s.contracts), s.fulfillments.rows[c.id].contract);
  }

  lemma StatusOf(fs: map<Id, Fulfillment>, cs: map<Id, Contract>, f: Id)
    requires Fulfilling(fs, cs) && f in fs
    ensures fs[f].contract in cs && InStep(cs[fs[f].contract].status, fs[f].status)
    ensures fs[f := fs[f].(status := fs[f].status)] == fs
  {
  }

  lemma LifecycleKeptSettling(s: State, s': State, c: Change)
    requires TablesOk(s) && TradeRefs(s) && Applies(s, s', c) && Lifecycle(s) && c.Settling?
    ensures Lifecycle(s')
  {
    hide Applies, TablesOk, TradeRefs, Trades, Fulfilling, Started, Counted, TableOk, IdFor;
    TradesOfChange(s, s', c);
    StepsOfChange(s, s', c);
    var f := c.settlement.fulfillment;
    StatusOf(s.fulfillments.rows, s.contracts.rows, f);
    MovingKeepsStep(s.fulfillments.rows, s.contracts.rows, f, s'.fulfillments.rows[f].status, c.final);
    SettlingKeepsCount(s.contracts.rows, Trades(s.settlements, s.contracts), c.id, c.settlement, c.final);
  }

  lemma LifecycleKept(s: State, s': State, c: Change)
    requires TablesOk(s) && TradeRefs(s) && Applies(s, s', c) && Lifecycle(s)
    ensures Lifecycle(s')
  {
    hide Applies, TablesOk, TradeRefs, Trades, Fulfilling, Started, Counted;
    if c.Formed? { LifecycleKeptForming(s, s', c); }
    else if c.Attested? { LifecycleKeptAttesting(s, s', c); }
    else if c.Disputing? { LifecycleKeptDisputing(s, s', c); }
    else if c.Settling? { LifecycleKeptSettling(s, s', c); }
    else {
      StepsOfChange(s, s', c);
      TradesOfChange(s, s', c);
    }
  }

  // ---- No way back ----

  /** How a contract's status may change from one state to the next. */
  predicate MayBecome(a: ContractStatus, b: ContractStatus) {
    || a == b
    || (a.Active? && b.InFulfillment?)
    || (a.InFulfillment? && (b.Settled? || b.Disputed?))
    || (a.Disputed? && (b.ResolvedBuyer? || b.ResolvedSeller?))
  }

  lemma StatusMovesOn(s: State, s': State, c: Change, id: Id)
    requires TablesOk(s) && Applies(s, s', c) && Lifecycle(s) && id in s.contracts.rows
    ensures id in s'.contracts.rows && MayBecome(s.contracts.rows[id].status, s'.contracts.rows[id].status)
  {
    hide Applies, TablesOk, Trades, Counted, TableOk, IdFor, Logged, SameLots, SameBooks, SamePapers;
    StepsOfChange(s, s', c);
    if c.Formed? { TermsOfFormingIn(s, s', c); }
  }

  // ---- Once only ----

  predicate DoneWith(cs: map<Id, Contract>, f: Fulfillment) {
    f.contract in cs && cs[f.contract].status.Settled? ==> f.status == Complete
  }

  /** Without settlement by time, a settled contract's fulfillment is complete. */
  ghost predicate Once(s: State) {
    && (forall f :: f in s.fulfillments.rows ==> DoneWith(s.contracts.rows, s.fulfillments.rows[f]))
    && (forall c :: c in s.contracts.rows ==> CountOf(Trades(s.settlements, s.contracts), c) <= 1)
  }

  lemma OnceKeptSettling(s: State, s': State, c: Change)
    requires TablesOk(s) && TradeRefs(s) && Applies(s, s', c) && Lifecycle(s) && Once(s) && c.Settling?
    requires c.final.Settled? ==> Completes(s, s', c)
    ensures Once(s')
  {
    hide Applies, TablesOk, TradeRefs, Trades, TableOk, IdFor, CountOf;
    TradesOfChange(s, s', c);
    StepsOfChange(s, s', c);
    var t := c.settlement;
    StatusOf(s.fulfillments.rows, s.contracts.rows, t.fulfillment);
    assert !Final(s.contracts.rows[t.contract].status);
    var trades := Trades(s.settlements, s.contracts);
    forall k | k in s'.contracts.rows ensures CountOf(Trades(s'.settlements, s'.contracts), k) <= 1 {
      CountAppend(trades, TradeFor(s.contracts.rows, c.id, t), k);
      assert SettledInStep(s.contracts.rows[k].status, CountOf(trades, k));
    }
  }

  lemma OnceKept(s: State, s': State, c: Change)
    requires TablesOk(s) && TradeRefs(s) && Applies(s, s', c) && Lifecycle(s) && Once(s)
    requires c.Settling? && c.final.Settled? ==> Completes(s, s', c)
    ensures Once(s')
  {
    if c.Settling? {
      hide Applies, TablesOk, TradeRefs, Lifecycle, Once;
      OnceKeptSettling(s, s', c);
    } else {
      OnceKeptOtherwise(s, s', c);
    }
  }

  lemma OnceKeptOtherwise(s: State, s': State, c: Change)
    requires TablesOk(s) && TradeRefs(s) && Applies(s, s', c) && Lifecycle(s) && Once(s) && !c.Settling?
    ensures Once(s')
  {
    hide Applies, TablesOk, TradeRefs, Trades, TableOk, IdFor, CountOf, Logged, SameLots, SameBooks, SamePapers,
      Started;
    TradesOfChange(s, s', c);
    StepsOfChange(s, s', c);
    if c.Formed? { TermsOfFormingIn(s, s', c); }
  }
}
