/**
 The books kept beside the settlements, party by party and pair by pair, say what the settlements add up to.
 */
module LedgerBooks {
  import opened Wrappers
  import opened LedgerTypes
  import opened LedgerSteps
  import opened LedgerViews
  import opened LedgerEffects
  import opened LedgerRecords

  // ---- Parties ----

  /** A reputation says how often the party has settled, and how well, and its score follows from that. */
  predicate RecordOk(r: Reputation, appearances: nat) {
    && r.completed == appearances
    && r.completed == r.disputed + r.onTime
    && r.accuracy == 10000
    && r == Recomputed(r)
    && r.score <= 10000
  }

  predicate Rated(parties: map<AccountId, Party>, trades: seq<Trade>, p: AccountId) {
    if p in parties then RecordOk(parties[p].reputation, Appearances(trades, p)) else Appearances(trades, p) == 0
  }

  ghost predicate AllRated(s: State) {
    forall p: AccountId :: Rated(s.parties, Trades(s.settlements, s.contracts), p)
  }

  lemma AppearancesAppend(ts: seq<Trade>, t: Trade, p: AccountId)
    ensures Appearances(ts + [t], p) == Appearances(ts, p) + (if t.buyer == p then 1 else 0) + (if t.seller == p
            then 1 else 0)
  {
    AppendLast(ts, t);
  }

  lemma {:induction false} TimesAtLeast(d: nat, m: nat)
    requires m > 0
    ensures d * m >= d
  {
    if m > 1 {
      TimesAtLeast(d, m - 1);
      assert d * m == d * (m - 1) + d;
    }
  }

  lemma AtLeastMinusOne(d: int, k: int)
    requires d > 0 && d * k > -d
    ensures k >= 0
  {
    if k < 0 { TimesAtLeast(d, -k); }
  }

  lemma QuotientAtMost(a: nat, d: nat, q: nat)
    requires d > 0 && a <= q * d
    ensures a / d <= q
  {
    assert a == d * (a / d) + a % d;
    assert d * (q - a / d) == q * d - d * (a / d);
    AtLeastMinusOne(d, q - a / d);
  }

  lemma ScoreBounded(r: Reputation)
    requires r.disputed <= r.completed && r.accuracy == 10000
    ensures Recomputed(r).score <= 10000 && Recomputed(Recomputed(r)) == Recomputed(r)
  {
    if r.completed > 0 {
      QuotientAtMost(r.disputed * 10000, r.completed, 10000);
      var base := 10000 - r.disputed * 10000 / r.completed;
      assert base * r.accuracy == base * 10000;
      assert base * 10000 / 10000 == base;
    }
  }

  lemma RecordOkNew()
    ensures RecordOk(NEW_REPUTATION, 0)
  {
  }

  /** One more settlement on a record, counted as disputed or as on time. */
  lemma RecordOkOneMore(r: Reputation, n: nat, disputed: bool)
    requires RecordOk(r, n)
    ensures RecordOk(Recomputed(r.(completed := r.completed + 1,
                                   disputed := if disputed then r.disputed + 1 else r.disputed,
                                   onTime := if disputed then r.onTime else r.onTime + 1)), n + 1)
  {
    hide Recomputed;
    var counted := r.(completed := r.completed + 1,
                      disputed := if disputed then r.disputed + 1 else r.disputed,
                      onTime := if disputed then r.onTime else r.onTime + 1);
    ScoreBounded(counted);
    OnlyTheScore(counted);
  }

  lemma OnlyTheScore(r: Reputation)
    ensures Recomputed(r) == r.(score := Recomputed(r).score)
  {
  }

  lemma UpdateKeepsRecord(parties: map<AccountId, Party>, account: AccountId, disputed: bool, p: AccountId, n: nat)
    requires if p in parties then RecordOk(parties[p].reputation, n) else n == 0
    requires account in parties
    ensures var r := UpdateReputation(parties, account, disputed);
            r.Some? ==>
              && r.value.Keys == parties.Keys
              && var m := n + (if p == account then 1 else 0);
              if p in r.value then RecordOk(r.value[p].reputation, m) else m == 0
  {
    hide RecordOk, Recomputed;
    UpdateReputationKeys(parties, account, disputed);
    if p == account { RecordOkOneMore(parties[p].reputation, n, disputed); }
  }

  lemma RatedBySettling(parties: map<AccountId, Party>, after: map<AccountId, Party>, contracts: map<Id, Contract>,
                        trades: seq<Trade>,
                        id: Id, t: Settlement, loser: Option<AccountId>, p: AccountId)
    requires t.contract in contracts && Rated(parties, trades, p)
    requires contracts[t.contract].buyer in parties && contracts[t.contract].seller in parties
    requires RatedParties(parties, contracts[t.contract], loser) == Some(after)
    ensures Rated(after, trades + [TradeFor(contracts, id, t)], p)
  {
    hide RecordOk, UpdateReputation, Appearances;
    var c := contracts[t.contract];
    AppearancesAppend(trades, TradeFor(contracts, id, t), p);
    var n := Appearances(trades, p);
    UpdateKeepsRecord(parties, c.buyer, loser == Some(c.buyer), p, n);
    var rated := UpdateReputation(parties, c.buyer, loser == Some(c.buyer)).value;
    assert c.seller in rated by { assert c.seller in rated.Keys; }
    UpdateKeepsRecord(rated, c.seller, loser == Some(c.seller), p, n + if p == c.buyer then 1 else 0);
  }

  lemma RatedByKeeping(a: map<AccountId, Party>, b: map<AccountId, Party>, trades: seq<Trade>, p: AccountId)
    requires Rated(a, trades, p) && PartiesKept(a, b)
    ensures Rated(b, trades, p)
  {
    hide RecordOk;
    RecordOkNew();
  }

  /** What a change does to the books. */
  lemma BooksOfChange(s: State, s': State, c: Change)
    requires Applies(s, s', c)
    ensures !c.Settling? ==> PartiesKept(s.parties, s'.parties) && RelationshipsKept(s.relationships, s'.relationships)
    ensures c.Settling? ==>
              && c.settlement.contract in s.contracts.rows
              && var k := s.contracts.rows[c.settlement.contract];
              var key := PairKey(k.buyer, k.seller);
              && RatedParties(s.parties, k, c.loser) == Some(s'.parties)
              && s'.relationships == s.relationships[key := Traded(RelationshipAt(s.relationships, key),
                 c.settlement.net)]
  {
    hide IdFor, DebitAll, Indexed, IndexedAll, PapersKept, Cites, PartiesKept, RelationshipsKept, RatedParties,
      Traded, PairKey, RelationshipAt, MovedLots, DrawnLots, Logged;
    PartiesAsTheyWere(s);
  }

  lemma PartiesAsTheyWere(s: State)
    ensures PartiesKept(s.parties, s.parties) && RelationshipsKept(s.relationships, s.relationships)
  {
  }

  lemma AllRatedKept(s: State, s': State, c: Change)
    requires TablesOk(s) && TradeRefs(s) && Applies(s, s', c) && AllRated(s)
    ensures AllRated(s')
  {
    hide Applies, TablesOk, Trades, Rated, PartiesKept, RelationshipsKept, RatedParties, Traded, PairKey,
      RelationshipAt;
    TradesOfChange(s, s', c);
    BooksOfChange(s, s', c);
    var trades := Trades(s.settlements, s.contracts);
    forall p: AccountId ensures Rated(s'.parties, Trades(s'.settlements, s'.contracts), p) {
      assert Rated(s.parties, trades, p);
      if c.Settling? {
        RatedBySettling(s.parties, s'.parties, s.contracts.rows, trades, c.id, c.settlement, c.loser, p);
      } else {
        RatedByKeeping(s.parties, s'.parties, trades, p);
      }
    }
  }

  // ---- Pairs ----

  /** A relationship counts the pair's trades and adds up their net amounts. */
  predicate Related(rels: map<string, Relationship>, trades: seq<Trade>, key: string) {
    if key in rels then
      && rels[key].trades == |Between(trades, key)| > 0
      && rels[key].volume == Volume(Between(trades, key))
      && rels[key].onTimeRate == 10000
      && Derived(rels[key])
    else Between(trades, key) == []
  }

  ghost predicate AllRelated(s: State) {
    forall key: string :: Related(s.relationships, Trades(s.settlements, s.contracts), key)
  }

  lemma BetweenAppend(ts: seq<Trade>, t: Trade, key: string)
    ensures Between(ts + [t], key) == if PairKey(t.buyer, t.seller) == key then Between(ts, key) + [t]
            else Between(ts, key)
    ensures Volume(ts + [t]) == Volume(ts) + t.net
  {
    AppendLast(ts, t);
  }

  lemma ExactQuotient(d: nat, q: nat)
    requires d > 0
    ensures (q * d) / d == q
  {
    QuotientAtMost(q * d, d, q);
    var k := q - (q * d) / d;
    if k > 0 { TimesAtLeast(d, k); }
    assert q * d == d * ((q * d) / d) + (q * d) % d;
    assert d * k == q * d - d * ((q * d) / d);
  }

  lemma StillOnTime(n: nat)
    requires n > 0
    ensures OnTimeAverage(10000, n) == 10000
  {
    ExactQuotient(n, 10000);
    assert 10000 * (n - 1) + 10000 == 10000 * n;
  }

  lemma TradedOnce(rel: Relationship, net: nat)
    requires rel.onTimeRate == 10000
    ensures var r := Traded(rel, net);
            r.trades == rel.trades + 1 && r.volume == rel.volume + net && r.onTimeRate == 10000 && Derived(r)
  {
    StillOnTime(rel.trades + 1);
  }

  /** One more trade on its pair's relationship; `r` is what the relationship becomes. */
  lemma RelatedByOneMore(rels: map<string, Relationship>, trades: seq<Trade>, t: Trade, r: Relationship, key: string)
    requires Related(rels, trades, key)
    requires var was := RelationshipAt(rels, PairKey(t.buyer, t.seller));
             r.trades == was.trades + 1 && r.volume == was.volume + t.net && r.onTimeRate == 10000 && Derived(r)
    ensures Related(rels[PairKey(t.buyer, t.seller) := r], trades + [t], key)
  {
    hide PairKey, Derived, Between, Volume;
    BetweenAppend(trades, t, key);
    BetweenAppend(Between(trades, key), t, key);
    NothingAddsToZero();
  }

  lemma NothingAddsToZero()
    ensures Volume([]) == 0
  {
  }

  lemma NewTradeCounts(rels: map<string, Relationship>, trades: seq<Trade>, key: string, net: nat)
    requires Related(rels, trades, key)
    ensures var was := RelationshipAt(rels, key);
            var r := Traded(was, net);
            r.trades == was.trades + 1 && r.volume == was.volume + net && r.onTimeRate == 10000 && Derived(r)
  {
    hide Traded, Derived, Between, Volume;
    TradedOnce(RelationshipAt(rels, key), net);
  }

  lemma RelatedByKeeping(a: map<string, Relationship>, b: map<string, Relationship>, trades: seq<Trade>, key: string)
    requires Related(a, trades, key) && RelationshipsKept(a, b)
    ensures Related(b, trades, key)
  {
    assert key in a <==> key in a.Keys;
    assert key in b <==> key in b.Keys;
  }

  lemma AllRelatedKept(s: State, s': State, c: Change)
    requires TablesOk(s) && TradeRefs(s) && Applies(s, s', c) && AllRelated(s)
    ensures AllRelated(s')
  {
    hide Applies, TablesOk, TradeRefs, Trades, Related, PartiesKept, RelationshipsKept, RatedParties, Traded, PairKey,
      RelationshipAt;
    TradesOfChange(s, s', c);
    BooksOfChange(s, s', c);
    var trades := Trades(s.settlements, s.contracts);
    if c.Settling? {
      var k := TradeFor(s.contracts.rows, c.id, c.settlement);
      NewTradeCounts(s.relationships, trades, PairKey(k.buyer, k.seller), k.net);
    }
    forall key: string ensures Related(s'.relationships, Trades(s'.settlements, s'.contracts), key) {
      assert Related(s.relationships, trades, key);
      if c.Settling? {
        var t := TradeFor(s.contracts.rows, c.id, c.settlement);
        RelatedByOneMore(s.relationships, trades, t, Traded(RelationshipAt(s.relationships,
            PairKey(t.buyer, t.seller)), t.net), key);
      } else {
        RelatedByKeeping(s.relationships, s'.relationships, trades, key);
      }
    }
  }

  /** The key stands for the pair, so the trades between are exactly those of the two accounts, either way round. */
  lemma {:induction false} BetweenIsOfThePair(ts: seq<Trade>, a: AccountId, b: AccountId)
    ensures forall t :: t in Between(ts, PairKey(a, b)) <==>
                        t in ts && ((t.buyer == a && t.seller == b) || (t.buyer == b && t.seller == a))
  {
    hide PairKey;
    if ts != [] {
      var last := ts[|ts| - 1];
      BetweenIsOfThePair(ts[..|ts| - 1], a, b);
      PairKeyNamesThePair(last.buyer, last.seller, a, b);
      assert ts == ts[..|ts| - 1] + [last];
    }
  }
}
