/**
 The two lookup indexes of the trade contract repeat what a full scan of its append-only stores would say.
 */
module LedgerTracing {
  import opened Wrappers
  import opened LedgerTypes
  import opened LedgerSteps
  import opened LedgerViews
  import opened LedgerEffects
  import opened LedgerRecords

  // ---- Lots to tracking events ----

  ghost predicate CteIndexOk(s: State) {
    forall l: Id :: Entry(s.cteIndex, l) == Naming(Trackings(s.ctes, s.lots), l)
  }

  lemma NamingAppend(ts: seq<Tracking>, t: Tracking, l: Id)
    ensures Naming(ts + [t], l) == if Names(t, l) then Naming(ts, l) + [t.id] else Naming(ts, l)
  {
    AppendLast(ts, t);
  }

  lemma {:induction false} NotNamed(ts: seq<Tracking>, l: Id, id: Id)
    requires forall i :: 0 <= i < |ts| ==> ts[i].id != id
    ensures id !in Naming(ts, l)
  {
    if ts != [] { NotNamed(ts[..|ts| - 1], l, id); }
  }

  /** An id that is not yet a tracking event is in no lot's index. */
  lemma NotIndexedYet(s: State, l: Id, id: Id)
    requires CteIndexOk(s) && s.ctes.Ok() && id !in s.ctes.rows
    ensures id !in Entry(s.cteIndex, l)
  {
    var ts := Trackings(s.ctes, s.lots);
    assert Entry(s.cteIndex, l) == Naming(ts, l);
    forall i | 0 <= i < |ts| ensures ts[i].id != id {
      assert s.ctes.keys[i] in s.ctes.keys;
    }
    NotNamed(ts, l, id);
  }

  lemma {:induction false} IndexedAllEffect(index: map<Id, seq<Id>>, inputs: seq<InputRef>, cte: Id, l: Id)
    requires cte !in Entry(index, l)
    ensures Entry(IndexedAll(index, inputs, cte), l) == if Touched(inputs, l) then Entry(index, l) + [cte]
            else Entry(index, l)
  {
    if inputs != [] {
      IndexedAllEffect(index, inputs[..|inputs| - 1], cte, l);
      TouchedLast(inputs, l);
    }
  }

  lemma IndexedEffect(index: map<Id, seq<Id>>, lot: Id, cte: Id, l: Id)
    ensures Entry(Indexed(index, lot, cte), l) == if lot == l && cte !in Entry(index, l) then Entry(index, l) + [cte]
            else Entry(index, l)
  {
  }

  lemma NamesByTransform(t: Tracking, l: Id)
    requires t.inputs != [] && t.lot == t.inputs[0].lot
    ensures Names(t, l) <==> Touched(t.inputs, l) || t.output == Some(l)
  {
    if t.lot == l { assert t.inputs[0].lot == l; }
  }

  lemma IndexOfTransform(index: map<Id, seq<Id>>, inputs: seq<InputRef>, out: Id, cte: Id, l: Id)
    requires cte !in Entry(index, l)
    ensures Entry(Indexed(IndexedAll(index, inputs, cte), out, cte), l) ==
            if Touched(inputs, l) || out == l then Entry(index, l) + [cte] else Entry(index, l)
  {
    hide IndexedAll, Indexed, Entry, Touched;
    IndexedAllEffect(index, inputs, cte, l);
    IndexedEffect(IndexedAll(index, inputs, cte), out, cte, l);
  }

  lemma IndexOfChange(s: State, s': State, c: Change)
    requires Applies(s, s', c)
    ensures c.Tracked? ==> s'.cteIndex == Indexed(s.cteIndex, c.cte.lot, c.id) && c.cte.output == None
    ensures c.LotsMadeInto? ==>
              && s'.cteIndex == Indexed(IndexedAll(s.cteIndex, c.inputs, c.cteId), c.id, c.cteId)
              && c.inputs != [] && c.cte.lot == c.inputs[0].lot
    ensures !c.Tracked? && !c.LotsMadeInto? ==> s'.cteIndex == s.cteIndex
  {
    hide IdFor, DebitAll, Indexed, IndexedAll, KeepsTrades, MakesLot, DisposesLot, Forms, Attests, Disputes, Settles;
    if !c.Tracked? && !c.LotsMadeInto? { CtesAsTheyWere(s, s', c); }
  }

  lemma NamesByTracking(t: Tracking, l: Id)
    requires t.inputs == [] && t.output == None
    ensures Names(t, l) <==> t.lot == l
  {
  }

  lemma CteIndexKept(s: State, s': State, c: Change)
    requires TablesOk(s) && CteRefs(s) && Applies(s, s', c) && CteIndexOk(s)
    ensures CteIndexOk(s')
  {
    hide Applies, TablesOk, CteRefs, Trackings, Naming, Entry, Indexed, IndexedAll, Names, Touched, TableOk, CteIndexOk;
    TrackingsOfChange(s, s', c);
    IndexOfChange(s, s', c);
    CteIsNewIn(s, s', c);
    forall l: Id ensures Entry(s'.cteIndex, l) == Naming(Trackings(s'.ctes, s'.lots), l) {
      assert Entry(s.cteIndex, l) == Naming(Trackings(s.ctes, s.lots), l) by { IndexSays(s, l); }
      if c.Tracked? || c.LotsMadeInto? { NamingAppend(Trackings(s.ctes, s.lots), Noted(c), l); }
      if c.Tracked? {
        NotIndexedYet(s, l, c.id);
        IndexedEffect(s.cteIndex, c.cte.lot, c.id, l);
        NamesByTracking(Noted(c), l);
      } else if c.LotsMadeInto? {
        NotIndexedYet(s, l, c.cteId);
        IndexOfTransform(s.cteIndex, c.inputs, c.id, c.cteId, l);
        NamesByTransform(Noted(c), l);
      }
    }
    IndexIs(s');
  }

  lemma CteIsNewIn(s: State, s': State, c: Change)
    requires TablesOk(s) && Applies(s, s', c)
    ensures s.ctes.Ok()
    ensures c.Tracked? ==> c.id !in s.ctes.rows
    ensures c.LotsMadeInto? ==> c.cteId !in s.ctes.rows
  {
    hide Applies, IdFor;
    CtesOk(s);
    CteIsNew(s, s', c);
  }

  lemma IndexSays(s: State, l: Id)
    requires CteIndexOk(s)
    ensures Entry(s.cteIndex, l) == Naming(Trackings(s.ctes, s.lots), l)
  {
  }

  lemma IndexIs(s: State)
    requires forall l: Id :: Entry(s.cteIndex, l) == Naming(Trackings(s.ctes, s.lots), l)
    ensures CteIndexOk(s)
  {
  }

  // ---- What an index entry looks like ----

  lemma AppendDistinct(ids: seq<Id>, id: Id)
    requires (forall i, j :: 0 <= i < j < |ids| ==> ids[i] != ids[j]) && id !in ids
    ensures forall i, j :: 0 <= i < j < |ids + [id]| ==> (ids + [id])[i] != (ids + [id])[j]
  {
  }

  /** The entries are in recording order and without repetition. */
  lemma {:induction false} NamingAscends(ts: seq<Tracking>, l: Id)
    requires forall i, j :: 0 <= i < j < |ts| ==> ts[i].id != ts[j].id
    ensures var ids := Naming(ts, l);
            forall i, j :: 0 <= i < j < |ids| ==> ids[i] != ids[j]
    ensures forall i :: 0 <= i < |ts| ==> (ts[i].id in Naming(ts, l) <==> Names(ts[i], l))
  {
    hide Names;
    if ts != [] {
      var before, last := ts[..|ts| - 1], ts[|ts| - 1];
      NamingAscends(before, l);
      forall i | 0 <= i < |before| ensures before[i].id != last.id {
        assert ts[i].id != ts[|ts| - 1].id;
      }
      NotNamed(before, l, last.id);
      AppendDistinct(Naming(before, l), last.id);
      forall i | 0 <= i < |ts| ensures ts[i].id in Naming(ts, l) <==> Names(ts[i], l) {
        if i < |ts| - 1 { assert before[i] == ts[i]; }
      }
    }
  }

  lemma {:induction false} PositionsAscend(log: seq<AuditEvent>, entity: string)
    ensures var at := Positions(log, entity);
            && (forall i :: 0 <= i < |at| ==> at[i] < |log| && log[at[i]].entity == entity)
            && (forall i, j :: 0 <= i < j < |at| ==> at[i] < at[j])
    ensures forall n :: 0 <= n < |log| && log[n].entity == entity ==> n in Positions(log, entity)
  {
    if log != [] {
      var before := log[..|log| - 1];
      PositionsAscend(before, entity);
      var at := Positions(log, entity);
      forall i | 0 <= i < |at| ensures at[i] < |log| && log[at[i]].entity == entity {
        if i < |Positions(before, entity)| { assert at[i] == Positions(before, entity)[i]; }
      }
      forall n | 0 <= n < |log| && log[n].entity == entity ensures n in at {
        if n < |log| - 1 { assert before[n] == log[n]; }
      }
    }
  }

  // ---- The audit trail, page by page ----

  /** The events of one entity, by scanning the whole log. */
  function About(log: seq<AuditEvent>, entity: string): seq<AuditEvent> {
    if log == [] then []
    else About(log[..|log| - 1], entity) + if log[|log| - 1].entity == entity then [log[|log| - 1]] else []
  }

  function AtPositions(log: seq<AuditEvent>, at: seq<nat>): (r: seq<AuditEvent>)
    requires forall i :: 0 <= i < |at| ==> at[i] < |log|
    ensures |r| == |at|
  {
    seq(|at|, i requires 0 <= i < |at| => log[at[i]])
  }

  lemma {:induction false} AboutIsAtPositions(log: seq<AuditEvent>, entity: string)
    ensures forall i :: 0 <= i < |Positions(log, entity)| ==> Positions(log, entity)[i] < |log|
    ensures AtPositions(log, Positions(log, entity)) == About(log, entity)
  {
    PositionsAscend(log, entity);
    if log != [] {
      var before := log[..|log| - 1];
      AboutIsAtPositions(before, entity);
      PositionsAscend(before, entity);
      assert AtPositions(log, Positions(before, entity)) == AtPositions(before, Positions(before, entity));
    }
  }

  function Min(a: nat, b: nat): nat {
    if a < b then a else b
  }

  /** A page: up to `limit` items from `offset` on. */
  function Page<T>(items: seq<T>, offset: nat, limit: nat): seq<T> {
    items[Min(offset, |items|)..Min(offset + limit, |items|)]
  }

  /** Consecutive pages make up the whole. */
  lemma PagesConcatenate<T>(items: seq<T>, offset: nat, limit: nat, more: nat)
    ensures Page(items, offset, limit) + Page(items, offset + limit, more) == Page(items, offset, limit + more)
    ensures Page(items, 0, |items|) == items
  {
  }
}
