/**
 The order in which release gates are evaluated: a depth-first visit of the dependency graph that stops at
 a dependency that is missing or leads back to itself.
 */
module GateOrder {
  import opened Wrappers

  type Id = string

  /** Dependencies by gate, as the source's map of gates by id gives them. */
  type Links = map<Id, seq<Id>>

  // ---- Paths ----

  /** Every step of the path goes from a gate to one it depends on. */
  predicate IsPath(links: Links, p: seq<Id>) {
    p != [] && forall i :: 0 <= i < |p| - 1 ==> p[i] in links && p[i + 1] in links[p[i]]
  }

  predicate PathFrom(links: Links, p: seq<Id>, a: Id, b: Id) {
    IsPath(links, p) && p[0] == a && p[|p| - 1] == b
  }

  /** Depends on, in any number of steps, or is. */
  ghost predicate Reaches(links: Links, a: Id, b: Id) {
    exists p: seq<Id> :: PathFrom(links, p, a, b)
  }

  ghost predicate Cyclic(links: Links) {
    exists p: seq<Id> :: |p| >= 2 && IsPath(links, p) && p[0] == p[|p| - 1]
  }

  predicate Closed(links: Links) {
    forall a :: a in links ==> forall i :: 0 <= i < |links[a]| ==> links[a][i] in links
  }

  lemma PathThenStep(links: Links, p: seq<Id>, id: Id)
    requires IsPath(links, p) && p[|p| - 1] in links && id in links[p[|p| - 1]]
    ensures IsPath(links, p + [id])
  {
    var q := p + [id];
    forall i | 0 <= i < |q| - 1 ensures q[i] in links && q[i + 1] in links[q[i]] {
      if i < |p| - 1 { assert q[i] == p[i] && q[i + 1] == p[i + 1]; }
    }
  }

  lemma PathSuffix(links: Links, p: seq<Id>, k: nat)
    requires IsPath(links, p) && k < |p|
    ensures IsPath(links, p[k..])
  {
    forall i | 0 <= i < |p[k..]| - 1 ensures p[k..][i] in links && p[k..][i + 1] in links[p[k..][i]] {
      assert p[k..][i] == p[k + i] && p[k..][i + 1] == p[k + i + 1];
    }
  }

  lemma StepThenPath(links: Links, a: Id, p: seq<Id>)
    requires IsPath(links, p) && a in links && p[0] in links[a]
    ensures IsPath(links, [a] + p)
  {
    var q := [a] + p;
    forall i | 0 <= i < |q| - 1 ensures q[i] in links && q[i + 1] in links[q[i]] {
      if i > 0 { assert q[i] == p[i - 1] && q[i + 1] == p[i]; }
    }
  }

  lemma ReachesItself(links: Links, a: Id)
    ensures Reaches(links, a, a)
  {
    assert PathFrom(links, [a], a, a);
  }

  lemma ReachesBeyond(links: Links, a: Id, b: Id, c: Id)
    requires a in links && b in links[a] && Reaches(links, b, c)
    ensures Reaches(links, a, c)
  {
    var p :| PathFrom(links, p, b, c);
    StepThenPath(links, a, p);
    assert PathFrom(links, [a] + p, a, c);
  }

  // ---- Orders ----

  ghost predicate Distinct(s: seq<Id>) {
    forall i, j :: 0 <= i < j < |s| ==> s[i] != s[j]
  }

  /** Everything listed is a gate, and is preceded by everything it depends on. */
  predicate Preceded(links: Links, order: seq<Id>) {
    forall i :: 0 <= i < |order| ==> order[i] in links && forall k :: 0 <= k < |links[order[i]]| ==>
        links[order[i]][k] in order[..i]
  }

  /** A list of all gates, each once and after everything it depends on. */
  ghost predicate Topological(links: Links, order: seq<Id>) {
    && Distinct(order)
    && (forall a :: a in order <==> a in links)
    && Preceded(links, order)
  }

  /** Along a path, positions in such a list only go down. */
  lemma {:induction false} PathGoesDown(links: Links, order: seq<Id>, p: seq<Id>, i: nat)
    requires Topological(links, order) && IsPath(links, p) && i < |order| && p[0] == order[i]
    ensures forall k :: 1 <= k < |p| ==> p[k] in order[..i]
    decreases |p|
  {
    if |p| > 1 {
      var k :| 0 <= k < |links[p[0]]| && links[p[0]][k] == p[1];
      assert p[1] in order[..i];
      var j :| 0 <= j < i && order[j] == p[1];
      PathSuffix(links, p, 1);
      PathGoesDown(links, order, p[1..], j);
      forall m | 1 <= m < |p| ensures p[m] in order[..i] {
        if m > 1 {
          assert p[1..][m - 1] == p[m];
          assert order[..j] == order[..i][..j];
        }
      }
    }
  }

  lemma NotInPrefix(order: seq<Id>, i: nat)
    requires Distinct(order) && i < |order|
    ensures order[i] !in order[..i]
  {
  }

  /** Only a graph that is closed and has no cycle can be listed so. */
  lemma ListedIsClosedAndAcyclic(links: Links, order: seq<Id>)
    requires Topological(links, order)
    ensures Closed(links) && !Cyclic(links)
  {
    forall a | a in links ensures forall i :: 0 <= i < |links[a]| ==> links[a][i] in links {
      var k :| 0 <= k < |order| && order[k] == a;
      forall i | 0 <= i < |links[a]| ensures links[a][i] in links {
        assert links[a][i] in order[..k];
      }
    }
    forall p: seq<Id> | |p| >= 2 && IsPath(links, p) ensures p[0] != p[|p| - 1] {
      assert p[0] in links;
      var i :| 0 <= i < |order| && order[i] == p[0];
      PathGoesDown(links, order, p, i);
      assert p[|p| - 1] in order[..i];
      NotInPrefix(order, i);
    }
  }

  // ---- The visit ----

  class Visitor {
    const byId: Links
    var visiting: set<Id>
    var visited: set<Id>
    var order: seq<Id>

    constructor (byId: Links)
      ensures this.byId == byId && visiting == {} && Sound()
    {
      this.byId := byId;
      visiting, visited, order := {}, {}, [];
    }

    ghost predicate Sound()
      reads this
    {
      && (forall a :: a in order <==> a in visited)
      && visiting !! visited
      && visiting <= byId.Keys
      && Distinct(order)
      && Preceded(byId, order)
    }

    /** Visits a gate below those being visited; `stack` is how it was come to. Returns whether it did not throw. */
    method Visit(id: Id, ghost stack: seq<Id>) returns (ok: bool)
      requires Sound() && visiting == set a | a in stack
      requires if stack == [] then id in byId else IsPath(byId, stack + [id])
      modifies this
      ensures Sound()
      ensures ok ==> visiting == old(visiting) && old(visited) <= visited && id in visited
      ensures !ok ==> !Closed(byId) || Cyclic(byId)
      decreases byId.Keys - visiting
    {
      hide Distinct, Preceded;
      if id !in byId {
        ghost var last := (stack + [id])[|stack| - 1];
        assert (stack + [id])[|stack|] in byId[last];
        return false;
      }
      if id in visiting {
        CycleIn(byId, stack, id);
        return false;
      }
      if id in visited { return true; }
      ghost var before := visiting;
      ghost var below := stack + [id];
      assert IsPath(byId, below);
      visiting := visiting + {id};
      assert visiting == set a | a in below by { InOneMore(stack, id); }
      var deps := byId[id];
      for i := 0 to |deps|
        invariant Sound() && visiting == before + {id} && old(visited) <= visited
        invariant forall k :: 0 <= k < i ==> deps[k] in visited
      {
        PathThenStep(byId, below, deps[i]);
        ok := Visit(deps[i], below);
        if !ok { return false; }
      }
      OneMoreListed(byId, order, id);
      visiting, visited, order := visiting - {id}, visited + {id}, order + [id];
      assert visiting == before;
      ok := true;
    }

    static lemma OneMoreListed(links: Links, order: seq<Id>, id: Id)
      requires Distinct(order) && Preceded(links, order) && id in links && id !in order
      requires forall k :: 0 <= k < |links[id]| ==> links[id][k] in order
      ensures Distinct(order + [id]) && Preceded(links, order + [id])
    {
      forall i | 0 <= i < |order + [id]|
        ensures (order + [id])[i] in links && forall k :: 0 <= k < |links[(order + [id])[i]]| ==>
                links[(order + [id])[i]][k] in (order + [id])[..i]
      {
        if i < |order| { assert (order + [id])[..i] == order[..i]; } else { assert (order + [id])[..i] == order; }
      }
    }

    static lemma InOneMore(stack: seq<Id>, id: Id)
      ensures (set a | a in stack) + {id} == set a | a in stack + [id]
    {
    }

    static lemma CycleIn(links: Links, stack: seq<Id>, id: Id)
      requires id in stack && IsPath(links, stack + [id])
      ensures Cyclic(links)
    {
      var k :| 0 <= k < |stack| && stack[k] == id;
      PathSuffix(links, stack + [id], k);
      var p := (stack + [id])[k..];
      assert |p| >= 2 && p[0] == id && p[|p| - 1] == id;
    }
  }

  /** Every gate of a finite graph, dependencies first; nothing if a dependency is missing or there is a cycle. */
  method TopologicalOrder(ids: seq<Id>, byId: Links) returns (order: Option<seq<Id>>)
    requires forall a :: a in ids <==> a in byId
    ensures order.Some? <==> Closed(byId) && !Cyclic(byId)
    ensures order.Some? ==> Topological(byId, order.value)
  {
    var visitor := new Visitor(byId);
    for i := 0 to |ids|
      invariant visitor.byId == byId && visitor.Sound() && visitor.visiting == {}
      invariant fresh(visitor)
      invariant forall k :: 0 <= k < i ==> ids[k] in visitor.visited
    {
      assert ids[i] in ids;
      var ok := visitor.Visit(ids[i], []);
      if !ok { return None; }
    }
    assert Topological(byId, visitor.order);
    ListedIsClosedAndAcyclic(byId, visitor.order);
    order := Some(visitor.order);
  }
}
