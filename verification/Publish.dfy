/**
 * The crates in an order to publish them in (`publishable`,
 * scripts/release.py:150-174): each after the crates it depends on, or a cycle.
 */
module Publish {
  import opened Basics

  /** The crates that are published, by name, with the names each depends on. */
  datatype Graph = Graph(deps: map<string, seq<string>>) {
    predicate Has(name: string) {
      name in deps
    }

    /** A dependency that counts: on another published crate. */
    predicate Edge(name: string, dep: string) {
      name in deps && dep in deps[name] && dep in deps && dep != name
    }
  }

  /** Each crate of the walk depends on the next. */
  ghost predicate Walk(g: Graph, walk: seq<string>) {
    forall i :: 0 <= i < |walk| - 1 ==> g.Edge(walk[i], walk[i + 1])
  }

  ghost predicate Cycle(g: Graph, walk: seq<string>) {
    |walk| > 1 && Walk(g, walk) && walk[0] == walk[|walk| - 1]
  }

  ghost predicate Cyclic(g: Graph) {
    exists walk :: Cycle(g, walk)
  }

  /** Each crate once, after its dependencies. */
  ghost predicate Ordered(g: Graph, order: seq<string>) {
    && (forall i :: 0 <= i < |order| ==> g.Has(order[i]))
    && (forall i, j :: 0 <= i < j < |order| ==> order[i] != order[j])
    && (forall i, dep :: 0 <= i < |order| && g.Edge(order[i], dep) ==> dep in order[..i])
  }

  // ---- an order means no cycle --------------------------------------------------------------

  function IndexOf(order: seq<string>, name: string): (i: nat)
    requires name in order
    ensures i < |order| && order[i] == name
  {
    if order[|order| - 1] == name then |order| - 1 else IndexOf(order[..|order| - 1], name)
  }

  /** Along a walk, the places in the order go down. */
  lemma {:induction false} WalkGoesDown(g: Graph, order: seq<string>, walk: seq<string>, k: nat)
    requires Ordered(g, order) && Walk(g, walk) && 0 < k < |walk| && walk[0] in order
    ensures walk[k] in order && IndexOf(order, walk[k]) < IndexOf(order, walk[0])
  {
    if k > 1 {
      WalkGoesDown(g, order, walk, k - 1);
    }
    var i := IndexOf(order, walk[k - 1]);
    assert g.Edge(walk[k - 1], walk[k]);
    assert walk[k] in order[..i];
    var j :| 0 <= j < i && order[..i][j] == walk[k];
    assert order[j] == walk[k] && order[IndexOf(order, walk[k])] == walk[k];
  }

  /** An order of all crates: there is no cycle. */
  lemma OrderedIsAcyclic(g: Graph, order: seq<string>)
    requires Ordered(g, order) && forall name :: g.Has(name) ==> name in order
    ensures !Cyclic(g)
  {
    if walk :| Cycle(g, walk) {
      assert g.Edge(walk[0], walk[1]);
      WalkGoesDown(g, order, walk, |walk| - 1);
    }
  }

  /** A walk back to one of its crates is a cycle. */
  lemma ClosesCycle(g: Graph, path: seq<string>, name: string)
    requires Walk(g, path + [name]) && name in path
    ensures Cyclic(g)
  {
    var i :| 0 <= i < |path| && path[i] == name;
    var walk := (path + [name])[i..];
    forall k | 0 <= k < |walk| - 1 ensures g.Edge(walk[k], walk[k + 1]) {
      assert g.Edge((path + [name])[i + k], (path + [name])[i + k + 1]);
    }
    assert Cycle(g, walk);
  }

  // ---- the search -------------------------------------------------------------------------------

  class Publisher {
    const g: Graph
    var seen: set<string>
    var order: seq<string>

    ghost predicate Valid()
      reads this
    {
      Ordered(g, order) && forall name :: name in seen <==> name in order
    }

    constructor (g: Graph)
      ensures Valid() && this.g == g && order == []
    {
      this.g := g;
      seen, order := {}, [];
    }

    /** The crates not on the path. */
    ghost function OffPath(path: seq<string>): set<string> {
      g.deps.Keys - set name | name in path
    }

    /** `visit`; `false` where it exits with a cycle. */
    method Visit(name: string, path: seq<string>) returns (ok: bool)
      requires Valid() && g.Has(name) && Walk(g, path + [name])
      requires forall p :: p in path ==> g.Has(p) && p !in order
      modifies this
      ensures !ok ==> Cyclic(g)
      ensures ok ==>
                && Valid() && old(order) <= order && name in order
                && forall p :: p in path ==> p !in order
      decreases |OffPath(path)|
    {
      if name in seen {
        return true;
      }
      if name in path {
        ClosesCycle(g, path, name);
        return false;
      }
      var deps := g.deps[name];
      for i := 0 to |deps|
        invariant Valid() && old(order) <= order
        invariant name !in order && forall p :: p in path ==> p !in order
        invariant forall k :: 0 <= k < i && g.Edge(name, deps[k]) ==> deps[k] in order
      {
        var dep := deps[i];
        if dep in g.deps && dep != name {
          Longer(path, name, dep);
          ok := Visit(dep, path + [name]);
          if !ok {
            return;
          }
          assert name in path + [name];
        }
      }
      Appended(order, name);
      seen := seen + {name};
      order := order + [name];
      return true;
    }

    /** The walk goes on, and the crates off the path are fewer. */
    lemma Longer(path: seq<string>, name: string, dep: string)
      requires Walk(g, path + [name]) && g.Edge(name, dep) && name !in path && g.Has(name)
      ensures Walk(g, path + [name] + [dep])
      ensures |OffPath(path + [name])| < |OffPath(path)|
    {
      var walk := path + [name];
      forall k | 0 <= k < |walk| ensures g.Edge((walk + [dep])[k], (walk + [dep])[k + 1]) {
        if k < |walk| - 1 {
          assert g.Edge(walk[k], walk[k + 1]);
        }
      }
      assert OffPath(path) == OffPath(path + [name]) + {name};
    }

    lemma Appended(order: seq<string>, name: string)
      requires Ordered(g, order) && g.Has(name) && name !in order
      requires forall dep :: g.Edge(name, dep) ==> dep in order
      ensures Ordered(g, order + [name])
    {
      var more := order + [name];
      forall i, dep | 0 <= i < |more| && g.Edge(more[i], dep) ensures dep in more[..i] {
        if i < |order| {
          assert more[..i] == order[..i];
        } else {
          assert more[..i] == order;
        }
      }
    }

    /** All crates, in the order of their names to begin with. */
    method Publishable(sorted: seq<string>) returns (result: Option<seq<string>>)
      requires Valid() && order == [] && forall name :: name in sorted <==> g.Has(name)
      modifies this
      ensures result.None? <==> Cyclic(g)
      ensures result.Some? ==> Ordered(g, result.value) && forall name :: g.Has(name) <==> name in result.value
    {
      for i := 0 to |sorted|
        invariant Valid() && forall k :: 0 <= k < i ==> sorted[k] in order
      {
        assert [] + [sorted[i]] == [sorted[i]];
        var ok := Visit(sorted[i], []);
        if !ok {
          return None;
        }
      }
      OrderedIsAcyclic(g, order);
      return Some(order);
    }
  }

  /** `publishable`: an order exactly where there is no cycle. */
  method Publishable(g: Graph, sorted: seq<string>) returns (result: Option<seq<string>>)
    requires forall name :: name in sorted <==> g.Has(name)
    ensures result.None? <==> Cyclic(g)
    ensures result.Some? ==> Ordered(g, result.value) && forall name :: g.Has(name) <==> name in result.value
  {
    var publisher := new Publisher(g);
    result := publisher.Publishable(sorted);
  }
}
