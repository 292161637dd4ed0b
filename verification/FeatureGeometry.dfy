/**
 * When the geometry of a feature is wrong, asked of its tree
 * (crates/xeibe-arrow/src/feature.rs:272-391, 443-530, 559-600), and that reading in
 * one pass finds exactly that.
 */
module FeatureGeometry {
  import opened Basics
  import opened Route
  import opened FeatureSpec

  // ---- the query ----------------------------------------------------------------------------------

  /** A geometry element that its property reads: any of an array property, the first of another. */
  ghost predicate IsRead<V, G>(plan: Plan<V, G>, nodes: seq<RouteNode>, e: Element, i: nat) {
    && i < |e.content| && Swallows(plan, nodes, e.content[i])
    && (e.array_ || forall j :: 0 <= j < i ==> !Swallows(plan, nodes, e.content[j]))
  }

  /** It is there and cannot be read. */
  ghost predicate Unreadable<V, G>(plan: Plan<V, G>, nodes: seq<RouteNode>, e: Element, i: nat) {
    IsRead(plan, nodes, e, i) && ParseGeometry(plan, GeometryColumns(nodes), e.content[i].element).Bad?
  }

  /** The geometry of a property, if it has one and every part of it was read. */
  function PropertyGeometry<V, G>(plan: Plan<V, G>, nodes: seq<RouteNode>, e: Element): Option<G> {
    match Parts(plan, nodes, e.array_, e.content)
    case None => None
    case Some(parts) => if parts == [] then None else Some(if e.array_ then plan.fromParts(parts) else parts[0])
  }

  /** A column of the property holds geometries, and not this one. */
  ghost predicate Refused<V, G>(plan: Plan<V, G>, nodes: seq<RouteNode>, geometry: G, k: nat) {
    k < |GeometryColumns(nodes)| && IsShaped(plan, GeometryColumns(nodes)[k])
    && plan.prepare(GeometryColumns(nodes)[k], geometry).None?
  }

  /** A geometry of the property cannot be read, or one of its columns cannot hold it. */
  ghost predicate PropertyWrong<V(!new), G(!new)>(plan: Plan<V, G>, nodes: seq<RouteNode>, e: Element) {
    || (exists i :: Unreadable(plan, nodes, e, i))
    || (PropertyGeometry(plan, nodes, e).Some?
        && exists k :: Refused(plan, nodes, PropertyGeometry(plan, nodes, e).value, k))
  }

  /**
   * A geometry is wrong at an element that `nodes` match, or below it: its envelope,
   * if it is taken whole as one; else that of its own property or of a child that
   * some route goes on to. Nothing is wrong where `xsi:nil` leaves the content unread.
   */
  ghost predicate ElementWrong<V(!new), G(!new)>(plan: Plan<V, G>, nodes: seq<RouteNode>, e: Element)
    decreases e, 1
  {
    && !Nil(plan, e.attributes)
    && match FirstWhole(Targets(nodes))
       case Some(whole) => whole.kind.BoundingBox? && plan.box(e).Bad?
       case None =>
         || PropertyWrong(plan, nodes, e)
         || exists i :: 0 <= i < |e.content| && ChildWrong(plan, nodes, e.content[i])
  }

  ghost predicate ChildWrong<V(!new), G(!new)>(plan: Plan<V, G>, nodes: seq<RouteNode>, child: Content)
    decreases child, 2
  {
    child.Child? && !Swallows(plan, nodes, child)
    && Matching(nodes, child.element.name) != []
    && ElementWrong(plan, Matching(nodes, child.element.name), child.element)
  }

  // ---- what fails in a list of effects --------------------------------------------------------------

  ghost predicate Fails<V>(effects: seq<Effect<V>>) {
    exists i :: 0 <= i < |effects| && effects[i].GeometryFail?
  }

  lemma OneFails<V>(effect: Effect<V>)
    ensures Fails([effect]) <==> effect.GeometryFail?
  {
    assert [effect][0] == effect;
  }

  lemma FailsConcat<V>(a: seq<Effect<V>>, b: seq<Effect<V>>)
    ensures Fails(a + b) <==> Fails(a) || Fails(b)
  {
    if Fails(a) {
      var i :| 0 <= i < |a| && a[i].GeometryFail?;
      assert (a + b)[i].GeometryFail?;
    }
    if Fails(b) {
      var i :| 0 <= i < |b| && b[i].GeometryFail?;
      assert (a + b)[|a| + i].GeometryFail?;
    }
  }

  lemma {:induction false} CountsDontFail<V>(nodes: seq<RouteNode>)
    ensures !Fails(Counts<V>(nodes))
  {
    if nodes != [] {
      var last := nodes[|nodes| - 1];
      CountsDontFail<V>(nodes[..|nodes| - 1]);
      FailsConcat(Counts<V>(nodes[..|nodes| - 1]), if last.anchor.Some? then [Count(last.anchor.value)] else []);
    }
  }

  lemma TextDoesntFail<V, G>(plan: Plan<V, G>, column: nat, text: string, raw: Option<string>)
    ensures !Fails(PutText(plan, column, text)) && !Fails(PutContent(plan, column, text, raw))
  {
  }

  lemma {:induction false} PutAllDoesntFail<V, G>(plan: Plan<V, G>, targets: seq<Target>, text: string)
    ensures !Fails(PutAll(plan, targets, text))
  {
    if targets != [] {
      var last := targets[|targets| - 1];
      PutAllDoesntFail(plan, targets[..|targets| - 1], text);
      TextDoesntFail(plan, last.column, text, None);
      FailsConcat(PutAll(plan, targets[..|targets| - 1], text), PutText(plan, last.column, text));
    }
  }

  lemma {:induction false} AttributesDontFail<V, G>(plan: Plan<V, G>, nodes: seq<RouteNode>, attributes: seq<Attribute>)
    ensures !Fails(AttributeEffects(plan, nodes, attributes))
  {
    if attributes != [] {
      var before, last := attributes[..|attributes| - 1], attributes[|attributes| - 1];
      var text := AttributeText(plan, last);
      AttributesDontFail(plan, nodes, before);
      PutAllDoesntFail(plan, AttributeTargets(nodes, last.name), text);
      FailsConcat(AttributeEffects(plan, nodes, before),
                  if last.name.ns == Some(XSI) then [] else PutAll(plan, AttributeTargets(nodes, last.name), text));
    }
  }

  lemma {:induction false} TextsDontFail<V, G>(plan: Plan<V, G>, columns: seq<nat>, text: string, raw: Option<string>)
    ensures !Fails(TextEffects(plan, columns, text, raw))
  {
    if columns != [] {
      var before, last := columns[..|columns| - 1], columns[|columns| - 1];
      TextsDontFail(plan, before, text, raw);
      TextDoesntFail(plan, last, text, raw);
      FailsConcat(TextEffects(plan, before, text, raw), PutContent(plan, last, text, raw));
    }
  }

  // ---- a property -------------------------------------------------------------------------------------

  ghost predicate SomeRefuse<V, G>(plan: Plan<V, G>, columns: seq<nat>, geometry: G) {
    exists k :: 0 <= k < |columns| && IsShaped(plan, columns[k]) && plan.prepare(columns[k], geometry).None?
  }

  lemma PreparedFails<V, G>(plan: Plan<V, G>, column: nat, geometry: G)
    ensures Fails(PutPrepared(plan, column, geometry))
            <==> IsShaped(plan, column) && plan.prepare(column, geometry).None?
  {
    if IsShaped(plan, column) {
      OneFails(PutPrepared(plan, column, geometry)[0]);
    }
  }

  lemma {:induction false} PutFails<V, G>(plan: Plan<V, G>, columns: seq<nat>, geometry: G)
    ensures Fails(PutGeometry(plan, columns, geometry)) <==> SomeRefuse(plan, columns, geometry)
  {
    if columns != [] {
      var before, last := columns[..|columns| - 1], columns[|columns| - 1];
      PutFails(plan, before, geometry);
      FailsConcat(PutGeometry(plan, before, geometry), PutPrepared(plan, last, geometry));
      PreparedFails(plan, last, geometry);
      assert forall k :: 0 <= k < |before| ==> columns[k] == before[k];
      if SomeRefuse(plan, before, geometry) {
        var k :| 0 <= k < |before| && IsShaped(plan, before[k]) && plan.prepare(before[k], geometry).None?;
        assert IsShaped(plan, columns[k]);
      }
    }
  }

  /** At its end, a property fails where a column refuses its geometry. */
  lemma EndFails<V(!new), G(!new)>(plan: Plan<V, G>, nodes: seq<RouteNode>, e: Element)
    ensures Fails(GeometryEffects(plan, nodes, e))
            <==> PropertyGeometry(plan, nodes, e).Some?
                 && exists k :: Refused(plan, nodes, PropertyGeometry(plan, nodes, e).value, k)
  {
    var geometry := PropertyGeometry(plan, nodes, e);
    if geometry.Some? {
      var columns := GeometryColumns(nodes);
      PutFails(plan, columns, geometry.value);
      if SomeRefuse(plan, columns, geometry.value) {
        var k :| 0 <= k < |columns| && IsShaped(plan, columns[k]) && plan.prepare(columns[k], geometry.value).None?;
        assert Refused(plan, nodes, geometry.value, k);
      }
    }
  }

  lemma {:induction false} NoneBefore<V, G>(plan: Plan<V, G>, nodes: seq<RouteNode>, content: seq<Content>)
    ensures Geometries(plan, nodes, content) == 0
            <==> forall j :: 0 <= j < |content| ==> !Swallows(plan, nodes, content[j])
  {
    if content != [] {
      var before := content[..|content| - 1];
      NoneBefore(plan, nodes, before);
      assert forall j :: 0 <= j < |before| ==> content[j] == before[j];
    }
  }

  // ---- an element -------------------------------------------------------------------------------------

  /** A node of the content fails: a geometry that is read and cannot be, or something below it. */
  ghost predicate FailsAt<V(!new), G(!new)>(plan: Plan<V, G>, nodes: seq<RouteNode>, e: Element, i: nat) {
    i < |e.content| && (Unreadable(plan, nodes, e, i) || ChildWrong(plan, nodes, e.content[i]))
  }

  lemma SwallowFails<V, G>(plan: Plan<V, G>, nodes: seq<RouteNode>, array_: bool, before: nat, e: Element)
    ensures Fails(SwallowEffects(plan, nodes, array_, before, e))
            <==> (before == 0 || array_) && ParseGeometry(plan, GeometryColumns(nodes), e).Bad?
  {
    OneFails<V>(GeometryFail);
  }

  lemma NodeFails<V(!new), G(!new)>(plan: Plan<V, G>, nodes: seq<RouteNode>, e: Element, i: nat)
    requires i < |e.content|
    ensures Fails(NodeEffects(plan, nodes, e.array_, Geometries(plan, nodes, e.content[..i]), e.content[i]))
            <==> FailsAt(plan, nodes, e, i)
    decreases e, 0
  {
    var child := e.content[i];
    NoneBefore(plan, nodes, e.content[..i]);
    assert forall j :: 0 <= j < i ==> e.content[..i][j] == e.content[j];
    if Swallows(plan, nodes, child) {
      SwallowFails(plan, nodes, e.array_, Geometries(plan, nodes, e.content[..i]), child.element);
    } else if child.Child? && Matching(nodes, child.element.name) != [] {
      ElementFails(plan, Matching(nodes, child.element.name), child.element);
    }
  }

  lemma {:induction false} ChildrenFail<V(!new), G(!new)>(plan: Plan<V, G>, nodes: seq<RouteNode>, e: Element, n: nat)
    requires n <= |e.content|
    ensures Fails(ChildEffects(plan, nodes, e.array_, e.content[..n]))
            <==> exists i :: 0 <= i < n && FailsAt(plan, nodes, e, i)
    decreases e, 1, n
  {
    if n > 0 {
      ChildrenFail(plan, nodes, e, n - 1);
      NodeFails(plan, nodes, e, n - 1);
      assert e.content[..n][..n - 1] == e.content[..n - 1];
      FailsConcat(ChildEffects(plan, nodes, e.array_, e.content[..n - 1]),
                  NodeEffects(plan, nodes, e.array_, Geometries(plan, nodes, e.content[..n - 1]), e.content[n - 1]));
    }
  }

  /** Nothing is wanted of the element. */
  lemma NothingIsWrong<V(!new), G(!new)>(plan: Plan<V, G>, nodes: seq<RouteNode>, e: Element)
    requires !Wants(nodes, Geometry) && !HasChildren(nodes)
    ensures !PropertyWrong(plan, nodes, e)
    ensures forall i :: 0 <= i < |e.content| ==> !ChildWrong(plan, nodes, e.content[i])
  {
    NoParts(plan, nodes, e.array_, e.content);
    forall i | 0 <= i < |e.content| && e.content[i].Child? ensures Matching(nodes, e.content[i].element.name) == [] {
      NothingMatches(nodes, e.content[i].element.name);
    }
  }

  lemma ContentFails<V(!new), G(!new)>(plan: Plan<V, G>, nodes: seq<RouteNode>, e: Element)
    requires !Nil(plan, e.attributes) && FirstWhole(Targets(nodes)).None?
    ensures Fails(ChildEffects(plan, nodes, e.array_, e.content) + GeometryEffects(plan, nodes, e)
                  + OwnTextEffects(plan, nodes, e))
            <==> ElementWrong(plan, nodes, e)
    decreases e, 2
  {
    var children, end := ChildEffects(plan, nodes, e.array_, e.content), GeometryEffects(plan, nodes, e);
    ChildrenFail(plan, nodes, e, |e.content|);
    assert e.content[..|e.content|] == e.content;
    EndFails(plan, nodes, e);
    TextsDontFail(plan, ColumnsOf(Targets(nodes), Text), OwnText(e.content),
                  if HasElements(e.content) then Some(plan.raw(e)) else None);
    FailsConcat(children, end);
    FailsConcat(children + end, OwnTextEffects(plan, nodes, e));
    SplitsFailures(plan, nodes, e);
  }

  /** Something of the content fails: a geometry that cannot be read, or a child. */
  lemma SplitsFailures<V(!new), G(!new)>(plan: Plan<V, G>, nodes: seq<RouteNode>, e: Element)
    ensures (exists i :: 0 <= i < |e.content| && FailsAt(plan, nodes, e, i))
            <==> || (exists i :: Unreadable(plan, nodes, e, i))
                 || (exists i :: 0 <= i < |e.content| && ChildWrong(plan, nodes, e.content[i]))
  {
    if i: nat :| Unreadable(plan, nodes, e, i) {
      assert FailsAt(plan, nodes, e, i);
    }
    if i :| 0 <= i < |e.content| && ChildWrong(plan, nodes, e.content[i]) {
      assert FailsAt(plan, nodes, e, i);
    }
  }

  /** Reading an element finds a geometry error exactly where the query does. */
  lemma ElementFails<V(!new), G(!new)>(plan: Plan<V, G>, nodes: seq<RouteNode>, e: Element)
    ensures Fails(Effects(plan, nodes, e)) <==> ElementWrong(plan, nodes, e)
    decreases e, 4
  {
    var start := Counts(nodes) + AttributeEffects(plan, nodes, e.attributes);
    CountsDontFail<V>(nodes);
    AttributesDontFail(plan, nodes, e.attributes);
    FailsConcat(Counts(nodes), AttributeEffects(plan, nodes, e.attributes));
    FailsConcat(start, ContentEffects(plan, nodes, e));
    ContentIs(plan, nodes, e);
  }

  lemma ContentIs<V(!new), G(!new)>(plan: Plan<V, G>, nodes: seq<RouteNode>, e: Element)
    ensures Fails(ContentEffects(plan, nodes, e)) <==> ElementWrong(plan, nodes, e)
    decreases e, 3
  {
    var whole := FirstWhole(Targets(nodes));
    if Nil(plan, e.attributes) {
    } else if whole.Some? {
      WholeFails(plan, whole.value, e);
    } else if !Wants(nodes, Text) && !Wants(nodes, Geometry) && !HasChildren(nodes) {
      NothingIsWrong(plan, nodes, e);
    } else {
      ContentFails(plan, nodes, e);
    }
  }

  lemma WholeFails<V, G>(plan: Plan<V, G>, whole: Target, e: Element)
    ensures Fails(WholeEffects(plan, whole, e)) <==> whole.kind.BoundingBox? && plan.box(e).Bad?
  {
    TextDoesntFail(plan, whole.column, TextOf(e), None);
    if whole.kind.BoundingBox? && !plan.box(e).Nothing? {
      OneFails(WholeEffects(plan, whole, e)[0]);
    }
  }
}
