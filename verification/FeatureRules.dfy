/**
 * The rules that the reader and the query of a feature have in common, each by what
 * it means (crates/xeibe-arrow/src/feature.rs:232-434, 622-770, route.rs:166-204).
 */
module FeatureRules {
  import opened Basics
  import opened Route
  import opened FeatureSpec
  import opened Feature
  import opened FeatureQuery
  import opened FeatureAgrees
  import opened FeatureResult

  // ---- the more specific step ---------------------------------------------------------------------

  /**
   * A column routed by a step without a namespace gets nothing from a child element
   * whose name a sibling step has with its namespace.
   */
  lemma {:induction false} ExactSiblingWins<V, G>(
    plan: Plan<V, G>, nodes: seq<RouteNode>, node: RouteNode, array_: bool, before: nat, e: Element,
    column: nat, anchor: Option<nat>, ns: string)
    requires Owner(nodes, node, column, anchor) && (anchor.Some? ==> AnchorCounts(node.children, anchor.value) == 0)
    requires Carrier(node.children, column).Some?
    requires Carrier(node.children, column).value.step == Name(None, e.name.local)
    requires e.name.ns == Some(ns) && Name(Some(ns), e.name.local) in Steps(node.children)
    requires !Swallows(plan, nodes, Child(e))
    ensures Keep(NodeEffects(plan, nodes, array_, before, Child(e)), column, anchor) == []
  {
    OwnedNode(plan, nodes, node, array_, before, Child(e), column, anchor);
  }

  /** Where no sibling has it, the column gets what the element holds for it, whatever its namespace. */
  lemma {:induction false} AnyNamespaceOtherwise<V, G>(
    plan: Plan<V, G>, nodes: seq<RouteNode>, node: RouteNode, array_: bool, before: nat, e: Element,
    column: nat, anchor: Option<nat>)
    requires Owner(nodes, node, column, anchor) && (anchor.Some? ==> AnchorCounts(node.children, anchor.value) == 0)
    requires Carrier(node.children, column).Some?
    requires Carrier(node.children, column).value.step == Name(None, e.name.local)
    requires e.name.ns.Some? ==> Name(e.name.ns, e.name.local) !in Steps(node.children)
    requires !Swallows(plan, nodes, Child(e))
    ensures Keep(NodeEffects(plan, nodes, array_, before, Child(e)), column, anchor)
            == Values(plan, Carrier(node.children, column).value, Matching(nodes, e.name), e, column)
  {
    OwnedNode(plan, nodes, node, array_, before, Child(e), column, anchor);
  }

  // ---- text ----------------------------------------------------------------------------------------

  /** The column takes text, and this text is a value of it or fails to be one. */
  predicate TakesText<V, G>(plan: Plan<V, G>, column: nat, text: string) {
    && column < |plan.columns| && plan.columns[column].item.Scalar?
    && (text != "" || (plan.columns[column].item.text && !plan.emptyAsNull))
  }

  /** A text comes to its value or to a failure, in the column only; an empty one may be no value. */
  lemma {:induction false} TextIsPut<V, G>(plan: Plan<V, G>, column: nat, text: string)
    ensures PutText(plan, column, text) == [] <==> !TakesText(plan, column, text)
    ensures TakesText(plan, column, text) ==> |PutText(plan, column, text)| == 1
    ensures forall c, value :: Put(c, value) in PutText(plan, column, text) <==>
              c == column && TakesText(plan, column, text) && plan.parse(column, text) == Some(value)
    ensures forall c :: Fail(c) in PutText(plan, column, text) <==>
              c == column && TakesText(plan, column, text) && plan.parse(column, text).None?
  {
  }

  /** Whitespace around it is trimmed first; a string column takes elements among the text as they are written. */
  lemma {:induction false} ContentIsTrimmed<V, G>(plan: Plan<V, G>, column: nat, text: string, written: string)
    requires column < |plan.columns|
    ensures PutContent(plan, column, text, None) == PutText(plan, column, plan.trim(text))
    ensures plan.columns[column].item == Scalar(true) ==>
              PutContent(plan, column, text, Some(written)) == PutText(plan, column, plan.trim(written))
    ensures plan.columns[column].item != Scalar(true) ==>
              PutContent(plan, column, text, Some(written)) == PutText(plan, column, plan.trim(text))
  {
  }

  /** An attribute's text is its trimmed value, less the hash of a local `xlink:href` if that is to go. */
  lemma {:induction false} HashIsStripped<V, G>(plan: Plan<V, G>, attribute: Attribute)
    ensures var text, value := AttributeText(plan, attribute), plan.trim(attribute.value);
            if && plan.stripHash && attribute.name == QName(Some("http://www.w3.org/1999/xlink"), "href")
               && "#" <= value
            then value == "#" + text else value == text
  {
    var value := plan.trim(attribute.value);
    if value != "" && value[0] == '#' {
      assert value == "#" + value[1..];
    }
  }

  predicate IsNilAttribute(attribute: Attribute) {
    attribute.name == QName(Some("http://www.w3.org/2001/XMLSchema-instance"), "nil")
  }

  /** An element is nil if its last `xsi:nil` says so. */
  lemma {:induction false} LastNilCounts<V, G>(plan: Plan<V, G>, attributes: seq<Attribute>)
    ensures Nil(plan, attributes)
            <==> exists i :: 0 <= i < |attributes| && IsNilAttribute(attributes[i])
                             && (plan.trim(attributes[i].value) == "true" || plan.trim(attributes[i].value) == "1")
                             && forall j :: i < j < |attributes| ==> !IsNilAttribute(attributes[j])
  {
    if attributes != [] {
      var before, last := attributes[..|attributes| - 1], attributes[|attributes| - 1];
      LastNilCounts(plan, before);
      if IsNilAttribute(last) {
        assert Nil(plan, attributes) ==> attributes[|attributes| - 1] == last;
      } else if Nil(plan, before) {
        var i :| 0 <= i < |before| && IsNilAttribute(before[i])
                 && (plan.trim(before[i].value) == "true" || plan.trim(before[i].value) == "1")
                 && forall j :: i < j < |before| ==> !IsNilAttribute(before[j]);
        assert attributes[i] == before[i];
      }
    }
  }

  /** A nil element gives its columns the values of its attributes, and nothing of its content. */
  lemma {:induction false} NilHoldsNothing<V, G>(plan: Plan<V, G>, nodes: seq<RouteNode>, e: Element, i: nat)
    requires i < |e.attributes| && IsNilAttribute(e.attributes[i]) && plan.trim(e.attributes[i].value) in {"true", "1"}
    requires forall j :: i < j < |e.attributes| ==> !IsNilAttribute(e.attributes[j])
    ensures Effects(plan, nodes, e) == Counts(nodes) + AttributeEffects(plan, nodes, e.attributes)
  {
    LastNilCounts(plan, e.attributes);
    assert Nil(plan, e.attributes);
    assert Counts<V>(nodes) + AttributeEffects(plan, nodes, e.attributes) + []
        == Counts<V>(nodes) + AttributeEffects(plan, nodes, e.attributes);
  }

  /** Attributes of XML Schema's own namespace are no values. */
  lemma {:induction false} InstanceAttributesAreNoValues<V, G>(plan: Plan<V, G>, nodes: seq<RouteNode>,
                                                               before: seq<Attribute>, attribute: Attribute)
    requires attribute.name.ns == Some("http://www.w3.org/2001/XMLSchema-instance")
    ensures AttributeEffects(plan, nodes, before + [attribute]) == AttributeEffects(plan, nodes, before)
  {
    assert (before + [attribute])[..|before|] == before;
  }

  /** The text of an element's own is that of its pieces of text, in order. */
  lemma {:induction false} OwnTextJoins(a: seq<Content>, b: seq<Content>)
    ensures OwnText(a + b) == OwnText(a) + OwnText(b)
    decreases |b|
  {
    if b == [] {
      assert a + b == a;
    } else {
      assert (a + b)[..|a + b| - 1] == a + b[..|b| - 1];
      OwnTextJoins(a, b[..|b| - 1]);
    }
  }

  lemma {:induction false} OwnTextOne(node: Content)
    ensures OwnText([node]) == if node.Chars? then node.text else ""
  {
    assert [node][..0] == [] && OwnText([]) == "";
  }

  /** The text of a subtree is that of its pieces of text at every depth, in order. */
  lemma {:induction false} TextJoins(a: seq<Content>, b: seq<Content>)
    ensures TextIn(a + b) == TextIn(a) + TextIn(b)
    decreases |b|
  {
    if b == [] {
      assert a + b == a;
    } else {
      assert (a + b)[..|a + b| - 1] == a + b[..|b| - 1];
      TextJoins(a, b[..|b| - 1]);
    }
  }

  lemma {:induction false} TextOne(node: Content)
    ensures TextIn([node]) == if node.Chars? then node.text else TextIn(node.element.content)
  {
    assert [node][..0] == [] && TextIn([]) == "";
    assert TextIn([node]) == TextAt(node);
    if node.Child? {
      assert TextAt(node) == TextOf(node.element);
    }
  }

  // ---- targets ---------------------------------------------------------------------------------------

  /** The targets at an element are those of the nodes it matches. */
  lemma {:induction false} TargetsAreTheNodes(nodes: seq<RouteNode>, target: Target)
    ensures target in Targets(nodes) <==> exists i :: 0 <= i < |nodes| && target in nodes[i].targets
  {
    if nodes != [] {
      var before, last := nodes[..|nodes| - 1], nodes[|nodes| - 1];
      TargetsAreTheNodes(before, target);
      if target in Targets(before) {
        var i :| 0 <= i < |before| && target in before[i].targets;
        assert nodes[i] == before[i];
      } else if target in last.targets {
        assert nodes[|nodes| - 1] == last;
      }
    }
  }

  /** An element is taken whole by its first target for a map, its inner text or an envelope. */
  lemma {:induction false} FirstWholeWins(targets: seq<Target>)
    ensures FirstWhole(targets).None? <==> forall i :: 0 <= i < |targets| ==> targets[i].kind in {Text, Geometry}
    ensures FirstWhole(targets).Some? ==>
              exists i :: 0 <= i < |targets| && FirstWhole(targets) == Some(targets[i])
                          && targets[i].kind in {Map, InnerText, BoundingBox}
                          && forall j :: 0 <= j < i ==> targets[j].kind in {Text, Geometry}
  {
    if targets != [] && !IsWhole(targets[0].kind) {
      FirstWholeWins(targets[1..]);
      if FirstWhole(targets[1..]).Some? {
        var i :| 0 <= i < |targets[1..]| && FirstWhole(targets[1..]) == Some(targets[1..][i])
                 && targets[1..][i].kind in {Map, InnerText, BoundingBox}
                 && forall j :: 0 <= j < i ==> targets[1..][j].kind in {Text, Geometry};
        assert targets[i + 1] == targets[1..][i];
        assert forall j :: 0 < j < i + 1 ==> targets[j] == targets[1..][j - 1];
      } else {
        assert forall i :: 0 < i < |targets| ==> targets[i] == targets[1..][i - 1];
      }
    }
  }

  /** The columns of a kind are those of its targets, in order. */
  lemma {:induction false} ColumnsInOrder(targets: seq<Target>, kind: Kind) returns (places: seq<nat>)
    ensures Rising(places, |targets|) && |ColumnsOf(targets, kind)| == |places|
    ensures forall k :: 0 <= k < |places| ==> ColumnsOf(targets, kind)[k] == targets[places[k]].column
    ensures forall i: nat :: i < |targets| ==> (i in places <==> targets[i].kind == kind)
  {
    places := [];
    if targets != [] {
      var n := |targets| - 1;
      places := ColumnsInOrder(targets[..n], kind);
      OnePlaceMore(targets, places);
      if targets[n].kind == kind {
        places := places + [n];
      }
    }
  }

  // ---- geometries ------------------------------------------------------------------------------------

  /** A child is a geometry of the property exactly if it is a GML element and some target wants a geometry. */
  lemma {:induction false} GmlBelowAProperty<V, G>(plan: Plan<V, G>, nodes: seq<RouteNode>, child: Content)
    ensures Swallows(plan, nodes, child)
            <==> && child.Child? && plan.isGml(child.element.name)
                 && exists i, j :: 0 <= i < |nodes| && 0 <= j < |nodes[i].targets|
                                   && nodes[i].targets[j].kind == Geometry
  {
    if i :| 0 <= i < |Targets(nodes)| && Targets(nodes)[i].kind == Geometry {
      TargetsAreTheNodes(nodes, Targets(nodes)[i]);
      var k :| 0 <= k < |nodes| && Targets(nodes)[i] in nodes[k].targets;
      var j :| 0 <= j < |nodes[k].targets| && nodes[k].targets[j] == Targets(nodes)[i];
    }
    if i, j :| 0 <= i < |nodes| && 0 <= j < |nodes[i].targets| && nodes[i].targets[j].kind == Geometry {
      TargetsAreTheNodes(nodes, nodes[i].targets[j]);
      assert nodes[i].targets[j] in Targets(nodes);
    }
  }

  ghost predicate IsReadIn<V, G>(plan: Plan<V, G>, nodes: seq<RouteNode>, array_: bool, content: seq<Content>, i: nat) {
    && i < |content| && Swallows(plan, nodes, content[i])
    && (array_ || forall j :: 0 <= j < i ==> !Swallows(plan, nodes, content[j]))
  }

  /**
   * The parts of a property's geometry are its geometry elements parsed, in order: all
   * of an array property's, the first of another's; none if one of these is not parsed.
   */
  lemma {:induction false} PartsInOrder<V, G>(plan: Plan<V, G>, nodes: seq<RouteNode>, array_: bool,
                                              content: seq<Content>)
    returns (places: seq<nat>)
    ensures Rising(places, |content|)
    ensures forall i: nat :: i < |content| ==> (i in places <==> IsReadIn(plan, nodes, array_, content, i))
    ensures PartsAre(plan, nodes, content, places, Parts(plan, nodes, array_, content))
  {
    places := ReadPlaces(plan, nodes, array_, content);
    PartsAt(plan, nodes, array_, content, places);
  }

  lemma {:induction false} ReadPlaces<V, G>(plan: Plan<V, G>, nodes: seq<RouteNode>, array_: bool,
                                            content: seq<Content>)
    returns (places: seq<nat>)
    ensures Rising(places, |content|)
    ensures forall i: nat :: i < |content| ==> (i in places <==> IsReadIn(plan, nodes, array_, content, i))
  {
    places := [];
    if content != [] {
      var n := |content| - 1;
      places := ReadPlaces(plan, nodes, array_, content[..n]);
      OnePlaceMore(content, places);
      forall i: nat | i < n
        ensures IsReadIn(plan, nodes, array_, content, i) <==> IsReadIn(plan, nodes, array_, content[..n], i)
      {
      }
      if IsReadIn(plan, nodes, array_, content, n) {
        places := places + [n];
      }
    }
  }

  lemma {:induction false} LastIsMost(places: seq<nat>, n: nat, k: nat)
    requires Rising(places, n) && k < |places|
    ensures places[k] <= places[|places| - 1] < n
  {
  }

  /** Rising places but for the last that there can be. */
  lemma {:induction false} PlacesBelow(places: seq<nat>, n: nat) returns (earlier: seq<nat>)
    requires Rising(places, n + 1)
    ensures Rising(earlier, n) && places == if n in places then earlier + [n] else earlier
    ensures forall i: nat :: i < n ==> (i in earlier <==> i in places)
  {
    earlier := places;
    if n in places {
      var k :| 0 <= k < |places| && places[k] == n;
      var last := |places| - 1;
      LastIsMost(places, n + 1, k);
      earlier := places[..last];
      assert places == earlier + [n];
    }
  }

  /** The places of what is read before the last of the content. */
  lemma {:induction false} PlacesBefore<V, G>(plan: Plan<V, G>, nodes: seq<RouteNode>, array_: bool,
                                              content: seq<Content>, places: seq<nat>)
    returns (earlier: seq<nat>)
    requires content != [] && Rising(places, |content|)
    requires forall i: nat :: i < |content| ==> (i in places <==> IsReadIn(plan, nodes, array_, content, i))
    ensures var n := |content| - 1;
            && Rising(earlier, n)
            && (forall i: nat :: i < n ==> (i in earlier <==> IsReadIn(plan, nodes, array_, content[..n], i)))
            && places == if IsReadIn(plan, nodes, array_, content, n) then earlier + [n] else earlier
  {
    var n := |content| - 1;
    earlier := PlacesBelow(places, n);
    forall i: nat | i < n
      ensures IsReadIn(plan, nodes, array_, content, i) <==> IsReadIn(plan, nodes, array_, content[..n], i)
    {
    }
  }

  /** The parts are those at the places; none if one of these is not parsed. */
  ghost predicate PartsAre<V, G>(plan: Plan<V, G>, nodes: seq<RouteNode>, content: seq<Content>, places: seq<nat>,
                                 parts: Option<seq<G>>)
  {
    && (parts.Some? <==> forall k :: 0 <= k < |places| ==> GotAt(plan, nodes, content, places[k]))
    && (parts.Some? ==>
          && |parts.value| == |places|
          && forall k :: 0 <= k < |places| ==> IsPartAt(plan, nodes, content, places[k], parts.value[k]))
  }

  lemma {:induction false} PartsStay<V, G>(plan: Plan<V, G>, nodes: seq<RouteNode>, content: seq<Content>,
                                           places: seq<nat>, parts: Option<seq<G>>)
    requires content != [] && Rising(places, |content| - 1)
    requires PartsAre(plan, nodes, content[..|content| - 1], places, parts)
    ensures PartsAre(plan, nodes, content, places, parts)
  {
    forall k | 0 <= k < |places|
      ensures GotAt(plan, nodes, content, places[k]) <==> GotAt(plan, nodes, content[..|content| - 1], places[k])
    {
    }
  }

  lemma {:induction false} PartsMore<V, G>(plan: Plan<V, G>, nodes: seq<RouteNode>, content: seq<Content>,
                                           places: seq<nat>, n: nat, before: Option<seq<G>>, parts: Option<seq<G>>)
    requires PartsAre(plan, nodes, content, places, before)
    requires parts.Some? <==> before.Some? && GotAt(plan, nodes, content, n)
    requires parts.Some? ==> && |parts.value| == |before.value| + 1
                             && parts.value[..|parts.value| - 1] == before.value
                             && IsPartAt(plan, nodes, content, n, parts.value[|parts.value| - 1])
    ensures PartsAre(plan, nodes, content, places + [n], parts)
  {
    var more := places + [n];
    assert more[|places|] == n;
    assert forall k :: 0 <= k < |places| ==> more[k] == places[k];
    if parts.Some? {
      assert forall k :: 0 <= k < |places| ==> parts.value[..|places|][k] == parts.value[k];
    }
  }

  lemma {:induction false} RisingLength(places: seq<nat>, n: nat)
    requires Rising(places, n)
    ensures |places| <= n
  {
    if places != [] {
      RisingLength(places[..|places| - 1], places[|places| - 1]);
    }
  }

  lemma {:induction false} PartsAt<V, G>(plan: Plan<V, G>, nodes: seq<RouteNode>, array_: bool, content: seq<Content>,
                                         places: seq<nat>)
    requires Rising(places, |content|)
    requires forall i: nat :: i < |content| ==> (i in places <==> IsReadIn(plan, nodes, array_, content, i))
    ensures PartsAre(plan, nodes, content, places, Parts(plan, nodes, array_, content))
  {
    RisingLength(places, |content|);
    if content != [] {
      var n := |content| - 1;
      var earlier := PlacesBefore(plan, nodes, array_, content, places);
      PartsAt(plan, nodes, array_, content[..n], earlier);
      PartsStay(plan, nodes, content, earlier, Parts(plan, nodes, array_, content[..n]));
      PartsNext(plan, nodes, array_, content);
      if IsReadIn(plan, nodes, array_, content, n) {
        PartsMore(plan, nodes, content, earlier, n, Parts(plan, nodes, array_, content[..n]),
                  Parts(plan, nodes, array_, content));
      }
    }
  }

  lemma {:induction false} PartsNext<V, G>(plan: Plan<V, G>, nodes: seq<RouteNode>, array_: bool, content: seq<Content>)
    requires content != []
    ensures var n := |content| - 1;
            var parts, before := Parts(plan, nodes, array_, content), Parts(plan, nodes, array_, content[..n]);
            if !IsReadIn(plan, nodes, array_, content, n) then parts == before
            else && (parts.Some? <==> before.Some? && GotAt(plan, nodes, content, n))
                 && (parts.Some? ==> && |parts.value| == |before.value| + 1
                                     && parts.value[..|parts.value| - 1] == before.value
                                     && IsPartAt(plan, nodes, content, n, parts.value[|parts.value| - 1]))
  {
    FeatureGeometry.NoneBefore(plan, nodes, content[..|content| - 1]);
  }

  ghost predicate GotAt<V, G>(plan: Plan<V, G>, nodes: seq<RouteNode>, content: seq<Content>, i: nat) {
    i < |content| && content[i].Child? && ParseGeometry(plan, GeometryColumns(nodes), content[i].element).Got?
  }

  ghost predicate IsPartAt<V, G>(plan: Plan<V, G>, nodes: seq<RouteNode>, content: seq<Content>, i: nat, part: G) {
    && i < |content| && content[i].Child?
    && ParseGeometry(plan, GeometryColumns(nodes), content[i].element) == Got(part)
  }

  // ---- what comes of a row -----------------------------------------------------------------------------

  /** A cell that its column cannot be without. */
  ghost predicate IsLacking<V>(column: Column, cell: Cell<V>) {
    (cell.Null? && !column.nullable) || (cell.Many? && !column.itemNullable && None in cell.items)
  }

  lemma {:induction false} FirstLacking<V>(columns: seq<Column>, cells: seq<Cell<V>>)
    requires |columns| == |cells|
    ensures FirstMissing(columns, cells).None? <==>
              forall c :: 0 <= c < |columns| ==> !IsLacking(columns[c], cells[c])
    ensures forall c :: 0 <= c < |columns| ==>
              (FirstMissing(columns, cells) == Some(c)
               <==> IsLacking(columns[c], cells[c]) && forall d :: 0 <= d < c ==> !IsLacking(columns[d], cells[d]))
    ensures FirstMissing(columns, cells).Some? ==> FirstMissing(columns, cells).value < |columns|
  {
    if columns != [] {
      FirstLacking(columns[..|columns| - 1], cells[..|columns| - 1]);
      assert IsMissing(columns[|columns| - 1], cells[|columns| - 1])
        <==> IsLacking(columns[|columns| - 1], cells[|columns| - 1]);
    }
  }

  /**
   * A feature is built if nothing went wrong, or only its geometry and the policy is to
   * leave that out, and no column lacks what it cannot be without. Else the policy is to
   * skip it, or it is refused, for the first such column if nothing else went wrong.
   */
  lemma {:induction false} PolicyDecides<V>(columns: seq<Column>, policy: Policy, failed: bool, geometryFailed: bool,
                                            cells: seq<Cell<V>>)
    requires |columns| == |cells|
    ensures var outcome := Settled(columns, policy, failed, geometryFailed, cells);
            var wrong := failed || (geometryFailed && policy != NullGeometry);
            var lacking := exists c :: 0 <= c < |columns| && IsLacking(columns[c], cells[c]);
            && (outcome == Built(cells) <==> !wrong && !lacking)
            && (outcome == Skipped <==> (wrong || lacking) && policy == Skip)
            && (outcome.Refused? <==> (wrong || lacking) && policy != Skip)
            && (outcome == Refused(None) <==> wrong && policy != Skip)
            && forall c: nat :: outcome == Refused(Some(c)) ==>
                 && c < |columns| && IsLacking(columns[c], cells[c])
                 && forall d :: 0 <= d < c ==> !IsLacking(columns[d], cells[d])
  {
    FirstLacking(columns, cells);
  }
}
