/**
 * Reading an element in one pass does to a column, and to the counter of its
 * list's anchor, what the query of the column's own route finds.
 */
module FeatureAgrees {
  import opened Basics
  import opened Route
  import opened FeatureSpec
  import opened FeatureQuery

  // ---- at the anchor and below: what the query finds there --------------------------------

  lemma CarrierNone(children: seq<RouteNode>, column: nat)
    requires ColumnCounts(children, column) == 0
    ensures Carrier(children, column).None?
  {
    CarrierIn(children, column);
    if Carrier(children, column).Some? {
      MemberCount(children, Carrier(children, column).value, column);
    }
  }

  lemma CarrierAnchors(children: seq<RouteNode>, column: nat, anchor: Option<nat>)
    requires anchor.Some? ==> AnchorCounts(children, anchor.value) == 0
    ensures Carrier(children, column).Some? && anchor.Some? ==>
              AnchorCount(Carrier(children, column).value, anchor.value) == 0
  {
    CarrierIn(children, column);
    if Carrier(children, column).Some? && anchor.Some? {
      MemberCount(children, Carrier(children, column).value, anchor.value);
    }
  }

  lemma {:induction false} OwnedEffects<V, G>(plan: Plan<V, G>, nodes: seq<RouteNode>, node: RouteNode, e: Element,
                                              column: nat, anchor: Option<nat>)
    requires Owner(nodes, node, column, anchor) && (anchor.Some? ==> AnchorCounts(nodes, anchor.value) == 0)
    ensures Keep(Effects(plan, nodes, e), column, anchor) == Values(plan, node, nodes, e, column)
    decreases e, 3
  {
    KeepCounts<V>(nodes, column, anchor);
    OwnerAttributes(plan, nodes, node, e.attributes, column, anchor);
    OwnedContent(plan, nodes, node, e, column, anchor);
    KeepEffects(plan, nodes, e, column, anchor);
    NoneBefore(AttributeValues(plan, node, e.attributes, column), ContentValues(plan, node, nodes, e, column));
  }

  lemma NoneBefore<T>(a: seq<T>, b: seq<T>)
    ensures [] + a + b == a + b
    ensures [] + [] + b == b
  {
    assert [] + [] + b == b;
  }

  lemma {:induction false} OwnedContent<V, G>(plan: Plan<V, G>, nodes: seq<RouteNode>, node: RouteNode, e: Element,
                                              column: nat, anchor: Option<nat>)
    requires Owner(nodes, node, column, anchor) && (anchor.Some? ==> AnchorCounts(node.children, anchor.value) == 0)
    ensures Keep(ContentEffects(plan, nodes, e), column, anchor) == ContentValues(plan, node, nodes, e, column)
    decreases e, 2
  {
    var whole := FirstWhole(Targets(nodes));
    if Nil(plan, e.attributes) {
    } else if whole.Some? {
      KeepWhole(plan, whole.value, e, column, anchor);
    } else {
      OwnerKind(nodes, node, column, anchor);
      var children := ChildEffects(plan, nodes, e.array_, e.content);
      OwnedChildren(plan, nodes, node, e.array_, e.content, column, anchor);
      KeepEnd(plan, nodes, e, children, column, anchor);
      if !Wants(nodes, Text) && !Wants(nodes, Geometry) && !HasChildren(nodes) {
        NothingBelow(plan, nodes, e);
      }
    }
  }

  /** Where nothing is wanted below an element, reading it would put nothing. */
  lemma NothingBelow<V, G>(plan: Plan<V, G>, nodes: seq<RouteNode>, e: Element)
    requires !Wants(nodes, Text) && !Wants(nodes, Geometry) && !HasChildren(nodes)
    ensures ChildEffects(plan, nodes, e.array_, e.content) + GeometryEffects(plan, nodes, e)
            + OwnTextEffects(plan, nodes, e) == []
  {
    NoneWanted(Targets(nodes), Text);
    NoParts(plan, nodes, e.array_, e.content);
    NoChildren(plan, nodes, e.array_, e.content);
  }

  lemma {:induction false} NoChildren<V, G>(plan: Plan<V, G>, nodes: seq<RouteNode>, array_: bool,
                                            content: seq<Content>)
    requires !Wants(nodes, Geometry) && !HasChildren(nodes)
    ensures ChildEffects(plan, nodes, array_, content) == []
  {
    if content != [] {
      var last := content[|content| - 1];
      NoChildren(plan, nodes, array_, content[..|content| - 1]);
      if last.Child? {
        NothingMatches(nodes, last.element.name);
      }
    }
  }

  lemma {:induction false} OwnedChildren<V, G>(plan: Plan<V, G>, nodes: seq<RouteNode>, node: RouteNode, array_: bool,
                                               content: seq<Content>, column: nat, anchor: Option<nat>)
    requires Owner(nodes, node, column, anchor) && (anchor.Some? ==> AnchorCounts(node.children, anchor.value) == 0)
    ensures Keep(ChildEffects(plan, nodes, array_, content), column, anchor)
            == ChildValues(plan, node, nodes, array_, content, column)
    decreases content, 0
  {
    if content != [] {
      var before := content[..|content| - 1];
      var n := Geometries(plan, nodes, before);
      OwnedChildren(plan, nodes, node, array_, before, column, anchor);
      OwnedNode(plan, nodes, node, array_, n, content[|content| - 1], column, anchor);
      KeepConcat(ChildEffects(plan, nodes, array_, before), NodeEffects(plan, nodes, array_, n, content[|content| - 1]),
                 column, anchor);
    }
  }

  lemma {:induction false} OwnedNode<V, G>(plan: Plan<V, G>, nodes: seq<RouteNode>, node: RouteNode, array_: bool,
                                           before: nat, child: Content, column: nat, anchor: Option<nat>)
    requires Owner(nodes, node, column, anchor) && (anchor.Some? ==> AnchorCounts(node.children, anchor.value) == 0)
    ensures Keep(NodeEffects(plan, nodes, array_, before, child), column, anchor)
            == NodeValues(plan, node, nodes, array_, before, child, column)
    decreases child, 4
  {
    match child
    case Chars(_) =>
    case Child(e) =>
      if Swallows(plan, nodes, child) {
        KeepSwallow(plan, nodes, array_, before, e, column, anchor);
      } else {
        OwnedChild(plan, nodes, node, e, column, anchor);
      }
  }

  lemma {:induction false} OwnedChild<V, G>(plan: Plan<V, G>, nodes: seq<RouteNode>, node: RouteNode, e: Element,
                                            column: nat, anchor: Option<nat>)
    requires Owner(nodes, node, column, anchor) && (anchor.Some? ==> AnchorCounts(node.children, anchor.value) == 0)
    ensures var matched, next := Matching(nodes, e.name), Carrier(node.children, column);
            (if matched == [] then [] else Keep(Effects(plan, matched, e), column, anchor))
            == if next.Some? && IsChosen(Steps(node.children), next.value.step, e.name)
               then Values(plan, next.value, matched, e, column) else []
    decreases e, 4
  {
    var matched := Matching(nodes, e.name);
    CarrierAnchors(node.children, column, anchor);
    if ColumnCounts(node.children, column) == 0 {
      CarrierNone(node.children, column);
      OwnMatching(nodes, node, e.name, column, anchor);
      FreeEffects(plan, matched, e, column, anchor);
    } else {
      OwnerMatching(nodes, node, e.name, column, anchor);
      var next := Carrier(node.children, column).value;
      TakesTheChosen(Steps(node.children), next.step, e.name);
      if IsChosen(Steps(node.children), next.step, e.name) {
        OwnedEffects(plan, matched, next, e, column, anchor);
      } else {
        FreeEffects(plan, matched, e, column, anchor);
      }
    }
  }

  // ---- above the anchor: one run of effects an occurrence ------------------------------------

  /** The anchor is on the column's route: a node of it, and no other node, has the anchor's counter. */
  predicate Aligned(node: RouteNode, column: nat, anchor: nat)
    decreases node
  {
    && ColumnCount(node, column) == 1 == AnchorCount(node, anchor)
    && (node.anchor != Some(anchor) ==>
          && ColumnCounts(node.children, column) == 1
          && Carrier(node.children, column).Some?
          && (CarrierIn(node.children, column); Aligned(Carrier(node.children, column).value, column, anchor)))
  }

  /** Each occurrence counted, then what the column gets from it. */
  function Expand<V>(occurrences: seq<seq<Effect<V>>>, anchor: nat): seq<Effect<V>> {
    if occurrences == [] then []
    else Expand(occurrences[..|occurrences| - 1], anchor) + [Count(anchor)] + occurrences[|occurrences| - 1]
  }

  lemma {:induction false} ExpandConcat<V>(a: seq<seq<Effect<V>>>, b: seq<seq<Effect<V>>>, anchor: nat)
    ensures Expand(a + b, anchor) == Expand(a, anchor) + Expand(b, anchor)
  {
    if b == [] {
      assert a + b == a;
    } else {
      assert (a + b)[..|a + b| - 1] == a + b[..|b| - 1];
      ExpandConcat(a, b[..|b| - 1], anchor);
    }
  }

  lemma ExpandOne<V>(occurrence: seq<Effect<V>>, anchor: nat)
    ensures Expand([occurrence], anchor) == [Count(anchor)] + occurrence
  {
    assert [occurrence][..0] == [];
    assert Expand<V>([], anchor) == [];
  }

  lemma {:induction false} OwnerCounts<V>(nodes: seq<RouteNode>, node: RouteNode, column: nat, anchor: nat)
    requires Owner(nodes, node, column, Some(anchor)) && AnchorCount(node, anchor) == 1
    ensures Keep(Counts<V>(nodes), column, Some(anchor)) == if node.anchor == Some(anchor) then [Count(anchor)] else []
  {
    var before, last := nodes[..|nodes| - 1], nodes[|nodes| - 1];
    OwnerLast(nodes, node, column, Some(anchor));
    OneNode(last, anchor);
    if last.anchor.Some? {
      KeepConcat(Counts<V>(before), [Count(last.anchor.value)], column, Some(anchor));
      KeepOne<V>(Count(last.anchor.value), column, Some(anchor));
    } else {
      assert Counts<V>(nodes) == Counts<V>(before);
    }
    if last == node && Free(before, column, Some(anchor)) {
      KeepCounts<V>(before, column, Some(anchor));
    } else {
      OwnerCounts<V>(before, node, column, anchor);
    }
  }

  lemma {:induction false} NoAttributeValues<V, G>(plan: Plan<V, G>, node: RouteNode, attributes: seq<Attribute>,
                                                   column: nat)
    requires AttributeCount(node.attributes, column) == 0
    ensures AttributeValues(plan, node, attributes, column) == []
  {
    StepTakes(node.attributes, [], QName(None, ""), column);
    if attributes != [] {
      NoAttributeValues(plan, node, attributes[..|attributes| - 1], column);
    }
  }

  /** Reading an element: what the query finds, occurrence by occurrence. */
  lemma {:induction false} AlignedEffects<V, G>(plan: Plan<V, G>, nodes: seq<RouteNode>, node: RouteNode, e: Element,
                                                column: nat, anchor: nat)
    requires Owner(nodes, node, column, Some(anchor)) && Aligned(node, column, anchor)
    ensures Keep(Effects(plan, nodes, e), column, Some(anchor))
            == Expand(Occurrences(plan, node, nodes, e, column, anchor), anchor)
    decreases e, 3
  {
    var a := Some(anchor);
    OwnerCounts<V>(nodes, node, column, anchor);
    OwnerAttributes(plan, nodes, node, e.attributes, column, a);
    KeepEffects(plan, nodes, e, column, a);
    if node.anchor == a {
      OwnedContent(plan, nodes, node, e, column, a);
      ExpandOne(Values(plan, node, nodes, e, column), anchor);
      Assoc([Count(anchor)], AttributeValues(plan, node, e.attributes, column),
            ContentValues(plan, node, nodes, e, column));
    } else {
      NoAttributeValues(plan, node, e.attributes, column);
      AlignedContent(plan, nodes, node, e, column, anchor);
      NoneBefore([], Keep(ContentEffects(plan, nodes, e), column, a));
    }
  }

  lemma {:induction false} AlignedContent<V, G>(plan: Plan<V, G>, nodes: seq<RouteNode>, node: RouteNode, e: Element,
                                                column: nat, anchor: nat)
    requires Owner(nodes, node, column, Some(anchor)) && Aligned(node, column, anchor) && node.anchor != Some(anchor)
    ensures Keep(ContentEffects(plan, nodes, e), column, Some(anchor))
            == Expand(Occurrences(plan, node, nodes, e, column, anchor), anchor)
    decreases e, 2
  {
    var a := Some(anchor);
    var whole := FirstWhole(Targets(nodes));
    OwnerKind(nodes, node, column, a);
    if Nil(plan, e.attributes) {
    } else if whole.Some? {
      KeepWhole(plan, whole.value, e, column, a);
      NoWholeTarget(Targets(nodes), column);
    } else {
      assert node.children != [] && HasChildren(nodes);
      var children := ChildEffects(plan, nodes, e.array_, e.content);
      KindIs(Targets(nodes), column, Text);
      KeepEnd(plan, nodes, e, children, column, a);
      AlignedChildren(plan, nodes, node, e.array_, e.content, column, anchor);
    }
  }

  lemma NoWholeTarget(targets: seq<Target>, column: nat)
    requires TargetCount(targets, column) == 0
    ensures FirstWhole(targets).Some? ==> FirstWhole(targets).value.column != column
  {
    NoTargetCount(targets, column);
    FirstWholeIn(targets);
  }

  lemma {:induction false} AlignedChildren<V, G>(plan: Plan<V, G>, nodes: seq<RouteNode>, node: RouteNode, array_: bool,
                                                 content: seq<Content>, column: nat, anchor: nat)
    requires Owner(nodes, node, column, Some(anchor)) && Aligned(node, column, anchor) && node.anchor != Some(anchor)
    ensures Keep(ChildEffects(plan, nodes, array_, content), column, Some(anchor))
            == Expand(ChildOccurrences(plan, node, nodes, content, column, anchor), anchor)
    decreases content, 0
  {
    if content != [] {
      var before, last := content[..|content| - 1], content[|content| - 1];
      var n := Geometries(plan, nodes, before);
      AlignedChildren(plan, nodes, node, array_, before, column, anchor);
      AlignedNode(plan, nodes, node, array_, n, last, column, anchor);
      KeepConcat(ChildEffects(plan, nodes, array_, before), NodeEffects(plan, nodes, array_, n, last), column,
                 Some(anchor));
      ExpandConcat(ChildOccurrences(plan, node, nodes, before, column, anchor),
                   NodeOccurrences(plan, node, nodes, last, column, anchor), anchor);
    }
  }

  lemma {:induction false} AlignedNode<V, G>(plan: Plan<V, G>, nodes: seq<RouteNode>, node: RouteNode, array_: bool,
                                             before: nat, child: Content, column: nat, anchor: nat)
    requires Owner(nodes, node, column, Some(anchor)) && Aligned(node, column, anchor) && node.anchor != Some(anchor)
    ensures Keep(NodeEffects(plan, nodes, array_, before, child), column, Some(anchor))
            == Expand(NodeOccurrences(plan, node, nodes, child, column, anchor), anchor)
    decreases child, 4
  {
    match child
    case Chars(_) =>
    case Child(e) =>
      if Swallows(plan, nodes, child) {
        OwnerKind(nodes, node, column, Some(anchor));
        NoTargetCount(Targets(nodes), column);
        KeepSwallow(plan, nodes, array_, before, e, column, Some(anchor));
      } else {
        AlignedChild(plan, nodes, node, e, column, anchor);
      }
  }

  lemma {:induction false} AlignedChild<V, G>(plan: Plan<V, G>, nodes: seq<RouteNode>, node: RouteNode, e: Element,
                                              column: nat, anchor: nat)
    requires Owner(nodes, node, column, Some(anchor)) && Aligned(node, column, anchor) && node.anchor != Some(anchor)
    ensures var matched, next := Matching(nodes, e.name), Carrier(node.children, column).value;
            (if matched == [] then [] else Keep(Effects(plan, matched, e), column, Some(anchor)))
            == if IsChosen(Steps(node.children), next.step, e.name)
               then Expand(Occurrences(plan, next, matched, e, column, anchor), anchor) else []
    decreases e, 4
  {
    var matched := Matching(nodes, e.name);
    OwnerMatching(nodes, node, e.name, column, Some(anchor));
    var next := Carrier(node.children, column).value;
    TakesTheChosen(Steps(node.children), next.step, e.name);
    if IsChosen(Steps(node.children), next.step, e.name) {
      AlignedEffects(plan, matched, next, e, column, anchor);
    } else {
      FreeEffects(plan, matched, e, column, Some(anchor));
    }
  }
}
