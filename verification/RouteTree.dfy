/**
 * Building the route tree from a layer's routes (`RouteTree::new`,
 * crates/xeibe-arrow/src/route.rs:133-145, 222-275). The tree is well routed:
 * what reading a feature relies on.
 */
module RouteTree {
  import opened Basics
  import opened Route
  import opened FeatureSpec
  import opened FeatureQuery
  import opened FeatureAgrees
  import opened FeatureResult

  /** A schema route: the steps to its element, the step its lists are anchored at, and what it fills. */
  datatype SourceRoute = SourceRoute(
    // `None`: the projection leaves the column out.
    column: Option<nat>,
    path: seq<Step>,
    anchor: Option<nat>,
    attribute: Option<Step>,
    kind: Kind)

  datatype Inserted = Inserted(node: RouteNode, anchors: nat, counter: Option<nat>)

  function NewNode(step: Step): RouteNode {
    RouteNode(step, [], [], [], None)
  }

  /** The first child with this step, or the number of children. */
  function Position(children: seq<RouteNode>, step: Step): (i: nat)
    ensures i <= |children|
    ensures i < |children| ==> children[i].step == step
    ensures forall j :: 0 <= j < i ==> children[j].step != step
  {
    if children == [] then 0
    else if children[0].step == step then 0
    else 1 + Position(children[1..], step)
  }

  /** The node's counter, a new one if it has none yet. */
  function Anchored(node: RouteNode, anchors: nat): Inserted {
    match node.anchor
    case Some(a) => Inserted(node, anchors, Some(a))
    case None => Inserted(node.(anchor := Some(anchors)), anchors + 1, Some(anchors))
  }

  function Below(at: Option<nat>): Option<nat> {
    if at.Some? && at.value > 0 then Some(at.value - 1) else None
  }

  /** The child for the next step (`child_mut`), anchored if the list is anchored there. */
  function Child(node: RouteNode, step: Step, at: Option<nat>, anchors: nat): Inserted {
    var i := Position(node.children, step);
    var child := if i < |node.children| then node.children[i] else NewNode(step);
    if at == Some(0) then Anchored(child, anchors) else Inserted(child, anchors, None)
  }

  function WithChild(node: RouteNode, i: nat, child: RouteNode): RouteNode
    requires i <= |node.children|
  {
    node.(children := if i < |node.children| then node.children[i := child] else node.children + [child])
  }

  /** A route's path followed from `node`, its nodes added where they are missing. */
  function Insert(node: RouteNode, path: seq<Step>, at: Option<nat>, attribute: Option<Step>, target: Target,
                  anchors: nat): Inserted
    decreases path
  {
    if path == [] then
      Inserted(if attribute.Some? then node.(attributes := node.attributes + [(attribute.value, target)])
               else node.(targets := node.targets + [target]), anchors, None)
    else
      var child := Child(node, path[0], at, anchors);
      var below := Insert(child.node, path[1..], Below(at), attribute, target, child.anchors);
      Inserted(WithChild(node, Position(node.children, path[0]), below.node), below.anchors,
               if child.counter.Some? then child.counter else below.counter)
  }

  // ---- sums over the children ---------------------------------------------------------------

  lemma {:induction false} CountsUpdate(children: seq<RouteNode>, i: nat, child: RouteNode, k: nat)
    requires i < |children|
    ensures ColumnCounts(children[i := child], k)
            == ColumnCounts(children, k) - ColumnCount(children[i], k) + ColumnCount(child, k)
    ensures AnchorCounts(children[i := child], k)
            == AnchorCounts(children, k) - AnchorCount(children[i], k) + AnchorCount(child, k)
  {
    var before := children[..|children| - 1];
    if i < |before| {
      CountsUpdate(before, i, child, k);
      assert children[i := child][..|children| - 1] == before[i := child];
    } else {
      assert children[i := child][..|children| - 1] == before;
    }
  }

  /** Counting again after one child has changed or was added. */
  lemma ChildCounts(node: RouteNode, i: nat, child: RouteNode, k: nat)
    requires i <= |node.children|
    ensures var after, was := WithChild(node, i, child),
                                 if i < |node.children| then node.children[i] else NewNode(child.step);
            && ColumnCount(after, k) == ColumnCount(node, k) - ColumnCount(was, k) + ColumnCount(child, k)
            && AnchorCount(after, k) == AnchorCount(node, k) - AnchorCount(was, k) + AnchorCount(child, k)
            && ColumnCounts(after.children, k)
               == ColumnCounts(node.children, k) - ColumnCount(was, k) + ColumnCount(child, k)
            && AnchorCounts(after.children, k)
               == AnchorCounts(node.children, k) - AnchorCount(was, k) + AnchorCount(child, k)
  {
    NewNodeIsFree(child.step, k);
    if i < |node.children| {
      CountsUpdate(node.children, i, child, k);
    } else {
      CountsConcat(node.children, [child], k);
      OneNode(child, k);
    }
  }

  lemma NewNodeIsFree(step: Step, k: nat)
    ensures ColumnCount(NewNode(step), k) == 0 == AnchorCount(NewNode(step), k)
  {
  }

  lemma ChildAnchors(node: RouteNode, step: Step, at: Option<nat>, anchors: nat, k: nat)
    ensures var child := Child(node, step, at, anchors);
            var i := Position(node.children, step);
            var was := if i < |node.children| then node.children[i] else NewNode(step);
            && child.node.step == step
            && ColumnCount(child.node, k) == ColumnCount(was, k)
            && AnchorCount(child.node, k) == AnchorCount(was, k)
               + (if k == anchors && child.anchors > anchors then 1 else 0)
            && (child.counter.Some? ==> child.node.anchor == child.counter)
            && (child.counter.Some? <==> at == Some(0))
            && anchors <= child.anchors <= anchors + 1
            && (child.anchors > anchors ==> at == Some(0))
  {
  }

  /** A route adds its column once, and at most one counter, the next one. */
  lemma {:induction false} InsertCounts(node: RouteNode, path: seq<Step>, at: Option<nat>, attribute: Option<Step>,
                                        target: Target, anchors: nat, k: nat)
    ensures var done := Insert(node, path, at, attribute, target, anchors);
            && ColumnCount(done.node, k) == ColumnCount(node, k) + (if k == target.column then 1 else 0)
            && AnchorCount(done.node, k) == AnchorCount(node, k)
               + (if k == anchors && done.anchors > anchors then 1 else 0)
            && anchors <= done.anchors <= anchors + 1
            && (at.None? ==> done.anchors == anchors)
            && done.node.anchor == node.anchor && done.node.step == node.step
    decreases path
  {
    if path == [] {
      if attribute.Some? {
        assert (node.attributes + [(attribute.value, target)])[..|node.attributes|] == node.attributes;
      } else {
        assert (node.targets + [target])[..|node.targets|] == node.targets;
      }
    } else {
      var child := Child(node, path[0], at, anchors);
      var below := Insert(child.node, path[1..], Below(at), attribute, target, child.anchors);
      ChildAnchors(node, path[0], at, anchors, k);
      InsertCounts(child.node, path[1..], Below(at), attribute, target, child.anchors, k);
      ChildCounts(node, Position(node.children, path[0]), below.node, k);
    }
  }

  // ---- the way to a column ---------------------------------------------------------------------

  lemma {:induction false} CarrierAt(children: seq<RouteNode>, i: nat, column: nat)
    requires i < |children| && ColumnCounts(children, column) == 1 && ColumnCount(children[i], column) > 0
    ensures Carrier(children, column) == Some(children[i])
  {
    var before := children[..|children| - 1];
    if i < |before| {
      assert before[i] in before;
      MemberCount(before, before[i], column);
      CarrierAt(before, i, column);
    }
  }

  lemma {:induction false} CarrierKept(children: seq<RouteNode>, i: nat, child: RouteNode, column: nat)
    requires i < |children| && ColumnCount(child, column) == 0 == ColumnCount(children[i], column)
    ensures Carrier(children[i := child], column) == Carrier(children, column)
  {
    var before := children[..|children| - 1];
    if i < |before| {
      CarrierKept(before, i, child, column);
      assert children[i := child][..|children| - 1] == before[i := child];
    } else {
      assert children[i := child][..|children| - 1] == before;
    }
  }

  /** The way to a column after one child has changed or was added. */
  lemma CarrierWithChild(node: RouteNode, i: nat, child: RouteNode, column: nat)
    requires i <= |node.children|
    requires ColumnCounts(WithChild(node, i, child).children, column) == 1
    requires ColumnCount(child, column) == 0 ==> i < |node.children| ==> ColumnCount(node.children[i], column) == 0
    ensures Carrier(WithChild(node, i, child).children, column)
            == if ColumnCount(child, column) > 0 then Some(child) else Carrier(node.children, column)
  {
    var after := WithChild(node, i, child).children;
    if ColumnCount(child, column) > 0 {
      CarrierAt(after, i, column);
    } else if i < |node.children| {
      CarrierKept(node.children, i, child, column);
    } else {
      assert after[..|after| - 1] == node.children;
    }
  }

  /** A counter is one node's, and counters are handed out in turn. */
  ghost predicate Fresh(node: RouteNode, anchors: nat) {
    forall a: nat :: AnchorCount(node, a) <= if a < anchors then 1 else 0
  }

  lemma ChildFresh(node: RouteNode, step: Step, at: Option<nat>, anchors: nat)
    requires Fresh(node, anchors)
    ensures Fresh(Child(node, step, at, anchors).node, Child(node, step, at, anchors).anchors)
  {
    var child := Child(node, step, at, anchors);
    forall a: nat ensures AnchorCount(child.node, a) <= if a < child.anchors then 1 else 0 {
      ChildAnchors(node, step, at, anchors, a);
      WasBelow(node, step, a);
    }
  }

  lemma InsertFresh(node: RouteNode, path: seq<Step>, at: Option<nat>, attribute: Option<Step>, target: Target,
                    anchors: nat)
    requires Fresh(node, anchors)
    ensures var done := Insert(node, path, at, attribute, target, anchors); Fresh(done.node, done.anchors)
  {
    var done := Insert(node, path, at, attribute, target, anchors);
    forall a: nat ensures AnchorCount(done.node, a) <= if a < done.anchors then 1 else 0 {
      InsertCounts(node, path, at, attribute, target, anchors, a);
    }
  }

  /** A node is aligned when the child on the way to the column is. */
  lemma AlignsUp(node: RouteNode, i: nat, below: RouteNode, column: nat, a: nat)
    requires i <= |node.children| && Aligned(below, column, a)
    requires var after := WithChild(node, i, below);
             ColumnCount(after, column) == 1 == ColumnCounts(after.children, column) && AnchorCount(after, a) == 1
    ensures Aligned(WithChild(node, i, below), column, a)
  {
    CarrierWithChild(node, i, below, column);
  }

  /** The route's own list is aligned with its anchor. */
  lemma {:induction false} InsertAligns(node: RouteNode, path: seq<Step>, at: Option<nat>, attribute: Option<Step>,
                                        target: Target, anchors: nat)
    requires at.Some? && at.value < |path| && ColumnCount(node, target.column) == 0 && Fresh(node, anchors)
    ensures var done := Insert(node, path, at, attribute, target, anchors);
            && done.counter.Some? && done.counter.value < done.anchors
            && Aligned(done.node, target.column, done.counter.value)
    decreases path
  {
    var c, i := target.column, Position(node.children, path[0]);
    var child := Child(node, path[0], at, anchors);
    var below := Insert(child.node, path[1..], Below(at), attribute, target, child.anchors);
    ChildFresh(node, path[0], at, anchors);
    ChildAnchors(node, path[0], at, anchors, c);
    WasBelow(node, path[0], c);
    if at.value == 0 {
      AnchoredAligns(child.node, path[1..], attribute, target, child.anchors);
    } else {
      InsertAligns(child.node, path[1..], Below(at), attribute, target, child.anchors);
    }
    var done := Insert(node, path, at, attribute, target, anchors);
    var a := done.counter.value;
    assert Aligned(below.node, c, a);
    AlignsAbove(node, path, at, attribute, target, anchors, a);
  }

  /** At the anchor itself. */
  lemma AnchoredAligns(node: RouteNode, path: seq<Step>, attribute: Option<Step>, target: Target, anchors: nat)
    requires node.anchor.Some? && ColumnCount(node, target.column) == 0 && Fresh(node, anchors)
    ensures var done := Insert(node, path, None, attribute, target, anchors);
            node.anchor.value < done.anchors && Aligned(done.node, target.column, node.anchor.value)
  {
    assert AnchorCount(node, node.anchor.value) >= 1;
    InsertCounts(node, path, None, attribute, target, anchors, target.column);
    InsertCounts(node, path, None, attribute, target, anchors, node.anchor.value);
  }

  lemma AlignsAbove(node: RouteNode, path: seq<Step>, at: Option<nat>, attribute: Option<Step>, target: Target,
                    anchors: nat, a: nat)
    requires path != [] && ColumnCount(node, target.column) == 0 && Fresh(node, anchors)
    requires var child := Child(node, path[0], at, anchors);
             Aligned(Insert(child.node, path[1..], Below(at), attribute, target, child.anchors).node, target.column, a)
    ensures Aligned(Insert(node, path, at, attribute, target, anchors).node, target.column, a)
  {
    var c, i := target.column, Position(node.children, path[0]);
    var child := Child(node, path[0], at, anchors);
    var below := Insert(child.node, path[1..], Below(at), attribute, target, child.anchors);
    var done := Insert(node, path, at, attribute, target, anchors);
    InsertCounts(node, path, at, attribute, target, anchors, c);
    InsertFresh(node, path, at, attribute, target, anchors);
    ChildCounts(node, i, below.node, c);
    WasBelow(node, path[0], c);
    ChildCounts(node, i, below.node, a);
    WasBelow(node, path[0], a);
    NewNodeIsFree(below.node.step, a);
    NewNodeIsFree(below.node.step, c);
    assert AnchorCount(done.node, a) == 1;
    AlignsUp(node, i, below.node, c, a);
  }

  lemma WasBelow(node: RouteNode, step: Step, k: nat)
    ensures var i := Position(node.children, step);
            var was := if i < |node.children| then node.children[i] else NewNode(step);
            && AnchorCount(was, k) <= AnchorCounts(node.children, k) <= AnchorCount(node, k)
            && ColumnCount(was, k) <= ColumnCounts(node.children, k) <= ColumnCount(node, k)
  {
    var i := Position(node.children, step);
    NewNodeIsFree(step, k);
    if i < |node.children| {
      MemberCount(node.children, node.children[i], k);
    }
  }

  lemma ChildStaysAligned(node: RouteNode, step: Step, at: Option<nat>, anchors: nat, column: nat, a: nat)
    requires Aligned(node, column, a) && a < anchors
    ensures var i := Position(node.children, step);
            i < |node.children| && Aligned(node.children[i], column, a)
            ==> Aligned(Child(node, step, at, anchors).node, column, a)
  {
  }

  /** A route leaves the other columns' lists aligned. */
  lemma {:induction false} InsertStaysAligned(node: RouteNode, path: seq<Step>, at: Option<nat>,
                                              attribute: Option<Step>, target: Target, anchors: nat, column: nat,
                                              a: nat)
    requires Aligned(node, column, a) && column != target.column && a < anchors
    ensures Aligned(Insert(node, path, at, attribute, target, anchors).node, column, a)
    decreases path
  {
    var done := Insert(node, path, at, attribute, target, anchors);
    InsertCounts(node, path, at, attribute, target, anchors, column);
    InsertCounts(node, path, at, attribute, target, anchors, a);
    if path != [] && node.anchor != Some(a) {
      var i := Position(node.children, path[0]);
      var child := Child(node, path[0], at, anchors);
      var below := Insert(child.node, path[1..], Below(at), attribute, target, child.anchors);
      ChildAnchors(node, path[0], at, anchors, column);
      InsertCounts(child.node, path[1..], Below(at), attribute, target, child.anchors, column);
      ChildCounts(node, i, below.node, column);
      NewNodeIsFree(path[0], column);
      CarrierWithChild(node, i, below.node, column);
      if ColumnCount(below.node, column) > 0 {
        CarrierAt(node.children, i, column);
        ChildStaysAligned(node, path[0], at, anchors, column, a);
        InsertStaysAligned(child.node, path[1..], Below(at), attribute, target, child.anchors, column, a);
      }
    }
  }

  // ---- the way of a route ----------------------------------------------------------------------------

  /**
   * The tree has the route: from the node on, one child for each step of its path, the
   * counter of its list at the child it is anchored at, and its target at the last.
   */
  ghost predicate Leads(node: RouteNode, path: seq<Step>, at: Option<nat>, counter: Option<nat>,
                        attribute: Option<Step>, target: Target)
    decreases path
  {
    if path == [] then
      match attribute
      case Some(step) => (step, target) in node.attributes
      case None => target in node.targets
    else
      exists i :: 0 <= i < |node.children| && LeadsBy(node.children[i], path, at, counter, attribute, target)
  }

  ghost predicate LeadsBy(child: RouteNode, path: seq<Step>, at: Option<nat>, counter: Option<nat>,
                          attribute: Option<Step>, target: Target)
    requires path != []
    decreases path, 0
  {
    && child.step == path[0]
    && (at == Some(0) ==> counter.Some? && child.anchor == counter)
    && Leads(child, path[1..], Below(at), counter, attribute, target)
  }

  /** What leads on from a node is not its own step or counter. */
  lemma {:induction false} LeadsAlike(a: RouteNode, b: RouteNode, path: seq<Step>, at: Option<nat>,
                                      counter: Option<nat>, attribute: Option<Step>, target: Target)
    requires Leads(a, path, at, counter, attribute, target)
    requires a.children == b.children && a.attributes == b.attributes && a.targets == b.targets
    ensures Leads(b, path, at, counter, attribute, target)
  {
  }

  lemma {:induction false} LeadsUnanchored(node: RouteNode, path: seq<Step>, a: Option<nat>, b: Option<nat>,
                                           attribute: Option<Step>, target: Target)
    requires Leads(node, path, None, a, attribute, target)
    ensures Leads(node, path, None, b, attribute, target)
    decreases path
  {
    if path != [] {
      var i :| 0 <= i < |node.children| && LeadsBy(node.children[i], path, None, a, attribute, target);
      LeadsUnanchored(node.children[i], path[1..], a, b, attribute, target);
      assert LeadsBy(node.children[i], path, None, b, attribute, target);
    }
  }

  /** An inserted route is there. */
  lemma {:induction false} InsertLeads(node: RouteNode, path: seq<Step>, at: Option<nat>, attribute: Option<Step>,
                                       target: Target, anchors: nat)
    ensures var done := Insert(node, path, at, attribute, target, anchors);
            && Leads(done.node, path, at, done.counter, attribute, target)
            && (at.Some? && at.value < |path| ==> done.counter.Some?)
    decreases path
  {
    if path != [] {
      var child := Child(node, path[0], at, anchors);
      var below := Insert(child.node, path[1..], Below(at), attribute, target, child.anchors);
      var done := Insert(node, path, at, attribute, target, anchors);
      InsertLeads(child.node, path[1..], Below(at), attribute, target, child.anchors);
      InsertCounts(child.node, path[1..], Below(at), attribute, target, child.anchors, 0);
      ChildAnchors(node, path[0], at, anchors, 0);
      if at == Some(0) {
        LeadsUnanchored(below.node, path[1..], below.counter, done.counter, attribute, target);
      }
      assert done.node.children[Position(node.children, path[0])] == below.node;
      assert LeadsBy(below.node, path, at, done.counter, attribute, target);
    }
  }

  /** A route that is there stays when another is inserted. */
  lemma {:induction false} InsertKeepsLeading(node: RouteNode, path: seq<Step>, at: Option<nat>,
                                              attribute: Option<Step>, target: Target, anchors: nat,
                                              route: SourceRoute, way: seq<Step>, from: Option<nat>,
                                              counter: Option<nat>, end: Target)
    requires Leads(node, way, from, counter, route.attribute, end)
    ensures Leads(Insert(node, path, at, attribute, target, anchors).node, way, from, counter, route.attribute, end)
    decreases path
  {
    var done := Insert(node, path, at, attribute, target, anchors);
    if path != [] && way == [] {
    } else if path != [] {
      var i :| 0 <= i < |node.children| && LeadsBy(node.children[i], way, from, counter, route.attribute, end);
      var j := Position(node.children, path[0]);
      if i == j {
        var child := Child(node, path[0], at, anchors);
        LeadsAlike(node.children[i], child.node, way[1..], Below(from), counter, route.attribute, end);
        InsertKeepsLeading(child.node, path[1..], Below(at), attribute, target, child.anchors, route, way[1..],
                           Below(from), counter, end);
        InsertCounts(child.node, path[1..], Below(at), attribute, target, child.anchors, 0);
        assert LeadsBy(done.node.children[i], way, from, counter, route.attribute, end);
      } else {
        assert done.node.children[i] == node.children[i];
      }
    }
  }

  /** No two children of a node have the same step. */
  ghost predicate DistinctSteps(node: RouteNode)
    decreases node
  {
    && (forall i, j :: 0 <= i < j < |node.children| ==> node.children[i].step != node.children[j].step)
    && forall i :: 0 <= i < |node.children| ==> DistinctSteps(node.children[i])
  }

  lemma {:induction false} ChildDistinct(node: RouteNode, step: Step, at: Option<nat>, anchors: nat)
    requires DistinctSteps(node)
    ensures DistinctSteps(Child(node, step, at, anchors).node)
  {
    assert DistinctSteps(NewNode(step));
  }

  lemma {:induction false} WithChildDistinct(node: RouteNode, child: RouteNode)
    requires DistinctSteps(node) && DistinctSteps(child)
    ensures DistinctSteps(WithChild(node, Position(node.children, child.step), child))
  {
    var i := Position(node.children, child.step);
    var after := WithChild(node, i, child).children;
    assert after[i] == child;
    assert forall j :: 0 <= j < |node.children| && j != i ==> after[j] == node.children[j];
  }

  lemma {:induction false} InsertKeepsDistinct(node: RouteNode, path: seq<Step>, at: Option<nat>,
                                               attribute: Option<Step>, target: Target, anchors: nat)
    requires DistinctSteps(node)
    ensures DistinctSteps(Insert(node, path, at, attribute, target, anchors).node)
    decreases path
  {
    if path != [] {
      var child := Child(node, path[0], at, anchors);
      ChildDistinct(node, path[0], at, anchors);
      InsertKeepsDistinct(child.node, path[1..], Below(at), attribute, target, child.anchors);
      InsertCounts(child.node, path[1..], Below(at), attribute, target, child.anchors, 0);
      ChildAnchors(node, path[0], at, anchors, 0);
      WithChildDistinct(node, Insert(child.node, path[1..], Below(at), attribute, target, child.anchors).node);
    }
  }

  /**
   * Where a column is filled once in the tree, the query's way to it is the route: a step
   * at a time, to the route's own target or attribute.
   */
  lemma {:induction false} CarrierFollows(node: RouteNode, path: seq<Step>, at: Option<nat>, counter: Option<nat>,
                                          attribute: Option<Step>, target: Target)
    requires ColumnCount(node, target.column) == 1 && Leads(node, path, at, counter, attribute, target)
    ensures path != [] ==>
              var next := Carrier(node.children, target.column);
              && next.Some? && LeadsBy(next.value, path, at, counter, attribute, target)
              && ColumnCount(next.value, target.column) == 1
    ensures path == [] && attribute.Some? ==> StepOf(node.attributes, target.column) == attribute
    ensures path == [] && attribute.None? ==> KindOf(node.targets, target.column) == Some(target.kind)
  {
    if path == [] {
      match attribute
      case Some(step) => StepOfOne(node.attributes, step, target);
      case None => KindOfOne(node.targets, target);
    } else {
      var i :| 0 <= i < |node.children| && LeadsBy(node.children[i], path, at, counter, attribute, target);
      LeadsToOne(node.children[i], path[1..], Below(at), counter, attribute, target);
      MemberCount(node.children, node.children[i], target.column);
      CarrierAt(node.children, i, target.column);
    }
  }

  lemma {:induction false} LeadsToOne(node: RouteNode, path: seq<Step>, at: Option<nat>, counter: Option<nat>,
                                      attribute: Option<Step>, target: Target)
    requires Leads(node, path, at, counter, attribute, target)
    ensures ColumnCount(node, target.column) >= 1
    decreases path
  {
    if path == [] {
      match attribute
      case Some(step) => AttributeCounted(node.attributes, step, target);
      case None => TargetCounted(node.targets, target);
    } else {
      var i :| 0 <= i < |node.children| && LeadsBy(node.children[i], path, at, counter, attribute, target);
      LeadsToOne(node.children[i], path[1..], Below(at), counter, attribute, target);
      MemberCount(node.children, node.children[i], target.column);
    }
  }

  lemma {:induction false} AttributeCounted(attributes: seq<(Step, Target)>, step: Step, target: Target)
    requires (step, target) in attributes
    ensures AttributeCount(attributes, target.column) >= 1
  {
    if attributes[|attributes| - 1] != (step, target) {
      AttributeCounted(attributes[..|attributes| - 1], step, target);
    }
  }

  lemma {:induction false} TargetCounted(targets: seq<Target>, target: Target)
    requires target in targets
    ensures TargetCount(targets, target.column) >= 1
  {
    if targets[|targets| - 1] != target {
      TargetCounted(targets[..|targets| - 1], target);
    }
  }

  lemma {:induction false} StepOfOne(attributes: seq<(Step, Target)>, step: Step, target: Target)
    requires (step, target) in attributes && AttributeCount(attributes, target.column) <= 1
    ensures StepOf(attributes, target.column) == Some(step)
  {
    if attributes[|attributes| - 1] != (step, target) {
      AttributeCounted(attributes[..|attributes| - 1], step, target);
      StepOfOne(attributes[..|attributes| - 1], step, target);
    }
  }

  lemma {:induction false} KindOfOne(targets: seq<Target>, target: Target)
    requires target in targets && TargetCount(targets, target.column) <= 1
    ensures KindOf(targets, target.column) == Some(target.kind)
  {
    if targets[|targets| - 1] != target {
      TargetCounted(targets[..|targets| - 1], target);
      KindOfOne(targets[..|targets| - 1], target);
    }
  }

  // ---- the whole tree -----------------------------------------------------------------------------

  /** How many of the routes fill the column. */
  function RouteCount(routes: seq<SourceRoute>, column: nat): nat {
    if routes == [] then 0
    else RouteCount(routes[..|routes| - 1], column) + if routes[|routes| - 1].column == Some(column) then 1 else 0
  }

  /** The route anchors a list at one of its steps. */
  predicate HasAnchor(route: SourceRoute) {
    route.anchor.Some? && route.anchor.value < |route.path|
  }

  /** A layer with one route for each output column, and an anchor on each list's route. */
  ghost predicate OneRouteEach(routes: seq<SourceRoute>, columns: seq<Column>) {
    && (forall c :: 0 <= c < |columns| ==> RouteCount(routes, c) == 1)
    && (forall i :: 0 <= i < |routes| && routes[i].column.Some? ==>
          && routes[i].column.value < |columns|
          && (columns[routes[i].column.value].list ==> HasAnchor(routes[i])))
  }

  /** The tree of the routes so far. */
  ghost predicate Built(routes: seq<SourceRoute>, columns: seq<Column>, root: RouteNode, anchors: nat) {
    && Fresh(root, anchors)
    && (forall c: nat :: ColumnCount(root, c) == RouteCount(routes, c))
    && (forall c :: 0 <= c < |columns| && columns[c].list && RouteCount(routes, c) == 1 ==>
          columns[c].anchor < anchors && Aligned(root, c, columns[c].anchor))
  }

  function AnchoredColumns(columns: seq<Column>, column: nat, counter: Option<nat>): (after: seq<Column>)
    ensures |after| == |columns|
    ensures forall c :: 0 <= c < |columns| ==> after[c].list == columns[c].list
    ensures forall c :: 0 <= c < |columns| && c != column ==> after[c] == columns[c]
  {
    if column < |columns| && counter.Some? then columns[column := columns[column].(anchor := counter.value)]
    else columns
  }

  lemma {:induction false} RouteCountGrows(routes: seq<SourceRoute>, k: nat, c: nat)
    requires k <= |routes|
    ensures RouteCount(routes[..k], c) <= RouteCount(routes, c)
  {
    if k < |routes| {
      var before := routes[..|routes| - 1];
      RouteCountGrows(before, k, c);
      assert before[..k] == routes[..k];
    } else {
      assert routes[..k] == routes;
    }
  }

  lemma BuiltStep(routes: seq<SourceRoute>, k: nat, columns: seq<Column>, root: RouteNode, anchors: nat, target: Target)
    requires k < |routes| && routes[k].column == Some(target.column)
    requires OneRouteEach(routes, columns) && Built(routes[..k], columns, root, anchors)
    ensures var route := routes[k];
            var done := Insert(root, route.path, route.anchor, route.attribute, target, anchors);
            Built(routes[..k + 1], AnchoredColumns(columns, target.column, done.counter), done.node, done.anchors)
  {
    var route := routes[k];
    var done := Insert(root, route.path, route.anchor, route.attribute, target, anchors);
    var after := AnchoredColumns(columns, target.column, done.counter);
    assert routes[..k + 1][..k] == routes[..k];
    InsertFresh(root, route.path, route.anchor, route.attribute, target, anchors);
    forall c: nat ensures ColumnCount(done.node, c) == RouteCount(routes[..k + 1], c) {
      InsertCounts(root, route.path, route.anchor, route.attribute, target, anchors, c);
    }
    InsertCounts(root, route.path, route.anchor, route.attribute, target, anchors, 0);
    RouteCountGrows(routes, k + 1, target.column);
    forall c | 0 <= c < |columns| && after[c].list && RouteCount(routes[..k + 1], c) == 1
      ensures after[c].anchor < done.anchors && Aligned(done.node, c, after[c].anchor)
    {
      if c == target.column {
        InsertAligns(root, route.path, route.anchor, route.attribute, target, anchors);
      } else {
        InsertStaysAligned(root, route.path, route.anchor, route.attribute, target, anchors, c, columns[c].anchor);
      }
    }
  }

  ghost predicate HasRouteWith(root: RouteNode, route: SourceRoute, counter: Option<nat>) {
    route.column.Some? ==>
      Leads(root, route.path, route.anchor, counter, route.attribute, Target(route.column.value, route.kind))
  }

  /** The tree has the route, with some counter for its list. */
  ghost predicate HasRoute(root: RouteNode, route: SourceRoute) {
    exists counter :: HasRouteWith(root, route, counter)
  }

  /** The tree has the route, with the counter that its list column has. */
  ghost predicate HasRouteOf(root: RouteNode, route: SourceRoute, columns: seq<Column>) {
    route.column.Some? && route.column.value < |columns| && columns[route.column.value].list ==>
      HasRouteWith(root, route, Some(columns[route.column.value].anchor))
  }

  lemma {:induction false} RouteStays(root: RouteNode, route: SourceRoute, counter: Option<nat>, other: SourceRoute,
                                      anchors: nat)
    requires HasRouteWith(root, route, counter) && other.column.Some?
    ensures HasRouteWith(Insert(root, other.path, other.anchor, other.attribute,
                                Target(other.column.value, other.kind), anchors).node, route, counter)
  {
    if route.column.Some? {
      InsertKeepsLeading(root, other.path, other.anchor, other.attribute, Target(other.column.value, other.kind),
                         anchors, route, route.path, route.anchor, counter, Target(route.column.value, route.kind));
    }
  }

  /** Two routes for one column are counted. */
  lemma {:induction false} TwoRoutes(routes: seq<SourceRoute>, m: nat, k: nat, column: nat)
    requires m < k < |routes| && routes[m].column == Some(column) == routes[k].column
    ensures RouteCount(routes, column) >= 2
  {
    var before := routes[..|routes| - 1];
    if k < |before| {
      TwoRoutes(before, m, k, column);
    } else {
      OneRoute(before, m, column);
    }
  }

  lemma {:induction false} OneRoute(routes: seq<SourceRoute>, m: nat, column: nat)
    requires m < |routes| && routes[m].column == Some(column)
    ensures RouteCount(routes, column) >= 1
  {
    if m < |routes| - 1 {
      OneRoute(routes[..|routes| - 1], m, column);
    }
  }

  /** One route more, with all that were there. */
  lemma {:induction false} RoutesStay(routes: seq<SourceRoute>, k: nat, root: RouteNode, columns: seq<Column>,
                                      anchors: nat)
    requires k < |routes| && routes[k].column.Some? && DistinctSteps(root)
    requires forall m :: 0 <= m < k ==> HasRoute(root, routes[m])
    requires OneRouteEach(routes, columns) ==> forall m :: 0 <= m < k ==> HasRouteOf(root, routes[m], columns)
    ensures var r := routes[k];
            var done := Insert(root, r.path, r.anchor, r.attribute, Target(r.column.value, r.kind), anchors);
            var after := AnchoredColumns(columns, r.column.value, done.counter);
            && DistinctSteps(done.node)
            && (forall m :: 0 <= m <= k ==> HasRoute(done.node, routes[m]))
            && (OneRouteEach(routes, columns) ==> forall m :: 0 <= m <= k ==> HasRouteOf(done.node, routes[m], after))
  {
    var r := routes[k];
    var target := Target(r.column.value, r.kind);
    var done := Insert(root, r.path, r.anchor, r.attribute, target, anchors);
    InsertKeepsDistinct(root, r.path, r.anchor, r.attribute, target, anchors);
    InsertLeads(root, r.path, r.anchor, r.attribute, target, anchors);
    assert HasRouteWith(done.node, r, done.counter);
    forall m | 0 <= m < k ensures HasRoute(done.node, routes[m]) {
      var counter :| HasRouteWith(root, routes[m], counter);
      RouteStays(root, routes[m], counter, r, anchors);
    }
    if OneRouteEach(routes, columns) {
      forall m | 0 <= m < k
        ensures HasRouteOf(done.node, routes[m], AnchoredColumns(columns, r.column.value, done.counter))
      {
        if routes[m].column == r.column {
          TwoRoutes(routes, m, k, r.column.value);
        } else if routes[m].column.Some? && routes[m].column.value < |columns| {
          if columns[routes[m].column.value].list {
            RouteStays(root, routes[m], Some(columns[routes[m].column.value].anchor), r, anchors);
          }
        }
      }
    }
  }

  lemma {:induction false} NoRoute(routes: seq<SourceRoute>, column: nat)
    requires forall i :: 0 <= i < |routes| ==> routes[i].column != Some(column)
    ensures RouteCount(routes, column) == 0
  {
    if routes != [] {
      NoRoute(routes[..|routes| - 1], column);
    }
  }

  /** What the loop keeps. */
  ghost predicate Growing(routes: seq<SourceRoute>, k: nat, plans: seq<Column>, columns: seq<Column>, root: RouteNode,
                          anchors: nat)
    requires k <= |routes|
  {
    && |columns| == |plans|
    && (forall c :: 0 <= c < |plans| ==> columns[c] == plans[c].(anchor := columns[c].anchor))
    && DistinctSteps(root) && (forall m :: 0 <= m < k ==> HasRoute(root, routes[m]))
    && (OneRouteEach(routes, plans) ==>
          && OneRouteEach(routes, columns) && Built(routes[..k], columns, root, anchors)
          && forall m :: 0 <= m < k ==> HasRouteOf(root, routes[m], columns))
  }

  lemma {:induction false} SameLists(routes: seq<SourceRoute>, plans: seq<Column>, columns: seq<Column>)
    requires |columns| == |plans| && forall c :: 0 <= c < |plans| ==> columns[c].list == plans[c].list
    requires OneRouteEach(routes, plans)
    ensures OneRouteEach(routes, columns)
  {
  }

  lemma {:induction false} Grows(routes: seq<SourceRoute>, k: nat, plans: seq<Column>, columns: seq<Column>,
                                 root: RouteNode, anchors: nat)
    requires k < |routes| && routes[k].column.Some? && Growing(routes, k, plans, columns, root, anchors)
    ensures var r := routes[k];
            var done := Insert(root, r.path, r.anchor, r.attribute, Target(r.column.value, r.kind), anchors);
            Growing(routes, k + 1, plans, AnchoredColumns(columns, r.column.value, done.counter), done.node,
                    done.anchors)
  {
    var r := routes[k];
    var target := Target(r.column.value, r.kind);
    var done := Insert(root, r.path, r.anchor, r.attribute, target, anchors);
    var after := AnchoredColumns(columns, r.column.value, done.counter);
    RoutesStay(routes, k, root, columns, anchors);
    if OneRouteEach(routes, plans) {
      SameLists(routes, plans, after);
      BuiltStep(routes, k, columns, root, anchors, target);
    }
  }

  /** A route of no column changes nothing. */
  lemma {:induction false} GrowsNot(routes: seq<SourceRoute>, k: nat, plans: seq<Column>, columns: seq<Column>,
                                    root: RouteNode, anchors: nat)
    requires k < |routes| && routes[k].column.None? && Growing(routes, k, plans, columns, root, anchors)
    ensures Growing(routes, k + 1, plans, columns, root, anchors)
  {
    assert routes[..k + 1][..k] == routes[..k];
    assert HasRouteWith(root, routes[k], None);
  }

  /** `RouteTree::new`: with one route for each column, the tree is one that `ReadingIsTheQuery` holds for. */
  method NewRouteTree(routes: seq<SourceRoute>, plans: seq<Column>)
    returns (root: RouteNode, columns: seq<Column>, anchors: nat)
    ensures |columns| == |plans|
    ensures forall c :: 0 <= c < |plans| ==> columns[c] == plans[c].(anchor := columns[c].anchor)
    ensures OneRouteEach(routes, plans) ==> WellRouted(columns, anchors, root)
    ensures DistinctSteps(root) && forall k :: 0 <= k < |routes| ==> HasRoute(root, routes[k])
    ensures OneRouteEach(routes, plans) ==> forall k :: 0 <= k < |routes| ==> HasRouteOf(root, routes[k], columns)
  {
    root, columns, anchors := NewNode(Any), plans, 0;
    for k := 0 to |routes|
      invariant Growing(routes, k, plans, columns, root, anchors)
    {
      var route := routes[k];
      if route.column.Some? {
        Grows(routes, k, plans, columns, root, anchors);
        var target := Target(route.column.value, route.kind);
        var done := Insert(root, route.path, route.anchor, route.attribute, target, anchors);
        root, anchors := done.node, done.anchors;
        columns := AnchoredColumns(columns, route.column.value, done.counter);
      } else {
        GrowsNot(routes, k, plans, columns, root, anchors);
      }
    }
    assert routes[..|routes|] == routes;
    if OneRouteEach(routes, plans) {
      forall c | c >= |columns| ensures ColumnCount(root, c) == 0 {
        NoRoute(routes, c);
      }
    }
  }
}
