/**
 * The route tree of a read: for each element and attribute, the columns that get it
 * (crates/xeibe-arrow/src/route.rs:91-208).
 */
module Route {
  import opened Basics

  datatype QName = QName(ns: Option<string>, local: string)

  /** `*`, or a local name; without a namespace it matches the name in any. */
  datatype Step = Any | Name(ns: Option<string>, local: string)

  datatype Kind = Text | Geometry | Map | InnerText | BoundingBox

  datatype Target = Target(column: nat, kind: Kind)

  datatype RouteNode = RouteNode(
    step: Step,
    children: seq<RouteNode>,
    attributes: seq<(Step, Target)>,
    // What the element fills, as opposed to what its children and attributes fill.
    targets: seq<Target>,
    // Which counter goes up at this element, if lists are anchored here.
    anchor: Option<nat>)

  predicate IsExact(step: Step, name: QName) {
    step.Name? && step.ns.Some? && step.ns == name.ns && step.local == name.local
  }

  predicate IsAnyNamespace(step: Step, name: QName) {
    step.Name? && step.ns.None? && step.local == name.local
  }

  /** Some step names exactly this namespace and name. */
  predicate AnyExact(steps: seq<Step>, name: QName) {
    exists i :: 0 <= i < |steps| && IsExact(steps[i], name)
  }

  /** An element `name` is at `step`: the more specific of two sibling steps wins. */
  predicate Takes(siblings: seq<Step>, step: Step, name: QName) {
    step.Any? || TakesAttribute(siblings, step, name)
  }

  /** As for elements, but `*` is no attribute step. */
  predicate TakesAttribute(siblings: seq<Step>, step: Step, name: QName) {
    IsExact(step, name) || (!AnyExact(siblings, name) && IsAnyNamespace(step, name))
  }

  function Steps(children: seq<RouteNode>): (steps: seq<Step>)
    ensures |steps| == |children| && forall i :: 0 <= i < |steps| ==> steps[i] == children[i].step
  {
    seq(|children|, i requires 0 <= i < |children| => children[i].step)
  }

  function AttributeSteps(attributes: seq<(Step, Target)>): (steps: seq<Step>)
    ensures |steps| == |attributes| && forall i :: 0 <= i < |steps| ==> steps[i] == attributes[i].0
  {
    seq(|attributes|, i requires 0 <= i < |attributes| => attributes[i].0)
  }

  /** The nodes of `children` that an element `name` matches, with `siblings` for the more specific steps. */
  function Matched(children: seq<RouteNode>, siblings: seq<Step>, name: QName): seq<RouteNode> {
    if children == [] then []
    else
      var last := children[|children| - 1];
      Matched(children[..|children| - 1], siblings, name) + if Takes(siblings, last.step, name) then [last] else []
  }

  function MatchingChildren(node: RouteNode, name: QName): seq<RouteNode> {
    Matched(node.children, Steps(node.children), name)
  }

  /** The nodes an element `name` below an element that `nodes` match is at. */
  function Matching(nodes: seq<RouteNode>, name: QName): seq<RouteNode> {
    if nodes == [] then []
    else Matching(nodes[..|nodes| - 1], name) + MatchingChildren(nodes[|nodes| - 1], name)
  }

  function MatchedTargets(attributes: seq<(Step, Target)>, siblings: seq<Step>, name: QName): seq<Target> {
    if attributes == [] then []
    else
      var (step, target) := attributes[|attributes| - 1];
      MatchedTargets(attributes[..|attributes| - 1], siblings, name)
      + if TakesAttribute(siblings, step, name) then [target] else []
  }

  /** The targets of attribute `name` at the nodes. */
  function AttributeTargets(nodes: seq<RouteNode>, name: QName): seq<Target> {
    if nodes == [] then []
    else
      var node := nodes[|nodes| - 1];
      AttributeTargets(nodes[..|nodes| - 1], name)
      + MatchedTargets(node.attributes, AttributeSteps(node.attributes), name)
  }

  // ---- which steps are chosen -------------------------------------------------------

  /**
   * `*` is chosen for every element, a step with a namespace for just its name, and one
   * without for its local name in every namespace that no sibling names with it.
   */
  predicate IsChosen(siblings: seq<Step>, step: Step, name: QName) {
    match step
    case Any => true
    case Name(Some(ns), local) => name == QName(Some(ns), local)
    case Name(None, local) => name.local == local && (name.ns.Some? ==> Name(name.ns, local) !in siblings)
  }

  /** An attribute's steps are chosen alike, except `*`. */
  predicate IsChosenAttribute(siblings: seq<Step>, step: Step, name: QName) {
    step.Name? && IsChosen(siblings, step, name)
  }

  lemma {:induction false} ExactIsThere(siblings: seq<Step>, name: QName)
    ensures AnyExact(siblings, name) <==> name.ns.Some? && Name(name.ns, name.local) in siblings
  {
    if name.ns.Some? && Name(name.ns, name.local) in siblings {
      var i :| 0 <= i < |siblings| && siblings[i] == Name(name.ns, name.local);
      assert IsExact(siblings[i], name);
    }
  }

  lemma {:induction false} TakesTheChosen(siblings: seq<Step>, step: Step, name: QName)
    ensures Takes(siblings, step, name) <==> IsChosen(siblings, step, name)
    ensures TakesAttribute(siblings, step, name) <==> IsChosenAttribute(siblings, step, name)
  {
    ExactIsThere(siblings, name);
  }

  ghost predicate Rising(places: seq<nat>, n: nat) {
    && (forall i :: 0 <= i < |places| ==> places[i] < n)
    && (forall i, j :: 0 <= i < j < |places| ==> places[i] < places[j])
  }

  /** What is at the places. */
  ghost function Picked<X>(all: seq<X>, places: seq<nat>): seq<X>
    requires forall i :: 0 <= i < |places| ==> places[i] < |all|
  {
    seq(|places|, i requires 0 <= i < |places| => all[places[i]])
  }

  lemma {:induction false} OnePlaceMore<X>(all: seq<X>, places: seq<nat>)
    requires all != [] && Rising(places, |all| - 1)
    ensures Rising(places, |all|) && Picked(all, places) == Picked(all[..|all| - 1], places)
    ensures var more := places + [|all| - 1];
            Rising(more, |all|) && Picked(all, more) == Picked(all[..|all| - 1], places) + [all[|all| - 1]]
  {
  }

  /** The chosen children, and no others, in their order. */
  lemma {:induction false} MatchedPlaces(children: seq<RouteNode>, siblings: seq<Step>, name: QName)
    returns (places: seq<nat>)
    ensures Rising(places, |children|) && Matched(children, siblings, name) == Picked(children, places)
    ensures forall i: nat :: i < |children| ==> (i in places <==> IsChosen(siblings, children[i].step, name))
  {
    places := [];
    if children != [] {
      var n := |children| - 1;
      places := MatchedPlaces(children[..n], siblings, name);
      OnePlaceMore(children, places);
      TakesTheChosen(siblings, children[n].step, name);
      if IsChosen(siblings, children[n].step, name) {
        places := places + [n];
      }
    }
  }

  lemma {:induction false} TargetPlaces(attributes: seq<(Step, Target)>, siblings: seq<Step>, name: QName)
    returns (places: seq<nat>)
    ensures Rising(places, |attributes|) && |MatchedTargets(attributes, siblings, name)| == |places|
    ensures forall k :: 0 <= k < |places| ==> MatchedTargets(attributes, siblings, name)[k] == attributes[places[k]].1
    ensures forall i: nat :: i < |attributes| ==> (i in places <==> IsChosenAttribute(siblings, attributes[i].0, name))
  {
    places := [];
    if attributes != [] {
      var n := |attributes| - 1;
      places := TargetPlaces(attributes[..n], siblings, name);
      OnePlaceMore(attributes, places);
      TakesTheChosen(siblings, attributes[n].0, name);
      if IsChosenAttribute(siblings, attributes[n].0, name) {
        places := places + [n];
      }
    }
  }

  // ---- the loops ------------------------------------------------------------------

  method FindExact(steps: seq<Step>, name: QName) returns (exact: bool)
    ensures exact <==> AnyExact(steps, name)
  {
    for i := 0 to |steps|
      invariant forall j :: 0 <= j < i ==> !IsExact(steps[j], name)
    {
      if IsExact(steps[i], name) {
        return true;
      }
    }
    return false;
  }

  /** `RouteNode::matching_children`. */
  method AddMatchingChildren(node: RouteNode, name: QName, out: seq<RouteNode>)
    returns (more: seq<RouteNode>, ghost places: seq<nat>)
    ensures more == out + MatchingChildren(node, name)
    ensures Rising(places, |node.children|) && more == out + Picked(node.children, places)
    ensures forall i: nat :: i < |node.children| ==>
              (i in places <==> IsChosen(Steps(node.children), node.children[i].step, name))
  {
    places := MatchedPlaces(node.children, Steps(node.children), name);
    var exact := FindExact(Steps(node.children), name);
    more := out;
    for i := 0 to |node.children|
      invariant more == out + Matched(node.children[..i], Steps(node.children), name)
    {
      var child := node.children[i];
      assert node.children[..i + 1][..i] == node.children[..i];
      if child.step.Any? || IsExact(child.step, name) || (!exact && IsAnyNamespace(child.step, name)) {
        more := more + [child];
      }
    }
    assert node.children[..|node.children|] == node.children;
  }

  /** `RouteNode::attribute_targets`. */
  method AddAttributeTargets(node: RouteNode, name: QName, out: seq<Target>)
    returns (more: seq<Target>, ghost places: seq<nat>)
    ensures more == out + MatchedTargets(node.attributes, AttributeSteps(node.attributes), name)
    ensures Rising(places, |node.attributes|) && |more| == |out| + |places|
    ensures forall k :: 0 <= k < |places| ==> more[|out| + k] == node.attributes[places[k]].1
    ensures forall i: nat :: i < |node.attributes| ==>
              (i in places <==> IsChosenAttribute(AttributeSteps(node.attributes), node.attributes[i].0, name))
  {
    places := TargetPlaces(node.attributes, AttributeSteps(node.attributes), name);
    var exact := FindExact(AttributeSteps(node.attributes), name);
    more := out;
    for i := 0 to |node.attributes|
      invariant more == out + MatchedTargets(node.attributes[..i], AttributeSteps(node.attributes), name)
    {
      var (step, target) := node.attributes[i];
      assert node.attributes[..i + 1][..i] == node.attributes[..i];
      if IsExact(step, name) || (!exact && IsAnyNamespace(step, name)) {
        more := more + [target];
      }
    }
    assert node.attributes[..|node.attributes|] == node.attributes;
  }

  // ---- where a column and an anchor are ---------------------------------------------

  function AttributeCount(attributes: seq<(Step, Target)>, column: nat): nat {
    if attributes == [] then 0
    else AttributeCount(attributes[..|attributes| - 1], column)
         + if attributes[|attributes| - 1].1.column == column then 1 else 0
  }

  function TargetCount(targets: seq<Target>, column: nat): nat {
    if targets == [] then 0
    else TargetCount(targets[..|targets| - 1], column) + if targets[|targets| - 1].column == column then 1 else 0
  }

  /** How often the column is filled at a node or below it. */
  function ColumnCount(node: RouteNode, column: nat): nat
    decreases node, 1
  {
    AttributeCount(node.attributes, column) + TargetCount(node.targets, column) + ColumnCounts(node.children, column)
  }

  function ColumnCounts(nodes: seq<RouteNode>, column: nat): nat
    decreases nodes, 0
  {
    if nodes == [] then 0
    else ColumnCounts(nodes[..|nodes| - 1], column) + ColumnCount(nodes[|nodes| - 1], column)
  }

  /** How often the anchor's counter is a node's own. */
  function AnchorCount(node: RouteNode, anchor: nat): nat
    decreases node, 1
  {
    (if node.anchor == Some(anchor) then 1 else 0) + AnchorCounts(node.children, anchor)
  }

  function AnchorCounts(nodes: seq<RouteNode>, anchor: nat): nat
    decreases nodes, 0
  {
    if nodes == [] then 0
    else AnchorCounts(nodes[..|nodes| - 1], anchor) + AnchorCount(nodes[|nodes| - 1], anchor)
  }

  /** The child on the way to the column: the one that it is filled at or below. */
  function Carrier(nodes: seq<RouteNode>, column: nat): Option<RouteNode> {
    if nodes == [] then None
    else if ColumnCount(nodes[|nodes| - 1], column) > 0 then Some(nodes[|nodes| - 1])
    else Carrier(nodes[..|nodes| - 1], column)
  }
}
