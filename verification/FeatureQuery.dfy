/**
 * What a column of a feature is, asked of the tree: follow the column's own
 * route, element by element; entry `i` of a list is what the `i`-th occurrence
 * of its anchor holds. Reading in one pass puts exactly that.
 */
module FeatureQuery {
  import opened Basics
  import opened Route
  import opened FeatureSpec

  // ---- the effects on one column --------------------------------------------------------

  predicate Keeps<V>(effect: Effect<V>, column: nat, anchor: Option<nat>) {
    match effect
    case Count(a) => anchor == Some(a)
    case Put(c, _) => c == column
    case Fail(c) => c == column
    case GeometryFail => false
  }

  /** The effects on a column, and the occurrences of an anchor. */
  function Keep<V>(effects: seq<Effect<V>>, column: nat, anchor: Option<nat>): seq<Effect<V>> {
    if effects == [] then []
    else
      var last := effects[|effects| - 1];
      Keep(effects[..|effects| - 1], column, anchor) + if Keeps(last, column, anchor) then [last] else []
  }

  lemma {:induction false} KeepConcat<V>(a: seq<Effect<V>>, b: seq<Effect<V>>, column: nat, anchor: Option<nat>)
    ensures Keep(a + b, column, anchor) == Keep(a, column, anchor) + Keep(b, column, anchor)
  {
    if b == [] {
      assert a + b == a;
    } else {
      assert (a + b)[..|a + b| - 1] == a + b[..|b| - 1];
      KeepConcat(a, b[..|b| - 1], column, anchor);
    }
  }

  lemma KeepOne<V>(effect: Effect<V>, column: nat, anchor: Option<nat>)
    ensures Keep([effect], column, anchor) == if Keeps(effect, column, anchor) then [effect] else []
  {
    assert [effect][..0] == [];
    assert Keep<V>([], column, anchor) == [];
  }

  // ---- the query ------------------------------------------------------------------------

  /** The content of the element is read: it is not nil, and no route takes it whole. */
  predicate Opened<V, G>(plan: Plan<V, G>, nodes: seq<RouteNode>, e: Element) {
    !Nil(plan, e.attributes) && FirstWhole(Targets(nodes)).None?
  }

  /**
   * What the column gets from an element at `node`, the step of its route that
   * the element has reached. `nodes` are all the steps of the tree it has reached,
   * which say only whether it is opened and which geometries are its own.
   */
  function Values<V, G>(plan: Plan<V, G>, node: RouteNode, nodes: seq<RouteNode>, e: Element,
                        column: nat): seq<Effect<V>>
    decreases e, 3
  {
    AttributeValues(plan, node, e.attributes, column) + ContentValues(plan, node, nodes, e, column)
  }

  /** The step of the attribute that fills the column. */
  function StepOf(attributes: seq<(Step, Target)>, column: nat): Option<Step> {
    if attributes == [] then None
    else if attributes[|attributes| - 1].1.column == column then Some(attributes[|attributes| - 1].0)
    else StepOf(attributes[..|attributes| - 1], column)
  }

  /** How the column takes the element itself. */
  function KindOf(targets: seq<Target>, column: nat): Option<Kind> {
    if targets == [] then None
    else if targets[|targets| - 1].column == column then Some(targets[|targets| - 1].kind)
    else KindOf(targets[..|targets| - 1], column)
  }

  /** The text of every attribute that takes the column's attribute step. */
  function AttributeValues<V, G>(plan: Plan<V, G>, node: RouteNode, attributes: seq<Attribute>,
                                 column: nat): seq<Effect<V>> {
    if attributes == [] then []
    else
      var last := attributes[|attributes| - 1];
      AttributeValues(plan, node, attributes[..|attributes| - 1], column)
      + if last.name.ns == Some(XSI) then [] else OneAttribute(plan, node, last, column)
  }

  function OneAttribute<V, G>(plan: Plan<V, G>, node: RouteNode, attribute: Attribute, column: nat): seq<Effect<V>> {
    match StepOf(node.attributes, column)
    case None => []
    case Some(step) =>
      if IsChosenAttribute(AttributeSteps(node.attributes), step, attribute.name)
      then PutText(plan, column, AttributeText(plan, attribute)) else []
  }

  /** The element's own text. */
  function TextValue<V, G>(plan: Plan<V, G>, kind: Option<Kind>, e: Element, column: nat): seq<Effect<V>> {
    if kind != Some(Text) then []
    else PutContent(plan, column, OwnText(e.content), if HasElements(e.content) then Some(plan.raw(e)) else None)
  }

  /** The geometry of a geometry property. */
  function GeometryValue<V, G>(plan: Plan<V, G>, kind: Option<Kind>, nodes: seq<RouteNode>, e: Element,
                               column: nat): seq<Effect<V>> {
    if kind != Some(Geometry) then []
    else
      match Parts(plan, nodes, e.array_, e.content)
      case None => []
      case Some(parts) =>
        if parts == [] then []
        else PreparedValue(plan, column, if e.array_ then plan.fromParts(parts) else parts[0])
  }

  function PreparedValue<V, G>(plan: Plan<V, G>, column: nat, geometry: G): seq<Effect<V>> {
    if !IsShaped(plan, column) then []
    else
      match plan.prepare(column, geometry)
      case Some(value) => [Put(column, value)]
      case None => []
  }

  /** An element that a route takes whole; a box that cannot be read is no value. */
  function WholeValue<V, G>(plan: Plan<V, G>, whole: Target, e: Element, column: nat): seq<Effect<V>> {
    if whole.column != column || (whole.kind.BoundingBox? && plan.box(e).Bad?) then []
    else WholeEffects(plan, whole, e)
  }

  /** A second geometry in a property that holds one is an error of its first column. */
  function SwallowValue<V>(nodes: seq<RouteNode>, array_: bool, before: nat, column: nat): seq<Effect<V>> {
    if before > 0 && !array_ && GeometryColumns(nodes) != [] && GeometryColumns(nodes)[0] == column then [Fail(column)]
    else []
  }

  function ContentValues<V, G>(plan: Plan<V, G>, node: RouteNode, nodes: seq<RouteNode>, e: Element,
                               column: nat): seq<Effect<V>>
    decreases e, 2
  {
    if Nil(plan, e.attributes) then []
    else
      match FirstWhole(Targets(nodes))
      case Some(whole) => WholeValue(plan, whole, e, column)
      case None =>
        ChildValues(plan, node, nodes, e.array_, e.content, column)
        + GeometryValue(plan, KindOf(node.targets, column), nodes, e, column)
        + TextValue(plan, KindOf(node.targets, column), e, column)
  }

  function ChildValues<V, G>(plan: Plan<V, G>, node: RouteNode, nodes: seq<RouteNode>, array_: bool,
                             content: seq<Content>, column: nat): seq<Effect<V>>
    decreases content, 0
  {
    if content == [] then []
    else
      ChildValues(plan, node, nodes, array_, content[..|content| - 1], column)
      + NodeValues(plan, node, nodes, array_, Geometries(plan, nodes, content[..|content| - 1]),
                   content[|content| - 1], column)
  }

  /** A child element is followed if it takes the next step of the column's route. */
  function NodeValues<V, G>(plan: Plan<V, G>, node: RouteNode, nodes: seq<RouteNode>, array_: bool, before: nat,
                            child: Content, column: nat): seq<Effect<V>>
    decreases child, 4
  {
    match child
    case Chars(_) => []
    case Child(e) =>
      if Swallows(plan, nodes, child) then SwallowValue(nodes, array_, before, column)
      else
        match Carrier(node.children, column)
        case None => []
        case Some(next) =>
          if IsChosen(Steps(node.children), next.step, e.name)
          then Values(plan, next, Matching(nodes, e.name), e, column)
          else []
  }

  /** The occurrences of the anchor on the column's route, in document order, with what the column gets from each. */
  function Occurrences<V, G>(plan: Plan<V, G>, node: RouteNode, nodes: seq<RouteNode>, e: Element, column: nat,
                             anchor: nat): seq<seq<Effect<V>>>
    decreases e, 3
  {
    if node.anchor == Some(anchor) then [Values(plan, node, nodes, e, column)]
    else if !Opened(plan, nodes, e) then []
    else ChildOccurrences(plan, node, nodes, e.content, column, anchor)
  }

  function ChildOccurrences<V, G>(plan: Plan<V, G>, node: RouteNode, nodes: seq<RouteNode>, content: seq<Content>,
                                  column: nat, anchor: nat): seq<seq<Effect<V>>>
    decreases content, 0
  {
    if content == [] then []
    else
      ChildOccurrences(plan, node, nodes, content[..|content| - 1], column, anchor)
      + NodeOccurrences(plan, node, nodes, content[|content| - 1], column, anchor)
  }

  function NodeOccurrences<V, G>(plan: Plan<V, G>, node: RouteNode, nodes: seq<RouteNode>, child: Content, column: nat,
                                 anchor: nat): seq<seq<Effect<V>>>
    decreases child, 4
  {
    match child
    case Chars(_) => []
    case Child(e) =>
      if Swallows(plan, nodes, child) then []
      else
        match Carrier(node.children, column)
        case None => []
        case Some(next) =>
          if IsChosen(Steps(node.children), next.step, e.name)
          then Occurrences(plan, next, Matching(nodes, e.name), e, column, anchor)
          else []
  }

  // ---- a column that no node fills --------------------------------------------------------

  predicate Free(nodes: seq<RouteNode>, column: nat, anchor: Option<nat>) {
    ColumnCounts(nodes, column) == 0 && (anchor.Some? ==> AnchorCounts(nodes, anchor.value) == 0)
  }

  lemma {:induction false} FreeLast(nodes: seq<RouteNode>, column: nat, anchor: Option<nat>)
    requires nodes != [] && Free(nodes, column, anchor)
    ensures Free(nodes[..|nodes| - 1], column, anchor)
    ensures ColumnCount(nodes[|nodes| - 1], column) == 0
    ensures anchor.Some? ==> AnchorCount(nodes[|nodes| - 1], anchor.value) == 0
  {
  }

  lemma {:induction false} FreeMatched(children: seq<RouteNode>, siblings: seq<Step>, name: QName, column: nat,
                                       anchor: Option<nat>)
    requires Free(children, column, anchor)
    ensures Free(Matched(children, siblings, name), column, anchor)
  {
    if children != [] {
      FreeLast(children, column, anchor);
      FreeMatched(children[..|children| - 1], siblings, name, column, anchor);
      FreeAppend(Matched(children[..|children| - 1], siblings, name),
                 if Takes(siblings, children[|children| - 1].step, name) then [children[|children| - 1]] else [],
                 column, anchor);
    }
  }

  lemma {:induction false} CountsConcat(a: seq<RouteNode>, b: seq<RouteNode>, column: nat)
    ensures ColumnCounts(a + b, column) == ColumnCounts(a, column) + ColumnCounts(b, column)
    ensures AnchorCounts(a + b, column) == AnchorCounts(a, column) + AnchorCounts(b, column)
    decreases |b|
  {
    if b == [] {
      assert a + b == a;
    } else {
      assert (a + b)[..|a + b| - 1] == a + b[..|b| - 1];
      CountsConcat(a, b[..|b| - 1], column);
    }
  }

  lemma FreeAppend(a: seq<RouteNode>, b: seq<RouteNode>, column: nat, anchor: Option<nat>)
    requires Free(a, column, anchor)
    requires b == [] || (|b| == 1 && ColumnCount(b[0], column) == 0
             && (anchor.Some? ==> AnchorCount(b[0], anchor.value) == 0))
             || Free(b, column, anchor)
    ensures Free(a + b, column, anchor)
  {
    CountsConcat(a, b, column);
    if anchor.Some? {
      CountsConcat(a, b, anchor.value);
    }
    if |b| == 1 {
      assert b[..0] == [];
      assert ColumnCounts(b, column) == ColumnCounts([], column) + ColumnCount(b[0], column);
    }
  }

  lemma {:induction false} FreeMatching(nodes: seq<RouteNode>, name: QName, column: nat, anchor: Option<nat>)
    requires Free(nodes, column, anchor)
    ensures Free(Matching(nodes, name), column, anchor)
  {
    if nodes != [] {
      var last := nodes[|nodes| - 1];
      FreeLast(nodes, column, anchor);
      FreeMatching(nodes[..|nodes| - 1], name, column, anchor);
      FreeMatched(last.children, Steps(last.children), name, column, anchor);
      FreeAppend(Matching(nodes[..|nodes| - 1], name), MatchingChildren(last, name), column, anchor);
    }
  }

  predicate NoTarget(targets: seq<Target>, column: nat) {
    forall i :: 0 <= i < |targets| ==> targets[i].column != column
  }

  lemma {:induction false} NoTargetCount(targets: seq<Target>, column: nat)
    requires TargetCount(targets, column) == 0
    ensures NoTarget(targets, column)
  {
    if targets != [] {
      NoTargetCount(targets[..|targets| - 1], column);
    }
  }

  lemma {:induction false} FreeTargets(nodes: seq<RouteNode>, column: nat)
    requires ColumnCounts(nodes, column) == 0
    ensures NoTarget(Targets(nodes), column)
  {
    if nodes != [] {
      FreeTargets(nodes[..|nodes| - 1], column);
      NoTargetCount(nodes[|nodes| - 1].targets, column);
    }
  }

  lemma {:induction false} NoColumn(targets: seq<Target>, kind: Kind, column: nat)
    requires NoTarget(targets, column)
    ensures column !in ColumnsOf(targets, kind)
  {
    if targets != [] {
      NoColumn(targets[..|targets| - 1], kind, column);
    }
  }

  lemma {:induction false} FirstWholeIn(targets: seq<Target>)
    ensures FirstWhole(targets).Some? ==> FirstWhole(targets).value in targets
  {
    if targets != [] && !IsWhole(targets[0].kind) {
      FirstWholeIn(targets[1..]);
    }
  }

  /** At most one effect, a value or a failure of column `c`. */
  predicate Single<V>(effects: seq<Effect<V>>, c: nat) {
    |effects| == 0
    || (|effects| == 1 && ((effects[0].Put? && effects[0].column == c) || (effects[0].Fail? && effects[0].column == c)))
  }

  lemma KeepSingle<V>(effects: seq<Effect<V>>, c: nat, column: nat, anchor: Option<nat>)
    requires Single(effects, c)
    ensures Keep(effects, column, anchor) == if c == column then effects else []
  {
    if |effects| == 1 {
      assert effects == [effects[0]];
      KeepOne(effects[0], column, anchor);
    }
  }

  lemma TextIsSingle<V, G>(plan: Plan<V, G>, c: nat, text: string, raw: Option<string>)
    ensures Single(PutText(plan, c, text), c) && Single(PutContent(plan, c, text, raw), c)
  {
  }

  lemma OnceAtMost(before: seq<nat>, c: nat, column: nat)
    requires multiset(before + [c])[column] <= 1
    ensures multiset(before)[column] <= 1
    ensures column in before ==> c != column
    ensures column in before + [c] <==> column in before || c == column
  {
    var m: multiset<nat> := multiset(before);
    assert multiset(before + [c]) == m + multiset{c};
    assert column in before <==> column in m;
  }

  lemma {:induction false} KeepTexts<V, G>(plan: Plan<V, G>, columns: seq<nat>, text: string, raw: Option<string>,
                                           column: nat, anchor: Option<nat>)
    requires multiset(columns)[column] <= 1
    ensures Keep(TextEffects(plan, columns, text, raw), column, anchor)
            == if column in columns then PutContent(plan, column, text, raw) else []
  {
    if columns != [] {
      var before, c := columns[..|columns| - 1], columns[|columns| - 1];
      assert columns == before + [c];
      OnceAtMost(before, c, column);
      KeepTexts(plan, before, text, raw, column, anchor);
      TextIsSingle(plan, c, text, raw);
      KeepSingle(PutContent(plan, c, text, raw), c, column, anchor);
      KeepConcat(TextEffects(plan, before, text, raw), PutContent(plan, c, text, raw), column, anchor);
    }
  }

  lemma KeepPrepared<V, G>(plan: Plan<V, G>, c: nat, geometry: G, column: nat, anchor: Option<nat>)
    ensures Keep(PutPrepared(plan, c, geometry), column, anchor)
            == if c == column then PreparedValue(plan, column, geometry) else []
  {
    var effects := PutPrepared(plan, c, geometry);
    if effects != [] {
      assert effects == [effects[0]];
      KeepOne(effects[0], column, anchor);
    }
  }

  lemma {:induction false} KeepGeometry<V, G>(plan: Plan<V, G>, columns: seq<nat>, geometry: G, column: nat,
                                              anchor: Option<nat>)
    requires multiset(columns)[column] <= 1
    ensures Keep(PutGeometry(plan, columns, geometry), column, anchor)
            == if column in columns then PreparedValue(plan, column, geometry) else []
  {
    if columns != [] {
      var before, c := columns[..|columns| - 1], columns[|columns| - 1];
      assert columns == before + [c];
      KeepGeometry(plan, before, geometry, column, anchor);
      KeepPrepared(plan, c, geometry, column, anchor);
      KeepConcat(PutGeometry(plan, before, geometry), PutPrepared(plan, c, geometry), column, anchor);
    }
  }

  lemma KeepWhole<V, G>(plan: Plan<V, G>, target: Target, e: Element, column: nat, anchor: Option<nat>)
    ensures Keep(WholeEffects(plan, target, e), column, anchor) == WholeValue(plan, target, e, column)
  {
    if target.kind.BoundingBox? && plan.box(e).Bad? {
      KeepOne<V>(GeometryFail, column, anchor);
    } else {
      KeepSingle(WholeEffects(plan, target, e), target.column, column, anchor);
    }
  }

  lemma {:induction false} KeepSwallow<V, G>(plan: Plan<V, G>, nodes: seq<RouteNode>, array_: bool, before: nat,
                                             e: Element, column: nat, anchor: Option<nat>)
    ensures Keep(SwallowEffects(plan, nodes, array_, before, e), column, anchor)
            == SwallowValue<V>(nodes, array_, before, column)
    ensures NoTarget(Targets(nodes), column) ==> SwallowValue<V>(nodes, array_, before, column) == []
  {
    SwallowNothing<V>(nodes, array_, before, column);
    var columns := GeometryColumns(nodes);
    if before > 0 && !array_ {
      if columns != [] {
        KeepOne<V>(Fail(columns[0]), column, anchor);
      }
    } else {
      KeepOne<V>(GeometryFail, column, anchor);
    }
  }

  lemma {:induction false} SwallowNothing<V>(nodes: seq<RouteNode>, array_: bool, before: nat, column: nat)
    ensures NoTarget(Targets(nodes), column) ==> SwallowValue<V>(nodes, array_, before, column) == []
  {
    if NoTarget(Targets(nodes), column) {
      NoColumn(Targets(nodes), Geometry, column);
    }
  }

  lemma {:induction false} KindIs(targets: seq<Target>, column: nat, kind: Kind)
    requires TargetCount(targets, column) <= 1
    ensures KindOf(targets, column).None? <==> TargetCount(targets, column) == 0
    ensures multiset(ColumnsOf(targets, kind))[column] == if KindOf(targets, column) == Some(kind) then 1 else 0
  {
    if targets != [] {
      KindIs(targets[..|targets| - 1], column, kind);
    }
  }

  lemma {:induction false} InColumns(targets: seq<Target>, column: nat, kind: Kind)
    requires TargetCount(targets, column) <= 1
    ensures multiset(ColumnsOf(targets, kind))[column] <= 1
    ensures column in ColumnsOf(targets, kind) <==> KindOf(targets, column) == Some(kind)
  {
    KindIs(targets, column, kind);
    assert column in ColumnsOf(targets, kind) <==> column in multiset(ColumnsOf(targets, kind));
  }

  lemma KeepGeometries<V, G>(plan: Plan<V, G>, nodes: seq<RouteNode>, e: Element, column: nat, anchor: Option<nat>)
    requires TargetCount(Targets(nodes), column) <= 1
    ensures Keep(GeometryEffects(plan, nodes, e), column, anchor)
            == GeometryValue(plan, KindOf(Targets(nodes), column), nodes, e, column)
  {
    InColumns(Targets(nodes), column, Geometry);
    var parts := Parts(plan, nodes, e.array_, e.content);
    if parts.Some? && parts.value != [] {
      KeepGeometry(plan, GeometryColumns(nodes), if e.array_ then plan.fromParts(parts.value) else parts.value[0],
                   column, anchor);
    }
  }

  lemma KeepOwnText<V, G>(plan: Plan<V, G>, nodes: seq<RouteNode>, e: Element, column: nat, anchor: Option<nat>)
    requires TargetCount(Targets(nodes), column) <= 1
    ensures Keep(OwnTextEffects(plan, nodes, e), column, anchor)
            == TextValue(plan, KindOf(Targets(nodes), column), e, column)
  {
    InColumns(Targets(nodes), column, Text);
    var raw := if HasElements(e.content) then Some(plan.raw(e)) else None;
    KeepTexts(plan, ColumnsOf(Targets(nodes), Text), OwnText(e.content), raw, column, anchor);
  }

  /** The effects at an element's end. */
  lemma KeepEnd<V, G>(plan: Plan<V, G>, nodes: seq<RouteNode>, e: Element, children: seq<Effect<V>>, column: nat,
                      anchor: Option<nat>)
    requires TargetCount(Targets(nodes), column) <= 1
    ensures var kind := KindOf(Targets(nodes), column);
            Keep(children + GeometryEffects(plan, nodes, e) + OwnTextEffects(plan, nodes, e), column, anchor)
            == Keep(children, column, anchor) + GeometryValue(plan, kind, nodes, e, column)
               + TextValue(plan, kind, e, column)
  {
    KeepGeometries(plan, nodes, e, column, anchor);
    KeepOwnText(plan, nodes, e, column, anchor);
    KeepConcat(children, GeometryEffects(plan, nodes, e), column, anchor);
    KeepConcat(children + GeometryEffects(plan, nodes, e), OwnTextEffects(plan, nodes, e), column, anchor);
  }

  // ---- start tags ---------------------------------------------------------------------------

  lemma {:induction false} KeepCounts<V>(nodes: seq<RouteNode>, column: nat, anchor: Option<nat>)
    requires anchor.Some? ==> AnchorCounts(nodes, anchor.value) == 0
    ensures Keep(Counts<V>(nodes), column, anchor) == []
  {
    if nodes != [] {
      var before, last := nodes[..|nodes| - 1], nodes[|nodes| - 1];
      KeepCounts<V>(before, column, anchor);
      if last.anchor.Some? {
        KeepConcat(Counts<V>(before), [Count(last.anchor.value)], column, anchor);
        KeepOne<V>(Count(last.anchor.value), column, anchor);
      } else {
        assert Counts<V>(nodes) == Counts<V>(before);
      }
    }
  }

  lemma {:induction false} KeepPutAll<V, G>(plan: Plan<V, G>, targets: seq<Target>, text: string, column: nat,
                                            anchor: Option<nat>)
    requires TargetCount(targets, column) <= 1
    ensures Keep(PutAll(plan, targets, text), column, anchor)
            == if TargetCount(targets, column) == 0 then [] else PutText(plan, column, text)
  {
    if targets != [] {
      var before, c := targets[..|targets| - 1], targets[|targets| - 1].column;
      KeepPutAll(plan, before, text, column, anchor);
      TextIsSingle(plan, c, text, None);
      KeepSingle(PutText(plan, c, text), c, column, anchor);
      KeepConcat(PutAll(plan, before, text), PutText(plan, c, text), column, anchor);
    }
  }

  lemma {:induction false} TargetsConcat(a: seq<Target>, b: seq<Target>, column: nat)
    ensures TargetCount(a + b, column) == TargetCount(a, column) + TargetCount(b, column)
    ensures KindOf(a + b, column) == if KindOf(b, column).Some? then KindOf(b, column) else KindOf(a, column)
  {
    if b == [] {
      assert a + b == a;
    } else {
      assert (a + b)[..|a + b| - 1] == a + b[..|b| - 1];
      TargetsConcat(a, b[..|b| - 1], column);
    }
  }

  /** At one node, the column's attribute step says whether the attribute fills it. */
  lemma {:induction false} StepTakes(attributes: seq<(Step, Target)>, siblings: seq<Step>, name: QName, column: nat)
    requires AttributeCount(attributes, column) <= 1
    ensures StepOf(attributes, column).None? <==> AttributeCount(attributes, column) == 0
    ensures TargetCount(MatchedTargets(attributes, siblings, name), column)
            == match StepOf(attributes, column)
               case None => 0
               case Some(step) => if TakesAttribute(siblings, step, name) then 1 else 0
  {
    if attributes != [] {
      var before := attributes[..|attributes| - 1];
      var (step, target) := attributes[|attributes| - 1];
      StepTakes(before, siblings, name, column);
      var taken := if TakesAttribute(siblings, step, name) then [target] else [];
      TargetsConcat(MatchedTargets(before, siblings, name), taken, column);
      assert [target][..0] == [];
      assert TargetCount([], column) == 0;
    }
  }

  lemma {:induction false} FreeAttributes(nodes: seq<RouteNode>, name: QName, column: nat)
    requires ColumnCounts(nodes, column) == 0
    ensures TargetCount(AttributeTargets(nodes, name), column) == 0
  {
    if nodes != [] {
      var last := nodes[|nodes| - 1];
      FreeAttributes(nodes[..|nodes| - 1], name, column);
      StepTakes(last.attributes, AttributeSteps(last.attributes), name, column);
      TargetsConcat(AttributeTargets(nodes[..|nodes| - 1], name),
                    MatchedTargets(last.attributes, AttributeSteps(last.attributes), name), column);
    }
  }

  // ---- the one node of the column's route ----------------------------------------------------

  /** Of all the nodes, only `node` leads to the column, and to the anchor if any does. */
  predicate Owner(nodes: seq<RouteNode>, node: RouteNode, column: nat, anchor: Option<nat>) {
    && node in nodes
    && ColumnCounts(nodes, column) == 1 == ColumnCount(node, column)
    && (anchor.Some? ==> AnchorCounts(nodes, anchor.value) == AnchorCount(node, anchor.value))
  }

  lemma {:induction false} MemberCount(nodes: seq<RouteNode>, node: RouteNode, k: nat)
    requires node in nodes
    ensures ColumnCount(node, k) <= ColumnCounts(nodes, k)
    ensures AnchorCount(node, k) <= AnchorCounts(nodes, k)
  {
    var before := nodes[..|nodes| - 1];
    if node != nodes[|nodes| - 1] {
      assert nodes == before + [nodes[|nodes| - 1]];
      MemberCount(before, node, k);
    }
  }

  lemma {:induction false} OwnerLast(nodes: seq<RouteNode>, node: RouteNode, column: nat, anchor: Option<nat>)
    requires Owner(nodes, node, column, anchor)
    ensures var before, last := nodes[..|nodes| - 1], nodes[|nodes| - 1];
            || (last == node && Free(before, column, anchor))
            || (Free([last], column, anchor) && Owner(before, node, column, anchor))
  {
    var before, last := nodes[..|nodes| - 1], nodes[|nodes| - 1];
    assert [last][..0] == [];
    assert ColumnCounts([last], column) == ColumnCounts([], column) + ColumnCount(last, column);
    if anchor.Some? {
      assert AnchorCounts([last], anchor.value) == AnchorCounts([], anchor.value) + AnchorCount(last, anchor.value);
    }
    if last != node {
      assert nodes == before + [last];
      MemberCount(before, node, column);
      if anchor.Some? {
        MemberCount(before, node, anchor.value);
      }
    }
  }

  lemma {:induction false} CarrierOwns(children: seq<RouteNode>, siblings: seq<Step>, name: QName, column: nat,
                                       anchor: Option<nat>)
    requires ColumnCounts(children, column) == 1
    requires Carrier(children, column).Some? && anchor.Some? ==>
               AnchorCounts(children, anchor.value) == AnchorCount(Carrier(children, column).value, anchor.value)
    ensures Carrier(children, column).Some?
    ensures var next := Carrier(children, column).value;
            if Takes(siblings, next.step, name) then Owner(Matched(children, siblings, name), next, column, anchor)
            else Free(Matched(children, siblings, name), column, anchor)
  {
    var before, last := children[..|children| - 1], children[|children| - 1];
    var taken := if Takes(siblings, last.step, name) then [last] else [];
    if ColumnCount(last, column) > 0 {
      FreeMatched(before, siblings, name, column, anchor);
      OwnerAppend(Matched(before, siblings, name), taken, last, column, anchor);
    } else {
      var next := Carrier(before, column);
      if next.Some? && anchor.Some? {
        CarrierIn(before, column);
        MemberCount(before, next.value, anchor.value);
      }
      CarrierOwns(before, siblings, name, column, anchor);
      OtherMore(Matched(before, siblings, name), taken, last, next.value, column, anchor);
    }
  }

  /** A node that leads neither to the column nor to the anchor makes no difference. */
  lemma {:induction false} OtherMore(nodes: seq<RouteNode>, taken: seq<RouteNode>, other: RouteNode, node: RouteNode,
                                     column: nat, anchor: Option<nat>)
    requires (taken == [] || taken == [other]) && ColumnCount(other, column) == 0
    requires anchor.Some? ==> AnchorCount(other, anchor.value) == 0
    ensures Owner(nodes, node, column, anchor) ==> Owner(nodes + taken, node, column, anchor)
    ensures Free(nodes, column, anchor) ==> Free(nodes + taken, column, anchor)
  {
    CountsConcat(nodes, taken, column);
    OneNode(other, column);
    if anchor.Some? {
      CountsConcat(nodes, taken, anchor.value);
      OneNode(other, anchor.value);
    }
  }

  lemma {:induction false} OneNode(node: RouteNode, k: nat)
    ensures ColumnCounts([node], k) == ColumnCount(node, k)
    ensures AnchorCounts([node], k) == AnchorCount(node, k)
  {
    assert [node][..0] == [];
    assert ColumnCounts([], k) == 0 && AnchorCounts([], k) == 0;
  }

  lemma {:induction false} CarrierIn(children: seq<RouteNode>, column: nat)
    ensures Carrier(children, column).Some? ==>
              Carrier(children, column).value in children && ColumnCount(Carrier(children, column).value, column) > 0
    ensures Carrier(children, column).None? ==> ColumnCounts(children, column) == 0
  {
    if children != [] {
      CarrierIn(children[..|children| - 1], column);
    }
  }

  lemma {:induction false} OwnerAppend(free: seq<RouteNode>, taken: seq<RouteNode>, node: RouteNode, column: nat,
                                       anchor: Option<nat>)
    requires Free(free, column, anchor) && (taken == [] || taken == [node]) && ColumnCount(node, column) == 1
    ensures if taken == [] then Free(free + taken, column, anchor) else Owner(free + taken, node, column, anchor)
  {
    CountsConcat(free, taken, column);
    OneNode(node, column);
    if anchor.Some? {
      CountsConcat(free, taken, anchor.value);
      OneNode(node, anchor.value);
    }
  }

  /** Below the element, only the next node of the column's route leads to it, if the child takes it. */
  lemma {:induction false} OwnerMatching(nodes: seq<RouteNode>, node: RouteNode, name: QName, column: nat,
                                         anchor: Option<nat>)
    requires Owner(nodes, node, column, anchor) && ColumnCounts(node.children, column) == 1
    requires Carrier(node.children, column).Some? && anchor.Some? ==>
               AnchorCounts(node.children, anchor.value)
               == AnchorCount(Carrier(node.children, column).value, anchor.value)
    ensures Carrier(node.children, column).Some?
    ensures var next := Carrier(node.children, column).value;
            if Takes(Steps(node.children), next.step, name) then Owner(Matching(nodes, name), next, column, anchor)
            else Free(Matching(nodes, name), column, anchor)
  {
    var before, last := nodes[..|nodes| - 1], nodes[|nodes| - 1];
    var a, b := Matching(before, name), MatchingChildren(last, name);
    OwnerLast(nodes, node, column, anchor);
    CarrierOwns(node.children, Steps(node.children), name, column, anchor);
    var next := Carrier(node.children, column).value;
    CountsConcat(a, b, column);
    if anchor.Some? {
      CountsConcat(a, b, anchor.value);
    }
    if last == node && Free(before, column, anchor) {
      FreeMatching(before, name, column, anchor);
    } else {
      OneNode(last, column);
      if anchor.Some? {
        OneNode(last, anchor.value);
      }
      FreeMatched(last.children, Steps(last.children), name, column, anchor);
      OwnerMatching(before, node, name, column, anchor);
    }
  }

  /** A column that is not below the node is not below the element's other nodes either. */
  lemma {:induction false} OwnMatching(nodes: seq<RouteNode>, node: RouteNode, name: QName, column: nat,
                                       anchor: Option<nat>)
    requires Owner(nodes, node, column, anchor) && Free(node.children, column, anchor)
    ensures Free(Matching(nodes, name), column, anchor)
  {
    var before, last := nodes[..|nodes| - 1], nodes[|nodes| - 1];
    var a, b := Matching(before, name), MatchingChildren(last, name);
    OwnerLast(nodes, node, column, anchor);
    FreeMatched(last.children, Steps(last.children), name, column, anchor) by {
      if last != node || !Free(before, column, anchor) {
        OneNode(last, column);
        if anchor.Some? {
          OneNode(last, anchor.value);
        }
      }
    }
    if last == node && Free(before, column, anchor) {
      FreeMatching(before, name, column, anchor);
    } else {
      OwnMatching(before, node, name, column, anchor);
    }
    FreeAppend(a, b, column, anchor);
  }

  lemma {:induction false} OwnerAttribute(nodes: seq<RouteNode>, node: RouteNode, name: QName, column: nat,
                                          anchor: Option<nat>)
    requires Owner(nodes, node, column, anchor)
    ensures TargetCount(AttributeTargets(nodes, name), column)
            == match StepOf(node.attributes, column)
               case None => 0
               case Some(step) => if IsChosenAttribute(AttributeSteps(node.attributes), step, name) then 1 else 0
  {
    var before, last := nodes[..|nodes| - 1], nodes[|nodes| - 1];
    var own := MatchedTargets(last.attributes, AttributeSteps(last.attributes), name);
    TargetsConcat(AttributeTargets(before, name), own, column);
    OwnerLast(nodes, node, column, anchor);
    OneNode(last, column);
    StepTakes(last.attributes, AttributeSteps(last.attributes), name, column);
    if StepOf(last.attributes, column).Some? {
      TakesTheChosen(AttributeSteps(last.attributes), StepOf(last.attributes, column).value, name);
    }
    if last == node && Free(before, column, anchor) {
      FreeAttributes(before, name, column);
    } else {
      OwnerAttribute(before, node, name, column, anchor);
    }
  }

  /** The column's target at the element is its node's. */
  lemma {:induction false} OwnerKind(nodes: seq<RouteNode>, node: RouteNode, column: nat, anchor: Option<nat>)
    requires Owner(nodes, node, column, anchor)
    ensures TargetCount(Targets(nodes), column) == TargetCount(node.targets, column) <= 1
    ensures KindOf(Targets(nodes), column) == KindOf(node.targets, column)
  {
    var before, last := nodes[..|nodes| - 1], nodes[|nodes| - 1];
    TargetsConcat(Targets(before), last.targets, column);
    OwnerLast(nodes, node, column, anchor);
    OneNode(last, column);
    KindIs(last.targets, column, Text);
    if last == node && Free(before, column, anchor) {
      FreeKind(before, column);
    } else {
      OwnerKind(before, node, column, anchor);
    }
  }

  lemma {:induction false} FreeKind(nodes: seq<RouteNode>, column: nat)
    requires ColumnCounts(nodes, column) == 0
    ensures TargetCount(Targets(nodes), column) == 0 && KindOf(Targets(nodes), column).None?
  {
    if nodes != [] {
      var before, last := nodes[..|nodes| - 1], nodes[|nodes| - 1];
      FreeKind(before, column);
      TargetsConcat(Targets(before), last.targets, column);
      KindIs(last.targets, column, Text);
    }
  }

  lemma {:induction false} OwnerAttributes<V, G>(plan: Plan<V, G>, nodes: seq<RouteNode>, node: RouteNode,
                                                 attributes: seq<Attribute>, column: nat, anchor: Option<nat>)
    requires Owner(nodes, node, column, anchor)
    ensures Keep(AttributeEffects(plan, nodes, attributes), column, anchor)
            == AttributeValues(plan, node, attributes, column)
  {
    if attributes != [] {
      var before, last := attributes[..|attributes| - 1], attributes[|attributes| - 1];
      OwnerAttributes(plan, nodes, node, before, column, anchor);
      var text := AttributeText(plan, last);
      if last.name.ns == Some(XSI) {
        assert AttributeEffects(plan, nodes, attributes) == AttributeEffects(plan, nodes, before);
      } else {
        OwnerAttribute(nodes, node, last.name, column, anchor);
        KeepPutAll(plan, AttributeTargets(nodes, last.name), text, column, anchor);
        KeepConcat(AttributeEffects(plan, nodes, before), PutAll(plan, AttributeTargets(nodes, last.name), text),
                   column, anchor);
      }
    }
  }

  lemma {:induction false} FreeAttributeEffects<V, G>(plan: Plan<V, G>, nodes: seq<RouteNode>,
                                                      attributes: seq<Attribute>, column: nat, anchor: Option<nat>)
    requires ColumnCounts(nodes, column) == 0
    ensures Keep(AttributeEffects(plan, nodes, attributes), column, anchor) == []
  {
    if attributes != [] {
      var before, last := attributes[..|attributes| - 1], attributes[|attributes| - 1];
      FreeAttributeEffects(plan, nodes, before, column, anchor);
      if last.name.ns == Some(XSI) {
        assert AttributeEffects(plan, nodes, attributes) == AttributeEffects(plan, nodes, before);
      } else {
        FreeAttributes(nodes, last.name, column);
        KeepPutAll(plan, AttributeTargets(nodes, last.name), AttributeText(plan, last), column, anchor);
        KeepConcat(AttributeEffects(plan, nodes, before),
                   PutAll(plan, AttributeTargets(nodes, last.name), AttributeText(plan, last)), column, anchor);
      }
    }
  }

  // ---- reading puts what the query finds: no route -------------------------------------------

  /** The three parts of reading an element. */
  lemma KeepEffects<V, G>(plan: Plan<V, G>, nodes: seq<RouteNode>, e: Element, column: nat, anchor: Option<nat>)
    ensures Keep(Effects(plan, nodes, e), column, anchor)
            == Keep(Counts(nodes), column, anchor)
               + Keep(AttributeEffects(plan, nodes, e.attributes), column, anchor)
               + Keep(ContentEffects(plan, nodes, e), column, anchor)
  {
    var counts, attributes: seq<Effect<V>> := Counts(nodes), AttributeEffects(plan, nodes, e.attributes);
    KeepConcat(counts, attributes, column, anchor);
    KeepConcat(counts + attributes, ContentEffects(plan, nodes, e), column, anchor);
  }

  /** Where no node leads to the column, reading leaves it alone. */
  lemma {:induction false} FreeEffects<V, G>(plan: Plan<V, G>, nodes: seq<RouteNode>, e: Element, column: nat,
                                             anchor: Option<nat>)
    requires Free(nodes, column, anchor)
    ensures Keep(Effects(plan, nodes, e), column, anchor) == []
    decreases e, 3
  {
    KeepCounts<V>(nodes, column, anchor);
    FreeAttributeEffects(plan, nodes, e.attributes, column, anchor);
    FreeContent(plan, nodes, e, column, anchor);
    KeepEffects(plan, nodes, e, column, anchor);
  }

  lemma {:induction false} FreeWhole<V, G>(plan: Plan<V, G>, nodes: seq<RouteNode>, e: Element, column: nat,
                                           anchor: Option<nat>)
    requires Free(nodes, column, anchor) && FirstWhole(Targets(nodes)).Some?
    ensures Keep(WholeEffects(plan, FirstWhole(Targets(nodes)).value, e), column, anchor) == []
  {
    var whole := FirstWhole(Targets(nodes)).value;
    FreeTargets(nodes, column);
    FirstWholeIn(Targets(nodes));
    KeepWhole(plan, whole, e, column, anchor);
    assert whole.column != column;
  }

  lemma {:induction false} FreeContent<V, G>(plan: Plan<V, G>, nodes: seq<RouteNode>, e: Element, column: nat,
                                             anchor: Option<nat>)
    requires Free(nodes, column, anchor)
    ensures Keep(ContentEffects(plan, nodes, e), column, anchor) == []
    decreases e, 2
  {
    if Nil(plan, e.attributes) {
      assert ContentEffects(plan, nodes, e) == [];
    } else if FirstWhole(Targets(nodes)).Some? {
      FreeWhole(plan, nodes, e, column, anchor);
      assert ContentEffects(plan, nodes, e) == WholeEffects(plan, FirstWhole(Targets(nodes)).value, e);
    } else {
      var children := ChildEffects(plan, nodes, e.array_, e.content);
      FreeKind(nodes, column);
      FreeChildren(plan, nodes, e.array_, e.content, column, anchor);
      KeepEnd(plan, nodes, e, children, column, anchor);
    }
  }

  lemma {:induction false} FreeChildren<V, G>(plan: Plan<V, G>, nodes: seq<RouteNode>, array_: bool,
                                              content: seq<Content>, column: nat, anchor: Option<nat>)
    requires Free(nodes, column, anchor)
    ensures Keep(ChildEffects(plan, nodes, array_, content), column, anchor) == []
    decreases content, 0
  {
    if content != [] {
      var before := content[..|content| - 1];
      var n := Geometries(plan, nodes, before);
      FreeChildren(plan, nodes, array_, before, column, anchor);
      FreeNode(plan, nodes, array_, n, content[|content| - 1], column, anchor);
      KeepConcat(ChildEffects(plan, nodes, array_, before), NodeEffects(plan, nodes, array_, n, content[|content| - 1]),
                 column, anchor);
    }
  }

  lemma {:induction false} FreeNode<V, G>(plan: Plan<V, G>, nodes: seq<RouteNode>, array_: bool, before: nat,
                                          child: Content, column: nat, anchor: Option<nat>)
    requires Free(nodes, column, anchor)
    ensures Keep(NodeEffects(plan, nodes, array_, before, child), column, anchor) == []
    decreases child, 4
  {
    match child
    case Chars(_) =>
    case Child(e) =>
      FreeTargets(nodes, column);
      KeepSwallow(plan, nodes, array_, before, e, column, anchor);
      FreeMatching(nodes, e.name, column, anchor);
      FreeEffects(plan, Matching(nodes, e.name), e, column, anchor);
  }
}
