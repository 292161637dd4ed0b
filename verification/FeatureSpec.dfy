/**
 * What reading a feature does to its row, in document order
 * (crates/xeibe-arrow/src/feature.rs:232-434, 622-692): the effects of an
 * element that some route nodes match. Parsing of text and geometry is given
 * by the plan.
 */
module FeatureSpec {
  import opened Basics
  import opened Route

  datatype Attribute = Attribute(name: QName, value: string)

  /** `array_`: it is read as one of GML's array properties, which hold several geometries. */
  datatype Element = Element(name: QName, attributes: seq<Attribute>, content: seq<Content>, array_: bool)

  datatype Content = Child(element: Element) | Chars(text: string)

  const XSI := "http://www.w3.org/2001/XMLSchema-instance"
  const XLINK := "http://www.w3.org/1999/xlink"

  /** A column's item: a scalar parsed from text (a string type or another), a geometry, or another kind of value. */
  datatype Item = Scalar(text: bool) | Shaped | Other

  datatype Column = Column(list: bool, anchor: nat, item: Item, nullable: bool, itemNullable: bool)

  datatype Policy = Error | Skip | NullGeometry

  /** What reading an element as one value gives: nothing, a value, or a geometry error. */
  datatype Whole<+V> = Nothing | Got(value: V) | Bad

  datatype Plan<!V, !G> = Plan(
    columns: seq<Column>,
    emptyAsNull: bool,
    stripHash: bool,
    policy: Policy,
    trim: string -> string,
    // `parse_scalar` for the column's type.
    parse: (nat, string) -> Option<V>,
    // An element's content as written, its subtree as a map, its envelope.
    raw: Element -> string,
    map_: Element -> Option<V>,
    box: Element -> Whole<V>,
    isGml: QName -> bool,
    // A geometry element for these columns, the parts of an array, a geometry in a column's form.
    geometry: (seq<nat>, Element) -> Whole<G>,
    fromParts: seq<G> -> G,
    prepare: (nat, G) -> Option<V>)

  /** What happens to the row. */
  datatype Effect<+V> =
    | Count(anchor: nat)
    | Put(column: nat, value: V)
    | Fail(column: nat)
    | GeometryFail

  // ---- text ---------------------------------------------------------------------------

  /** `put_text`: a value, nothing for an empty text that is no value, or a failure. */
  function PutText<V, G>(plan: Plan<V, G>, column: nat, text: string): seq<Effect<V>> {
    if column >= |plan.columns| || !plan.columns[column].item.Scalar? then []
    else if text == "" && (plan.emptyAsNull || !plan.columns[column].item.text) then []
    else
      match plan.parse(column, text)
      case Some(value) => [Put(column, value)]
      case None => [Fail(column)]
  }

  /** `text`: where elements are among the text, a string column gets all of it as it is written. */
  function PutContent<V, G>(plan: Plan<V, G>, column: nat, text: string, raw: Option<string>): seq<Effect<V>> {
    if column >= |plan.columns| || !plan.columns[column].item.Scalar? then []
    else PutText(plan, column, plan.trim(if raw.Some? && plan.columns[column].item.text then raw.value else text))
  }

  function AttributeText<V, G>(plan: Plan<V, G>, attribute: Attribute): string {
    var value := plan.trim(attribute.value);
    if attribute.name == QName(Some(XLINK), "href") && plan.stripHash && value != "" && value[0] == '#' then value[1..]
    else value
  }

  // ---- a start tag ----------------------------------------------------------------------

  function Counts<V>(nodes: seq<RouteNode>): seq<Effect<V>> {
    if nodes == [] then []
    else
      var last := nodes[|nodes| - 1];
      Counts(nodes[..|nodes| - 1]) + if last.anchor.Some? then [Count(last.anchor.value)] else []
  }

  function PutAll<V, G>(plan: Plan<V, G>, targets: seq<Target>, text: string): seq<Effect<V>> {
    if targets == [] then []
    else PutAll(plan, targets[..|targets| - 1], text) + PutText(plan, targets[|targets| - 1].column, text)
  }

  function AttributeEffects<V, G>(plan: Plan<V, G>, nodes: seq<RouteNode>, attributes: seq<Attribute>): seq<Effect<V>> {
    if attributes == [] then []
    else
      var last := attributes[|attributes| - 1];
      AttributeEffects(plan, nodes, attributes[..|attributes| - 1])
      + if last.name.ns == Some(XSI) then []
        else PutAll(plan, AttributeTargets(nodes, last.name), AttributeText(plan, last))
  }

  /** `xsi:nil`, as its last occurrence has it. */
  function Nil<V, G>(plan: Plan<V, G>, attributes: seq<Attribute>): bool {
    if attributes == [] then false
    else
      var last := attributes[|attributes| - 1];
      if last.name == QName(Some(XSI), "nil") then plan.trim(last.value) in ["true", "1"]
      else Nil(plan, attributes[..|attributes| - 1])
  }

  // ---- the content ------------------------------------------------------------------------

  predicate IsWhole(kind: Kind) {
    kind.Map? || kind.InnerText? || kind.BoundingBox?
  }

  /** The first target of the nodes that takes the element whole. */
  function FirstWhole(targets: seq<Target>): Option<Target> {
    if targets == [] then None
    else if IsWhole(targets[0].kind) then Some(targets[0])
    else FirstWhole(targets[1..])
  }

  function Targets(nodes: seq<RouteNode>): seq<Target> {
    if nodes == [] then [] else Targets(nodes[..|nodes| - 1]) + nodes[|nodes| - 1].targets
  }

  predicate Wants(nodes: seq<RouteNode>, kind: Kind) {
    exists i :: 0 <= i < |Targets(nodes)| && Targets(nodes)[i].kind == kind
  }

  predicate HasChildren(nodes: seq<RouteNode>) {
    exists i :: 0 <= i < |nodes| && nodes[i].children != []
  }

  /** The columns of the targets of one kind. */
  function ColumnsOf(targets: seq<Target>, kind: Kind): seq<nat> {
    if targets == [] then []
    else
      ColumnsOf(targets[..|targets| - 1], kind)
      + if targets[|targets| - 1].kind == kind then [targets[|targets| - 1].column] else []
  }

  function GeometryColumns(nodes: seq<RouteNode>): seq<nat> {
    ColumnsOf(Targets(nodes), Geometry)
  }

  /** The text of a subtree, that of its elements included. */
  function TextOf(e: Element): string
    decreases e, 1
  {
    TextIn(e.content)
  }

  function TextAt(node: Content): string
    decreases node, 2
  {
    match node
    case Chars(text) => text
    case Child(e) => TextOf(e)
  }

  function TextIn(content: seq<Content>): string
    decreases content, 0
  {
    if content == [] then ""
    else
      TextIn(content[..|content| - 1]) + TextAt(content[|content| - 1])
  }

  function OwnText(content: seq<Content>): string {
    if content == [] then ""
    else
      OwnText(content[..|content| - 1])
      + match content[|content| - 1] case Chars(text) => text case Child(_) => ""
  }

  predicate HasElements(content: seq<Content>) {
    exists i :: 0 <= i < |content| && content[i].Child?
  }

  function WholeEffects<V, G>(plan: Plan<V, G>, target: Target, e: Element): seq<Effect<V>> {
    match target.kind
    case Map => (match plan.map_(e) case Some(value) => [Put(target.column, value)] case None => [])
    case BoundingBox =>
      (match plan.box(e)
       case Got(value) => [Put(target.column, value)]
       case Bad => [GeometryFail]
       case Nothing => [])
    case _ => PutContent(plan, target.column, TextOf(e), None)
  }

  /** A geometry element below a geometry property. */
  predicate Swallows<V, G>(plan: Plan<V, G>, nodes: seq<RouteNode>, child: Content) {
    child.Child? && Wants(nodes, Geometry) && plan.isGml(child.element.name)
  }

  function Geometries<V, G>(plan: Plan<V, G>, nodes: seq<RouteNode>, content: seq<Content>): nat {
    if content == [] then 0
    else
      Geometries(plan, nodes, content[..|content| - 1])
      + if Swallows(plan, nodes, content[|content| - 1]) then 1 else 0
  }

  /** The parsed geometries of a property; `None` once one failed. */
  function Parts<V, G>(plan: Plan<V, G>, nodes: seq<RouteNode>, array_: bool, content: seq<Content>): Option<seq<G>> {
    if content == [] then Some([])
    else
      var before, last := content[..|content| - 1], content[|content| - 1];
      var parts := Parts(plan, nodes, array_, before);
      if !Swallows(plan, nodes, last) || (Geometries(plan, nodes, before) > 0 && !array_) then parts
      else
        match ParseGeometry(plan, GeometryColumns(nodes), last.element)
        case Got(part) => if parts.Some? then Some(parts.value + [part]) else None
        case _ => None
  }

  predicate IsShaped<V, G>(plan: Plan<V, G>, column: nat) {
    column < |plan.columns| && plan.columns[column].item.Shaped?
  }

  /** A geometry element, read for the first of its property's columns, if that holds geometries. */
  function ParseGeometry<V, G>(plan: Plan<V, G>, columns: seq<nat>, e: Element): Whole<G> {
    if columns == [] || !IsShaped(plan, columns[0]) then Nothing else plan.geometry(columns, e)
  }

  /** A column that holds no geometries is passed over. */
  function PutPrepared<V, G>(plan: Plan<V, G>, column: nat, geometry: G): seq<Effect<V>> {
    if !IsShaped(plan, column) then []
    else
      match plan.prepare(column, geometry)
      case Some(value) => [Put(column, value)]
      case None => [GeometryFail]
  }

  function PutGeometry<V, G>(plan: Plan<V, G>, columns: seq<nat>, geometry: G): seq<Effect<V>> {
    if columns == [] then []
    else
      var column := columns[|columns| - 1];
      PutGeometry(plan, columns[..|columns| - 1], geometry) + PutPrepared(plan, column, geometry)
  }

  /** What the geometries of a property come to at its end. */
  function GeometryEffects<V, G>(plan: Plan<V, G>, nodes: seq<RouteNode>, e: Element): seq<Effect<V>> {
    match Parts(plan, nodes, e.array_, e.content)
    case None => []
    case Some(parts) =>
      if parts == [] then []
      else
        PutGeometry(plan, GeometryColumns(nodes), if e.array_ then plan.fromParts(parts) else parts[0])
  }

  function TextEffects<V, G>(plan: Plan<V, G>, columns: seq<nat>, text: string, raw: Option<string>): seq<Effect<V>> {
    if columns == [] then []
    else
      TextEffects(plan, columns[..|columns| - 1], text, raw) + PutContent(plan, columns[|columns| - 1], text, raw)
  }

  function OwnTextEffects<V, G>(plan: Plan<V, G>, nodes: seq<RouteNode>, e: Element): seq<Effect<V>> {
    TextEffects(plan, ColumnsOf(Targets(nodes), Text), OwnText(e.content),
                if HasElements(e.content) then Some(plan.raw(e)) else None)
  }

  /** A geometry element: parsed, or one too many in a property that holds one. */
  function SwallowEffects<V, G>(plan: Plan<V, G>, nodes: seq<RouteNode>, array_: bool, before: nat,
                                e: Element): seq<Effect<V>> {
    var columns := GeometryColumns(nodes);
    if before > 0 && !array_ then (if columns == [] then [] else [Fail(columns[0])])
    else if ParseGeometry(plan, columns, e).Bad? then [GeometryFail]
    else []
  }

  /** An element that `nodes` match: its start tag, then its content. */
  function Effects<V, G>(plan: Plan<V, G>, nodes: seq<RouteNode>, e: Element): seq<Effect<V>>
    decreases e, 3
  {
    Counts(nodes) + AttributeEffects(plan, nodes, e.attributes) + ContentEffects(plan, nodes, e)
  }

  /** What stops the descent: `xsi:nil`, a target that takes the element whole, nothing wanted below. */
  function ContentEffects<V, G>(plan: Plan<V, G>, nodes: seq<RouteNode>, e: Element): seq<Effect<V>>
    decreases e, 2
  {
    var whole := FirstWhole(Targets(nodes));
    if Nil(plan, e.attributes) then []
    else if whole.Some? then WholeEffects(plan, whole.value, e)
    else if !Wants(nodes, Text) && !Wants(nodes, Geometry) && !HasChildren(nodes) then []
    else
      ChildEffects(plan, nodes, e.array_, e.content)
      + GeometryEffects(plan, nodes, e)
      + OwnTextEffects(plan, nodes, e)
  }

  function ChildEffects<V, G>(plan: Plan<V, G>, nodes: seq<RouteNode>, array_: bool,
                              content: seq<Content>): seq<Effect<V>>
    decreases content, 0
  {
    if content == [] then []
    else
      ChildEffects(plan, nodes, array_, content[..|content| - 1])
      + NodeEffects(plan, nodes, array_, Geometries(plan, nodes, content[..|content| - 1]), content[|content| - 1])
  }

  /** One node of the content, with `before` geometry elements before it. */
  function NodeEffects<V, G>(plan: Plan<V, G>, nodes: seq<RouteNode>, array_: bool, before: nat,
                             node: Content): seq<Effect<V>>
    decreases node, 4
  {
    match node
    case Chars(_) => []
    case Child(e) =>
      if Swallows(plan, nodes, node) then SwallowEffects(plan, nodes, array_, before, e)
      else
        var matched := Matching(nodes, e.name);
        if matched == [] then [] else Effects(plan, matched, e)
  }

  // ---- where nothing is wanted ---------------------------------------------------------------

  lemma {:induction false} NoneWanted(targets: seq<Target>, kind: Kind)
    requires forall i :: 0 <= i < |targets| ==> targets[i].kind != kind
    ensures ColumnsOf(targets, kind) == []
  {
    if targets != [] {
      NoneWanted(targets[..|targets| - 1], kind);
    }
  }

  lemma {:induction false} NoParts<V, G>(plan: Plan<V, G>, nodes: seq<RouteNode>, array_: bool, content: seq<Content>)
    requires !Wants(nodes, Geometry)
    ensures Parts(plan, nodes, array_, content) == Some([])
  {
    if content != [] {
      NoParts(plan, nodes, array_, content[..|content| - 1]);
    }
  }

  lemma {:induction false} NothingMatches(nodes: seq<RouteNode>, name: QName)
    requires !HasChildren(nodes)
    ensures Matching(nodes, name) == []
  {
    if nodes != [] {
      var before := nodes[..|nodes| - 1];
      assert forall i :: 0 <= i < |before| ==> nodes[i] == before[i];
      assert nodes[|nodes| - 1].children == [];
      NothingMatches(before, name);
    }
  }
}
