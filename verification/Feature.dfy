/**
 * Reading a feature into a row (crates/xeibe-arrow/src/feature.rs): the loops
 * that read an element, and `put` and `commit`, which align list columns with
 * the occurrences of their anchors.
 */
module Feature {
  import opened Basics
  import opened Route
  import opened FeatureSpec

  /** One column's value in the row: `Value::Null`, a value, or a list of values and nulls. */
  datatype Cell<+V> = Null | One(value: V) | Many(items: seq<Option<V>>)

  datatype Row<+V> = Row(cells: seq<Cell<V>>, counts: seq<nat>, failed: bool, geometryFailed: bool)

  function Nones<V>(n: nat): (nones: seq<Option<V>>)
    ensures |nones| == n && forall i :: 0 <= i < n ==> nones[i] == None
  {
    seq(n, _ => None)
  }

  function Items<V>(cell: Cell<V>): seq<Option<V>> {
    if cell.Many? then cell.items else []
  }

  /**
   * `put`, for a column whose anchor has occurred `count` times: one value in a
   * scalar column, one per occurrence in a list, with nulls for occurrences
   * without. `None`: one value too many.
   */
  function PutCell<V>(list: bool, count: nat, cell: Cell<V>, value: V): Option<Cell<V>> {
    if !list then (if cell.Null? then Some(One(value)) else None)
    else
      var items, occurrences := Items(cell), Max(count, 1);
      if |items| >= occurrences then None
      else Some(Many(items + Nones(occurrences - 1 - |items|) + [Some(value)]))
  }

  function CountOf(columns: seq<Column>, counts: seq<nat>, column: nat): nat {
    if column < |columns| && columns[column].anchor < |counts| then counts[columns[column].anchor] else 0
  }

  function Apply<V>(columns: seq<Column>, row: Row<V>, effect: Effect<V>): Row<V> {
    match effect
    case Count(a) => if a < |row.counts| then row.(counts := row.counts[a := row.counts[a] + 1]) else row
    case Put(c, value) =>
      if c >= |columns| || c >= |row.cells| then row
      else
        (match PutCell(columns[c].list, CountOf(columns, row.counts, c), row.cells[c], value)
         case Some(cell) => row.(cells := row.cells[c := cell])
         case None => row.(failed := true))
    case Fail(_) => row.(failed := true)
    case GeometryFail => row.(geometryFailed := true)
  }

  function Applied<V>(columns: seq<Column>, row: Row<V>, effects: seq<Effect<V>>): Row<V> {
    if effects == [] then row
    else Apply(columns, Applied(columns, row, effects[..|effects| - 1]), effects[|effects| - 1])
  }

  lemma {:induction false} AppliedConcat<V>(columns: seq<Column>, row: Row<V>, a: seq<Effect<V>>, b: seq<Effect<V>>)
    ensures Applied(columns, row, a + b) == Applied(columns, Applied(columns, row, a), b)
  {
    if b == [] {
      assert a + b == a;
    } else {
      assert (a + b)[..|a + b| - 1] == a + b[..|b| - 1];
      AppliedConcat(columns, row, a, b[..|b| - 1]);
    }
  }

  lemma AppliedOne<V>(columns: seq<Column>, row: Row<V>, a: seq<Effect<V>>, effect: Effect<V>)
    ensures Applied(columns, row, a + [effect]) == Apply(columns, Applied(columns, row, a), effect)
  {
    assert (a + [effect])[..|a|] == a;
  }

  lemma AppliedSingle<V>(columns: seq<Column>, row: Row<V>, effect: Effect<V>)
    ensures Applied(columns, row, [effect]) == Apply(columns, row, effect)
  {
    assert [effect][..0] == [];
    assert Applied<V>(columns, row, []) == row;
  }

  function EmptyRow<V>(columns: seq<Column>, anchors: nat): Row<V> {
    Row(seq(|columns|, _ => Null), seq(anchors, _ => 0), false, false)
  }

  /** The row being read. */
  class RowState<V> {
    var cells: seq<Cell<V>>
    var counts: seq<nat>
    var failed: bool
    var geometryFailed: bool

    function State(): Row<V>
      reads this
    {
      Row(cells, counts, failed, geometryFailed)
    }

    constructor (columns: seq<Column>, anchors: nat)
      ensures State() == EmptyRow(columns, anchors)
    {
      cells := seq(|columns|, _ => Null);
      counts := seq(anchors, _ => 0);
      failed := false;
      geometryFailed := false;
    }
  }

  class FeatureReader<V, G> {
    const plan: Plan<V, G>

    constructor (plan: Plan<V, G>)
      ensures this.plan == plan
    {
      this.plan := plan;
    }

    // ---- values ---------------------------------------------------------------------

    /** `put`. */
    method PutValue(column: nat, value: V, state: RowState<V>)
      modifies state
      ensures state.State() == Apply(plan.columns, old(state.State()), Put(column, value))
    {
      if column >= |plan.columns| || column >= |state.cells| {
        return;
      }
      var slot := state.cells[column];
      if !plan.columns[column].list {
        if slot.Null? {
          state.cells := state.cells[column := One(value)];
        } else {
          state.failed := true;
        }
        return;
      }
      var count := Max(CountOf(plan.columns, state.counts, column), 1);
      var items := Items(slot);
      if |items| >= count {
        state.failed := true;
        return;
      }
      items := items + Nones(count - 1 - |items|);
      items := items + [Some(value)];
      state.cells := state.cells[column := Many(items)];
    }

    /** `put_text`. */
    method PutParsed(column: nat, text: string, state: RowState<V>)
      modifies state
      ensures state.State() == Applied(plan.columns, old(state.State()), PutText(plan, column, text))
    {
      if column >= |plan.columns| || !plan.columns[column].item.Scalar? {
        return;
      }
      if text == "" && (plan.emptyAsNull || !plan.columns[column].item.text) {
        return;
      }
      match plan.parse(column, text)
      case Some(value) =>
        AppliedSingle(plan.columns, state.State(), Put(column, value));
        PutValue(column, value, state);
      case None =>
        AppliedSingle(plan.columns, state.State(), Effect<V>.Fail(column));
        state.failed := true;
    }

    /** `text`. */
    method PutElementText(column: nat, text: string, raw: Option<string>, state: RowState<V>)
      modifies state
      ensures state.State() == Applied(plan.columns, old(state.State()), PutContent(plan, column, text, raw))
    {
      if column < |plan.columns| && plan.columns[column].item.Scalar? {
        var value := plan.trim(if raw.Some? && plan.columns[column].item.text then raw.value else text);
        PutParsed(column, value, state);
      }
    }

    // ---- elements ---------------------------------------------------------------------

    /** `start`: the anchors go up before the attributes are read. */
    method Start(nodes: seq<RouteNode>, attributes: seq<Attribute>, state: RowState<V>) returns (nil: bool)
      modifies state
      ensures nil == Nil(plan, attributes)
      ensures state.State()
              == Applied(plan.columns, old(state.State()), Counts(nodes) + AttributeEffects(plan, nodes, attributes))
    {
      AppliedConcat(plan.columns, state.State(), Counts(nodes), AttributeEffects(plan, nodes, attributes));
      CountAnchors(nodes, state);
      nil := PutAttributes(nodes, attributes, state);
    }

    method CountAnchor(a: nat, state: RowState<V>)
      modifies state
      ensures state.State() == Apply(plan.columns, old(state.State()), Count(a))
    {
      if a < |state.counts| {
        state.counts := state.counts[a := state.counts[a] + 1];
      }
    }

    method CountAnchors(nodes: seq<RouteNode>, state: RowState<V>)
      modifies state
      ensures state.State() == Applied(plan.columns, old(state.State()), Counts(nodes))
    {
      ghost var row0 := state.State();
      for i := 0 to |nodes|
        invariant state.State() == Applied(plan.columns, row0, Counts(nodes[..i]))
      {
        assert nodes[..i + 1][..i] == nodes[..i];
        if nodes[i].anchor.Some? {
          AppliedOne(plan.columns, row0, Counts(nodes[..i]), Count(nodes[i].anchor.value));
          CountAnchor(nodes[i].anchor.value, state);
        } else {
          assert Counts<V>(nodes[..i + 1]) == Counts<V>(nodes[..i]);
        }
      }
      assert nodes[..|nodes|] == nodes;
    }

    method PutAttributes(nodes: seq<RouteNode>, attributes: seq<Attribute>, state: RowState<V>) returns (nil: bool)
      modifies state
      ensures nil == Nil(plan, attributes)
      ensures state.State() == Applied(plan.columns, old(state.State()), AttributeEffects(plan, nodes, attributes))
    {
      nil := false;
      for i := 0 to |attributes|
        invariant nil == Nil(plan, attributes[..i])
        invariant state.State()
                  == Applied(plan.columns, old(state.State()), AttributeEffects(plan, nodes, attributes[..i]))
      {
        var attribute := attributes[i];
        assert attributes[..i + 1][..i] == attributes[..i];
        if attribute.name.ns == Some(XSI) {
          if attribute.name.local == "nil" {
            nil := plan.trim(attribute.value) in ["true", "1"];
          }
          assert AttributeEffects(plan, nodes, attributes[..i + 1]) == AttributeEffects(plan, nodes, attributes[..i]);
        } else {
          var targets := FindTargets(nodes, attribute.name);
          AppliedConcat(plan.columns, old(state.State()), AttributeEffects(plan, nodes, attributes[..i]),
                        PutAll(plan, targets, AttributeText(plan, attribute)));
          PutTargets(targets, AttributeText(plan, attribute), state);
        }
      }
      assert attributes[..|attributes|] == attributes;
    }

    method FindTargets(nodes: seq<RouteNode>, name: QName) returns (targets: seq<Target>)
      ensures targets == AttributeTargets(nodes, name)
    {
      targets := [];
      for i := 0 to |nodes|
        invariant targets == AttributeTargets(nodes[..i], name)
      {
        assert nodes[..i + 1][..i] == nodes[..i];
        ghost var places;
        targets, places := AddAttributeTargets(nodes[i], name, targets);
      }
      assert nodes[..|nodes|] == nodes;
    }

    method PutTargets(targets: seq<Target>, text: string, state: RowState<V>)
      modifies state
      ensures state.State() == Applied(plan.columns, old(state.State()), PutAll(plan, targets, text))
    {
      ghost var row0 := state.State();
      for i := 0 to |targets|
        invariant state.State() == Applied(plan.columns, row0, PutAll(plan, targets[..i], text))
      {
        assert targets[..i + 1][..i] == targets[..i];
        AppliedConcat(plan.columns, row0, PutAll(plan, targets[..i], text), PutText(plan, targets[i].column, text));
        PutParsed(targets[i].column, text, state);
      }
      assert targets[..|targets|] == targets;
    }

    method FindMatching(nodes: seq<RouteNode>, name: QName) returns (matched: seq<RouteNode>)
      ensures matched == Matching(nodes, name)
    {
      matched := [];
      for i := 0 to |nodes|
        invariant matched == Matching(nodes[..i], name)
      {
        assert nodes[..i + 1][..i] == nodes[..i];
        ghost var places;
        matched, places := AddMatchingChildren(nodes[i], name, matched);
      }
      assert nodes[..|nodes|] == nodes;
    }

    /** `content`: an element's content, up to its end tag. */
    method ReadContent(nodes: seq<RouteNode>, e: Element, nil: bool, state: RowState<V>)
      requires nil == Nil(plan, e.attributes)
      modifies state
      ensures state.State() == Applied(plan.columns, old(state.State()), ContentEffects(plan, nodes, e))
      decreases e, 1
    {
      if nil {
        return;
      }
      var whole := FirstWhole(Targets(nodes));
      if whole.Some? {
        ReadWhole(whole.value, e, state);
        return;
      }
      var wantsText, wantsGeometry, hasChildren := Wants(nodes, Text), Wants(nodes, Geometry), HasChildren(nodes);
      if !wantsText && !wantsGeometry && !hasChildren {
        return;
      }
      ghost var row0 := state.State();
      var parts := ReadChildren(nodes, e.array_, e.content, state);
      ghost var children := ChildEffects(plan, nodes, e.array_, e.content);
      AppliedConcat(plan.columns, row0, children, GeometryEffects(plan, nodes, e));
      if parts.Some? && parts.value != [] {
        var geometry := if e.array_ then plan.fromParts(parts.value) else parts.value[0];
        PutGeometries(GeometryColumns(nodes), geometry, state);
      }
      AppliedConcat(plan.columns, row0, children + GeometryEffects(plan, nodes, e), OwnTextEffects(plan, nodes, e));
      if wantsText {
        var raw := if HasElements(e.content) then Some(plan.raw(e)) else None;
        PutTexts(ColumnsOf(Targets(nodes), Text), OwnText(e.content), raw, state);
      } else {
        NoneWanted(Targets(nodes), Text);
      }
    }

    /** `whole`. */
    method ReadWhole(target: Target, e: Element, state: RowState<V>)
      modifies state
      ensures state.State() == Applied(plan.columns, old(state.State()), WholeEffects(plan, target, e))
    {
      match target.kind {
        case Map =>
          var value := plan.map_(e);
          if value.Some? {
            AppliedSingle(plan.columns, state.State(), Put(target.column, value.value));
            PutValue(target.column, value.value, state);
          }
        case BoundingBox =>
          match plan.box(e) {
            case Got(value) =>
              AppliedSingle(plan.columns, state.State(), Put(target.column, value));
              PutValue(target.column, value, state);
            case Bad =>
              AppliedSingle(plan.columns, state.State(), Effect<V>.GeometryFail);
              state.geometryFailed := true;
            case Nothing =>
          }
        case _ =>
          PutElementText(target.column, TextOf(e), None, state);
      }
    }

    /** A geometry for one column, in the form the column has. */
    method PutShaped(column: nat, geometry: G, state: RowState<V>)
      modifies state
      ensures state.State() == Applied(plan.columns, old(state.State()), PutPrepared(plan, column, geometry))
    {
      if IsShaped(plan, column) {
        var value := plan.prepare(column, geometry);
        if value.Some? {
          AppliedSingle(plan.columns, state.State(), Put(column, value.value));
          PutValue(column, value.value, state);
        } else {
          AppliedSingle(plan.columns, state.State(), Effect<V>.GeometryFail);
          state.geometryFailed := true;
        }
      }
    }

    /** `put_geometry`. */
    method PutGeometries(columns: seq<nat>, geometry: G, state: RowState<V>)
      modifies state
      ensures state.State() == Applied(plan.columns, old(state.State()), PutGeometry(plan, columns, geometry))
    {
      ghost var row0 := state.State();
      for i := 0 to |columns|
        invariant state.State() == Applied(plan.columns, row0, PutGeometry(plan, columns[..i], geometry))
      {
        assert columns[..i + 1][..i] == columns[..i];
        AppliedConcat(plan.columns, row0, PutGeometry(plan, columns[..i], geometry),
                      PutPrepared(plan, columns[i], geometry));
        PutShaped(columns[i], geometry, state);
      }
      assert columns[..|columns|] == columns;
    }

    method PutTexts(columns: seq<nat>, text: string, raw: Option<string>, state: RowState<V>)
      modifies state
      ensures state.State() == Applied(plan.columns, old(state.State()), TextEffects(plan, columns, text, raw))
    {
      ghost var row0 := state.State();
      for i := 0 to |columns|
        invariant state.State() == Applied(plan.columns, row0, TextEffects(plan, columns[..i], text, raw))
      {
        assert columns[..i + 1][..i] == columns[..i];
        AppliedConcat(plan.columns, row0, TextEffects(plan, columns[..i], text, raw),
                      PutContent(plan, columns[i], text, raw));
        PutElementText(columns[i], text, raw, state);
      }
      assert columns[..|columns|] == columns;
    }

    /** `geometry`, or a geometry too many in a property that holds one. */
    method ReadGeometry(nodes: seq<RouteNode>, array_: bool, before: nat, e: Element, state: RowState<V>)
      returns (part: Option<Whole<G>>)
      modifies state
      ensures state.State() == Applied(plan.columns, old(state.State()), SwallowEffects(plan, nodes, array_, before, e))
      ensures part == if before > 0 && !array_ then None else Some(ParseGeometry(plan, GeometryColumns(nodes), e))
    {
      var columns := GeometryColumns(nodes);
      if before > 0 && !array_ {
        if columns != [] {
          AppliedSingle(plan.columns, state.State(), Effect<V>.Fail(columns[0]));
          state.failed := true;
        }
        return None;
      }
      var geometry := ParseGeometry(plan, columns, e);
      if geometry.Bad? {
        AppliedSingle(plan.columns, state.State(), Effect<V>.GeometryFail);
        state.geometryFailed := true;
      }
      return Some(geometry);
    }

    /** The event loop over the content of an element that is read. */
    method ReadChildren(nodes: seq<RouteNode>, array_: bool, content: seq<Content>, state: RowState<V>)
      returns (parts: Option<seq<G>>)
      modifies state
      ensures state.State() == Applied(plan.columns, old(state.State()), ChildEffects(plan, nodes, array_, content))
      ensures parts == Parts(plan, nodes, array_, content)
      decreases content, 0
    {
      ghost var row0 := state.State();
      parts := Some([]);
      var geometries := 0;
      for i := 0 to |content|
        invariant state.State() == Applied(plan.columns, row0, ChildEffects(plan, nodes, array_, content[..i]))
        invariant parts == Parts(plan, nodes, array_, content[..i])
        invariant geometries == Geometries(plan, nodes, content[..i])
      {
        assert content[..i + 1][..i] == content[..i];
        AppliedConcat(plan.columns, row0, ChildEffects(plan, nodes, array_, content[..i]),
                      NodeEffects(plan, nodes, array_, geometries, content[i]));
        if Swallows(plan, nodes, content[i]) {
          var part := ReadGeometry(nodes, array_, geometries, content[i].element, state);
          if part.Some? {
            parts := if parts.Some? && part.value.Got? then Some(parts.value + [part.value.value]) else None;
          }
          geometries := geometries + 1;
        } else {
          ReadNode(nodes, array_, geometries, content[i], state);
        }
      }
      assert content[..|content|] == content;
    }

    /** A node of the content that is no geometry of its own. */
    method ReadNode(nodes: seq<RouteNode>, array_: bool, before: nat, node: Content, state: RowState<V>)
      requires !Swallows(plan, nodes, node)
      modifies state
      ensures state.State() == Applied(plan.columns, old(state.State()), NodeEffects(plan, nodes, array_, before, node))
      decreases node, 3
    {
      match node
      case Chars(_) =>
      case Child(e) =>
        var matched := FindMatching(nodes, e.name);
        if matched != [] {
          ReadElement(matched, e, state);
        }
    }

    /** An element that `nodes` match: its start tag, then its content. */
    method ReadElement(nodes: seq<RouteNode>, e: Element, state: RowState<V>)
      modifies state
      ensures state.State() == Applied(plan.columns, old(state.State()), Effects(plan, nodes, e))
      decreases e, 2
    {
      ghost var row0 := state.State();
      var nil := Start(nodes, e.attributes, state);
      AppliedConcat(plan.columns, row0, Counts(nodes) + AttributeEffects(plan, nodes, e.attributes),
                    ContentEffects(plan, nodes, e));
      ReadContent(nodes, e, nil, state);
    }
  }
}
