/**
 * A feature read into a row (`read_feature` and `commit`,
 * crates/xeibe-arrow/src/feature.rs:110-226): what comes out is what the query
 * of the feature's tree gives, column by column.
 */
module FeatureResult {
  import opened Basics
  import opened Route
  import opened FeatureSpec
  import opened Feature
  import opened FeatureQuery
  import opened FeatureAgrees
  import opened FeatureColumns
  import opened FeatureGeometry

  /** A row, a feature skipped, or an error; `missing` is the column that must not be null. */
  datatype Outcome<+V> = Built(cells: seq<Cell<V>>) | Skipped | Refused(missing: Option<nat>)

  // ---- commit -----------------------------------------------------------------------------

  /** A list is filled up to what its anchor counted; where that is nothing, it stays null. */
  function PaddedCell<V>(column: Column, count: nat, cell: Cell<V>): Cell<V> {
    if !column.list then cell
    else
      match cell
      case Many(items) => Many(items + Nones(Max(count, |items|) - |items|))
      case Null => if count > 0 then Many(Nones(count)) else Null
      case One(_) => cell
  }

  function Padded<V>(columns: seq<Column>, row: Row<V>): (cells: seq<Cell<V>>)
    requires |columns| == |row.cells|
    ensures |cells| == |columns|
  {
    seq(|columns|, c requires 0 <= c < |columns| =>
      PaddedCell(columns[c], CountOf(columns, row.counts, c), row.cells[c]))
  }

  predicate HasNone<V>(items: seq<Option<V>>) {
    exists i :: 0 <= i < |items| && items[i].None?
  }

  /** A null where the column, or the list's item, must not be null. */
  predicate IsMissing<V>(column: Column, cell: Cell<V>) {
    match cell
    case Null => !column.nullable
    case Many(items) => !column.itemNullable && HasNone(items)
    case One(_) => false
  }

  /** The first column with a null it must not have. */
  function FirstMissing<V>(columns: seq<Column>, cells: seq<Cell<V>>): Option<nat>
    requires |columns| == |cells|
  {
    if columns == [] then None
    else
      var earlier := FirstMissing(columns[..|columns| - 1], cells[..|columns| - 1]);
      if earlier.Some? then earlier
      else if IsMissing(columns[|columns| - 1], cells[|columns| - 1]) then Some(|columns| - 1)
      else None
  }

  /** Cells that stand, unless one of them is missing. */
  function Checked<V>(columns: seq<Column>, policy: Policy, cells: seq<Cell<V>>): Outcome<V>
    requires |columns| == |cells|
  {
    match FirstMissing(columns, cells)
    case None => Built(cells)
    case Some(c) => if policy == Skip then Skipped else Refused(Some(c))
  }

  /** `NullGeometry` helps with geometry errors only: the geometry was never put. */
  function Settled<V>(columns: seq<Column>, policy: Policy, failed: bool, geometryFailed: bool,
                      cells: seq<Cell<V>>): Outcome<V>
    requires |columns| == |cells|
  {
    if failed then (if policy == Skip then Skipped else Refused(None))
    else if geometryFailed && policy == Skip then Skipped
    else if geometryFailed && policy == Error then Refused(None)
    else Checked(columns, policy, cells)
  }

  function Committed<V>(columns: seq<Column>, policy: Policy, row: Row<V>): Outcome<V>
    requires |columns| == |row.cells|
  {
    Settled(columns, policy, row.failed, row.geometryFailed, Padded(columns, row))
  }

  method FindMissing<V>(columns: seq<Column>, cells: seq<Cell<V>>) returns (missing: Option<nat>)
    requires |columns| == |cells|
    ensures missing == FirstMissing(columns, cells)
  {
    missing := None;
    for c := 0 to |columns|
      invariant missing == FirstMissing(columns[..c], cells[..c])
    {
      assert columns[..c + 1][..c] == columns[..c] && cells[..c + 1][..c] == cells[..c];
      if missing.None? && IsMissing(columns[c], cells[c]) {
        missing := Some(c);
      }
    }
    assert columns[..|columns|] == columns && cells[..|columns|] == cells;
  }

  /** The lists of the row, padded in place. */
  method PadLists<V>(columns: seq<Column>, state: RowState<V>)
    requires |columns| == |state.cells|
    modifies state`cells
    ensures state.cells == Padded(columns, old(state.State()))
  {
    for c := 0 to |columns|
      invariant |state.cells| == |columns|
      invariant forall k :: 0 <= k < c ==> state.cells[k] == Padded(columns, old(state.State()))[k]
      invariant forall k :: c <= k < |columns| ==> state.cells[k] == old(state.cells)[k]
    {
      if columns[c].list {
        var count := CountOf(columns, state.counts, c);
        match state.cells[c] {
          case Many(items) =>
            state.cells := state.cells[c := Many(items + Nones(Max(count, |items|) - |items|))];
          case Null =>
            if count > 0 {
              state.cells := state.cells[c := Many(Nones(count))];
            }
          case One(_) =>
        }
      }
    }
  }

  /** `commit`. */
  method Commit<V, G>(plan: Plan<V, G>, state: RowState<V>) returns (outcome: Outcome<V>)
    requires |plan.columns| == |state.cells|
    modifies state`cells
    ensures outcome == Committed(plan.columns, plan.policy, old(state.State()))
  {
    if state.failed {
      return if plan.policy == Skip then Skipped else Refused(None);
    }
    if state.geometryFailed {
      match plan.policy {
        case Error => return Refused(None);
        case Skip => return Skipped;
        case NullGeometry =>
      }
    }
    PadLists(plan.columns, state);
    var missing := FindMissing(plan.columns, state.cells);
    if missing.Some? {
      return if plan.policy == Skip then Skipped else Refused(missing);
    }
    return Built(state.cells);
  }

  // ---- the query of a feature ---------------------------------------------------------------

  /**
   * Every column has one route. The list columns' anchors are on their routes, and
   * a counter is one node's.
   */
  ghost predicate WellRouted(columns: seq<Column>, anchors: nat, root: RouteNode) {
    && (forall c :: 0 <= c < |columns| ==> ColumnCount(root, c) == 1)
    && (forall c :: c >= |columns| ==> ColumnCount(root, c) == 0)
    && (forall c :: 0 <= c < |columns| && columns[c].list ==>
          columns[c].anchor < anchors && Aligned(root, c, columns[c].anchor))
  }

  function QueryOccurrences<V, G>(plan: Plan<V, G>, root: RouteNode, e: Element, c: nat): seq<seq<Effect<V>>>
    requires c < |plan.columns|
  {
    Occurrences(plan, root, [root], e, c, plan.columns[c].anchor)
  }

  function QueryValues<V, G>(plan: Plan<V, G>, root: RouteNode, e: Element, c: nat): seq<Effect<V>> {
    Values(plan, root, [root], e, c)
  }

  /** The column's value: its one match, or an entry for each occurrence of its anchor. */
  function QueryCell<V, G>(plan: Plan<V, G>, root: RouteNode, e: Element, c: nat): Cell<V>
    requires c < |plan.columns|
  {
    if plan.columns[c].list then ListCell(QueryOccurrences(plan, root, e, c))
    else ScalarCell(Find(QueryValues(plan, root, e, c)))
  }

  function QueryCells<V, G>(plan: Plan<V, G>, root: RouteNode, e: Element): (cells: seq<Cell<V>>)
    ensures |cells| == |plan.columns|
  {
    seq(|plan.columns|, c requires 0 <= c < |plan.columns| => QueryCell(plan, root, e, c))
  }

  /** The column has two matches where it holds one, or one that is not valid. */
  ghost predicate QueryWrong<V, G>(plan: Plan<V, G>, root: RouteNode, e: Element, c: nat)
    requires c < |plan.columns|
  {
    if plan.columns[c].list then AnyWrong(QueryOccurrences(plan, root, e, c))
    else Find(QueryValues(plan, root, e, c)).Wrong?
  }

  ghost predicate AnyColumnWrong<V, G>(plan: Plan<V, G>, root: RouteNode, e: Element) {
    exists c :: 0 <= c < |plan.columns| && QueryWrong(plan, root, e, c)
  }

  ghost function Queried<V(!new), G(!new)>(plan: Plan<V, G>, root: RouteNode, e: Element): Outcome<V> {
    Settled(plan.columns, plan.policy, AnyColumnWrong(plan, root, e), ElementWrong(plan, [root], e),
            QueryCells(plan, root, e))
  }

  // ---- reading is the query -------------------------------------------------------------------

  function ReadRow<V, G>(plan: Plan<V, G>, anchors: nat, root: RouteNode, e: Element): Row<V> {
    Applied(plan.columns, EmptyRow(plan.columns, anchors), Effects(plan, [root], e))
  }

  lemma RootOwns(root: RouteNode, c: nat, anchor: Option<nat>)
    requires ColumnCount(root, c) == 1
    ensures Owner([root], root, c, anchor)
  {
    OneNode(root, c);
    if anchor.Some? {
      OneNode(root, anchor.value);
    }
  }

  /** A list column's share of the row: its occurrences. */
  lemma ListShare<V, G>(plan: Plan<V, G>, anchors: nat, root: RouteNode, e: Element, c: nat)
    requires WellRouted(plan.columns, anchors, root) && c < |plan.columns| && plan.columns[c].list
    ensures Reads(Share(plan.columns, Effects(plan, [root], e), c), QueryOccurrences(plan, root, e, c))
  {
    var anchor := plan.columns[c].anchor;
    RootOwns(root, c, Some(anchor));
    AlignedEffects(plan, [root], root, e, c, anchor);
    PureOccurrences(plan, root, [root], e, c, anchor);
    ListReads(QueryOccurrences(plan, root, e, c), c, anchor);
  }

  lemma ScalarShare<V, G>(plan: Plan<V, G>, anchors: nat, root: RouteNode, e: Element, c: nat)
    requires WellRouted(plan.columns, anchors, root) && c < |plan.columns| && !plan.columns[c].list
    ensures var share, found := Share(plan.columns, Effects(plan, [root], e), c), Find(QueryValues(plan, root, e, c));
            && (share.failed <==> found.Wrong?)
            && (!share.failed ==> share.cell == ScalarCell(found))
  {
    RootOwns(root, c, None);
    OwnedEffects(plan, [root], root, e, c, None);
    PureValues(plan, root, [root], e, c);
    ScalarReads(QueryValues(plan, root, e, c), c);
  }

  lemma ShareWrong<V, G>(plan: Plan<V, G>, anchors: nat, root: RouteNode, e: Element, c: nat)
    requires WellRouted(plan.columns, anchors, root) && c < |plan.columns|
    ensures Share(plan.columns, Effects(plan, [root], e), c).failed <==> QueryWrong(plan, root, e, c)
  {
    if plan.columns[c].list {
      ListShare(plan, anchors, root, e, c);
    } else {
      ScalarShare(plan, anchors, root, e, c);
    }
  }

  /** An anchor's counter ends as the number of its occurrences. */
  lemma CountIs<V, G>(plan: Plan<V, G>, anchors: nat, root: RouteNode, e: Element, c: nat)
    requires WellRouted(plan.columns, anchors, root) && c < |plan.columns| && plan.columns[c].list
    ensures var row := ReadRow(plan, anchors, root, e);
            && plan.columns[c].anchor < |row.counts|
            && row.counts[plan.columns[c].anchor] == |QueryOccurrences(plan, root, e, c)|
  {
    ListShare(plan, anchors, root, e, c);
    RowAgrees(plan.columns, anchors, Effects(plan, [root], e), c);
  }

  lemma PadsToEntries<V>(column: Column, cell: Cell<V>, occurrences: seq<seq<Effect<V>>>)
    requires column.list && Holds(cell, Entries(occurrences))
    ensures PaddedCell(column, |occurrences|, cell) == ListCell(occurrences)
  {
    var n := |occurrences|;
    if cell.Null? && n > 0 {
      assert Nones(n) == [] + Nones<V>(n - 0);
      assert Nones(n) == Entries(occurrences);
    }
  }

  lemma CellIs<V, G>(plan: Plan<V, G>, anchors: nat, root: RouteNode, e: Element, c: nat)
    requires WellRouted(plan.columns, anchors, root) && c < |plan.columns| && !QueryWrong(plan, root, e, c)
    ensures var row := ReadRow(plan, anchors, root, e);
            && c < |row.cells|
            && PaddedCell(plan.columns[c], CountOf(plan.columns, row.counts, c), row.cells[c])
               == QueryCell(plan, root, e, c)
  {
    RowAgrees(plan.columns, anchors, Effects(plan, [root], e), c);
    if plan.columns[c].list {
      ListShare(plan, anchors, root, e, c);
      CountIs(plan, anchors, root, e, c);
      PadsToEntries(plan.columns[c], ReadRow(plan, anchors, root, e).cells[c], QueryOccurrences(plan, root, e, c));
    } else {
      ScalarShare(plan, anchors, root, e, c);
    }
  }

  lemma {:induction false} KeptFail<V>(effects: seq<Effect<V>>, i: nat, column: nat)
    requires i < |effects| && Keeps(effects[i], column, None)
    ensures Keep(effects, column, None) != []
  {
    if i < |effects| - 1 {
      KeptFail(effects[..|effects| - 1], i, column);
    }
  }

  /** Only columns of the output fail. */
  lemma FailuresInRange<V, G>(plan: Plan<V, G>, anchors: nat, root: RouteNode, e: Element)
    requires WellRouted(plan.columns, anchors, root)
    ensures FailsInRange(plan.columns, Effects(plan, [root], e))
  {
    var effects := Effects(plan, [root], e);
    forall i | 0 <= i < |effects| && effects[i].Fail? ensures effects[i].column < |plan.columns| {
      var c := effects[i].column;
      KeptFail(effects, i, c);
      if c >= |plan.columns| {
        OneNode(root, c);
        FreeEffects(plan, [root], e, c, None);
      }
    }
  }

  lemma FailedIs<V, G>(plan: Plan<V, G>, anchors: nat, root: RouteNode, e: Element)
    requires WellRouted(plan.columns, anchors, root)
    ensures ReadRow(plan, anchors, root, e).failed <==> AnyColumnWrong(plan, root, e)
  {
    var effects := Effects(plan, [root], e);
    if ReadRow(plan, anchors, root, e).failed {
      FailuresInRange(plan, anchors, root, e);
      SomeColumnFailed(plan.columns, anchors, effects);
      var c :| 0 <= c < |plan.columns| && Share(plan.columns, effects, c).failed;
      ShareWrong(plan, anchors, root, e, c);
    }
    if AnyColumnWrong(plan, root, e) {
      var c :| 0 <= c < |plan.columns| && QueryWrong(plan, root, e, c);
      ShareWrong(plan, anchors, root, e, c);
      RowAgrees(plan.columns, anchors, effects, c);
    }
  }

  lemma {:induction false} GeometryFlag<V>(columns: seq<Column>, anchors: nat, effects: seq<Effect<V>>)
    ensures Applied(columns, EmptyRow(columns, anchors), effects).geometryFailed
            <==> Fails(effects)
  {
    if effects != [] {
      var before := effects[..|effects| - 1];
      GeometryFlag(columns, anchors, before);
      assert effects == before + [effects[|before|]];
      FailsConcat(before, [effects[|before|]]);
      OneFails(effects[|before|]);
    }
  }

  /**
   * Reading a feature gives what the query of its tree gives: the row whose columns
   * are the query's, or the error, skip or missing value that the query leads to.
   */
  lemma ReadingIsTheQuery<V(!new), G(!new)>(plan: Plan<V, G>, anchors: nat, root: RouteNode, e: Element)
    requires WellRouted(plan.columns, anchors, root)
    ensures |ReadRow(plan, anchors, root, e).cells| == |plan.columns|
    ensures Committed(plan.columns, plan.policy, ReadRow(plan, anchors, root, e)) == Queried(plan, root, e)
  {
    var row := ReadRow(plan, anchors, root, e);
    RowLength(plan.columns, anchors, Effects(plan, [root], e));
    FailedIs(plan, anchors, root, e);
    GeometryFlag(plan.columns, anchors, Effects(plan, [root], e));
    ElementFails(plan, [root], e);
    if !AnyColumnWrong(plan, root, e) {
      forall c | 0 <= c < |plan.columns| ensures Padded(plan.columns, row)[c] == QueryCells(plan, root, e)[c] {
        CellIs(plan, anchors, root, e, c);
      }
      assert Padded(plan.columns, row) == QueryCells(plan, root, e);
    }
  }

  lemma {:induction false} RowLength<V>(columns: seq<Column>, anchors: nat, effects: seq<Effect<V>>)
    ensures |Applied(columns, EmptyRow(columns, anchors), effects).cells| == |columns|
  {
    if effects != [] {
      RowLength(columns, anchors, effects[..|effects| - 1]);
    }
  }

  /** Lists with one anchor have one length. */
  lemma ListsOfOneAnchorAlign<V, G>(plan: Plan<V, G>, anchors: nat, root: RouteNode, e: Element, c: nat, d: nat)
    requires WellRouted(plan.columns, anchors, root)
    requires c < |plan.columns| && d < |plan.columns| && plan.columns[c].list && plan.columns[d].list
    requires plan.columns[c].anchor == plan.columns[d].anchor
    ensures |QueryOccurrences(plan, root, e, c)| == |QueryOccurrences(plan, root, e, d)|
    ensures var x, y := QueryCell(plan, root, e, c), QueryCell(plan, root, e, d);
            (x.Null? && y.Null?) || (x.Many? && y.Many? && |x.items| == |y.items|)
  {
    CountIs(plan, anchors, root, e, c);
    CountIs(plan, anchors, root, e, d);
  }

  /** `read_feature`. */
  method ReadFeature<V(!new), G(!new)>(reader: FeatureReader<V, G>, root: RouteNode, anchors: nat, e: Element)
    returns (outcome: Outcome<V>)
    ensures |ReadRow(reader.plan, anchors, root, e).cells| == |reader.plan.columns|
    ensures outcome == Committed(reader.plan.columns, reader.plan.policy, ReadRow(reader.plan, anchors, root, e))
    ensures WellRouted(reader.plan.columns, anchors, root) ==> outcome == Queried(reader.plan, root, e)
  {
    var state := new RowState<V>(reader.plan.columns, anchors);
    RowLength(reader.plan.columns, anchors, Effects(reader.plan, [root], e));
    reader.ReadElement([root], e, state);
    outcome := Commit(reader.plan, state);
    if WellRouted(reader.plan.columns, anchors, root) {
      ReadingIsTheQuery(reader.plan, anchors, root, e);
    }
  }
}
