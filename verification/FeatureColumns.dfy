/**
 * One column's share of the row: what the values found for it come to, and how
 * the columns make up the row and its failure.
 */
module FeatureColumns {
  import opened Basics
  import opened Route
  import opened FeatureSpec
  import opened Feature
  import opened FeatureQuery
  import opened FeatureAgrees

  // ---- all values of a query are its column's --------------------------------------------

  predicate Pure<V>(values: seq<Effect<V>>, column: nat) {
    forall i :: 0 <= i < |values| ==> Keeps(values[i], column, None)
  }

  lemma PureParts<V, G>(plan: Plan<V, G>, kind: Option<Kind>, nodes: seq<RouteNode>, array_: bool, before: nat,
                        e: Element, column: nat)
    ensures Pure(TextValue(plan, kind, e, column), column)
    ensures Pure(GeometryValue(plan, kind, nodes, e, column), column)
    ensures Pure(SwallowValue<V>(nodes, array_, before, column), column)
  {
  }

  lemma PureWhole<V, G>(plan: Plan<V, G>, whole: Target, e: Element, column: nat)
    ensures Pure(WholeValue(plan, whole, e, column), column)
  {
  }

  lemma {:induction false} PureAttributes<V, G>(plan: Plan<V, G>, node: RouteNode, attributes: seq<Attribute>,
                                                column: nat)
    ensures Pure(AttributeValues(plan, node, attributes, column), column)
  {
    if attributes != [] {
      PureAttributes(plan, node, attributes[..|attributes| - 1], column);
    }
  }

  lemma {:induction false} PureValues<V, G>(plan: Plan<V, G>, node: RouteNode, nodes: seq<RouteNode>, e: Element,
                                            column: nat)
    ensures Pure(Values(plan, node, nodes, e, column), column)
    decreases e, 3
  {
    PureAttributes(plan, node, e.attributes, column);
    var whole := FirstWhole(Targets(nodes));
    if whole.Some? {
      PureWhole(plan, whole.value, e, column);
    } else {
      PureParts(plan, KindOf(node.targets, column), nodes, false, 0, e, column);
      PureChildren(plan, node, nodes, e.array_, e.content, column);
    }
  }

  lemma {:induction false} PureChildren<V, G>(plan: Plan<V, G>, node: RouteNode, nodes: seq<RouteNode>, array_: bool,
                                              content: seq<Content>, column: nat)
    ensures Pure(ChildValues(plan, node, nodes, array_, content, column), column)
    decreases content, 0
  {
    if content != [] {
      var before := content[..|content| - 1];
      PureChildren(plan, node, nodes, array_, before, column);
      PureNode(plan, node, nodes, array_, Geometries(plan, nodes, before), content[|content| - 1], column);
    }
  }

  lemma {:induction false} PureNode<V, G>(plan: Plan<V, G>, node: RouteNode, nodes: seq<RouteNode>, array_: bool,
                                          before: nat, child: Content, column: nat)
    ensures Pure(NodeValues(plan, node, nodes, array_, before, child, column), column)
    decreases child, 4
  {
    var next := Carrier(node.children, column);
    match child
    case Chars(_) =>
    case Child(e) =>
      PureParts(plan, None, nodes, array_, before, e, column);
      if next.Some? {
        PureValues(plan, next.value, Matching(nodes, e.name), e, column);
      }
  }

  ghost predicate PureRuns<V>(runs: seq<seq<Effect<V>>>, column: nat) {
    forall i :: 0 <= i < |runs| ==> Pure(runs[i], column)
  }

  lemma {:induction false} PureOccurrences<V, G>(plan: Plan<V, G>, node: RouteNode, nodes: seq<RouteNode>, e: Element,
                                                 column: nat, anchor: nat)
    ensures PureRuns(Occurrences(plan, node, nodes, e, column, anchor), column)
    decreases e, 3
  {
    if node.anchor == Some(anchor) {
      PureValues(plan, node, nodes, e, column);
    } else {
      PureChildOccurrences(plan, node, nodes, e.content, column, anchor);
    }
  }

  lemma {:induction false} PureChildOccurrences<V, G>(plan: Plan<V, G>, node: RouteNode, nodes: seq<RouteNode>,
                                                      content: seq<Content>, column: nat, anchor: nat)
    ensures PureRuns(ChildOccurrences(plan, node, nodes, content, column, anchor), column)
    decreases content, 0
  {
    if content != [] {
      PureChildOccurrences(plan, node, nodes, content[..|content| - 1], column, anchor);
      PureNodeOccurrences(plan, node, nodes, content[|content| - 1], column, anchor);
    }
  }

  lemma {:induction false} PureNodeOccurrences<V, G>(plan: Plan<V, G>, node: RouteNode, nodes: seq<RouteNode>,
                                                     child: Content, column: nat, anchor: nat)
    ensures PureRuns(NodeOccurrences(plan, node, nodes, child, column, anchor), column)
    decreases child, 4
  {
    var next := Carrier(node.children, column);
    if child.Child? && next.Some? {
      PureOccurrences(plan, next.value, Matching(nodes, child.element.name), child.element, column, anchor);
    }
  }

  // ---- what a column's values come to -----------------------------------------------------

  /** No value, one value, or an error: two values, or one that is not valid. */
  datatype Found<+V> = Missing | Present(value: V) | Wrong

  function Find<V>(values: seq<Effect<V>>): Found<V> {
    if values == [] then Missing
    else if |values| == 1 && values[0].Put? then Present(values[0].value)
    else Wrong
  }

  /** The value a scalar column is to have. */
  function ScalarCell<V>(found: Found<V>): Cell<V> {
    if found.Present? then One(found.value) else Null
  }

  /** A list's entries: an occurrence without a value is null. */
  function Entries<V>(occurrences: seq<seq<Effect<V>>>): (entries: seq<Option<V>>)
    ensures |entries| == |occurrences|
  {
    seq(|occurrences|, i requires 0 <= i < |occurrences| =>
      if Find(occurrences[i]).Present? then Some(Find(occurrences[i]).value) else None)
  }

  /** A list without an occurrence of its anchor is null. */
  function ListCell<V>(occurrences: seq<seq<Effect<V>>>): Cell<V> {
    if occurrences == [] then Null else Many(Entries(occurrences))
  }

  ghost predicate AnyWrong<V>(occurrences: seq<seq<Effect<V>>>) {
    exists i :: 0 <= i < |occurrences| && Find(occurrences[i]).Wrong?
  }

  // ---- the column as it is read -------------------------------------------------------------

  datatype Track<V> = Track(cell: Cell<V>, count: nat, failed: bool)

  function Follow<V>(list: bool, track: Track<V>, effect: Effect<V>): Track<V> {
    match effect
    case Count(_) => track.(count := track.count + 1)
    case Put(_, value) =>
      (match PutCell(list, track.count, track.cell, value)
       case Some(cell) => track.(cell := cell)
       case None => track.(failed := true))
    case Fail(_) => track.(failed := true)
    case GeometryFail => track
  }

  function Followed<V>(list: bool, track: Track<V>, effects: seq<Effect<V>>): Track<V> {
    if effects == [] then track
    else Follow(list, Followed(list, track, effects[..|effects| - 1]), effects[|effects| - 1])
  }

  lemma {:induction false} FollowedConcat<V>(list: bool, track: Track<V>, a: seq<Effect<V>>, b: seq<Effect<V>>)
    ensures Followed(list, track, a + b) == Followed(list, Followed(list, track, a), b)
  {
    if b == [] {
      assert a + b == a;
    } else {
      assert (a + b)[..|a + b| - 1] == a + b[..|b| - 1];
      FollowedConcat(list, track, a, b[..|b| - 1]);
    }
  }

  lemma FollowedOne<V>(list: bool, track: Track<V>, effect: Effect<V>)
    ensures Followed(list, track, [effect]) == Follow(list, track, effect)
  {
    assert [effect][..0] == [];
    assert Followed<V>(list, track, []) == track;
  }

  lemma {:induction false} StaysFailed<V>(list: bool, track: Track<V>, effects: seq<Effect<V>>)
    requires track.failed
    ensures Followed(list, track, effects).failed
  {
    if effects != [] {
      StaysFailed(list, track, effects[..|effects| - 1]);
    }
  }

  lemma {:induction false} PureKeepsCount<V>(list: bool, track: Track<V>, values: seq<Effect<V>>, column: nat)
    requires Pure(values, column)
    ensures Followed(list, track, values).count == track.count
  {
    if values != [] {
      PureKeepsCount(list, track, values[..|values| - 1], column);
    }
  }

  /** A cell that has room for a value in the current occurrence. */
  predicate Room<V>(list: bool, track: Track<V>) {
    if list then track.count > 0 && |Items(track.cell)| < track.count else track.cell.Null?
  }

  /** What one occurrence's values (or a scalar's) do to a column that has room. */
  lemma OneOccurrence<V>(list: bool, track: Track<V>, values: seq<Effect<V>>, column: nat)
    requires Pure(values, column) && Room(list, track) && !track.failed
    ensures var after := Followed(list, track, values);
            match Find(values)
            case Missing => after == track
            case Present(value) => after == track.(cell := PutCell(list, track.count, track.cell, value).value)
            case Wrong => after.failed
    ensures Find(values).Present? ==> PutCell(list, track.count, track.cell, Find(values).value).Some?
  {
    if values != [] {
      var first, rest := [values[0]], values[1..];
      assert values == first + rest;
      FollowedConcat(list, track, first, rest);
      FollowedOne(list, track, values[0]);
      var next := Followed(list, track, first);
      if values[0].Fail? {
        StaysFailed(list, next, rest);
      } else if rest != [] {
        Full(list, next, rest, column);
      }
    }
  }

  /** A column without room fails at the next value. */
  lemma Full<V>(list: bool, track: Track<V>, values: seq<Effect<V>>, column: nat)
    requires Pure(values, column) && values != []
    requires if list then |Items(track.cell)| >= Max(track.count, 1) else !track.cell.Null?
    ensures Followed(list, track, values).failed
  {
    var first, rest := [values[0]], values[1..];
    assert values == first + rest;
    FollowedConcat(list, track, first, rest);
    FollowedOne(list, track, values[0]);
    StaysFailed(list, Followed(list, track, first), rest);
  }

  /** The list cell of the first occurrences, without the nulls at its end. */
  ghost predicate Holds<V>(cell: Cell<V>, entries: seq<Option<V>>) {
    && |Items(cell)| <= |entries|
    && Items(cell) + Nones(|entries| - |Items(cell)|) == entries
    && !cell.One?
    && (cell.Many? ==> cell.items != [])
  }

  /** One more occurrence of a list's anchor. */
  lemma ListStep<V>(track: Track<V>, values: seq<Effect<V>>, entries: seq<Option<V>>, column: nat, anchor: nat)
    requires Pure(values, column) && track.count == |entries| && (!track.failed ==> Holds(track.cell, entries))
    ensures var after := Followed(true, track, [Count(anchor)] + values);
            && after.count == |entries| + 1
            && (after.failed <==> track.failed || Find(values).Wrong?)
            && (!after.failed ==>
                  Holds(after.cell, entries + [if Find(values).Present? then Some(Find(values).value) else None]))
  {
    FollowedConcat(true, track, [Count(anchor)], values);
    FollowedOne<V>(true, track, Count(anchor));
    var next := track.(count := track.count + 1);
    PureKeepsCount(true, next, values, column);
    if track.failed {
      StaysFailed(true, next, values);
    } else {
      OneOccurrence(true, next, values, column);
      if !Find(values).Wrong? {
        HoldsNext(track.cell, entries, Find(values));
      }
    }
  }

  /** A list column that was read as its occurrences say, or failed where one of them is wrong. */
  ghost predicate Reads<V>(track: Track<V>, occurrences: seq<seq<Effect<V>>>) {
    && track.count == |occurrences|
    && (track.failed <==> AnyWrong(occurrences))
    && (!track.failed ==> Holds(track.cell, Entries(occurrences)))
  }

  lemma ReadsNext<V>(track: Track<V>, before: seq<seq<Effect<V>>>, last: seq<Effect<V>>, column: nat, anchor: nat)
    requires Reads(track, before) && Pure(last, column)
    ensures Reads(Followed(true, track, [Count(anchor)] + last), before + [last])
  {
    ListStep(track, last, Entries(before), column, anchor);
    assert Entries(before + [last]) == Entries(before) + [if Find(last).Present? then Some(Find(last).value) else None];
    assert (before + [last])[..|before|] == before;
    WrongLast(before + [last]);
  }

  lemma {:induction false} ListReads<V>(occurrences: seq<seq<Effect<V>>>, column: nat, anchor: nat)
    requires PureRuns(occurrences, column)
    ensures Reads(Followed(true, Track(Null, 0, false), Expand(occurrences, anchor)), occurrences)
  {
    var none: Track<V> := Track(Null, 0, false);
    if occurrences != [] {
      var before, last := occurrences[..|occurrences| - 1], occurrences[|occurrences| - 1];
      ListReads(before, column, anchor);
      Assoc(Expand(before, anchor), [Count(anchor)], last);
      FollowedConcat(true, none, Expand(before, anchor), [Count(anchor)] + last);
      ReadsNext(Followed(true, none, Expand(before, anchor)), before, last, column, anchor);
      assert occurrences == before + [last];
    }
  }

  lemma WrongLast<V>(occurrences: seq<seq<Effect<V>>>)
    requires occurrences != []
    ensures AnyWrong(occurrences)
            <==> AnyWrong(occurrences[..|occurrences| - 1]) || Find(occurrences[|occurrences| - 1]).Wrong?
  {
    var before := occurrences[..|occurrences| - 1];
    if AnyWrong(before) {
      var i :| 0 <= i < |before| && Find(before[i]).Wrong?;
      assert Find(occurrences[i]).Wrong?;
    }
    if AnyWrong(occurrences) && !Find(occurrences[|occurrences| - 1]).Wrong? {
      var i :| 0 <= i < |occurrences| && Find(occurrences[i]).Wrong?;
      assert before[i] == occurrences[i];
    }
  }

  lemma HoldsNext<V>(cell: Cell<V>, entries: seq<Option<V>>, found: Found<V>)
    requires Holds(cell, entries) && !found.Wrong?
    ensures found.Missing? ==> Holds(cell, entries + [None])
    ensures found.Present? ==>
              var put := PutCell(true, |entries| + 1, cell, found.value);
              put.Some? && Holds(put.value, entries + [Some(found.value)])
  {
    var items := Items(cell);
    assert Nones<V>(|entries| + 1 - |items|) == Nones(|entries| - |items|) + [None];
    if found.Present? {
      assert items + Nones(|entries| - |items|) + [Some(found.value)] + Nones(0) == entries + [Some(found.value)];
    }
  }

  /** A scalar column reads as its values say. */
  lemma {:induction false} ScalarReads<V>(values: seq<Effect<V>>, column: nat)
    requires Pure(values, column)
    ensures var track := Followed(false, Track(Null, 0, false), values);
            && (track.failed <==> Find(values).Wrong?)
            && (!track.failed ==> track.cell == ScalarCell(Find(values)))
  {
    OneOccurrence(false, Track(Null, 0, false), values, column);
  }

  // ---- the row and its columns ----------------------------------------------------------------

  /** The counter that the column's lists go by. */
  function AnchorOf(column: Column): Option<nat> {
    if column.list then Some(column.anchor) else None
  }

  predicate Fits<V>(columns: seq<Column>, row: Row<V>) {
    && |row.cells| == |columns|
    && forall c :: 0 <= c < |columns| && columns[c].list ==> columns[c].anchor < |row.counts|
  }

  function Share<V>(columns: seq<Column>, effects: seq<Effect<V>>, c: nat): Track<V>
    requires c < |columns|
  {
    Followed(columns[c].list, Track(Null, 0, false), Keep(effects, c, AnchorOf(columns[c])))
  }

  lemma ApplyFits<V>(columns: seq<Column>, row: Row<V>, effect: Effect<V>)
    requires Fits(columns, row)
    ensures Fits(columns, Apply(columns, row, effect)) && |Apply(columns, row, effect).counts| == |row.counts|
  {
  }

  /** A column of the row, as the effects on it alone make it. */
  ghost predicate Agrees<V>(columns: seq<Column>, row: Row<V>, track: Track<V>, c: nat) {
    && c < |columns| && Fits(columns, row)
    && row.cells[c] == track.cell
    && (columns[c].list ==> row.counts[columns[c].anchor] == track.count)
    && (track.failed ==> row.failed)
  }

  lemma ApplyAgrees<V>(columns: seq<Column>, row: Row<V>, track: Track<V>, c: nat, effect: Effect<V>)
    requires Agrees(columns, row, track, c)
    ensures Agrees(columns, Apply(columns, row, effect),
                   if Keeps(effect, c, AnchorOf(columns[c])) then Follow(columns[c].list, track, effect) else track, c)
  {
    ApplyFits(columns, row, effect);
  }

  lemma {:induction false} RowAgrees<V>(columns: seq<Column>, anchors: nat, effects: seq<Effect<V>>, c: nat)
    requires c < |columns| && Fits(columns, EmptyRow<V>(columns, anchors))
    ensures Agrees(columns, Applied(columns, EmptyRow(columns, anchors), effects), Share(columns, effects, c), c)
    ensures |Applied(columns, EmptyRow(columns, anchors), effects).counts| == anchors
  {
    if effects != [] {
      var before, last := effects[..|effects| - 1], effects[|effects| - 1];
      var row := Applied(columns, EmptyRow(columns, anchors), before);
      RowAgrees(columns, anchors, before, c);
      ApplyAgrees(columns, row, Share(columns, before, c), c, last);
      ApplyFits(columns, row, last);
      ShareOne(columns, before, last, c);
      assert effects == before + [last];
    }
  }

  lemma ShareOne<V>(columns: seq<Column>, before: seq<Effect<V>>, last: Effect<V>, c: nat)
    requires c < |columns|
    ensures Share(columns, before + [last], c)
            == if Keeps(last, c, AnchorOf(columns[c])) then Follow(columns[c].list, Share(columns, before, c), last)
               else Share(columns, before, c)
  {
    var a := AnchorOf(columns[c]);
    KeepConcat(before, [last], c, a);
    KeepOne(last, c, a);
    if Keeps(last, c, a) {
      FollowedConcat(columns[c].list, Track(Null, 0, false), Keep(before, c, a), [last]);
      FollowedOne(columns[c].list, Share(columns, before, c), last);
    } else {
      assert Keep(before, c, a) + [] == Keep(before, c, a);
    }
  }

  ghost predicate FailsInRange<V>(columns: seq<Column>, effects: seq<Effect<V>>) {
    forall i :: 0 <= i < |effects| && effects[i].Fail? ==> effects[i].column < |columns|
  }

  /** A row that failed failed in one of its columns. */
  lemma {:induction false} SomeColumnFailed<V>(columns: seq<Column>, anchors: nat, effects: seq<Effect<V>>)
    requires Fits(columns, EmptyRow<V>(columns, anchors)) && FailsInRange(columns, effects)
    requires Applied(columns, EmptyRow(columns, anchors), effects).failed
    ensures exists c :: 0 <= c < |columns| && Share(columns, effects, c).failed
  {
    if effects != [] {
      var before, last := effects[..|effects| - 1], effects[|effects| - 1];
      assert effects == before + [last];
      var row := Applied(columns, EmptyRow(columns, anchors), before);
      if row.failed {
        SomeColumnFailed(columns, anchors, before);
        var c :| 0 <= c < |columns| && Share(columns, before, c).failed;
        ShareOne(columns, before, last, c);
        assert Share(columns, effects, c).failed;
      } else {
        var c := last.column;
        RowAgrees(columns, anchors, before, c);
        ShareOne(columns, before, last, c);
        assert Share(columns, effects, c).failed;
      }
    }
  }
}
