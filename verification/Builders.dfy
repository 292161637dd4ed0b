/**
 * The column builders and the batch builder
 * (crates/xeibe-arrow/src/builders.rs:44-66, 314-583): objects that grow row by
 * row and give the columns built so far.
 */
module Builders {
  import opened Basics
  import opened Columnar

  // ---- one more row ---------------------------------------------------------------------------

  lemma Without<L>(rows: seq<Value<L>>, row: Value<L>)
    ensures (rows + [row])[..|rows|] == rows && (rows + [row])[|rows|] == row
  {
  }

  lemma GrowsChildren<L>(rows: seq<Value<L>>, row: Value<L>)
    ensures Children(rows + [row]) == Children(rows) + Items(row)
    ensures AllPairs(rows + [row]) == AllPairs(rows) + Pairs(row)
  {
    Without(rows, row);
  }

  lemma {:induction false} GrowsOffsets<L>(rows: seq<Value<L>>, row: Value<L>)
    ensures Offsets(rows + [row]) == Offsets(rows) + [Last(Offsets(rows)) + Size(row)]
  {
    Without(rows, row);
  }

  lemma GrowsValidity<L>(rows: seq<Value<L>>, row: Value<L>)
    ensures Validity(rows + [row]) == Validity(rows) + [!row.Null?]
    ensures Leaves(rows + [row]) == Leaves(rows) + [if row.Atom? then Some(row.value) else None]
  {
    Without(rows, row);
    assert Validity(rows + [row])[..|rows|] == Validity(rows);
    assert Leaves(rows + [row])[..|rows|] == Leaves(rows);
  }

  lemma WrapAdds(a: int, n: nat)
    ensures Wrap32(Wrap32(a) + Wrap32(n)) == Wrap32(a + n)
  {
    var m := 0x1_0000_0000;
    assert Wrap32(a) == a - (a + 0x8000_0000) / m * m;
    assert Wrap32(n) == n - (n + 0x8000_0000) / m * m;
    var k := (a + 0x8000_0000) / m + (n + 0x8000_0000) / m;
    assert Wrap32(a) + Wrap32(n) + 0x8000_0000 == a + n + 0x8000_0000 - k * m;
    ModShift(a + n + 0x8000_0000, k);
  }

  lemma ModShift(x: int, k: int)
    ensures (x - k * 0x1_0000_0000) % 0x1_0000_0000 == x % 0x1_0000_0000
  {
    var m := 0x1_0000_0000;
    assert x == x / m * m + x % m;
    assert x - k * m == (x / m - k) * m + x % m;
  }

  lemma GrowsWrapped<L>(rows: seq<Value<L>>, row: Value<L>)
    ensures Wrapped(Offsets(rows + [row]))
            == Wrapped(Offsets(rows)) + [Wrap32(Last(Wrapped(Offsets(rows))) + Wrap32(Size(row)))]
  {
    GrowsOffsets(rows, row);
    WrapAdds(Last(Offsets(rows)), Size(row));
    WrappedAppend(Offsets(rows), Last(Offsets(rows)) + Size(row));
    assert Last(Wrapped(Offsets(rows))) == Wrap32(Last(Offsets(rows)));
  }

  lemma WrappedAppend(offsets: seq<int>, last: int)
    ensures Wrapped(offsets + [last]) == Wrapped(offsets) + [Wrap32(last)]
  {
  }

  lemma GrowsTexts(a: seq<(string, string)>, b: seq<(string, string)>)
    ensures Keys(a + b) == Keys(a) + Keys(b) && Texts(a + b) == Texts(a) + Texts(b)
  {
  }

  /** A list column's buffers hold these rows, and its items' column these items. */
  ghost predicate ListHolds<L>(rows: seq<Value<L>>, offsets: seq<int>, validity: seq<bool>, items: seq<Value<L>>) {
    items == Children(rows) && offsets == Offsets(rows) && validity == Validity(rows)
  }

  ghost predicate MapHolds<L>(rows: seq<Value<L>>, offsets: seq<int>, validity: seq<bool>, keys: seq<string>,
                              values: seq<string>) {
    && keys == Keys(AllPairs(rows)) && values == Texts(AllPairs(rows))
    && offsets == Wrapped(Offsets(rows)) && validity == Validity(rows)
  }

  lemma EmptyHolds<L>()
    ensures ListHolds<L>([], [0], [], [])
  {
  }

  lemma ListGrows<L>(rows: seq<Value<L>>, row: Value<L>, offsets: seq<int>, validity: seq<bool>, items: seq<Value<L>>)
    requires ListHolds(rows, offsets, validity, items) && (row.Null? || row.ListOf?)
    ensures ListHolds(rows + [row], offsets + [Last(offsets) + |Items(row)|],
                      validity + [row.ListOf?], items + Items(row))
  {
    GrowsChildren(rows, row);
    GrowsOffsets(rows, row);
    GrowsValidity(rows, row);
  }

  lemma MapGrows<L>(rows: seq<Value<L>>, row: Value<L>, offsets: seq<int>, validity: seq<bool>, keys: seq<string>,
                    values: seq<string>)
    requires MapHolds(rows, offsets, validity, keys, values) && (row.Null? || row.MapOf?)
    ensures MapHolds(rows + [row], offsets + [Wrap32(Last(offsets) + Wrap32(|Pairs(row)|))], validity + [row.MapOf?],
                     keys + Keys(Pairs(row)), values + Texts(Pairs(row)))
  {
    GrowsChildren(rows, row);
    GrowsWrapped(rows, row);
    GrowsValidity(rows, row);
    GrowsTexts(AllPairs(rows), Pairs(row));
  }

  lemma MapGrowsNull<L>(rows: seq<Value<L>>, offsets: seq<int>, validity: seq<bool>, keys: seq<string>,
                        values: seq<string>)
    requires MapHolds(rows, offsets, validity, keys, values)
    ensures MapHolds(rows + [Null], offsets + [Last(offsets)], validity + [false], keys, values)
  {
    MapGrows(rows, Null, offsets, validity, keys, values);
    WrapAdds(Last(Offsets(rows)), 0);
    assert keys + Keys([]) == keys && values + Texts([]) == values;
  }

  lemma {:induction false} NormalIsHeld<L>(shape: Shape, rows: seq<Value<L>>, value: Value<L>)
    requires Held(shape, rows)
    ensures Held(shape, rows + [Normal(shape, value)])
    decreases shape, 1
  {
    var row := Normal(shape, value);
    GrowsChildren(rows, row);
    if shape.List? && value.ListOf? {
      NormalAllIsHeld(shape.item, Children(rows), value.items);
    } else if shape.List? {
      assert Children(rows) + [] == Children(rows);
    }
  }

  lemma {:induction false} NormalAllIsHeld<L>(shape: Shape, rows: seq<Value<L>>, values: seq<Value<L>>)
    requires Held(shape, rows)
    ensures Held(shape, rows + NormalAll(shape, values))
    decreases shape, 2, |values|
  {
    if values == [] {
      assert rows + NormalAll(shape, values) == rows;
    } else {
      var before := values[..|values| - 1];
      NormalAllIsHeld(shape, rows, before);
      NormalIsHeld(shape, rows + NormalAll(shape, before), values[|values| - 1]);
      Assoc(rows, NormalAll(shape, before), [Normal(shape, values[|values| - 1])]);
    }
  }

  // ---- the builder of a column ------------------------------------------------------------------

  class ColumnBuilder<L> {
    const shape: Shape
    /** The builder of a list column's items. */
    const item: ColumnBuilder?<L>
    var leaves: seq<Option<L>>
    var keys: seq<string>
    var values: seq<string>
    var offsets: seq<int>
    var validity: seq<bool>
    /** The rows appended since the last `Finish`, as the column holds them. */
    ghost var rows: seq<Value<L>>
    ghost const Repr: set<object>

    /** A list column owns the builder of its items. */
    ghost predicate Links()
      reads this
    {
      && this in Repr && |offsets| > 0
      && (shape.List? ==> item != null && item in Repr && item.Repr <= Repr && this !in item.Repr)
    }

    ghost predicate Valid()
      reads this, Repr
      decreases shape
    {
      && Links()
      && match shape
         case Leaf(_) => leaves == Leaves(rows)
         case List(_, _) =>
           && item.shape == shape.item && item.Valid() && ListHolds(rows, offsets, validity, item.rows)
         case Map => MapHolds(rows, offsets, validity, keys, values)
    }

    /** `for_field`, by the field's type. */
    constructor (shape: Shape)
      ensures Valid() && this.shape == shape && rows == [] && fresh(Repr)
      decreases shape
    {
      this.shape := shape;
      leaves, keys, values, validity, rows := [], [], [], [], [];
      offsets := [0];
      if shape.List? {
        var inner := new ColumnBuilder<L>(shape.item);
        item := inner;
        Repr := {this, inner} + inner.Repr;
      } else {
        item := null;
        Repr := {this};
      }
    }

    /** `len`. */
    method Len() returns (n: nat)
      requires Valid()
      ensures n == |rows|
    {
      return match shape case Leaf(_) => |leaves| case _ => |validity|;
    }

    /** `append`: a value of another shape is a null. */
    method Append(value: Value<L>)
      requires Valid()
      modifies Repr
      ensures Valid() && rows == old(rows) + [Normal(shape, value)]
      ensures Shaped(shape, value) ==> rows == old(rows) + [value]
      ensures !SameForm(shape, value) ==> rows == old(rows) + [Null]
      decreases shape, 1
    {
      NormalKeeps(shape, value);
      OthersAreNull(shape, value);
      match shape {
        case Leaf(_) => AppendLeaf(value);
        case List(_, _) =>
          if value.ListOf? {
            AppendList(value);
          } else {
            AppendNullList(value);
          }
        case Map =>
          if value.MapOf? {
            AppendMap(value);
          } else {
            AppendNullMap(value);
          }
      }
    }

    method AppendLeaf(value: Value<L>)
      requires Valid() && shape.Leaf?
      modifies this
      ensures Valid() && rows == old(rows) + [Normal(shape, value)]
    {
      GrowsValidity(rows, Normal(shape, value));
      leaves := leaves + [if value.Atom? && value.kind == shape.kind then Some(value.value) else None];
      rows := rows + [Normal(shape, value)];
    }

    method AppendList(value: Value<L>)
      requires Valid() && shape.List? && value.ListOf?
      modifies Repr
      ensures Valid() && rows == old(rows) + [Normal(shape, value)]
      decreases shape, 0
    {
      ListGrows(rows, Normal(shape, value), offsets, validity, item.rows);
      AppendItems(value.items);
      PushList(value);
    }

    /** The list's own buffers, after its items. */
    method PushList(value: Value<L>)
      requires Links() && shape.List? && value.ListOf?
      requires item.Valid() && item.shape == shape.item
      requires ListHolds(rows + [Normal(shape, value)], offsets + [Last(offsets) + |value.items|],
                         validity + [true], item.rows)
      modifies this
      ensures Valid() && rows == old(rows) + [Normal(shape, value)]
    {
      offsets := offsets + [Last(offsets) + |value.items|];
      validity := validity + [true];
      rows := rows + [Normal(shape, value)];
    }

    method AppendNullList(value: Value<L>)
      requires Valid() && shape.List? && !value.ListOf?
      modifies this
      ensures Valid() && rows == old(rows) + [Normal(shape, value)]
    {
      ListGrows(rows, Null, offsets, validity, item.rows);
      assert item.rows + [] == item.rows;
      offsets := offsets + [Last(offsets)];
      validity := validity + [false];
      rows := rows + [Null];
    }

    method AppendMap(value: Value<L>)
      requires Valid() && shape.Map? && value.MapOf?
      modifies this
      ensures Valid() && rows == old(rows) + [Normal(shape, value)]
    {
      MapGrows(rows, value, offsets, validity, keys, values);
      PushMap(value);
    }

    method PushMap(value: Value<L>)
      requires Links() && shape.Map? && value.MapOf?
      requires MapHolds(rows + [value], offsets + [Wrap32(Last(offsets) + Wrap32(|value.pairs|))], validity + [true],
                        keys + Keys(value.pairs), values + Texts(value.pairs))
      modifies this
      ensures Valid() && rows == old(rows) + [value]
    {
      keys := keys + Keys(value.pairs);
      values := values + Texts(value.pairs);
      offsets := offsets + [Wrap32(Last(offsets) + Wrap32(|value.pairs|))];
      validity := validity + [true];
      rows := rows + [value];
    }

    method AppendNullMap(value: Value<L>)
      requires Valid() && shape.Map? && !value.MapOf?
      modifies this
      ensures Valid() && rows == old(rows) + [Normal(shape, value)]
    {
      MapGrowsNull(rows, offsets, validity, keys, values);
      offsets := offsets + [Last(offsets)];
      validity := validity + [false];
      rows := rows + [Null];
    }

    /** A list's items, one after another. */
    method AppendItems(items: seq<Value<L>>)
      requires Valid() && shape.List?
      modifies item.Repr
      ensures item.Valid() && item.rows == old(item.rows) + NormalAll(shape.item, items)
      decreases shape.item, 2
    {
      for i := 0 to |items|
        invariant item.Valid() && item.rows == old(item.rows) + NormalAll(shape.item, items[..i])
      {
        item.Append(items[i]);
        NormalAllNext(shape.item, items, i);
      }
      assert items[..|items|] == items;
    }

    /** `finish`: the column so far, and the builder starts over; `None` where the array refuses its offsets. */
    method Finish() returns (column: Option<Array<L>>)
      requires Valid()
      modifies Repr
      ensures column == ArrayOf(shape, old(rows))
      ensures column.Some? ==> Valid() && rows == []
      decreases shape, 1
    {
      match shape {
        case Leaf(_) => column := FinishLeaf();
        case List(_, _) => column := FinishList();
        case Map => column := FinishMap();
      }
    }

    method FinishLeaf() returns (column: Option<Array<L>>)
      requires Valid() && shape.Leaf?
      modifies this
      ensures column == ArrayOf(shape, old(rows))
      ensures column.Some? ==> Valid() && rows == []
    {
      column := Some(LeafArray(shape.kind, leaves));
      leaves, rows := [], [];
    }

    method FinishList() returns (column: Option<Array<L>>)
      requires Valid() && shape.List?
      modifies Repr
      ensures column == ArrayOf(shape, old(rows))
      ensures column.Some? ==> Valid() && rows == []
      decreases shape, 0
    {
      var child := item.Finish();
      if child.None? {
        return None;
      }
      column := ListOn(if shape.large then offsets else Wrapped(offsets), validity, child.value);
      ClearList();
    }

    method ClearList()
      requires Links() && shape.List? && item.Valid() && item.shape == shape.item && item.rows == []
      modifies this
      ensures Valid() && rows == []
    {
      offsets, validity, rows := [0], [], [];
      EmptyHolds<L>();
    }

    method FinishMap() returns (column: Option<Array<L>>)
      requires Valid() && shape.Map?
      modifies this
      ensures column == ArrayOf(shape, old(rows))
      ensures column.Some? ==> Valid() && rows == []
    {
      column := MapOn(offsets, validity, keys, values);
      keys, values, offsets, validity, rows := [], [], [0], [], [];
    }
  }

  /** Values built into one column come back, a value of another shape as a null, exactly if they fit. */
  method BuildColumn<L>(shape: Shape, values: seq<Value<L>>) returns (column: Option<Array<L>>)
    ensures column == ArrayOf(shape, NormalAll(shape, values))
    ensures Fits(shape, NormalAll(shape, values)) <==> column.Some? && Decode(column.value) == NormalAll(shape, values)
    ensures AllShaped(shape, values) ==> (Fits(shape, values) <==> column.Some? && Decode(column.value) == values)
  {
    NormalAllKeeps(shape, values);
    var builder := new ColumnBuilder<L>(shape);
    for i := 0 to |values|
      invariant builder.Valid() && fresh(builder.Repr) && builder.shape == shape
      invariant builder.rows == NormalAll(shape, values[..i])
    {
      builder.Append(values[i]);
      NormalAllNext(shape, values, i);
    }
    assert values[..|values|] == values;
    column := builder.Finish();
    BuiltComesBack(shape, values);
  }

  lemma {:induction false} NormalAllNext<L>(shape: Shape, values: seq<Value<L>>, i: nat)
    requires i < |values|
    ensures NormalAll(shape, values[..i + 1]) == NormalAll(shape, values[..i]) + [Normal(shape, values[i])]
  {
    assert values[..i + 1][..i] == values[..i];
  }

  lemma {:induction false} BuiltComesBack<L>(shape: Shape, values: seq<Value<L>>)
    ensures var rows := NormalAll(shape, values);
            Fits(shape, rows) <==> ArrayOf(shape, rows).Some? && Decode(ArrayOf(shape, rows).value) == rows
  {
    NothingHeld<L>(shape);
    NormalAllIsHeld(shape, [], values);
    assert [] + NormalAll(shape, values) == NormalAll(shape, values);
    RoundTripExactlyWhenItFits(shape, NormalAll(shape, values));
  }

  lemma {:induction false} NothingHeld<L>(shape: Shape)
    ensures Held<L>(shape, [])
    decreases shape
  {
    if shape.List? {
      NothingHeld<L>(shape.item);
    }
  }

  // ---- the builder of a batch ---------------------------------------------------------------------

  datatype Batch<+L> = Batch(columns: seq<Array<L>>, rows: nat)

  class LayerBatchBuilder<L> {
    const columns: seq<ColumnBuilder<L>>
    var rows: nat
    ghost const Repr: set<object>

    /** Every column has a value for every row. */
    ghost predicate Valid()
      reads this, Repr
    {
      && Separate(columns, this, Repr)
      && (forall i :: 0 <= i < |columns| ==> columns[i].Valid() && |columns[i].rows| == rows)
    }

    constructor (shapes: seq<Shape>)
      ensures Valid() && rows == 0 && fresh(Repr) && |columns| == |shapes|
      ensures forall i :: 0 <= i < |shapes| ==> columns[i].shape == shapes[i] && columns[i].rows == []
    {
      var made: seq<ColumnBuilder<L>> := [];
      ghost var owned: set<object> := {};
      for i := 0 to |shapes|
        invariant |made| == i && fresh(owned)
        invariant forall j :: 0 <= j < i ==>
                    made[j].Valid() && made[j].Repr <= owned && made[j].shape == shapes[j] && made[j].rows == []
        invariant forall j, k :: 0 <= j < k < i ==> made[j].Repr !! made[k].Repr
      {
        var column := new ColumnBuilder<L>(shapes[i]);
        made := made + [column];
        owned := owned + column.Repr;
      }
      columns := made;
      rows := 0;
      Repr := {this} + owned;
    }

    method AppendTo(i: nat, value: Value<L>)
      requires Separate(columns, this, Repr) && i < |columns|
      requires forall j :: 0 <= j < |columns| ==> columns[j].Valid()
      modifies columns[i].Repr
      ensures rows == old(rows)
      ensures columns[i].Valid() && columns[i].rows == old(columns[i].rows) + [Normal(columns[i].shape, value)]
      ensures forall j :: 0 <= j < |columns| && j != i ==>
                columns[j].Valid() && columns[j].rows == old(columns[j].rows)
    {
      columns[i].Append(value);
    }

    method FinishColumn(i: nat) returns (column: Option<Array<L>>)
      requires Separate(columns, this, Repr) && i < |columns|
      requires forall j :: 0 <= j < |columns| ==> columns[j].Valid()
      modifies columns[i].Repr
      ensures rows == old(rows)
      ensures column == ArrayOf(columns[i].shape, old(columns[i].rows))
      ensures column.Some? ==> columns[i].Valid() && columns[i].rows == []
      ensures forall j :: 0 <= j < |columns| && j != i ==>
                columns[j].Valid() && columns[j].rows == old(columns[j].rows)
    {
      column := columns[i].Finish();
    }

    /** `append_row`: one value a column, null where the row has none. */
    method AppendRow(row: seq<Value<L>>)
      requires Valid()
      modifies Repr
      ensures Valid() && rows == old(rows) + 1
      ensures forall i :: 0 <= i < |columns| ==>
                columns[i].rows == old(columns[i].rows) + [Normal(columns[i].shape, if i < |row| then row[i] else Null)]
      ensures forall i :: 0 <= i < |columns| && i < |row| && Shaped(columns[i].shape, row[i]) ==>
                columns[i].rows == old(columns[i].rows) + [row[i]]
    {
      for i := 0 to |columns|
        invariant rows == old(rows)
        invariant forall j :: 0 <= j < |columns| ==> columns[j].Valid()
        invariant forall j :: 0 <= j < i ==>
                    columns[j].rows == old(columns[j].rows) +
                                      [Normal(columns[j].shape, if j < |row| then row[j] else Null)]
        invariant forall j :: i <= j < |columns| ==> columns[j].rows == old(columns[j].rows)
      {
        AppendTo(i, if i < |row| then row[i] else Null);
      }
      rows := rows + 1;
      forall i | 0 <= i < |columns| && i < |row|
        ensures Shaped(columns[i].shape, row[i]) ==> Normal(columns[i].shape, row[i]) == row[i]
      {
        NormalKeeps(columns[i].shape, row[i]);
      }
    }

    /** `finish`: a batch with a value of every column for every row; the builder starts over. */
    method Finish() returns (batch: Option<Batch<L>>)
      requires Valid()
      modifies Repr
      ensures batch.Some? <==> forall i :: 0 <= i < |columns| ==> ArrayOf(columns[i].shape, old(columns[i].rows)).Some?
      ensures batch.Some? ==>
                && Valid() && rows == 0
                && batch.value.rows == old(rows) && |batch.value.columns| == |columns|
                && forall i :: 0 <= i < |columns| ==>
                     && ArrayOf(columns[i].shape, old(columns[i].rows)) == Some(batch.value.columns[i])
                     && Length(batch.value.columns[i]) == old(rows)
    {
      var arrays: seq<Array<L>> := [];
      for i := 0 to |columns|
        invariant rows == old(rows) && |arrays| == i
        invariant forall j :: 0 <= j < |columns| ==> columns[j].Valid()
        invariant forall j :: 0 <= j < i ==>
                    columns[j].rows == [] && ArrayOf(columns[j].shape, old(columns[j].rows)) == Some(arrays[j])
        invariant forall j :: i <= j < |columns| ==> columns[j].rows == old(columns[j].rows)
      {
        var column := FinishColumn(i);
        if column.None? {
          return None;
        }
        arrays := arrays + [column.value];
      }
      batch := Some(Batch(arrays, rows));
      rows := 0;
    }
  }

  ghost predicate Separate<L>(columns: seq<ColumnBuilder<L>>, owner: object, repr: set<object>) {
    && owner in repr
    && (forall i :: 0 <= i < |columns| ==> columns[i] in repr && columns[i].Repr <= repr && owner !in columns[i].Repr)
    && (forall i, j :: 0 <= i < j < |columns| ==> columns[i].Repr !! columns[j].Repr)
  }
}
