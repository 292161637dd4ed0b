/**
 * Columns as arrays: the layout that the builders of
 * crates/xeibe-arrow/src/builders.rs give a sequence of rows, and how rows are
 * read back from it.
 */
module Columnar {
  import opened Basics

  /** A column's type; a leaf is a scalar of some physical type, a geometry or a box. */
  datatype Shape = Leaf(kind: nat) | List(large: bool, item: Shape) | Map

  datatype Value<+L> = Null | Atom(kind: nat, value: L)
      | ListOf(items: seq<Value<L>>) | MapOf(pairs: seq<(string, string)>)

  /** An Arrow array. No validity: every value is valid. */
  datatype Array<+L> =
    | LeafArray(kind: nat, leaves: seq<Option<L>>)
    | ListArray(offsets: seq<int>, validity: Option<seq<bool>>, child: Array<L>)
    | MapArray(offsets: seq<int>, validity: Option<seq<bool>>, keys: seq<string>, values: seq<string>)

  const MAX32 := 0x7FFF_FFFF

  /** `as i32`, and `i32` addition that wraps around. */
  function Wrap32(x: int): (w: int)
    ensures -0x8000_0000 <= w <= MAX32
    ensures 0 <= x <= MAX32 ==> w == x
    ensures (w - x) % 0x1_0000_0000 == 0
  {
    (x + 0x8000_0000) % 0x1_0000_0000 - 0x8000_0000
  }

  // ---- rows as a column holds them ----------------------------------------------------------

  /** A value of another shape is null. */
  function Normal<L>(shape: Shape, value: Value<L>): Value<L>
    decreases shape, 1
  {
    match (shape, value)
    case (Leaf(kind), Atom(k, _)) => if k == kind then value else Null
    case (List(_, item), ListOf(items)) => ListOf(NormalAll(item, items))
    case (Map, MapOf(_)) => value
    case _ => Null
  }

  function NormalAll<L>(shape: Shape, values: seq<Value<L>>): (normal: seq<Value<L>>)
    ensures |normal| == |values|
    decreases shape, 2, |values|
  {
    if values == [] then []
    else NormalAll(shape, values[..|values| - 1]) + [Normal(shape, values[|values| - 1])]
  }

  /** A value of the shape, at every level. */
  ghost predicate Shaped<L>(shape: Shape, value: Value<L>)
    decreases shape, 0
  {
    match value
    case Null => true
    case Atom(kind, _) => shape.Leaf? && shape.kind == kind
    case ListOf(items) => shape.List? && AllShaped(shape.item, items)
    case MapOf(_) => shape.Map?
  }

  ghost predicate AllShaped<L>(shape: Shape, values: seq<Value<L>>)
    decreases shape, 1
  {
    forall i :: 0 <= i < |values| ==> Shaped(shape, values[i])
  }

  /** The value is a list where the shape is one, and so on; nothing is said about its items. */
  predicate SameForm<L>(shape: Shape, value: Value<L>) {
    match shape
    case Leaf(kind) => value.Atom? && value.kind == kind
    case List(_, _) => value.ListOf?
    case Map => value.MapOf?
  }

  lemma {:induction false} NormalAt<L>(shape: Shape, values: seq<Value<L>>, i: nat)
    requires i < |values|
    ensures NormalAll(shape, values)[i] == Normal(shape, values[i])
    decreases |values|
  {
    if i < |values| - 1 {
      NormalAt(shape, values[..|values| - 1], i);
    }
  }

  /** Exactly a value of the shape stays as it is. */
  lemma {:induction false} NormalKeeps<L>(shape: Shape, value: Value<L>)
    ensures Normal(shape, value) == value <==> Shaped(shape, value)
    decreases shape, 0
  {
    if shape.List? && value.ListOf? {
      NormalAllKeeps(shape.item, value.items);
    }
  }

  lemma {:induction false} NormalAllKeeps<L>(shape: Shape, values: seq<Value<L>>)
    ensures NormalAll(shape, values) == values <==> AllShaped(shape, values)
    decreases shape, 1
  {
    forall i | 0 <= i < |values|
      ensures NormalAll(shape, values)[i] == values[i] <==> Shaped(shape, values[i])
    {
      NormalAt(shape, values, i);
      NormalKeeps(shape, values[i]);
    }
    if AllShaped(shape, values) {
      assert NormalAll(shape, values) == values;
    }
  }

  /** A value of another form is a null, and only that; a list is one of as many items, each of them made to fit. */
  lemma {:induction false} OthersAreNull<L>(shape: Shape, value: Value<L>)
    ensures Normal(shape, value).Null? <==> !SameForm(shape, value)
    ensures shape.List? && value.ListOf? ==>
              && Normal(shape, value).ListOf? && |Normal(shape, value).items| == |value.items|
              && forall i :: 0 <= i < |value.items| ==>
                   Normal(shape, value).items[i] == Normal(shape.item, value.items[i])
  {
    if shape.List? && value.ListOf? {
      forall i | 0 <= i < |value.items|
        ensures NormalAll(shape.item, value.items)[i] == Normal(shape.item, value.items[i])
      {
        NormalAt(shape.item, value.items, i);
      }
    }
  }

  /** Rows that a column of this shape can hold. */
  ghost predicate Held<L>(shape: Shape, rows: seq<Value<L>>)
    decreases shape
  {
    match shape
    case Leaf(kind) => forall i :: 0 <= i < |rows| ==> rows[i].Null? || (rows[i].Atom? && rows[i].kind == kind)
    case List(_, item) =>
      && (forall i :: 0 <= i < |rows| ==> rows[i].Null? || rows[i].ListOf?)
      && Held(item, Children(rows))
    case Map => forall i :: 0 <= i < |rows| ==> rows[i].Null? || rows[i].MapOf?
  }

  function Items<L>(row: Value<L>): seq<Value<L>> {
    if row.ListOf? then row.items else []
  }

  function Pairs<L>(row: Value<L>): seq<(string, string)> {
    if row.MapOf? then row.pairs else []
  }

  function Children<L>(rows: seq<Value<L>>): seq<Value<L>> {
    if rows == [] then [] else Children(rows[..|rows| - 1]) + Items(rows[|rows| - 1])
  }

  function AllPairs<L>(rows: seq<Value<L>>): seq<(string, string)> {
    if rows == [] then [] else AllPairs(rows[..|rows| - 1]) + Pairs(rows[|rows| - 1])
  }

  function Keys(pairs: seq<(string, string)>): (keys: seq<string>)
    ensures |keys| == |pairs|
  {
    seq(|pairs|, i requires 0 <= i < |pairs| => pairs[i].0)
  }

  function Texts(pairs: seq<(string, string)>): (texts: seq<string>)
    ensures |texts| == |pairs|
  {
    seq(|pairs|, i requires 0 <= i < |pairs| => pairs[i].1)
  }

  function Size<L>(row: Value<L>): nat {
    |Items(row)| + |Pairs(row)|
  }

  function Last(offsets: seq<int>): int
    requires offsets != []
  {
    offsets[|offsets| - 1]
  }

  /** Where each row's items begin, and where the last row's end. */
  function Offsets<L>(rows: seq<Value<L>>): (offsets: seq<int>)
    ensures |offsets| == |rows| + 1
  {
    if rows == [] then [0]
    else
      var before := Offsets(rows[..|rows| - 1]);
      before + [Last(before) + Size(rows[|rows| - 1])]
  }

  /** They start at 0, grow by each row's items, and end at the number of all items. */
  lemma {:induction false} OffsetsAre<L>(rows: seq<Value<L>>)
    ensures Offsets(rows)[0] == 0
    ensures forall i :: 0 <= i < |rows| ==> Offsets(rows)[i + 1] == Offsets(rows)[i] + Size(rows[i])
    ensures Last(Offsets(rows)) == |Children(rows)| + |AllPairs(rows)|
  {
    if rows != [] {
      OffsetsAre(rows[..|rows| - 1]);
    }
  }

  lemma OffsetStep<L>(rows: seq<Value<L>>, i: nat)
    requires i < |rows|
    ensures Offsets(rows)[i + 1] == Offsets(rows)[i] + Size(rows[i])
  {
    OffsetsAre(rows);
  }

  lemma OffsetsEnd<L>(rows: seq<Value<L>>)
    ensures Last(Offsets(rows)) == |Children(rows)| + |AllPairs(rows)|
  {
    OffsetsAre(rows);
  }

  function Validity<L>(rows: seq<Value<L>>): (validity: seq<bool>)
    ensures |validity| == |rows|
  {
    seq(|rows|, i requires 0 <= i < |rows| => !rows[i].Null?)
  }

  function Leaves<L>(rows: seq<Value<L>>): (leaves: seq<Option<L>>)
    ensures |leaves| == |rows|
  {
    seq(|rows|, i requires 0 <= i < |rows| => if rows[i].Atom? then Some(rows[i].value) else None)
  }

  function Wrapped(offsets: seq<int>): (wrapped: seq<int>)
    ensures |wrapped| == |offsets|
  {
    seq(|offsets|, i requires 0 <= i < |offsets| => Wrap32(offsets[i]))
  }

  // ---- arrays -----------------------------------------------------------------------------------

  /** `OffsetBuffer::new` takes them: not negative, never decreasing. */
  predicate Monotone(offsets: seq<int>) {
    && offsets != [] && offsets[0] >= 0
    && forall i :: 0 <= i < |offsets| - 1 ==> offsets[i] <= offsets[i + 1]
  }

  function Length<L>(column: Array<L>): nat {
    match column
    case LeafArray(_, leaves) => |leaves|
    case ListArray(offsets, _, _) => Max(|offsets| - 1, 0)
    case MapArray(offsets, _, _, _) => Max(|offsets| - 1, 0)
  }

  predicate ValidityFits(validity: Option<seq<bool>>, offsets: seq<int>) {
    validity.Some? ==> |validity.value| == |offsets| - 1
  }

  /** What an array's constructor checks. */
  predicate WellFormed<L>(column: Array<L>) {
    match column
    case LeafArray(_, _) => true
    case ListArray(offsets, validity, child) =>
      WellFormed(child) && Monotone(offsets) && ValidityFits(validity, offsets) && Last(offsets) <= Length(child)
    case MapArray(offsets, validity, keys, values) =>
      Monotone(offsets) && ValidityFits(validity, offsets) && |keys| == |values| && Last(offsets) <= |keys|
  }

  /** `nulls`: a buffer is kept only where some value is null. */
  function Nulls(validity: seq<bool>): Option<seq<bool>> {
    if forall i :: 0 <= i < |validity| ==> validity[i] then None else Some(validity)
  }

  /** The rows' array; `None` where the offsets, as narrow as the type has them, are refused. */
  function ArrayOf<L>(shape: Shape, rows: seq<Value<L>>): (column: Option<Array<L>>)
    ensures column.Some? ==> WellFormed(column.value) && Length(column.value) == |rows|
    decreases shape
  {
    match shape
    case Leaf(kind) => Some(LeafArray(kind, Leaves(rows)))
    case List(large, item) =>
      var child := ArrayOf(item, Children(rows));
      if child.None? then None
      else ListOn(if large then Offsets(rows) else Wrapped(Offsets(rows)), Validity(rows), child.value)
    case Map => MapOn(Wrapped(Offsets(rows)), Validity(rows), Keys(AllPairs(rows)), Texts(AllPairs(rows)))
  }

  function ListOn<L>(offsets: seq<int>, validity: seq<bool>, child: Array<L>): (column: Option<Array<L>>)
    requires WellFormed(child) && |offsets| == |validity| + 1
    ensures column.Some? <==> Monotone(offsets) && Last(offsets) <= Length(child)
    ensures column.Some? ==> WellFormed(column.value) && Length(column.value) == |validity|
  {
    if !Monotone(offsets) || Last(offsets) > Length(child) then None
    else Some(ListArray(offsets, Nulls(validity), child))
  }

  function MapOn<L>(offsets: seq<int>, validity: seq<bool>, keys: seq<string>,
                    values: seq<string>): (column: Option<Array<L>>)
    requires |keys| == |values| && |offsets| == |validity| + 1
    ensures column.Some? <==> Monotone(offsets) && Last(offsets) <= |keys|
    ensures column.Some? ==> WellFormed(column.value) && Length(column.value) == |validity|
  {
    if !Monotone(offsets) || Last(offsets) > |keys| then None
    else Some(MapArray(offsets, Nulls(validity), keys, values))
  }

  // ---- rows read back -----------------------------------------------------------------------------

  predicate IsValid(validity: Option<seq<bool>>, i: nat) {
    validity.Some? && i < |validity.value| ==> validity.value[i]
  }

  lemma {:induction false} Between(offsets: seq<int>, i: nat, j: nat)
    requires Monotone(offsets) && i <= j < |offsets|
    ensures offsets[i] <= offsets[j]
    decreases j
  {
    if i < j {
      Between(offsets, i, j - 1);
    }
  }

  lemma MonotoneAt(offsets: seq<int>, i: nat, j: nat)
    requires Monotone(offsets) && i <= j < |offsets|
    ensures 0 <= offsets[0] <= offsets[i] <= offsets[j] <= Last(offsets)
  {
    Between(offsets, 0, i);
    Between(offsets, i, j);
    Between(offsets, j, |offsets| - 1);
  }

  function SlicesOf<L>(offsets: seq<int>, validity: Option<seq<bool>>, child: seq<Value<L>>,
                       n: nat): (rows: seq<Value<L>>)
    requires Monotone(offsets) && Last(offsets) <= |child| && n < |offsets|
    ensures |rows| == n
  {
    if n == 0 then []
    else
      MonotoneAt(offsets, n - 1, n);
      SlicesOf(offsets, validity, child, n - 1)
      + [if IsValid(validity, n - 1) then ListOf(child[offsets[n - 1]..offsets[n]]) else Null]
  }

  function MapsOf<L>(offsets: seq<int>, validity: Option<seq<bool>>, keys: seq<string>, values: seq<string>,
                     n: nat): (rows: seq<Value<L>>)
    requires Monotone(offsets) && |keys| == |values| && Last(offsets) <= |keys| && n < |offsets|
    ensures |rows| == n
  {
    if n == 0 then []
    else
      MonotoneAt(offsets, n - 1, n);
      MapsOf(offsets, validity, keys, values, n - 1)
      + [if IsValid(validity, n - 1)
         then MapOf(Zip(keys[offsets[n - 1]..offsets[n]], values[offsets[n - 1]..offsets[n]]))
         else Null]
  }

  function Zip(keys: seq<string>, values: seq<string>): (pairs: seq<(string, string)>)
    requires |keys| == |values|
    ensures |pairs| == |keys|
  {
    seq(|keys|, i requires 0 <= i < |keys| => (keys[i], values[i]))
  }

  /** The array's rows, slot by slot. */
  function Decode<L>(column: Array<L>): (rows: seq<Value<L>>)
    requires WellFormed(column)
    ensures |rows| == Length(column)
  {
    match column
    case LeafArray(kind, leaves) =>
      seq(|leaves|, i requires 0 <= i < |leaves| => if leaves[i].Some? then Atom(kind, leaves[i].value) else Null)
    case ListArray(offsets, validity, child) => SlicesOf(offsets, validity, Decode(child), |offsets| - 1)
    case MapArray(offsets, validity, keys, values) => MapsOf(offsets, validity, keys, values, |offsets| - 1)
  }

  // ---- the round trip -----------------------------------------------------------------------------

  /** The offsets of every narrow list or map fit 32 bits. */
  predicate Fits<L>(shape: Shape, rows: seq<Value<L>>)
    decreases shape
  {
    match shape
    case Leaf(_) => true
    case List(large, item) => (large || |Children(rows)| < 0x8000_0000) && Fits(item, Children(rows))
    case Map => |AllPairs(rows)| < 0x8000_0000
  }

  lemma {:induction false} NoPairs<L>(rows: seq<Value<L>>)
    requires forall i :: 0 <= i < |rows| ==> rows[i].Null? || rows[i].ListOf?
    ensures AllPairs(rows) == []
  {
    if rows != [] {
      NoPairs(rows[..|rows| - 1]);
    }
  }

  lemma {:induction false} NoItems<L>(rows: seq<Value<L>>)
    requires forall i :: 0 <= i < |rows| ==> rows[i].Null? || rows[i].MapOf?
    ensures Children(rows) == []
  {
    if rows != [] {
      NoItems(rows[..|rows| - 1]);
    }
  }

  lemma {:induction false} OffsetsMonotone<L>(rows: seq<Value<L>>)
    ensures Monotone(Offsets(rows))
    ensures Last(Offsets(rows)) == |Children(rows)| + |AllPairs(rows)|
  {
    OffsetsAre(rows);
  }

  /** Offsets that fit 32 bits are kept; the last one that does not is not. */
  lemma {:induction false} WrapsExactly<L>(rows: seq<Value<L>>)
    ensures Last(Offsets(rows)) <= MAX32 ==> Wrapped(Offsets(rows)) == Offsets(rows)
    ensures Last(Offsets(rows)) > MAX32 ==> Last(Wrapped(Offsets(rows))) < Last(Offsets(rows))
  {
    OffsetsMonotone(rows);
    var offsets := Offsets(rows);
    forall i | 0 <= i < |offsets| && Last(offsets) <= MAX32 ensures Wrap32(offsets[i]) == offsets[i] {
      MonotoneAt(offsets, i, i);
    }
  }

  lemma ValidIs<L>(rows: seq<Value<L>>, i: nat)
    requires i < |rows|
    ensures IsValid(Nulls(Validity(rows)), i) <==> !rows[i].Null?
  {
    assert Validity(rows)[i] == !rows[i].Null?;
  }

  /** A validity buffer is kept exactly if there is a null. */
  lemma {:induction false} BufferForNulls<L>(rows: seq<Value<L>>)
    ensures Nulls(Validity(rows)).Some? <==> exists i :: 0 <= i < |rows| && rows[i].Null?
  {
    forall i | 0 <= i < |rows| ensures Validity(rows)[i] == !rows[i].Null? {
    }
  }

  /** The offsets of the rows before the last are those of all rows up to there. */
  lemma OffsetsBefore<L>(rows: seq<Value<L>>, i: nat)
    requires i < |rows|
    ensures Offsets(rows)[i] == Offsets(rows[..|rows| - 1])[i]
  {
  }

  lemma {:induction false} LastChildSlice<L>(rows: seq<Value<L>>)
    requires rows != [] && forall j :: 0 <= j < |rows| ==> rows[j].Null? || rows[j].ListOf?
    ensures 0 <= Offsets(rows)[|rows| - 1] <= Offsets(rows)[|rows|] == |Children(rows)|
    ensures Children(rows)[Offsets(rows)[|rows| - 1]..Offsets(rows)[|rows|]] == Items(rows[|rows| - 1])
  {
    var before, last := rows[..|rows| - 1], rows[|rows| - 1];
    NoPairs(before);
    OffsetsEnd(before);
    OffsetsBefore(rows, |before|);
    OffsetStep(rows, |before|);
    SliceWhole(Children(rows), Children(before), Items(last), Offsets(rows)[|before|], Offsets(rows)[|rows|]);
  }

  lemma {:induction false} ChildSlice<L>(rows: seq<Value<L>>, i: nat)
    requires i < |rows| && forall j :: 0 <= j < |rows| ==> rows[j].Null? || rows[j].ListOf?
    ensures 0 <= Offsets(rows)[i] <= Offsets(rows)[i + 1] <= |Children(rows)|
    ensures Children(rows)[Offsets(rows)[i]..Offsets(rows)[i + 1]] == Items(rows[i])
  {
    var before, last := rows[..|rows| - 1], rows[|rows| - 1];
    if i == |before| {
      LastChildSlice(rows);
    } else {
      ChildSlice(before, i);
      OffsetsBefore(rows, i);
      OffsetsBefore(rows, i + 1);
      SliceBefore(Children(rows), Children(before), Items(last), Offsets(before)[i], Offsets(before)[i + 1]);
    }
  }

  lemma {:induction false} LastPairSlice<L>(rows: seq<Value<L>>)
    requires rows != [] && forall j :: 0 <= j < |rows| ==> rows[j].Null? || rows[j].MapOf?
    ensures 0 <= Offsets(rows)[|rows| - 1] <= Offsets(rows)[|rows|] == |AllPairs(rows)|
    ensures AllPairs(rows)[Offsets(rows)[|rows| - 1]..Offsets(rows)[|rows|]] == Pairs(rows[|rows| - 1])
  {
    var before, last := rows[..|rows| - 1], rows[|rows| - 1];
    NoItems(before);
    OffsetsEnd(before);
    OffsetsBefore(rows, |before|);
    OffsetStep(rows, |before|);
    SliceWhole(AllPairs(rows), AllPairs(before), Pairs(last), Offsets(rows)[|before|], Offsets(rows)[|rows|]);
  }

  lemma {:induction false} PairSlice<L>(rows: seq<Value<L>>, i: nat)
    requires i < |rows| && forall j :: 0 <= j < |rows| ==> rows[j].Null? || rows[j].MapOf?
    ensures 0 <= Offsets(rows)[i] <= Offsets(rows)[i + 1] <= |AllPairs(rows)|
    ensures AllPairs(rows)[Offsets(rows)[i]..Offsets(rows)[i + 1]] == Pairs(rows[i])
  {
    var before, last := rows[..|rows| - 1], rows[|rows| - 1];
    if i == |before| {
      LastPairSlice(rows);
    } else {
      PairSlice(before, i);
      OffsetsBefore(rows, i);
      OffsetsBefore(rows, i + 1);
      SliceBefore(AllPairs(rows), AllPairs(before), Pairs(last), Offsets(before)[i], Offsets(before)[i + 1]);
    }
  }

  lemma {:induction false} SlicesBack<L>(rows: seq<Value<L>>, n: nat)
    requires n <= |rows| && forall j :: 0 <= j < |rows| ==> rows[j].Null? || rows[j].ListOf?
    requires Monotone(Offsets(rows)) && Last(Offsets(rows)) <= |Children(rows)|
    ensures SlicesOf(Offsets(rows), Nulls(Validity(rows)), Children(rows), n) == rows[..n]
  {
    if n > 0 {
      SlicesBack(rows, n - 1);
      ChildSlice(rows, n - 1);
      ValidIs(rows, n - 1);
      assert rows[..n] == rows[..n - 1] + [rows[n - 1]];
    }
  }

  lemma ZipsBack(pairs: seq<(string, string)>, low: nat, high: nat)
    requires low <= high <= |pairs|
    ensures Zip(Keys(pairs)[low..high], Texts(pairs)[low..high]) == pairs[low..high]
  {
  }

  lemma {:induction false} MapsBack<L>(rows: seq<Value<L>>, n: nat)
    requires n <= |rows| && forall j :: 0 <= j < |rows| ==> rows[j].Null? || rows[j].MapOf?
    requires Monotone(Offsets(rows)) && Last(Offsets(rows)) <= |AllPairs(rows)|
    ensures MapsOf<L>(Offsets(rows), Nulls(Validity(rows)), Keys(AllPairs(rows)), Texts(AllPairs(rows)), n) == rows[..n]
  {
    if n > 0 {
      MapsBack(rows, n - 1);
      PairSlice(rows, n - 1);
      ZipsBack(AllPairs(rows), Offsets(rows)[n - 1], Offsets(rows)[n]);
      ValidIs(rows, n - 1);
      assert rows[..n] == rows[..n - 1] + [rows[n - 1]];
    }
  }

  lemma ListTrip<L>(offsets: seq<int>, rows: seq<Value<L>>, child: Array<L>)
    requires forall j :: 0 <= j < |rows| ==> rows[j].Null? || rows[j].ListOf?
    requires offsets == Offsets(rows) && WellFormed(child) && Decode(child) == Children(rows)
    ensures var column := ListOn(offsets, Validity(rows), child); column.Some? && Decode(column.value) == rows
  {
    NoPairs(rows);
    OffsetsMonotone(rows);
    SlicesBack(rows, |rows|);
    assert rows[..|rows|] == rows;
  }

  lemma MapTrip<L>(offsets: seq<int>, rows: seq<Value<L>>)
    requires forall j :: 0 <= j < |rows| ==> rows[j].Null? || rows[j].MapOf?
    requires offsets == Offsets(rows)
    ensures var column := MapOn<L>(offsets, Validity(rows), Keys(AllPairs(rows)), Texts(AllPairs(rows)));
            column.Some? && Decode(column.value) == rows
  {
    NoItems(rows);
    OffsetsMonotone(rows);
    MapsBack(rows, |rows|);
    assert rows[..|rows|] == rows;
  }

  /** What is read back from a column's array is its rows, where the offsets fit. */
  lemma {:induction false} RoundTrip<L>(shape: Shape, rows: seq<Value<L>>)
    requires Held(shape, rows) && Fits(shape, rows)
    ensures ArrayOf(shape, rows).Some? && Decode(ArrayOf(shape, rows).value) == rows
    decreases shape
  {
    WrapsExactly(rows);
    OffsetsAre(rows);
    match shape
    case Leaf(kind) =>
    case List(large, item) =>
      RoundTrip(item, Children(rows));
      NoPairs(rows);
      ListTrip(Offsets(rows), rows, ArrayOf(item, Children(rows)).value);
    case Map =>
      NoItems(rows);
      MapTrip(Offsets(rows), rows);
  }

  // ---- where it is not ------------------------------------------------------------------------------

  /** The items of the rows read back lie between the offsets. */
  lemma {:induction false} ReadBackItems<L>(offsets: seq<int>, validity: Option<seq<bool>>, child: seq<Value<L>>,
                                            n: nat)
    requires Monotone(offsets) && Last(offsets) <= |child| && n < |offsets|
    ensures |Children(SlicesOf(offsets, validity, child, n))| <= offsets[n] - offsets[0]
  {
    if n > 0 {
      ReadBackItems(offsets, validity, child, n - 1);
      MonotoneAt(offsets, n - 1, n);
      var rows := SlicesOf(offsets, validity, child, n);
      assert rows[..|rows| - 1] == SlicesOf(offsets, validity, child, n - 1);
    }
  }

  lemma {:induction false} ReadBackPairs<L>(offsets: seq<int>, validity: Option<seq<bool>>, keys: seq<string>,
                                            values: seq<string>, n: nat)
    requires Monotone(offsets) && |keys| == |values| && Last(offsets) <= |keys| && n < |offsets|
    ensures |AllPairs(MapsOf<L>(offsets, validity, keys, values, n))| <= offsets[n] - offsets[0]
  {
    if n > 0 {
      ReadBackPairs<L>(offsets, validity, keys, values, n - 1);
      MonotoneAt(offsets, n - 1, n);
      var rows := MapsOf<L>(offsets, validity, keys, values, n);
      assert rows[..|rows| - 1] == MapsOf<L>(offsets, validity, keys, values, n - 1);
    }
  }

  lemma JoinSlices<T>(items: seq<T>, low: nat, high: nat)
    requires low <= high <= |items|
    ensures items[..low] + items[low..high] == items[..high]
  {
  }

  lemma EmptySlice<T>(items: seq<T>, low: int, high: int)
    requires 0 <= low == high <= |items|
    ensures items[low..high] == []
  {
  }

  /** A null row has no items to slice. */
  lemma {:induction false} NullSlice<L>(rows: seq<Value<L>>, child: seq<Value<L>>, i: nat)
    requires i < |rows| && 0 <= Offsets(rows)[i] <= Offsets(rows)[i + 1] <= |child|
    ensures rows[i].Null? ==> child[Offsets(rows)[i]..Offsets(rows)[i + 1]] == []
  {
    OffsetStep(rows, i);
    if rows[i].Null? {
      EmptySlice(child, Offsets(rows)[i], Offsets(rows)[i + 1]);
    }
  }

  /** The row that comes back between two of the right offsets. */
  lemma {:induction false} SliceItems<L>(rows: seq<Value<L>>, child: seq<Value<L>>, i: nat)
    requires i < |rows| && (rows[i].Null? || rows[i].ListOf?)
    requires Monotone(Offsets(rows)) && Last(Offsets(rows)) <= |child|
    ensures 0 <= Offsets(rows)[i] <= Offsets(rows)[i + 1] <= |child|
    ensures Items(if IsValid(Nulls(Validity(rows)), i) then ListOf(child[Offsets(rows)[i]..Offsets(rows)[i + 1]])
                  else Null)
            == child[Offsets(rows)[i]..Offsets(rows)[i + 1]]
  {
    MonotoneAt(Offsets(rows), i, i + 1);
    ValidIs(rows, i);
    NullSlice(rows, child, i);
  }

  lemma ChildrenAppend<L>(rows: seq<Value<L>>, row: Value<L>)
    ensures Children(rows + [row]) == Children(rows) + Items(row)
  {
    assert (rows + [row])[..|rows|] == rows;
  }

  /** The last row that comes back, with the right offsets. */
  lemma LastSlice<L>(rows: seq<Value<L>>, child: seq<Value<L>>, n: nat)
    requires 0 < n <= |rows| && (rows[n - 1].Null? || rows[n - 1].ListOf?)
    requires Monotone(Offsets(rows)) && Last(Offsets(rows)) <= |child|
    ensures 0 <= Offsets(rows)[n - 1] <= Offsets(rows)[n] <= |child|
    ensures var validity := Nulls(Validity(rows));
            Children(SlicesOf(Offsets(rows), validity, child, n))
            == Children(SlicesOf(Offsets(rows), validity, child, n - 1)) + child[Offsets(rows)[n - 1]..Offsets(rows)[n]]
  {
    var offsets, validity := Offsets(rows), Nulls(Validity(rows));
    SliceItems(rows, child, n - 1);
    ChildrenAppend(SlicesOf(offsets, validity, child, n - 1),
                   if IsValid(validity, n - 1) then ListOf(child[offsets[n - 1]..offsets[n]]) else Null);
  }

  /** Rows that come back with the right offsets have the right children. */
  lemma {:induction false} ReadBackChildren<L>(rows: seq<Value<L>>, child: seq<Value<L>>, n: nat)
    requires forall j :: 0 <= j < |rows| ==> rows[j].Null? || rows[j].ListOf?
    requires n <= |rows| && Monotone(Offsets(rows)) && Last(Offsets(rows)) <= |child|
    ensures 0 <= Offsets(rows)[n] <= |child|
    ensures Children(SlicesOf(Offsets(rows), Nulls(Validity(rows)), child, n)) == child[..Offsets(rows)[n]]
  {
    OffsetsAre(rows);
    if n > 0 {
      ReadBackChildren(rows, child, n - 1);
      LastSlice(rows, child, n);
      JoinSlices(child, Offsets(rows)[n - 1], Offsets(rows)[n]);
    }
  }

  /** An offset that was cut short loses items. */
  lemma ListTooLong<L>(rows: seq<Value<L>>, child: Array<L>)
    requires WellFormed(child) && Last(Offsets(rows)) == |Children(rows)| > MAX32
    ensures var column := ListOn(Wrapped(Offsets(rows)), Validity(rows), child);
            column.None? || Decode(column.value) != rows
  {
    WrapsExactly(rows);
    OffsetsAre(rows);
    if ListOn(Wrapped(Offsets(rows)), Validity(rows), child).Some? {
      ReadBackItems(Wrapped(Offsets(rows)), Nulls(Validity(rows)), Decode(child), |rows|);
    }
  }

  lemma MapTooLong<L>(rows: seq<Value<L>>)
    requires Last(Offsets(rows)) == |AllPairs(rows)| > MAX32
    ensures var column := MapOn<L>(Wrapped(Offsets(rows)), Validity(rows), Keys(AllPairs(rows)), Texts(AllPairs(rows)));
            column.None? || Decode(column.value) != rows
  {
    WrapsExactly(rows);
    OffsetsAre(rows);
    var keys, texts := Keys(AllPairs(rows)), Texts(AllPairs(rows));
    if MapOn<L>(Wrapped(Offsets(rows)), Validity(rows), keys, texts).Some? {
      ReadBackPairs<L>(Wrapped(Offsets(rows)), Nulls(Validity(rows)), keys, texts, |rows|);
    }
  }

  /** A list whose items come back wrong comes back wrong. */
  lemma ListOfWrong<L>(rows: seq<Value<L>>, child: Array<L>)
    requires forall j :: 0 <= j < |rows| ==> rows[j].Null? || rows[j].ListOf?
    requires WellFormed(child) && Length(child) == |Children(rows)| && Decode(child) != Children(rows)
    ensures var column := ListOn(Offsets(rows), Validity(rows), child);
            column.None? || Decode(column.value) != rows
  {
    NoPairs(rows);
    OffsetsMonotone(rows);
    ReadBackChildren(rows, Decode(child), |rows|);
    assert Decode(child)[..|Decode(child)|] == Decode(child);
  }

  /** Where an offset does not fit, there is no array, or another one's rows come back. */
  lemma {:induction false} TooLong<L>(shape: Shape, rows: seq<Value<L>>)
    requires Held(shape, rows) && !Fits(shape, rows)
    ensures ArrayOf(shape, rows).None? || Decode(ArrayOf(shape, rows).value) != rows
    decreases shape
  {
    match shape
    case Leaf(_) => assert false;
    case List(large, item) =>
      NoPairs(rows);
      OffsetsAre(rows);
      var child := ArrayOf(item, Children(rows));
      if child.Some? {
        if !large && |Children(rows)| > MAX32 {
          ListTooLong(rows, child.value);
        } else {
          TooLong(item, Children(rows));
          WrapsExactly(rows);
          ListOfWrong(rows, child.value);
        }
      }
    case Map =>
      NoItems(rows);
      OffsetsAre(rows);
      MapTooLong(rows);
  }

  /** The round trip holds exactly where every narrow offset fits 32 bits. */
  lemma RoundTripExactlyWhenItFits<L>(shape: Shape, rows: seq<Value<L>>)
    requires Held(shape, rows)
    ensures Fits(shape, rows) <==> ArrayOf(shape, rows).Some? && Decode(ArrayOf(shape, rows).value) == rows
  {
    if Fits(shape, rows) {
      RoundTrip(shape, rows);
    } else {
      TooLong(shape, rows);
    }
  }

  /** One list of 2^31 nulls in a column of narrow lists: it does not come back. */
  lemma NarrowListOverflows()
    ensures var rows: seq<Value<int>> := [ListOf(seq(0x8000_0000, _ => Null))];
            var column := ArrayOf(List(false, Leaf(0)), rows);
            column.None? || Decode(column.value) != rows
  {
    var rows: seq<Value<int>> := [ListOf(seq(0x8000_0000, _ => Null))];
    assert rows[..0] == [] && Children(rows) == [] + rows[0].items;
    TooLong(List(false, Leaf(0)), rows);
  }
}
