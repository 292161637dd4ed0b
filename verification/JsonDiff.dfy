/**
 * The structural diff of JSON values (`changes`,
 * scripts/gen_proj_string_vectors.py:418-429) and the patch that reads it
 * (`apply`, crates/xeibe-reproject/tests/it/proj_string.rs:726-761).
 */
module JsonDiff {
  import opened Basics

  /** A floating-point number; `Nonzero` stands for every other value. */
  datatype Float = NaN | Infinite(negative: bool) | Zero(negative: bool) | Nonzero(value: real)

  datatype Json =
    | Null
    | Bool(b: bool)
    | Int(n: int)
    | Number(x: Float)
    | Text(s: string)
    | List(items: seq<Json>)
    | Dict(fields: seq<Field>)

  /** An entry of an object; the entries are in the order they were put in. */
  datatype Field = Field(key: string, value: Json)

  datatype Part = Key(key: string) | At(index: nat)

  /** `[path, value]`, or `[path]`. */
  datatype Change = Set(path: seq<Part>, value: Json) | Remove(path: seq<Part>)

  // ---- objects --------------------------------------------------------------------------------

  function Get(fields: seq<Field>, key: string): (value: Option<Json>)
    ensures value.Some? ==> exists i :: 0 <= i < |fields| && fields[i] == Field(key, value.value)
  {
    if fields == [] then None
    else if fields[|fields| - 1].key == key then Some(fields[|fields| - 1].value)
    else Get(fields[..|fields| - 1], key)
  }

  /** `insert`: in place if there is one. */
  function Put(fields: seq<Field>, key: string, value: Json): seq<Field> {
    if fields == [] then [Field(key, value)]
    else if fields[|fields| - 1].key == key then fields[..|fields| - 1] + [Field(key, value)]
    else Put(fields[..|fields| - 1], key, value) + [fields[|fields| - 1]]
  }

  /** `remove`. */
  function Del(fields: seq<Field>, key: string): seq<Field> {
    if fields == [] then []
    else Del(fields[..|fields| - 1], key) + if fields[|fields| - 1].key == key then [] else [fields[|fields| - 1]]
  }

  lemma GetLast(fields: seq<Field>, last: Field, key: string)
    ensures Get(fields + [last], key) == if last.key == key then Some(last.value) else Get(fields, key)
  {
    assert (fields + [last])[..|fields|] == fields;
  }

  lemma {:induction false} GetPut(fields: seq<Field>, key: string, value: Json, other: string)
    ensures Get(Put(fields, key, value), other) == if other == key then Some(value) else Get(fields, other)
  {
    if fields == [] {
      GetLast([], Field(key, value), other);
      assert [] + [Field(key, value)] == [Field(key, value)];
    } else {
      var before, last := fields[..|fields| - 1], fields[|fields| - 1];
      if last.key == key {
        GetLast(before, Field(key, value), other);
      } else {
        GetPut(before, key, value, other);
        GetLast(Put(before, key, value), last, other);
      }
    }
  }

  lemma {:induction false} GetDel(fields: seq<Field>, key: string, other: string)
    ensures Get(Del(fields, key), other) == if other == key then None else Get(fields, other)
  {
    if fields != [] {
      var before, last := fields[..|fields| - 1], fields[|fields| - 1];
      GetDel(before, key, other);
      if last.key != key {
        GetLast(Del(before, key), last, other);
      } else {
        assert Del(fields, key) == Del(before, key) + [] == Del(before, key);
      }
    }
  }

  lemma {:induction false} PutPut(fields: seq<Field>, key: string, first: Json, second: Json)
    ensures Put(Put(fields, key, first), key, second) == Put(fields, key, second)
  {
    if fields == [] {
      assert [Field(key, first)][..0] == [];
    } else {
      var before, last := fields[..|fields| - 1], fields[|fields| - 1];
      if last.key == key {
        assert (before + [Field(key, first)])[..|before|] == before;
      } else {
        PutPut(before, key, first, second);
        assert (Put(before, key, first) + [last])[..|Put(before, key, first)|] == Put(before, key, first);
      }
    }
  }

  // ---- the diff -------------------------------------------------------------------------------

  /** `a == b and type(a) is type(b)`, for values that are not both objects or both lists of one length. */
  predicate TypedEqual(a: Json, b: Json) {
    match (a, b)
    case (Number(x), Number(y)) => (x == y && !x.NaN?) || (x.Zero? && y.Zero?)
    case (Null, Null) => true
    case (Bool(x), Bool(y)) => x == y
    case (Int(x), Int(y)) => x == y
    case (Text(x), Text(y)) => x == y
    case _ => false
  }

  function Under(part: Part, changes: seq<Change>): (under: seq<Change>)
    ensures |under| == |changes|
  {
    seq(|changes|, i requires 0 <= i < |changes| => Beneath(part, changes[i]))
  }

  function Beneath(part: Part, change: Change): Change {
    match change
    case Set(path, value) => Set([part] + path, value)
    case Remove(path) => Remove([part] + path)
  }

  /** `changes`, with paths from `a`. */
  function Changes(a: Json, b: Json): seq<Change>
    decreases a, 2
  {
    if a.Dict? && b.Dict? then FieldChanges(a.fields, b.fields) + NewFields(b.fields, a.fields)
    else if a.List? && b.List? && |a.items| == |b.items| then ItemChanges(a.items, b.items)
    else if TypedEqual(a, b) then []
    else [Set([], b)]
  }

  /** For each key of the first: removed, or changed below. */
  function FieldChanges(fields: seq<Field>, others: seq<Field>): seq<Change>
    decreases fields, 0
  {
    if fields == [] then []
    else FieldChanges(fields[..|fields| - 1], others) + FieldChange(fields[|fields| - 1], others)
  }

  function FieldChange(field: Field, others: seq<Field>): seq<Change>
    decreases field, 3
  {
    match Get(others, field.key)
    case None => [Remove([Key(field.key)])]
    case Some(other) => Under(Key(field.key), Changes(field.value, other))
  }

  /** For each key of the second that the first has not: set. */
  function NewFields(fields: seq<Field>, others: seq<Field>): seq<Change> {
    if fields == [] then []
    else
      var last := fields[|fields| - 1];
      NewFields(fields[..|fields| - 1], others)
      + if Get(others, last.key).None? then [Set([Key(last.key)], last.value)] else []
  }

  function ItemChanges(items: seq<Json>, others: seq<Json>): seq<Change>
    requires |items| == |others|
    decreases items, 0
  {
    if items == [] then []
    else
      var n := |items| - 1;
      ItemChanges(items[..n], others[..n]) + Under(At(n), Changes(items[n], others[n]))
  }

  // ---- the patch ------------------------------------------------------------------------------

  /** One change applied; `None` where the path does not lead anywhere. */
  function ApplyOne(value: Json, change: Change): Option<Json>
    decreases |change.path|
  {
    if change.path == [] then Some(if change.Set? then change.value else Null)
    else
      var rest := if change.Set? then Set(change.path[1..], change.value) else Remove(change.path[1..]);
      match change.path[0]
      case Key(key) =>
        if !value.Dict? then None
        else if |change.path| == 1 then
          Some(Dict(if change.Set? then Put(value.fields, key, change.value) else Del(value.fields, key)))
        else if Get(value.fields, key).None? then None
        else
          (match ApplyOne(Get(value.fields, key).value, rest)
           case None => None
           case Some(inner) => Some(Dict(Put(value.fields, key, inner))))
      case At(index) =>
        if !value.List? || index >= |value.items| then None
        else if |change.path| == 1 then
          Some(List(value.items[index := if change.Set? then change.value else Null]))
        else
          match ApplyOne(value.items[index], rest)
          case None => None
          case Some(inner) => Some(List(value.items[index := inner]))
  }

  /** `apply`. */
  function Apply(base: Json, changes: seq<Change>): Option<Json> {
    if changes == [] then Some(base)
    else
      match Apply(base, changes[..|changes| - 1])
      case None => None
      case Some(value) => ApplyOne(value, changes[|changes| - 1])
  }

  lemma {:induction false} ApplyConcat(base: Json, a: seq<Change>, b: seq<Change>, value: Json)
    requires Apply(base, a) == Some(value)
    ensures Apply(base, a + b) == Apply(value, b)
    decreases |b|
  {
    if b == [] {
      assert a + b == a;
    } else {
      assert (a + b)[..|a + b| - 1] == a + b[..|b| - 1];
      ApplyConcat(base, a, b[..|b| - 1], value);
    }
  }

  lemma ApplySingle(base: Json, change: Change)
    ensures Apply(base, [change]) == ApplyOne(base, change)
  {
    assert [change][..0] == [];
    assert Apply(base, []) == Some(base);
  }

  /** A value is never removed as a whole. */
  predicate Plain(changes: seq<Change>) {
    forall i :: 0 <= i < |changes| && changes[i].Remove? ==> changes[i].path != []
  }

  lemma BeneathIs(part: Part, change: Change)
    ensures var below := Beneath(part, change);
            below.path[0] == part && below.path[1..] == change.path && below.Set? == change.Set?
  {
  }

  /** Changes under a key change the value there. */
  lemma {:induction false} ApplyUnderKey(fields: seq<Field>, key: string, value: Json, changes: seq<Change>,
                                         after: Json)
    requires Get(fields, key) == Some(value) && Plain(changes) && Apply(value, changes) == Some(after)
    ensures changes != [] ==> Apply(Dict(fields), Under(Key(key), changes)) == Some(Dict(Put(fields, key, after)))
    ensures changes == [] ==> Apply(Dict(fields), Under(Key(key), changes)) == Some(Dict(fields)) && after == value
  {
    if changes != [] {
      var before, last := changes[..|changes| - 1], changes[|changes| - 1];
      assert Under(Key(key), changes)[..|before|] == Under(Key(key), before);
      var middle := Apply(value, before).value;
      ApplyUnderKey(fields, key, value, before, middle);
      BeneathIs(Key(key), last);
      var now := if before == [] then fields else Put(fields, key, middle);
      GetPut(fields, key, middle, key);
      PutPut(fields, key, middle, after);
      assert Get(now, key) == Some(middle) && Put(now, key, after) == Put(fields, key, after);
      ApplyBelowKey(now, key, middle, last, after);
    }
  }

  lemma ApplyBelowKey(fields: seq<Field>, key: string, value: Json, change: Change, after: Json)
    requires Get(fields, key) == Some(value) && (change.Remove? ==> change.path != [])
    requires ApplyOne(value, change) == Some(after)
    ensures ApplyOne(Dict(fields), Beneath(Key(key), change)) == Some(Dict(Put(fields, key, after)))
  {
    BeneathIs(Key(key), change);
  }

  lemma {:induction false} ApplyUnderIndex(items: seq<Json>, index: nat, changes: seq<Change>, after: Json)
    requires index < |items| && Plain(changes) && Apply(items[index], changes) == Some(after)
    ensures Apply(List(items), Under(At(index), changes)) == Some(List(items[index := after]))
  {
    if changes != [] {
      var before, last := changes[..|changes| - 1], changes[|changes| - 1];
      assert Under(At(index), changes)[..|before|] == Under(At(index), before);
      var middle := Apply(items[index], before).value;
      ApplyUnderIndex(items, index, before, middle);
      BeneathIs(At(index), last);
      assert items[index := middle][index := after] == items[index := after];
    } else {
      assert items[index := after] == items;
    }
  }

  // ---- the same value -----------------------------------------------------------------------------

  /** Every object has one entry a key. */
  ghost predicate Proper(value: Json)
    decreases value
  {
    match value
    case Dict(fields) =>
      && Distinct(fields)
      && forall i :: 0 <= i < |fields| ==> Proper(fields[i].value)
    case List(items) => forall i :: 0 <= i < |items| ==> Proper(items[i])
    case _ => true
  }

  predicate Distinct(fields: seq<Field>) {
    forall i, j :: 0 <= i < j < |fields| ==> fields[i].key != fields[j].key
  }

  lemma Inside(value: Json, key: string)
    requires value.Dict? && Get(value.fields, key).Some?
    ensures Get(value.fields, key).value < value
  {
    var i :| 0 <= i < |value.fields| && value.fields[i] == Field(key, Get(value.fields, key).value);
  }

  /** The same value, whatever the order of the keys; `signs`: a zero's sign counts. */
  ghost predicate Alike(a: Json, b: Json, signs: bool)
    decreases a
  {
    if a.Dict? && b.Dict? then
      forall key: string ::
        && (Get(a.fields, key).Some? <==> Get(b.fields, key).Some?)
        && (Get(a.fields, key).Some? ==>
              (Inside(a, key); Alike(Get(a.fields, key).value, Get(b.fields, key).value, signs)))
    else if a.List? && b.List? then
      |a.items| == |b.items| && forall i :: 0 <= i < |a.items| ==> Alike(a.items[i], b.items[i], signs)
    else a == b || (!signs && a.Number? && b.Number? && a.x.Zero? && b.x.Zero?)
  }

  /** Somewhere, one value has a zero where the other has a zero of the other sign. */
  ghost predicate Clash(a: Json, b: Json)
    decreases a
  {
    if a.Dict? && b.Dict? then
      exists key: string ::
        && Get(a.fields, key).Some? && Get(b.fields, key).Some?
        && (Inside(a, key); Clash(Get(a.fields, key).value, Get(b.fields, key).value))
    else if a.List? && b.List? then
      |a.items| == |b.items| && exists i :: 0 <= i < |a.items| && Clash(a.items[i], b.items[i])
    else
      a.Number? && b.Number? && a.x.Zero? && b.x.Zero? && a.x.negative != b.x.negative
  }

  lemma {:induction false} AlikeItself(a: Json, signs: bool)
    ensures Alike(a, a, signs)
    decreases a
  {
    match a
    case Dict(fields) =>
      forall key: string | Get(fields, key).Some? ensures Alike(Get(fields, key).value, Get(fields, key).value, signs) {
        Inside(a, key);
        AlikeItself(Get(fields, key).value, signs);
      }
    case List(items) =>
      forall i | 0 <= i < |items| ensures Alike(items[i], items[i], signs) {
        AlikeItself(items[i], signs);
      }
    case _ =>
  }

  // ---- diff, then patch -----------------------------------------------------------------------------

  lemma {:induction false} ChangesPlain(a: Json, b: Json)
    ensures Plain(Changes(a, b))
    decreases a, 2
  {
    if a.Dict? && b.Dict? {
      FieldChangesPlain(a.fields, b.fields);
      NewFieldsPlain(b.fields, a.fields);
    } else if a.List? && b.List? && |a.items| == |b.items| {
      ItemChangesPlain(a.items, b.items);
    }
  }

  lemma {:induction false} FieldChangesPlain(fields: seq<Field>, others: seq<Field>)
    ensures Plain(FieldChanges(fields, others))
    decreases fields, 0
  {
    if fields != [] {
      FieldChangesPlain(fields[..|fields| - 1], others);
    }
  }

  lemma {:induction false} NewFieldsPlain(fields: seq<Field>, others: seq<Field>)
    ensures Plain(NewFields(fields, others))
  {
    if fields != [] {
      NewFieldsPlain(fields[..|fields| - 1], others);
    }
  }

  lemma {:induction false} ItemChangesPlain(items: seq<Json>, others: seq<Json>)
    requires |items| == |others|
    ensures Plain(ItemChanges(items, others))
    decreases items, 0
  {
    if items != [] {
      ItemChangesPlain(items[..|items| - 1], others[..|items| - 1]);
    }
  }

  /** The first value with the changes to the second. */
  function Patched(a: Json, b: Json): Option<Json> {
    Apply(a, Changes(a, b))
  }

  lemma {:induction false} GetNone(fields: seq<Field>, key: string)
    requires forall i :: 0 <= i < |fields| ==> fields[i].key != key
    ensures Get(fields, key).None?
  {
  }

  lemma {:induction false} GetDistinct(fields: seq<Field>, n: nat)
    requires Distinct(fields) && n < |fields|
    ensures Get(fields, fields[n].key) == Some(fields[n].value)
    ensures Get(fields[..n], fields[n].key).None?
  {
    GetNone(fields[..n], fields[n].key);
    if n < |fields| - 1 {
      GetDistinct(fields[..|fields| - 1], n);
    }
  }

  /** What an object's entries are after the changes to the first of them. */
  ghost predicate FirstPatched(fields: seq<Field>, n: nat, others: seq<Field>, after: seq<Field>)
    requires n <= |fields|
  {
    forall key: string ::
      Get(after, key)
      == if Get(fields[..n], key).None? then Get(fields, key)
         else if Get(others, key).None? then None
         else Patched(Get(fields[..n], key).value, Get(others, key).value)
  }

  /** One more entry changed. */
  lemma OnePatched(fields: seq<Field>, n: nat, others: seq<Field>, before: seq<Field>) returns (after: seq<Field>)
    requires n < |fields| && Distinct(fields) && FirstPatched(fields, n, others, before)
    requires Get(others, fields[n].key).Some? ==> Patched(fields[n].value, Get(others, fields[n].key).value).Some?
    ensures Apply(Dict(before), FieldChange(fields[n], others)) == Some(Dict(after))
    ensures FirstPatched(fields, n + 1, others, after)
  {
    var Field(key, value) := fields[n];
    GetDistinct(fields, n);
    assert Get(before, key) == Some(value);
    match Get(others, key) {
      case None =>
        after := Del(before, key);
        ApplySingle(Dict(before), Remove([Key(key)]));
      case Some(other) =>
        var now := Patched(value, other).value;
        ChangesPlain(value, other);
        ApplyUnderKey(before, key, value, Changes(value, other), now);
        after := if Changes(value, other) == [] then before else Put(before, key, now);
    }
    forall other: string
      ensures Get(after, other)
              == if Get(fields[..n + 1], other).None? then Get(fields, other)
                 else if Get(others, other).None? then None
                 else Patched(Get(fields[..n + 1], other).value, Get(others, other).value)
    {
      assert fields[..n + 1] == fields[..n] + [fields[n]];
      GetLast(fields[..n], fields[n], other);
      GetDel(before, key, other);
      if Get(others, key).Some? {
        GetPut(before, key, Patched(value, Get(others, key).value).value, other);
      }
    }
  }

  lemma {:induction false} FieldsPatched(fields: seq<Field>, n: nat, others: seq<Field>) returns (after: seq<Field>)
    requires n <= |fields| && Distinct(fields)
    requires forall i :: 0 <= i < n ==>
               Get(others, fields[i].key).Some? ==> Patched(fields[i].value, Get(others, fields[i].key).value).Some?
    ensures Apply(Dict(fields), FieldChanges(fields[..n], others)) == Some(Dict(after))
    ensures FirstPatched(fields, n, others, after)
  {
    if n == 0 {
      after := fields;
    } else {
      var before := FieldsPatched(fields, n - 1, others);
      after := OnePatched(fields, n - 1, others, before);
      assert fields[..n][..n - 1] == fields[..n - 1];
      ApplyConcat(Dict(fields), FieldChanges(fields[..n - 1], others), FieldChange(fields[n - 1], others),
                  Dict(before));
    }
  }

  lemma {:induction false} NewPatched(fields: seq<Field>, added: seq<Field>, others: seq<Field>)
    returns (after: seq<Field>)
    ensures Apply(Dict(fields), NewFields(added, others)) == Some(Dict(after))
    ensures forall key: string ::
              Get(after, key)
              == if Get(added, key).Some? && Get(others, key).None? then Get(added, key) else Get(fields, key)
  {
    if added == [] {
      after := fields;
    } else {
      var before, last := added[..|added| - 1], added[|added| - 1];
      var middle := NewPatched(fields, before, others);
      if Get(others, last.key).None? {
        after := Put(middle, last.key, last.value);
        var change := Set([Key(last.key)], last.value);
        ApplySingle(Dict(middle), change);
        ApplyConcat(Dict(fields), NewFields(before, others), [change], Dict(middle));
      } else {
        after := middle;
        assert NewFields(added, others) == NewFields(before, others);
      }
      forall key: string
        ensures Get(after, key)
                == if Get(added, key).Some? && Get(others, key).None? then Get(added, key) else Get(fields, key)
      {
        GetPut(middle, last.key, last.value, key);
      }
    }
  }

  lemma {:induction false} ItemsPatched(items: seq<Json>, others: seq<Json>, n: nat) returns (after: seq<Json>)
    requires n <= |items| == |others|
    requires forall i :: 0 <= i < n ==> Patched(items[i], others[i]).Some?
    ensures Apply(List(items), ItemChanges(items[..n], others[..n])) == Some(List(after))
    ensures |after| == |items|
    ensures forall i :: 0 <= i < |items| ==> after[i] == if i < n then Patched(items[i], others[i]).value else items[i]
  {
    if n == 0 {
      after := items;
    } else {
      var before := ItemsPatched(items, others, n - 1);
      var now := Patched(items[n - 1], others[n - 1]).value;
      after := before[n - 1 := now];
      ChangesPlain(items[n - 1], others[n - 1]);
      ApplyUnderIndex(before, n - 1, Changes(items[n - 1], others[n - 1]), now);
      assert items[..n][..n - 1] == items[..n - 1] && others[..n][..n - 1] == others[..n - 1];
      ApplyConcat(List(items), ItemChanges(items[..n - 1], others[..n - 1]),
                  Under(At(n - 1), Changes(items[n - 1], others[n - 1])), List(before));
    }
  }

  /**
   * The changes of two values turn the first into the second, in every case but for
   * the sign of a zero; exactly into the second unless such a sign is all that differs somewhere.
   */
  lemma {:induction false} DiffThenPatch(a: Json, b: Json)
    requires Proper(a)
    ensures Patched(a, b).Some? && Alike(Patched(a, b).value, b, false)
    ensures Alike(Patched(a, b).value, b, true) <==> !Clash(a, b)
    decreases a, 3
  {
    if a.Dict? && b.Dict? {
      DictPatched(a, b);
    } else if a.List? && b.List? && |a.items| == |b.items| {
      ListPatched(a, b);
    } else if !TypedEqual(a, b) {
      ApplySingle(a, Set([], b));
      AlikeItself(b, true);
      AlikeItself(b, false);
    }
  }

  lemma {:induction false} DictPatched(a: Json, b: Json)
    requires Proper(a) && a.Dict? && b.Dict?
    ensures Patched(a, b).Some? && Alike(Patched(a, b).value, b, false)
    ensures Alike(Patched(a, b).value, b, true) <==> !Clash(a, b)
    decreases a, 2
  {
    forall key: string | Get(a.fields, key).Some? && Get(b.fields, key).Some?
      ensures KeyIsPatched(Get(a.fields, key).value, Get(b.fields, key).value)
    {
      KeyPatched(a, b, key);
    }
    var after := DictResult(a, b);
    DictAlike(a, b, after, false);
    DictAlike(a, b, after, true);
  }

  /** The claim for the values of one key. */
  ghost predicate KeyIsPatched(x: Json, y: Json) {
    && Patched(x, y).Some? && Alike(Patched(x, y).value, y, false)
    && (Alike(Patched(x, y).value, y, true) <==> !Clash(x, y))
  }

  ghost predicate KeysArePatched(a: Json, b: Json)
    requires a.Dict? && b.Dict?
  {
    forall key: string :: Get(a.fields, key).Some? && Get(b.fields, key).Some? ==>
      KeyIsPatched(Get(a.fields, key).value, Get(b.fields, key).value)
  }

  /** An object with the second's keys: changed where the first has the key, else the second's. */
  ghost predicate IsPatched(a: Json, b: Json, after: seq<Field>)
    requires a.Dict? && b.Dict?
  {
    forall key: string ::
      Get(after, key)
      == if Get(b.fields, key).None? || Get(a.fields, key).None? then Get(b.fields, key)
         else Patched(Get(a.fields, key).value, Get(b.fields, key).value)
  }

  lemma DictResult(a: Json, b: Json) returns (after: seq<Field>)
    requires a.Dict? && b.Dict? && Distinct(a.fields) && KeysArePatched(a, b)
    ensures Patched(a, b) == Some(Dict(after)) && IsPatched(a, b, after)
  {
    var fields, others := a.fields, b.fields;
    forall i | 0 <= i < |fields| && Get(others, fields[i].key).Some?
      ensures Patched(fields[i].value, Get(others, fields[i].key).value).Some?
    {
      GetDistinct(fields, i);
      assert KeyIsPatched(fields[i].value, Get(others, fields[i].key).value);
    }
    var middle := FieldsPatched(fields, |fields|, others);
    assert fields[..|fields|] == fields;
    after := NewPatched(middle, others, fields);
    ApplyConcat(a, FieldChanges(fields, others), NewFields(others, fields), Dict(middle));
  }

  lemma DictAlike(a: Json, b: Json, after: seq<Field>, signs: bool)
    requires a.Dict? && b.Dict? && KeysArePatched(a, b) && IsPatched(a, b, after)
    ensures !signs ==> Alike(Dict(after), b, signs)
    ensures signs ==> (Alike(Dict(after), b, signs) <==> !Clash(a, b))
  {
    forall key: string
      ensures Get(after, key).Some? <==> Get(b.fields, key).Some?
      ensures Get(b.fields, key).Some? ==>
                (Alike(Get(after, key).value, Get(b.fields, key).value, signs)
                 <==> !signs || !(Get(a.fields, key).Some?
                          && Clash(Get(a.fields, key).value, Get(b.fields, key).value)))
    {
      if Get(b.fields, key).Some? {
        if Get(a.fields, key).None? {
          AlikeItself(Get(b.fields, key).value, signs);
        } else {
          assert KeyIsPatched(Get(a.fields, key).value, Get(b.fields, key).value);
        }
      }
    }
  }

  lemma {:induction false} KeyPatched(a: Json, b: Json, key: string)
    requires Proper(a) && a.Dict? && b.Dict? && Get(a.fields, key).Some? && Get(b.fields, key).Some?
    ensures KeyIsPatched(Get(a.fields, key).value, Get(b.fields, key).value)
    decreases a, 1
  {
    var i :| 0 <= i < |a.fields| && a.fields[i] == Field(key, Get(a.fields, key).value);
    DiffThenPatch(a.fields[i].value, Get(b.fields, key).value);
  }

  lemma {:induction false} ListPatched(a: Json, b: Json)
    requires Proper(a) && a.List? && b.List? && |a.items| == |b.items|
    ensures Patched(a, b).Some? && Alike(Patched(a, b).value, b, false)
    ensures Alike(Patched(a, b).value, b, true) <==> !Clash(a, b)
    decreases a, 0
  {
    forall i | 0 <= i < |a.items|
      ensures Patched(a.items[i], b.items[i]).Some? && Alike(Patched(a.items[i], b.items[i]).value, b.items[i], false)
      ensures Alike(Patched(a.items[i], b.items[i]).value, b.items[i], true) <==> !Clash(a.items[i], b.items[i])
    {
      DiffThenPatch(a.items[i], b.items[i]);
    }
    var after := ItemsPatched(a.items, b.items, |a.items|);
    assert a.items[..|a.items|] == a.items && b.items[..|b.items|] == b.items;
  }

  // ---- a value and itself ---------------------------------------------------------------------------

  /** Somewhere the value is not a number: it is not equal to itself. */
  predicate HasNaN(value: Json)
    decreases value
  {
    match value
    case Number(x) => x.NaN?
    case Dict(fields) => exists i :: 0 <= i < |fields| && HasNaN(fields[i].value)
    case List(items) => exists i :: 0 <= i < |items| && HasNaN(items[i])
    case _ => false
  }

  /** A value has no changes to itself exactly if it holds no NaN. */
  lemma {:induction false} NoChangesToItself(a: Json)
    requires Proper(a)
    ensures Changes(a, a) == [] <==> !HasNaN(a)
    decreases a, 1
  {
    if a.Dict? {
      forall i | 0 <= i < |a.fields|
        ensures Changes(a.fields[i].value, a.fields[i].value) == [] <==> !HasNaN(a.fields[i].value)
      {
        NoChangesToItself(a.fields[i].value);
      }
      NoFieldChanges(a.fields, |a.fields|);
      NoNewFields(a.fields, |a.fields|);
      assert a.fields[..|a.fields|] == a.fields;
    } else if a.List? {
      forall i | 0 <= i < |a.items| ensures Changes(a.items[i], a.items[i]) == [] <==> !HasNaN(a.items[i]) {
        NoChangesToItself(a.items[i]);
      }
      NoItemChanges(a.items, |a.items|);
      assert a.items[..|a.items|] == a.items;
    }
  }

  lemma {:induction false} NoFieldChanges(fields: seq<Field>, n: nat)
    requires n <= |fields| && Distinct(fields)
    ensures FieldChanges(fields[..n], fields) == []
            <==> forall i :: 0 <= i < n ==> Changes(fields[i].value, fields[i].value) == []
  {
    if n > 0 {
      NoFieldChanges(fields, n - 1);
      GetDistinct(fields, n - 1);
      assert fields[..n][..n - 1] == fields[..n - 1];
      assert |Under(Key(fields[n - 1].key), Changes(fields[n - 1].value, fields[n - 1].value))|
             == |Changes(fields[n - 1].value, fields[n - 1].value)|;
    }
  }

  lemma {:induction false} NoNewFields(fields: seq<Field>, n: nat)
    requires n <= |fields| && Distinct(fields)
    ensures NewFields(fields[..n], fields) == []
  {
    if n > 0 {
      NoNewFields(fields, n - 1);
      GetDistinct(fields, n - 1);
      assert fields[..n][..n - 1] == fields[..n - 1];
    }
  }

  lemma {:induction false} NoItemChanges(items: seq<Json>, n: nat)
    requires n <= |items|
    ensures ItemChanges(items[..n], items[..n]) == [] <==> forall i :: 0 <= i < n ==> Changes(items[i], items[i]) == []
  {
    if n > 0 {
      NoItemChanges(items, n - 1);
      assert items[..n][..n - 1] == items[..n - 1];
      assert |Under(At(n - 1), Changes(items[n - 1], items[n - 1]))| == |Changes(items[n - 1], items[n - 1])|;
    }
  }

  /** The two cases in which the diff falls short. */
  lemma FallsShort()
    ensures var plus, minus := Number(Zero(false)), Number(Zero(true));
            Changes(plus, minus) == [] && Patched(plus, minus) == Some(plus) && plus != minus
    ensures Changes(Number(NaN), Number(NaN)) != []
  {
  }

  // ---- what the changes say ------------------------------------------------------------------------

  lemma {:induction false} UnderIs(part: Part, changes: seq<Change>, change: Change)
    ensures change in Under(part, changes) <==> exists inner :: inner in changes && change == Beneath(part, inner)
  {
    if change in Under(part, changes) {
      var i :| 0 <= i < |changes| && Under(part, changes)[i] == change;
      assert changes[i] in changes;
    }
    if inner :| inner in changes && change == Beneath(part, inner) {
      var i :| 0 <= i < |changes| && changes[i] == inner;
      assert Under(part, changes)[i] == change;
    }
  }

  /** A key that only the first has is removed, one of both is changed inside. */
  ghost predicate FieldChanged(a: seq<Field>, b: seq<Field>, i: nat, change: Change) {
    && i < |a|
    && match Get(b, a[i].key)
       case None => change == Remove([Key(a[i].key)])
       case Some(other) =>
         exists inner :: inner in Changes(a[i].value, other) && change == Beneath(Key(a[i].key), inner)
  }

  /** A key that only the second has is set to its value. */
  ghost predicate FieldAdded(a: seq<Field>, b: seq<Field>, i: nat, change: Change) {
    i < |b| && Get(a, b[i].key).None? && change == Set([Key(b[i].key)], b[i].value)
  }

  lemma {:induction false} FieldChangesAre(fields: seq<Field>, others: seq<Field>, change: Change)
    ensures change in FieldChanges(fields, others) <==> exists i :: FieldChanged(fields, others, i, change)
  {
    if fields != [] {
      var n := |fields| - 1;
      FieldChangesAre(fields[..n], others, change);
      FieldChangeIs(fields, others, n, change);
      if change in FieldChanges(fields[..n], others) {
        var i: nat :| FieldChanged(fields[..n], others, i, change);
        ChangedBefore(fields, others, n, i, change);
      }
      if i: nat :| FieldChanged(fields, others, i, change) {
        if i < n {
          ChangedBefore(fields, others, n, i, change);
        }
      }
    }
  }

  lemma {:induction false} ChangedBefore(fields: seq<Field>, others: seq<Field>, n: nat, i: nat, change: Change)
    requires i < n <= |fields|
    ensures FieldChanged(fields[..n], others, i, change) <==> FieldChanged(fields, others, i, change)
  {
    assert fields[..n][i] == fields[i];
  }

  lemma {:induction false} FieldChangeIs(fields: seq<Field>, others: seq<Field>, i: nat, change: Change)
    requires i < |fields|
    ensures change in FieldChange(fields[i], others) <==> FieldChanged(fields, others, i, change)
  {
    if Get(others, fields[i].key).Some? {
      UnderIs(Key(fields[i].key), Changes(fields[i].value, Get(others, fields[i].key).value), change);
    }
  }

  lemma {:induction false} NewFieldsAre(fields: seq<Field>, others: seq<Field>, change: Change)
    ensures change in NewFields(fields, others) <==> exists i :: FieldAdded(others, fields, i, change)
  {
    if fields != [] {
      var n := |fields| - 1;
      NewFieldsAre(fields[..n], others, change);
      assert forall i: nat :: i < n ==>
          (FieldAdded(others, fields, i, change) <==> FieldAdded(others, fields[..n], i, change));
      assert FieldAdded(others, fields, n, change)
        <==> Get(others, fields[n].key).None? && change == Set([Key(fields[n].key)], fields[n].value);
    }
  }

  /** Two dicts: only their keys change, each for itself. */
  lemma {:induction false} DictChangesAre(a: Json, b: Json, change: Change)
    requires a.Dict? && b.Dict?
    ensures change in Changes(a, b)
            <==> || (exists i :: FieldChanged(a.fields, b.fields, i, change))
                 || (exists i :: FieldAdded(a.fields, b.fields, i, change))
  {
    FieldChangesAre(a.fields, b.fields, change);
    NewFieldsAre(b.fields, a.fields, change);
  }

  ghost predicate ItemChanged(a: seq<Json>, b: seq<Json>, i: nat, change: Change) {
    i < |a| && i < |b| && exists inner :: inner in Changes(a[i], b[i]) && change == Beneath(At(i), inner)
  }

  /** Two lists of one length: only their items change, each for itself. */
  lemma {:induction false} ItemChangesAre(a: seq<Json>, b: seq<Json>, change: Change)
    requires |a| == |b|
    ensures change in Changes(List(a), List(b)) <==> exists i :: ItemChanged(a, b, i, change)
  {
    ItemChangesIn(a, b, change);
  }

  lemma {:induction false} ItemChangesIn(a: seq<Json>, b: seq<Json>, change: Change)
    requires |a| == |b|
    ensures change in ItemChanges(a, b) <==> exists i :: ItemChanged(a, b, i, change)
  {
    if a != [] {
      var n := |a| - 1;
      ItemChangesIn(a[..n], b[..n], change);
      assert forall i: nat :: i < n ==> (ItemChanged(a, b, i, change) <==> ItemChanged(a[..n], b[..n], i, change));
      UnderIs(At(n), Changes(a[n], b[n]), change);
      assert change in Under(At(n), Changes(a[n], b[n])) <==> ItemChanged(a, b, n, change);
    }
  }
}
