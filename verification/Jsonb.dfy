/** What a JSONB column does to the JSON stored in it: the fields of every object come back sorted, shorter keys
    first. Keys are taken to be plain ASCII and not array indexes. */
module Jsonb {
  /** Strings, numbers, booleans and null are atoms; they come back as they were. */
  datatype Json = Atom(text: string) | Array(items: seq<Json>) | Object(fields: seq<Field>)
  datatype Field = Field(key: string, value: Json)

  predicate LexLeq(a: string, b: string) {
    a == [] || (b != [] && (a[0] < b[0] || (a[0] == b[0] && LexLeq(a[1..], b[1..]))))
  }

  /** The order of keys. */
  predicate Leq(a: Field, b: Field) {
    |a.key| < |b.key| || (|a.key| == |b.key| && LexLeq(a.key, b.key))
  }

  lemma {:induction false} LexTotal(a: string, b: string)
    ensures LexLeq(a, b) || LexLeq(b, a)
  {
    if a != [] && b != [] && a[0] == b[0] {
      LexTotal(a[1..], b[1..]);
    }
  }

  predicate Ascending(fields: seq<Field>) {
    forall i | 0 < i < |fields| :: Leq(fields[i - 1], fields[i])
  }

  function Insert(f: Field, fields: seq<Field>): (r: seq<Field>)
    ensures |r| == |fields| + 1 && r[0] in {f} + (if fields == [] then {} else {fields[0]})
  {
    if fields == [] || Leq(f, fields[0]) then [f] + fields else [fields[0]] + Insert(f, fields[1..])
  }

  function Sorted(fields: seq<Field>): (r: seq<Field>)
    ensures |r| == |fields|
  {
    if fields == [] then [] else Insert(fields[0], Sorted(fields[1..]))
  }

  lemma {:induction false} InsertAscends(f: Field, fields: seq<Field>)
    requires Ascending(fields)
    ensures Ascending(Insert(f, fields)) && multiset(Insert(f, fields)) == multiset(fields) + multiset{f}
  {
    if fields == [] {
    } else {
      assert fields == [fields[0]] + fields[1..];
      if !Leq(f, fields[0]) {
        LexTotal(f.key, fields[0].key);
        assert Ascending(fields[1..]);
        InsertAscends(f, fields[1..]);
      }
    }
  }

  /** Sorting sorts and loses nothing. */
  lemma {:induction false} SortedAscends(fields: seq<Field>)
    ensures Ascending(Sorted(fields)) && multiset(Sorted(fields)) == multiset(fields)
  {
    if fields != [] {
      assert fields == [fields[0]] + fields[1..];
      SortedAscends(fields[1..]);
      InsertAscends(fields[0], Sorted(fields[1..]));
    }
  }

  lemma {:induction false} AscendingIsSorted(fields: seq<Field>)
    requires Ascending(fields)
    ensures Sorted(fields) == fields
  {
    if fields != [] {
      assert fields == [fields[0]] + fields[1..];
      AscendingIsSorted(fields[1..]);
    }
  }

  /** The JSON read back from the column. */
  function Canon(j: Json): Json {
    match j
    case Atom(_) => j
    case Array(items) => Array(CanonItems(items))
    case Object(fields) => Object(Sorted(CanonFields(fields)))
  }

  function CanonItems(items: seq<Json>): (r: seq<Json>)
    ensures |r| == |items| && forall i | 0 <= i < |items| :: r[i] == Canon(items[i])
  {
    if items == [] then [] else [Canon(items[0])] + CanonItems(items[1..])
  }

  function CanonFields(fields: seq<Field>): (r: seq<Field>)
    ensures |r| == |fields| && forall i | 0 <= i < |fields| :: r[i] == Field(fields[i].key, Canon(fields[i].value))
  {
    if fields == [] then [] else [Field(fields[0].key, Canon(fields[0].value))] + CanonFields(fields[1..])
  }

  /** Every object's keys are already in the column's order. */
  predicate Ordered(j: Json) {
    match j
    case Atom(_) => true
    case Array(items) => forall i | 0 <= i < |items| :: Ordered(items[i])
    case Object(fields) => Ascending(fields) && forall i | 0 <= i < |fields| :: Ordered(fields[i].value)
  }

  /** What the column gives back is in order. */
  lemma {:induction false} CanonIsOrdered(j: Json)
    ensures Ordered(Canon(j))
  {
    match j
    case Atom(_) =>
    case Array(items) =>
      forall i | 0 <= i < |items| ensures Ordered(Canon(items[i])) {
        CanonIsOrdered(items[i]);
      }
    case Object(fields) =>
      var canon := CanonFields(fields);
      forall i | 0 <= i < |fields| ensures Ordered(canon[i].value) {
        CanonIsOrdered(fields[i].value);
      }
      SortedAscends(canon);
      forall i | 0 <= i < |Sorted(canon)| ensures Ordered(Sorted(canon)[i].value) {
        assert Sorted(canon)[i] in multiset(canon);
      }
  }

  /** The column gives back exactly what was stored if and only if it was in order. */
  lemma {:induction false} CanonIsSameIffOrdered(j: Json)
    ensures Canon(j) == j <==> Ordered(j)
  {
    CanonIsOrdered(j);
    if Ordered(j) {
      match j
      case Atom(_) =>
      case Array(items) =>
        forall i | 0 <= i < |items| ensures Canon(items[i]) == items[i] {
          CanonIsSameIffOrdered(items[i]);
        }
        assert CanonItems(items) == items;
      case Object(fields) =>
        forall i | 0 <= i < |fields| ensures Canon(fields[i].value) == fields[i].value {
          CanonIsSameIffOrdered(fields[i].value);
        }
        assert CanonFields(fields) == fields;
        AscendingIsSorted(fields);
    }
  }
}
