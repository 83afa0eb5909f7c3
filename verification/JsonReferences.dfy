/** The `$ref`s of a JSON document (fabric/deploy.py:153-161, fabric/schemas/update_microsoft_schemas.py:37-45). */
module JsonReferences {
  import opened Basics
  import opened Ordering

  /** A parsed document; an object's fields are in insertion order. */
  datatype Json =
    | Null | Bool(value: bool) | Number(text: string) | Text(s: string) | List(items: seq<Json>)
    | Object(fields: seq<Field>)

  datatype Field = Field(key: string, value: Json)

  function Lookup(fields: seq<Field>, key: string): Option<Json> {
    if |fields| == 0 then None else if fields[0].key == key then Some(fields[0].value) else Lookup(fields[1..], key)
  }

  function References(v: Json): seq<string> {
    match v
    case List(items) => ReferencesOfItems(items)
    case Object(fields) =>
      var own := Lookup(fields, "$ref");
      (if own.Some? && own.value.Text? then [own.value.s] else []) + ReferencesOfFields(fields)
    case _ => []
  }

  function ReferencesOfItems(items: seq<Json>): seq<string> {
    if |items| == 0 then [] else References(items[0]) + ReferencesOfItems(items[1..])
  }

  function ReferencesOfFields(fields: seq<Field>): seq<string> {
    if |fields| == 0 then [] else References(fields[0].value) + ReferencesOfFields(fields[1..])
  }

  /** Keys of one object differ, as they do in a Python dict, all the way down. */
  ghost predicate UniqueKeys(v: Json) {
    match v
    case List(items) => forall x | x in items :: UniqueKeys(x)
    case Object(fields) => DifferentKeys(fields) && forall f | f in fields :: UniqueKeys(f.value)
    case _ => true
  }

  ghost predicate DifferentKeys(fields: seq<Field>) {
    forall i, j | 0 <= i < j < |fields| :: fields[i].key != fields[j].key
  }

  /** Somewhere in the document an object has `$ref` with this text. */
  ghost predicate Mentions(v: Json, s: string) {
    match v
    case List(items) => exists x :: x in items && Mentions(x, s)
    case Object(fields) => Field("$ref", Text(s)) in fields || exists f :: f in fields && Mentions(f.value, s)
    case _ => false
  }

  lemma {:induction false} LookupFinds(fields: seq<Field>, key: string, v: Json)
    requires DifferentKeys(fields)
    ensures Lookup(fields, key) == Some(v) <==> Field(key, v) in fields
  {
    if |fields| > 0 {
      LookupFinds(fields[1..], key, v);
      assert fields == [fields[0]] + fields[1..];
    }
  }

  /** The recursive collection finds exactly the `$ref` texts of the document. */
  lemma {:induction false} ReferencesAreMentions(v: Json, s: string)
    requires UniqueKeys(v)
    ensures s in References(v) <==> Mentions(v, s)
    decreases v
  {
    match v {
      case List(items) => ItemsMention(items, s);
      case Object(fields) =>
        LookupFinds(fields, "$ref", Text(s));
        FieldsMention(fields, s);
      case _ =>
    }
  }

  lemma {:induction false} ItemsMention(items: seq<Json>, s: string)
    requires forall x | x in items :: UniqueKeys(x)
    ensures s in ReferencesOfItems(items) <==> exists x :: x in items && Mentions(x, s)
    decreases items
  {
    if |items| > 0 {
      assert items == [items[0]] + items[1..];
      ReferencesAreMentions(items[0], s);
      ItemsMention(items[1..], s);
    }
  }

  lemma {:induction false} FieldsMention(fields: seq<Field>, s: string)
    requires forall f | f in fields :: UniqueKeys(f.value)
    ensures s in ReferencesOfFields(fields) <==> exists f :: f in fields && Mentions(f.value, s)
    decreases fields
  {
    if |fields| > 0 {
      assert fields == [fields[0]] + fields[1..];
      ReferencesAreMentions(fields[0].value, s);
      FieldsMention(fields[1..], s);
    }
  }

  // --- Writing with sorted keys --------------------------------------------------------------

  predicate KeyLe(a: Field, b: Field) { StrLe(a.key, b.key) }

  /** `json.dumps(..., sort_keys=True)`, read back. */
  function SortedKeys(v: Json): Json {
    match v
    case List(items) => List(SortedItems(items))
    case Object(fields) => Object(SortBy(KeyLe, SortedFields(fields)))
    case _ => v
  }

  function SortedItems(items: seq<Json>): seq<Json> {
    if |items| == 0 then [] else [SortedKeys(items[0])] + SortedItems(items[1..])
  }

  function SortedFields(fields: seq<Field>): seq<Field> {
    if |fields| == 0 then [] else [Field(fields[0].key, SortedKeys(fields[0].value))] + SortedFields(fields[1..])
  }

  lemma {:induction false} ItemMembers(items: seq<Json>)
    ensures forall x | x in items :: SortedKeys(x) in SortedItems(items)
    ensures forall y | y in SortedItems(items) :: exists x :: x in items && y == SortedKeys(x)
  {
    if |items| > 0 {
      assert items == [items[0]] + items[1..];
      ItemMembers(items[1..]);
      forall y | y in SortedItems(items) ensures exists x :: x in items && y == SortedKeys(x) {
        if y != SortedKeys(items[0]) {
          var x :| x in items[1..] && y == SortedKeys(x);
          assert x in items;
        } else {
          assert items[0] in items;
        }
      }
    }
  }

  function SortedField(f: Field): Field { Field(f.key, SortedKeys(f.value)) }

  lemma {:induction false} FieldMembers(fields: seq<Field>)
    ensures |SortedFields(fields)| == |fields|
    ensures forall i | 0 <= i < |fields| :: SortedFields(fields)[i] == SortedField(fields[i])
    ensures forall f | f in fields :: SortedField(f) in SortedFields(fields)
    ensures forall g | g in SortedFields(fields) :: exists f :: f in fields && g == SortedField(f)
  {
    if |fields| > 0 {
      assert fields == [fields[0]] + fields[1..];
      FieldMembers(fields[1..]);
    }
  }

  lemma KeyOrder()
    ensures TotalPreorder(KeyLe)
  {
    StrLeOrder();
  }

  /** Sorting keeps a list of fields with different keys such a list, with the same members. */
  lemma SortedMembers(fields: seq<Field>)
    requires DifferentKeys(fields)
    ensures DifferentKeys(SortBy(KeyLe, fields)) && forall f :: f in SortBy(KeyLe, fields) <==> f in fields
  {
    KeyOrder();
    SortBySorts(KeyLe, fields);
    var r := SortBy(KeyLe, fields);
    forall i, j | 0 <= i < j < |r| ensures r[i].key != r[j].key {
      assert Distinct(fields);
      TwiceCounts(r, i, j);
      DistinctCounts(fields, r[i]);
      assert r[i] in fields && r[j] in fields;
    }
  }

  /** The written document has the references of the fetched one. */
  lemma {:induction false} SortedKeysMention(v: Json, s: string)
    requires UniqueKeys(v)
    ensures UniqueKeys(SortedKeys(v))
    ensures Mentions(SortedKeys(v), s) <==> Mentions(v, s)
    decreases v
  {
    match v {
      case List(items) =>
        forall x | x in items ensures UniqueKeys(SortedKeys(x)) && (Mentions(SortedKeys(x), s) <==> Mentions(x, s)) {
          SortedKeysMention(x, s);
        }
        ItemMembers(items);
      case Object(fields) =>
        forall f | f in fields
          ensures UniqueKeys(SortedField(f).value) && (Mentions(SortedField(f).value, s) <==> Mentions(f.value, s))
        {
          SortedKeysMention(f.value, s);
        }
        SortedObject(fields, s);
      case _ =>
    }
  }

  lemma SortedObject(fields: seq<Field>, s: string)
    requires DifferentKeys(fields)
    requires forall f | f in fields ::
      UniqueKeys(SortedField(f).value) && (Mentions(SortedField(f).value, s) <==> Mentions(f.value, s))
    ensures UniqueKeys(SortedKeys(Object(fields)))
    ensures Mentions(SortedKeys(Object(fields)), s) <==> Mentions(Object(fields), s)
  {
    FieldMembers(fields);
    var w := SortedFields(fields);
    assert DifferentKeys(w);
    SortedMembers(w);
    assert Field("$ref", Text(s)) in w <==> Field("$ref", Text(s)) in fields by {
      var own := Field("$ref", Text(s));
      assert SortedField(own) == own;
      forall f | f in fields && SortedField(f) == own ensures f == own { }
    }
  }
}
