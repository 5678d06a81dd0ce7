/** JSON values as the panel services see them, and the walk over their fields.

    A number is held as the text JavaScript prints for it; an object keeps its
    fields in order. An absent property is `None`. */
module JsonValues {
  import opened Options

  datatype Json =
    | Null
    | Bool(b: bool)
    | Num(text: string)
    | Str(s: string)
    | Arr(items: seq<Json>)
    | Obj(fields: seq<Field>)

  datatype Field = Field(key: string, value: Json)

  /** `value[key]` on an object; anything else has no properties of interest. */
  function Get(v: Json, key: string): Option<Json> {
    if v.Obj? then Lookup(v.fields, key) else None
  }

  function Lookup(fields: seq<Field>, key: string): Option<Json> {
    if fields == [] then None
    else if fields[0].key == key then Some(fields[0].value)
    else Lookup(fields[1..], key)
  }

  /** `value[key] = x`: overwrites in place, or adds the property at the end. */
  function Put(fields: seq<Field>, key: string, x: Json): seq<Field> {
    if fields == [] then [Field(key, x)]
    else if fields[0].key == key then [Field(key, x)] + fields[1..]
    else [fields[0]] + Put(fields[1..], key, x)
  }

  /** `delete value[key]`. */
  function Drop(fields: seq<Field>, key: string): seq<Field> {
    if fields == [] then []
    else if fields[0].key == key then Drop(fields[1..], key)
    else [fields[0]] + Drop(fields[1..], key)
  }

  lemma LookupPut(fields: seq<Field>, key: string, x: Json, other: string)
    ensures Lookup(Put(fields, key, x), other) == if other == key then Some(x) else Lookup(fields, other)
  {
    if fields != [] {
      if fields[0].key == key {
        assert Put(fields, key, x)[1..] == fields[1..];
      } else {
        assert Put(fields, key, x)[1..] == Put(fields[1..], key, x);
        LookupPut(fields[1..], key, x, other);
      }
    }
  }

  lemma LookupDrop(fields: seq<Field>, key: string, other: string)
    ensures Lookup(Drop(fields, key), other) == if other == key then None else Lookup(fields, other)
  {
    if fields != [] {
      LookupDrop(fields[1..], key, other);
      if fields[0].key != key {
        assert Drop(fields, key)[1..] == Drop(fields[1..], key);
      }
    }
  }

  // ---- JavaScript's String(value) and truthiness ----

  function Text(v: Option<Json>): string {
    match v
    case None => "undefined"
    case Some(j) => JsonText(j)
  }

  function JsonText(v: Json): string {
    match v
    case Null => "null"
    case Bool(b) => if b then "true" else "false"
    case Num(t) => t
    case Str(s) => s
    case Arr(items) => Joined(items)
    case Obj(_) => "[object Object]"
  }

  function Joined(items: seq<Json>): string {
    if items == [] then ""
    else (if items[0].Null? then "" else JsonText(items[0]))
         + (if |items| == 1 then "" else "," + Joined(items[1..]))
  }

  predicate Truthy(v: Option<Json>) {
    match v
    case None => false
    case Some(Null) => false
    case Some(Bool(b)) => b
    case Some(Num(t)) => t != "0"
    case Some(Str(s)) => s != ""
    case Some(_) => true
  }

  // ---- the walk ----

  /** One call of the walk's callback: a field and the object that holds it. */
  datatype Visit = Visit(key: string, value: Json, row: Json)

  /** Every field at any depth, in the order the walk reaches it. */
  function Visits(v: Json): seq<Visit> {
    match v
    case Arr(items) => ItemVisits(items)
    case Obj(fields) => FieldVisits(fields, v)
    case _ => []
  }

  function ItemVisits(items: seq<Json>): seq<Visit> {
    if items == [] then [] else Visits(items[0]) + ItemVisits(items[1..])
  }

  function FieldVisits(fields: seq<Field>, row: Json): seq<Visit> {
    if fields == [] then []
    else [Visit(fields[0].key, fields[0].value, row)] + Visits(fields[0].value) + FieldVisits(fields[1..], row)
  }

  function MaybeVisits(v: Option<Json>): seq<Visit> {
    if v.Some? then Visits(v.value) else []
  }

  /** Walks `value` and stops at the first field whose check throws. */
  method Walk(value: Json, check: Visit -> bool) returns (ok: bool)
    ensures ok <==> forall c <- Visits(value) :: check(c)
    decreases value, 1
  {
    match value
    case Arr(items) => ok := WalkItems(items, check);
    case Obj(fields) => ok := WalkFields(fields, value, check);
    case _ => ok := true;
  }

  ghost predicate AllPass(visits: seq<Visit>, check: Visit -> bool) {
    forall c <- visits :: check(c)
  }

  lemma AllPassBoth(a: seq<Visit>, b: seq<Visit>, check: Visit -> bool)
    ensures AllPass(a + b, check) <==> AllPass(a, check) && AllPass(b, check)
  {
    if AllPass(a + b, check) {
      forall c | c in a || c in b
        ensures check(c)
      {
        assert c in a + b;
      }
    }
  }

  lemma FieldPasses(fields: seq<Field>, row: Json, check: Visit -> bool, i: nat)
    requires i < |fields|
    ensures AllPass(FieldVisits(fields[i..], row), check) <==>
              check(Visit(fields[i].key, fields[i].value, row)) && AllPass(Visits(fields[i].value), check)
              && AllPass(FieldVisits(fields[i + 1..], row), check)
  {
    assert fields[i..][1..] == fields[i + 1..];
    var here := Visit(fields[i].key, fields[i].value, row);
    AllPassBoth([here] + Visits(fields[i].value), FieldVisits(fields[i + 1..], row), check);
    AllPassBoth([here], Visits(fields[i].value), check);
    assert here in [here];
  }

  lemma ItemPasses(items: seq<Json>, check: Visit -> bool, i: nat)
    requires i < |items|
    ensures AllPass(ItemVisits(items[i..]), check) <==>
              AllPass(Visits(items[i]), check) && AllPass(ItemVisits(items[i + 1..]), check)
  {
    assert items[i..][1..] == items[i + 1..];
    AllPassBoth(Visits(items[i]), ItemVisits(items[i + 1..]), check);
  }

  method WalkItems(items: seq<Json>, check: Visit -> bool) returns (ok: bool)
    ensures ok <==> forall c <- ItemVisits(items) :: check(c)
    decreases items, 0
  {
    for i := 0 to |items|
      invariant AllPass(ItemVisits(items), check) <==> AllPass(ItemVisits(items[i..]), check)
    {
      ItemPasses(items, check, i);
      ok := Walk(items[i], check);
      if !ok {
        return;
      }
    }
    assert items[|items|..] == [];
    ok := true;
  }

  method WalkFields(fields: seq<Field>, row: Json, check: Visit -> bool) returns (ok: bool)
    ensures ok <==> forall c <- FieldVisits(fields, row) :: check(c)
    decreases fields, 0
  {
    for i := 0 to |fields|
      invariant AllPass(FieldVisits(fields, row), check) <==> AllPass(FieldVisits(fields[i..], row), check)
    {
      FieldPasses(fields, row, check, i);
      if !check(Visit(fields[i].key, fields[i].value, row)) {
        return false;
      }
      ok := Walk(fields[i].value, check);
      if !ok {
        return;
      }
    }
    assert fields[|fields|..] == [];
    ok := true;
  }

  /** A field is visited in a list exactly when it is visited in one of its items. */
  lemma InItemVisits(items: seq<Json>, c: Visit)
    ensures c in ItemVisits(items) <==> exists item <- items :: c in Visits(item)
  {
    if items != [] {
      InItemVisits(items[1..], c);
      assert items == [items[0]] + items[1..];
      if c in Visits(items[0]) {
        assert items[0] in items;
      } else if c in ItemVisits(items) {
        var item :| item in items[1..] && c in Visits(item);
        assert item in items;
      } else {
        forall item | item in items
          ensures c !in Visits(item)
        {
          assert item == items[0] || item in items[1..];
        }
      }
    }
  }

  /** After a property is put, the walk meets nothing but that property's own
      fields and what it met before. */
  lemma {:induction false} PutVisits(fields: seq<Field>, key: string, x: Json, was: Json, row: Json, c: Visit)
    requires c in FieldVisits(Put(fields, key, x), row)
    ensures (c.key == key && c.value == x)
         || c in Visits(x)
         || exists d <- FieldVisits(fields, was) :: d.key == c.key && d.value == c.value
  {
    if fields != [] {
      var here, below := Visit(fields[0].key, fields[0].value, was), Visits(fields[0].value);
      var rest := FieldVisits(fields[1..], was);
      assert FieldVisits(fields, was) == [here] + below + rest;
      if fields[0].key == key {
        assert Put(fields, key, x)[1..] == fields[1..];
        if c in FieldVisits(fields[1..], row) {
          SameVisits(fields[1..], row, was, c);
        }
      } else {
        assert Put(fields, key, x)[1..] == Put(fields[1..], key, x);
        if c == Visit(fields[0].key, fields[0].value, row) {
          assert here in FieldVisits(fields, was);
        } else if c in below {
          assert c in FieldVisits(fields, was);
        } else {
          PutVisits(fields[1..], key, x, was, row, c);
        }
      }
    } else {
      assert Put(fields, key, x)[1..] == [];
    }
  }

  lemma {:induction false} SameVisits(fields: seq<Field>, row: Json, was: Json, c: Visit)
    requires c in FieldVisits(fields, row)
    ensures exists d <- FieldVisits(fields, was) :: d.key == c.key && d.value == c.value
  {
    var here, below := Visit(fields[0].key, fields[0].value, was), Visits(fields[0].value);
    assert FieldVisits(fields, was) == [here] + below + FieldVisits(fields[1..], was);
    if c == Visit(fields[0].key, fields[0].value, row) {
      assert here in FieldVisits(fields, was);
    } else if c in below {
      assert c in FieldVisits(fields, was);
    } else {
      SameVisits(fields[1..], row, was, c);
    }
  }
}
