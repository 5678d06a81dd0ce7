/** What the panel shows of a row that was sent to it, and the keys of rows. */
module ReadBack {
  import opened Options
  import opened JsonValues
  import opened SuiNetwork
  import O = OutboundImport

  // ---- what a read-back has to show ----

  /** Every field of `expected` is there; the panel may have added others. */
  predicate OutboundMatches(actual: Option<Json>, expected: Json)
    decreases expected
  {
    match expected
    case Arr(items) =>
      && actual.Some? && actual.value.Arr? && |actual.value.items| == |items|
      && forall i :: 0 <= i < |items| ==> OutboundMatches(Some(actual.value.items[i]), items[i])
    case Obj(fields) =>
      && actual.Some? && (actual.value.Obj? || actual.value.Arr?)
      && forall i :: 0 <= i < |fields| ==> OutboundMatches(Get(actual.value, fields[i].key), fields[i].value)
    case _ => actual == Some(expected)
  }

  /** No object holds a key twice, as no JavaScript object can. */
  predicate UniqueKeys(v: Json) {
    match v
    case Arr(items) => forall i :: 0 <= i < |items| ==> UniqueKeys(items[i])
    case Obj(fields) =>
      && (forall i, j :: 0 <= i < j < |fields| ==> fields[i].key != fields[j].key)
      && forall i :: 0 <= i < |fields| ==> UniqueKeys(fields[i].value)
    case _ => true
  }

  lemma {:induction false} LookupAt(fields: seq<Field>, i: nat)
    requires forall j, k :: 0 <= j < k < |fields| ==> fields[j].key != fields[k].key
    requires i < |fields|
    ensures Lookup(fields, fields[i].key) == Some(fields[i].value)
  {
    if i > 0 {
      LookupAt(fields[1..], i - 1);
    }
  }

  lemma {:induction false} MatchesItself(v: Json)
    requires UniqueKeys(v)
    ensures OutboundMatches(Some(v), v)
    decreases v
  {
    match v
    case Arr(items) =>
      forall i | 0 <= i < |items|
        ensures OutboundMatches(Some(items[i]), items[i])
      {
        MatchesItself(items[i]);
      }
    case Obj(fields) =>
      forall i | 0 <= i < |fields|
        ensures OutboundMatches(Get(v, fields[i].key), fields[i].value)
      {
        LookupAt(fields, i);
        MatchesItself(fields[i].value);
      }
    case _ =>
  }

  /** A stored row still matches the data it was created from: only its id is new. */
  lemma StoredRowMatches(data: Json, id: string)
    requires data.Obj? && UniqueKeys(data) && Get(data, "id") == None
    ensures OutboundMatches(Some(Identified(data, id)), data)
  {
    MatchesItself(data);
    forall i | 0 <= i < |data.fields|
      ensures OutboundMatches(Get(Identified(data, id), data.fields[i].key), data.fields[i].value)
    {
      LookupAt(data.fields, i);
      LookupPut(data.fields, "id", Num(id), data.fields[i].key);
      MatchesItself(data.fields[i].value);
    }
  }

  // ---- what a match is, place by place ----

  /** One step down in a value. */
  datatype Hop = Entry(i: nat) | Property(key: string)

  /** What is found along a path. */
  function Reached(v: Option<Json>, path: seq<Hop>): Option<Json>
    decreases path
  {
    if path == [] || v.None? then v
    else
      match path[0]
      case Entry(i) => Reached(if v.value.Arr? && i < |v.value.items| then Some(v.value.items[i]) else None, path[1..])
      case Property(key) => Reached(Get(v.value, key), path[1..])
  }

  /** The same plain value, a list of the same length, or an object or list where an
      object is expected. */
  predicate SameShape(actual: Option<Json>, expected: Json) {
    if expected.Arr? then actual.Some? && actual.value.Arr? && |actual.value.items| == |expected.items|
    else if expected.Obj? then actual.Some? && (actual.value.Obj? || actual.value.Arr?)
    else actual == Some(expected)
  }

  ghost predicate SameAt(actual: Option<Json>, expected: Json, path: seq<Hop>) {
    Reached(Some(expected), path).Some? ==> SameShape(Reached(actual, path), Reached(Some(expected), path).value)
  }

  /** A row matches exactly when every place of the expected value, at any depth, is
      there and has the same shape or the same plain value. */
  lemma MatchesEverywhere(actual: Option<Json>, expected: Json)
    requires UniqueKeys(expected)
    ensures OutboundMatches(actual, expected) <==> forall path :: SameAt(actual, expected, path)
  {
    if OutboundMatches(actual, expected) {
      forall path
        ensures SameAt(actual, expected, path)
      {
        MatchesAlong(actual, expected, path);
      }
    }
    if forall path :: SameAt(actual, expected, path) {
      MatchesFrom(actual, expected);
    }
  }

  lemma {:induction false} LookupMember(fields: seq<Field>, key: string)
    requires Lookup(fields, key).Some?
    ensures exists i :: 0 <= i < |fields| && fields[i].key == key && fields[i].value == Lookup(fields, key).value
  {
    if fields[0].key != key {
      LookupMember(fields[1..], key);
      var i :| 0 <= i < |fields[1..]| && fields[1..][i].key == key && fields[1..][i].value == Lookup(fields, key).value;
      assert fields[i + 1] == fields[1..][i];
    }
  }

  lemma {:induction false} MatchesAlong(actual: Option<Json>, expected: Json, path: seq<Hop>)
    requires OutboundMatches(actual, expected)
    ensures SameAt(actual, expected, path)
    decreases path
  {
    if path != [] {
      match path[0]
      case Entry(i) =>
        if expected.Arr? && i < |expected.items| {
          MatchesAlong(Some(actual.value.items[i]), expected.items[i], path[1..]);
        }
      case Property(key) =>
        if expected.Obj? && Get(expected, key).Some? {
          LookupMember(expected.fields, key);
          var i :| 0 <= i < |expected.fields| && expected.fields[i].key == key && expected.fields[i].value == Get(expected, key).value;
          MatchesAlong(Get(actual.value, key), expected.fields[i].value, path[1..]);
        }
    }
  }

  lemma {:induction false} MatchesFrom(actual: Option<Json>, expected: Json)
    requires UniqueKeys(expected) && forall path :: SameAt(actual, expected, path)
    ensures OutboundMatches(actual, expected)
    decreases expected
  {
    assert SameAt(actual, expected, []);
    match expected
    case Arr(items) =>
      forall i | 0 <= i < |items|
        ensures OutboundMatches(Some(actual.value.items[i]), items[i])
      {
        forall path
          ensures SameAt(Some(actual.value.items[i]), items[i], path)
        {
          BelowEntry(actual, expected, i, path);
        }
        MatchesFrom(Some(actual.value.items[i]), items[i]);
      }
    case Obj(fields) =>
      forall i | 0 <= i < |fields|
        ensures OutboundMatches(Get(actual.value, fields[i].key), fields[i].value)
      {
        LookupAt(fields, i);
        forall path
          ensures SameAt(Get(actual.value, fields[i].key), fields[i].value, path)
        {
          BelowProperty(actual, expected, fields[i].key, path);
        }
        MatchesFrom(Get(actual.value, fields[i].key), fields[i].value);
      }
    case _ =>
  }

  lemma BelowEntry(actual: Option<Json>, expected: Json, i: nat, path: seq<Hop>)
    requires forall path :: SameAt(actual, expected, path)
    requires expected.Arr? && i < |expected.items| && actual.Some? && actual.value.Arr? && |actual.value.items| == |expected.items|
    ensures SameAt(Some(actual.value.items[i]), expected.items[i], path)
  {
    assert ([Entry(i)] + path)[1..] == path;
    assert SameAt(actual, expected, [Entry(i)] + path);
  }

  lemma BelowProperty(actual: Option<Json>, expected: Json, key: string, path: seq<Hop>)
    requires forall path :: SameAt(actual, expected, path)
    requires Get(expected, key).Some? && actual.Some?
    ensures SameAt(Get(actual.value, key), Get(expected, key).value, path)
  {
    assert ([Property(key)] + path)[1..] == path;
    assert SameAt(actual, expected, [Property(key)] + path);
  }

  // ---- preparing a row keeps its keys apart ----

  lemma {:induction false} RewriteUnique(v: Json, d: O.Dependency)
    requires UniqueKeys(v)
    ensures UniqueKeys(O.Rewrite(v, d))
    decreases v
  {
    match v
    case Arr(items) => RewriteItemsUnique(items, d);
    case Obj(fields) => RewriteFieldsUnique(fields, d);
    case _ =>
  }

  lemma {:induction false} RewriteItemsUnique(items: seq<Json>, d: O.Dependency)
    requires forall i :: 0 <= i < |items| ==> UniqueKeys(items[i])
    ensures forall i :: 0 <= i < |items| ==> UniqueKeys(O.RewriteItems(items, d)[i])
    decreases items, 0
  {
    if items != [] {
      var after := O.RewriteItems(items, d);
      RewriteUnique(items[0], d);
      RewriteItemsUnique(items[1..], d);
      assert after[1..] == O.RewriteItems(items[1..], d);
      assert forall i :: 0 < i < |items| ==> after[i] == after[1..][i - 1];
    }
  }

  lemma {:induction false} RewriteFieldsUnique(fields: seq<Field>, d: O.Dependency)
    requires forall i :: 0 <= i < |fields| ==> UniqueKeys(fields[i].value)
    ensures forall i :: 0 <= i < |fields| ==>
              O.RewriteFields(fields, d)[i].key == fields[i].key && UniqueKeys(O.RewriteFields(fields, d)[i].value)
    decreases fields, 0
  {
    if fields != [] {
      var after := O.RewriteFields(fields, d);
      RewriteUnique(fields[0].value, d);
      assert fields[0].value.Arr? ==> UniqueKeys(O.RewriteLink(fields[0].value, d));
      RewriteFieldsUnique(fields[1..], d);
      assert after[1..] == O.RewriteFields(fields[1..], d);
      assert forall i :: 0 < i < |fields| ==> after[i] == after[1..][i - 1] && fields[i] == fields[1..][i - 1];
    }
  }

  function KeysOf(fields: seq<Field>): set<string> {
    set f | f in fields :: f.key
  }

  lemma UniqueFields(fields: seq<Field>)
    requires fields != []
    ensures UniqueKeys(Obj(fields)) <==>
      fields[0].key !in KeysOf(fields[1..]) && UniqueKeys(fields[0].value) && UniqueKeys(Obj(fields[1..]))
  {
    assert forall i :: 0 < i < |fields| ==> fields[i] == fields[1..][i - 1];
    if UniqueKeys(Obj(fields)) {
      forall f | f in fields[1..]
        ensures f.key != fields[0].key
      {
      }
    }
  }

  lemma {:induction false} PutUnique(fields: seq<Field>, key: string, x: Json)
    requires UniqueKeys(Obj(fields)) && UniqueKeys(x)
    ensures UniqueKeys(Obj(Put(fields, key, x))) && KeysOf(Put(fields, key, x)) <= KeysOf(fields) + {key}
  {
    if fields == [] {
      assert KeysOf([Field(key, x)]) == {key};
    } else {
      var after := Put(fields, key, x);
      UniqueFields(fields);
      KeysOfCons(fields);
      KeysOfCons(after);
      if fields[0].key == key {
        assert after[1..] == fields[1..];
      } else {
        PutUnique(fields[1..], key, x);
        assert after[1..] == Put(fields[1..], key, x);
      }
      UniqueFields(after);
    }
  }

  lemma KeysOfCons(fields: seq<Field>)
    requires fields != []
    ensures KeysOf(fields) == {fields[0].key} + KeysOf(fields[1..])
  {
    assert fields == [fields[0]] + fields[1..];
  }

  lemma {:induction false} DropUnique(fields: seq<Field>, key: string)
    requires UniqueKeys(Obj(fields))
    ensures UniqueKeys(Obj(Drop(fields, key))) && forall f <- Drop(fields, key) :: f in fields
  {
    if fields != [] {
      var after := Drop(fields, key);
      UniqueFields(fields);
      DropUnique(fields[1..], key);
      assert fields == [fields[0]] + fields[1..];
      if fields[0].key != key {
        UniqueFields(after);
        assert after[1..] == Drop(fields[1..], key);
      }
    }
  }

  /** A prepared row has no key twice when the row it came from has none. */
  lemma FollowedIsUnique(rows: seq<O.Row>, tags: seq<string>, k: nat)
    requires |tags| == |rows| && k < |rows|
    requires UniqueKeys(rows[k].outbound) && rows[k].outbound.Obj?
    ensures UniqueKeys(O.Followed(rows, tags, O.TaggedRows(rows, tags))[k].outbound)
  {
    DropUnique(rows[k].outbound.fields, "id");
    PutUnique(Drop(rows[k].outbound.fields, "id"), "tag", Str(tags[k]));
    RewriteUnique(O.TaggedRows(rows, tags)[k].outbound, t => O.Follow(rows, tags, t));
  }
}
