/** The decoding of panel values for display and editing, and its inverse.

    Strings that hold "true", "false" or serialized JSON are shown as values and
    written back as strings, to any depth of JSON inside strings. JSON.parse and
    JSON.stringify are parameters, tied only by the laws in `JsonLaws`. */
module PanelFields {
  import opened Options
  import opened JsonValues
  import opened Texts

  // ---- secret fields ----

  function Lower(c: char): char {
    if 'A' <= c <= 'Z' then c - 'A' + 'a' else c
  }

  predicate StartsWith(s: string, word: string) {
    word == [] || (s != [] && Lower(s[0]) == word[0] && StartsWith(s[1..], word[1..]))
  }

  /** `private.?key`, where the dot is any character but a line end. */
  predicate PrivateKeyAt(s: string) {
    StartsWith(s, "private")
    && |s| >= 7
    && (StartsWith(s[7..], "key")
        || (|s| >= 8 && s[7] !in {'\n', '\r', '\U{2028}', '\U{2029}'} && StartsWith(s[8..], "key")))
  }

  predicate SecretAt(s: string) {
    || StartsWith(s, "password") || PrivateKeyAt(s) || StartsWith(s, "secret")
    || StartsWith(s, "token") || StartsWith(s, "seed") || (|s| == 4 && StartsWith(s, "auth"))
  }

  predicate IsSecretField(key: string) {
    SecretAt(key) || (key != [] && IsSecretField(key[1..]))
  }

  // ---- serialized JSON ----

  predicate Serialized(s: string) {
    s != [] && (s[0] == '[' || s[0] == '{' || (IsSpace(s[0]) && Serialized(s[1..])))
  }

  /** A size that every character of a serialized value counts into. */
  function Weight(v: Json): nat {
    match v
    case Str(s) => |s| + 1
    case Arr(items) => 1 + ItemsWeight(items)
    case Obj(fields) => 1 + FieldsWeight(fields)
    case _ => 1
  }

  function ItemsWeight(items: seq<Json>): nat {
    if items == [] then 0 else Weight(items[0]) + ItemsWeight(items[1..])
  }

  function FieldsWeight(fields: seq<Field>): nat {
    if fields == [] then 0 else Weight(fields[0].value) + FieldsWeight(fields[1..])
  }

  type Parser = string -> Option<Json>
  type Printer = Json -> string

  /** An object lists keys that are array indices first, in ascending order, and the
      others in the order they were added (OrdinaryOwnPropertyKeys, ECMA-262). */
  ghost predicate IsIndex(key: string, n: nat) {
    n < 0xFFFF_FFFF && key == Decimal(n)
  }

  ghost predicate Precedes(key: string, later: string) {
    forall n: nat :: IsIndex(later, n) ==> exists m: nat :: m < n && IsIndex(key, m)
  }

  /** Numbers too large for JavaScript are read as infinities. */
  predicate Infinite(v: Json) {
    v == Num("Infinity") || v == Num("-Infinity")
  }

  /** A value as `JSON.parse` can return it: no object has a key twice or in an order
      JavaScript does not keep, and a number is held as the text it is printed as,
      which reads as that number. */
  ghost predicate Proper(parse: Parser, v: Json) {
    match v
    case Num(t) => parse(t) == Some(v) || Infinite(v)
    case Arr(items) => ProperItems(parse, items)
    case Obj(fields) => ProperFields(parse, fields)
    case _ => true
  }

  ghost predicate ProperItems(parse: Parser, items: seq<Json>) {
    items == [] || (Proper(parse, items[0]) && ProperItems(parse, items[1..]))
  }

  ghost predicate ProperFields(parse: Parser, fields: seq<Field>) {
    fields == []
    || (&& Proper(parse, fields[0].value) && Lookup(fields[1..], fields[0].key).None?
        && (forall f <- fields[1..] :: Precedes(fields[0].key, f.key))
        && ProperFields(parse, fields[1..]))
  }

  /** What is printed of a value: `null` in place of an infinity. */
  function Printed(v: Json): Json {
    match v
    case Arr(items) => Arr(PrintedItems(items))
    case Obj(fields) => Obj(PrintedFields(fields))
    case _ => if Infinite(v) then Null else v
  }

  function PrintedItems(items: seq<Json>): seq<Json> {
    if items == [] then [] else [Printed(items[0])] + PrintedItems(items[1..])
  }

  function PrintedFields(fields: seq<Field>): seq<Field> {
    if fields == [] then [] else [Field(fields[0].key, Printed(fields[0].value))] + PrintedFields(fields[1..])
  }

  /** What is used of JSON: a parsed value is proper and no larger than its text,
      and what is printed of a proper value parses back to it. */
  ghost predicate JsonLaws(parse: Parser, stringify: Printer) {
    && ParserLaw(parse)
    && forall v :: Proper(parse, v) ==> parse(stringify(v)) == Some(Printed(v))
  }

  ghost predicate ParserLaw(parse: Parser) {
    forall s :: parse(s).Some? ==> Weight(parse(s).value) <= |s| && Proper(parse, parse(s).value)
  }

  // ---- decoding ----

  function Decode(parse: Parser, v: Json, key: string): Json
    requires ParserLaw(parse)
    decreases Weight(v), 1
  {
    if IsSecretField(key) then v
    else match v
      case Str(s) =>
        if s == "true" || s == "false" then Bool(s == "true")
        else if Serialized(s) && parse(s).Some? then Decode(parse, parse(s).value, "")
        else v
      case Arr(items) => Arr(DecodeItems(parse, items, key))
      case Obj(fields) => Obj(DecodeFields(parse, fields))
      case _ => v
  }

  function DecodeItems(parse: Parser, items: seq<Json>, key: string): seq<Json>
    requires ParserLaw(parse)
    decreases ItemsWeight(items), 2, |items|
  {
    if items == [] then [] else [Decode(parse, items[0], key)] + DecodeItems(parse, items[1..], key)
  }

  function DecodeFields(parse: Parser, fields: seq<Field>): seq<Field>
    requires ParserLaw(parse)
    decreases FieldsWeight(fields), 2, |fields|
  {
    if fields == [] then []
    else [Field(fields[0].key, Decode(parse, fields[0].value, fields[0].key))] + DecodeFields(parse, fields[1..])
  }

  // ---- encoding ----

  /** `original` is the value the decoded one came from, if there is one there. */
  function Encode(parse: Parser, stringify: Printer, v: Json, original: Option<Json>, field: string): Json
    requires ParserLaw(parse)
    decreases OriginalWeight(original), v, 1
  {
    if IsSecretField(field) then v
    else if v.Bool? && (original == Some(Str("true")) || original == Some(Str("false"))) then
      Str(if v.b then "true" else "false")
    else if original.Some? && original.value.Str? && Serialized(original.value.s) then
      var parsed := parse(original.value.s);
      if parsed.None? then v else Str(stringify(Encode(parse, stringify, v, parsed, "")))
    else match v
      case Arr(items) => Arr(EncodeItems(parse, stringify, items, ItemsOf(original), field))
      case Obj(fields) => Obj(EncodeFields(parse, stringify, fields, original))
      case _ => v
  }

  function OriginalWeight(original: Option<Json>): nat {
    if original.Some? then Weight(original.value) else 0
  }

  function ItemsOf(original: Option<Json>): seq<Json> {
    if original.Some? && original.value.Arr? then original.value.items else []
  }

  function EncodeItems(parse: Parser, stringify: Printer, items: seq<Json>, originals: seq<Json>, field: string): seq<Json>
    requires ParserLaw(parse)
    decreases ItemsWeight(originals), items, 0
  {
    if items == [] then []
    else
      var original := if originals != [] then Some(originals[0]) else None;
      [Encode(parse, stringify, items[0], original, field)]
      + EncodeItems(parse, stringify, items[1..], if originals != [] then originals[1..] else [], field)
  }

  function EncodeFields(parse: Parser, stringify: Printer, fields: seq<Field>, original: Option<Json>): seq<Field>
    requires ParserLaw(parse)
    decreases OriginalWeight(original), fields, 0
  {
    if fields == [] then []
    else
      var key := fields[0].key;
      var there := if original.Some? then Get(original.value, key) else None;
      LookupLighter(original, key);
      [Field(key, Encode(parse, stringify, fields[0].value, there, key))] + EncodeFields(parse, stringify, fields[1..], original)
  }

  lemma LookupLighter(original: Option<Json>, key: string)
    ensures original.Some? && Get(original.value, key).Some? ==>
              Weight(Get(original.value, key).value) < Weight(original.value)
  {
    if original.Some? && original.value.Obj? {
      FieldLighter(original.value.fields, key);
    }
  }

  lemma {:induction false} FieldLighter(fields: seq<Field>, key: string)
    ensures Lookup(fields, key).Some? ==> Weight(Lookup(fields, key).value) <= FieldsWeight(fields)
  {
    if fields != [] && fields[0].key != key {
      FieldLighter(fields[1..], key);
    }
  }

  // ---- the round trip ----

  /** Every serialized string that is opened prints back as it was written. */
  predicate Canonical(parse: Parser, stringify: Printer, v: Json, key: string)
    requires ParserLaw(parse)
    decreases Weight(v), 1
  {
    IsSecretField(key)
    || match v
       case Str(s) =>
         (Serialized(s) && parse(s).Some?) ==>
           stringify(parse(s).value) == s && Canonical(parse, stringify, parse(s).value, "")
       case Arr(items) => CanonicalItems(parse, stringify, items, key)
       case Obj(fields) => CanonicalFields(parse, stringify, fields)
       case _ => true
  }

  predicate CanonicalItems(parse: Parser, stringify: Printer, items: seq<Json>, key: string)
    requires ParserLaw(parse)
    decreases ItemsWeight(items), 2, |items|
  {
    items == [] || (Canonical(parse, stringify, items[0], key) && CanonicalItems(parse, stringify, items[1..], key))
  }

  predicate CanonicalFields(parse: Parser, stringify: Printer, fields: seq<Field>)
    requires ParserLaw(parse)
    decreases FieldsWeight(fields), 2, |fields|
  {
    fields == []
    || (Canonical(parse, stringify, fields[0].value, fields[0].key) && CanonicalFields(parse, stringify, fields[1..]))
  }

  function Again(parse: Parser, stringify: Printer, v: Json, key: string): Json
    requires ParserLaw(parse)
  {
    Encode(parse, stringify, Decode(parse, v, key), Some(v), key)
  }

  /** Without infinities. */
  predicate Finite(v: Json) {
    Printed(v) == v
  }

  lemma {:induction false} PrintedTwice(v: Json)
    ensures Finite(Printed(v))
  {
    match v
    case Arr(items) => PrintedItemsTwice(items);
    case Obj(fields) => PrintedFieldsTwice(fields);
    case _ =>
  }

  lemma {:induction false} PrintedItemsTwice(items: seq<Json>)
    ensures PrintedItems(PrintedItems(items)) == PrintedItems(items)
  {
    if items != [] {
      PrintedTwice(items[0]);
      PrintedItemsTwice(items[1..]);
      assert PrintedItems(items)[1..] == PrintedItems(items[1..]);
    }
  }

  lemma {:induction false} PrintedFieldsTwice(fields: seq<Field>)
    ensures PrintedFields(PrintedFields(fields)) == PrintedFields(fields)
  {
    if fields != [] {
      PrintedTwice(fields[0].value);
      PrintedFieldsTwice(fields[1..]);
      assert PrintedFields(fields)[1..] == PrintedFields(fields[1..]);
    }
  }

  lemma FiniteItems(items: seq<Json>)
    requires items != []
    ensures PrintedItems(items) == items <==> Finite(items[0]) && PrintedItems(items[1..]) == items[1..]
  {
    assert items == [items[0]] + items[1..];
    assert PrintedItems(items)[1..] == PrintedItems(items[1..]);
  }

  lemma FiniteFields(fields: seq<Field>)
    requires fields != []
    ensures PrintedFields(fields) == fields <==> Finite(fields[0].value) && PrintedFields(fields[1..]) == fields[1..]
  {
    assert fields == [fields[0]] + fields[1..];
    assert PrintedFields(fields)[1..] == PrintedFields(fields[1..]);
  }

  /** What is read and written back unedited is the value that was there, exactly
      when its serialized strings are in canonical form. */
  lemma {:induction false} RoundTrip(parse: Parser, stringify: Printer, v: Json, key: string)
    requires JsonLaws(parse, stringify) && Proper(parse, v)
    ensures Proper(parse, Again(parse, stringify, v, key))
    ensures Finite(v) ==> Finite(Again(parse, stringify, v, key))
    ensures Again(parse, stringify, v, key) == v <==> Canonical(parse, stringify, v, key)
    decreases Weight(v), 1
  {
    if IsSecretField(key) || Plain(parse, v) {
      PlainRoundTrip(parse, stringify, v, key);
    } else {
      match v
      case Str(s) =>
        RoundTrip(parse, stringify, parse(s).value, "");
        StringRoundTrip(parse, stringify, s, key, parse(s).value);
      case Arr(items) =>
        ItemsRoundTrip(parse, stringify, items, key);
        ArrayRoundTrip(parse, stringify, items, key);
      case Obj(fields) =>
        FindsAll(parse, fields);
        FieldsRoundTrip(parse, stringify, fields, fields);
        ObjectRoundTrip(parse, stringify, fields, key);
    }
  }

  lemma ArrayRoundTrip(parse: Parser, stringify: Printer, items: seq<Json>, key: string)
    requires ParserLaw(parse) && !IsSecretField(key)
    ensures
      var again, back := Again(parse, stringify, Arr(items), key), ItemsAgain(parse, stringify, items, key);
      && again == Arr(back) && (Proper(parse, again) <==> ProperItems(parse, back))
      && (Finite(again) <==> PrintedItems(back) == back) && (Finite(Arr(items)) <==> PrintedItems(items) == items)
      && (Canonical(parse, stringify, Arr(items), key) <==> CanonicalItems(parse, stringify, items, key))
  {
  }

  lemma ObjectRoundTrip(parse: Parser, stringify: Printer, fields: seq<Field>, key: string)
    requires ParserLaw(parse) && !IsSecretField(key)
    ensures
      var again, back := Again(parse, stringify, Obj(fields), key), FieldsAgain(parse, stringify, fields, fields);
      && again == Obj(back) && (Proper(parse, again) <==> ProperFields(parse, back))
      && (Finite(again) <==> PrintedFields(back) == back) && (Finite(Obj(fields)) <==> PrintedFields(fields) == fields)
      && (Canonical(parse, stringify, Obj(fields), key) <==> CanonicalFields(parse, stringify, fields))
  {
  }

  /** A value with nothing inside to decode. */
  predicate Plain(parse: Parser, v: Json) {
    match v
    case Str(s) => s == "true" || s == "false" || !Serialized(s) || parse(s).None?
    case Arr(_) => false
    case Obj(_) => false
    case _ => true
  }

  lemma PlainRoundTrip(parse: Parser, stringify: Printer, v: Json, key: string)
    requires ParserLaw(parse) && (IsSecretField(key) || Plain(parse, v))
    ensures Again(parse, stringify, v, key) == v && Canonical(parse, stringify, v, key)
  {
    NotSerialized();
  }

  lemma NotSerialized()
    ensures !Serialized("true") && !Serialized("false")
  {
  }

  /** A serialized string comes back exactly when it was printed from what is in it,
      and that comes back. */
  lemma StringRoundTrip(parse: Parser, stringify: Printer, s: string, key: string, inner: Json)
    requires JsonLaws(parse, stringify) && !IsSecretField(key)
    requires s != "true" && s != "false" && Serialized(s) && parse(s) == Some(inner)
    requires
      var back := Again(parse, stringify, inner, "");
      && Proper(parse, back) && (Finite(inner) ==> Finite(back))
      && (back == inner <==> Canonical(parse, stringify, inner, ""))
    ensures Again(parse, stringify, Str(s), key).Str?
    ensures Again(parse, stringify, Str(s), key) == Str(s) <==> Canonical(parse, stringify, Str(s), key)
  {
    var back := Again(parse, stringify, inner, "");
    PrintedTwice(back);
    assert parse(stringify(back)) == Some(Printed(back));
    SerializedRoundTrip(parse, stringify, s, key);
    assert Canonical(parse, stringify, Str(s), key) <==> stringify(inner) == s && Canonical(parse, stringify, inner, "");
  }

  lemma SerializedRoundTrip(parse: Parser, stringify: Printer, s: string, key: string)
    requires ParserLaw(parse) && !IsSecretField(key)
    requires s != "true" && s != "false" && Serialized(s) && parse(s).Some?
    ensures Again(parse, stringify, Str(s), key) == Str(stringify(Again(parse, stringify, parse(s).value, "")))
  {
  }

  lemma {:induction false} ItemsRoundTrip(parse: Parser, stringify: Printer, items: seq<Json>, key: string)
    requires JsonLaws(parse, stringify) && ProperItems(parse, items)
    ensures
      var back := ItemsAgain(parse, stringify, items, key);
      && ProperItems(parse, back) && (PrintedItems(items) == items ==> PrintedItems(back) == back)
      && (back == items <==> CanonicalItems(parse, stringify, items, key))
    decreases ItemsWeight(items), 2, |items|
  {
    if items != [] {
      RoundTrip(parse, stringify, items[0], key);
      ItemsRoundTrip(parse, stringify, items[1..], key);
      ItemsStep(parse, stringify, items, key);
      FiniteItems(items);
      FiniteItems(ItemsAgain(parse, stringify, items, key));
    }
  }

  function ItemsAgain(parse: Parser, stringify: Printer, items: seq<Json>, key: string): seq<Json>
    requires ParserLaw(parse)
  {
    EncodeItems(parse, stringify, DecodeItems(parse, items, key), items, key)
  }

  lemma ItemsStep(parse: Parser, stringify: Printer, items: seq<Json>, key: string)
    requires ParserLaw(parse) && items != []
    ensures
      var back := ItemsAgain(parse, stringify, items, key);
      && back != []
      && back[0] == Again(parse, stringify, items[0], key) && back[1..] == ItemsAgain(parse, stringify, items[1..], key)
      && (back == items <==> back[0] == items[0] && back[1..] == items[1..])
  {
    var decoded := DecodeItems(parse, items, key);
    assert decoded[1..] == DecodeItems(parse, items[1..], key);
    assert items == [items[0]] + items[1..];
  }

  /** Looking up the keys of `part` in `fields` finds their values. */
  predicate Finds(fields: seq<Field>, part: seq<Field>) {
    part == [] || (Lookup(fields, part[0].key) == Some(part[0].value) && Finds(fields, part[1..]))
  }

  lemma {:induction false} FindsAll(parse: Parser, fields: seq<Field>)
    requires ProperFields(parse, fields)
    ensures Finds(fields, fields)
  {
    if fields != [] {
      FindsAll(parse, fields[1..]);
      FindsBelow(fields, fields[1..]);
    }
  }

  lemma {:induction false} FindsBelow(fields: seq<Field>, part: seq<Field>)
    requires fields != [] && Finds(fields[1..], part) && Lookup(part, fields[0].key).None?
    ensures Finds(fields, part)
  {
    if part != [] {
      FindsBelow(fields, part[1..]);
    }
  }

  predicate SameKeys(a: seq<Field>, b: seq<Field>) {
    |a| == |b| && forall i :: 0 <= i < |a| ==> a[i].key == b[i].key
  }

  lemma {:induction false} SameKeysFound(a: seq<Field>, b: seq<Field>, key: string)
    requires SameKeys(a, b)
    ensures Lookup(a, key).None? <==> Lookup(b, key).None?
  {
    if a != [] {
      assert SameKeys(a[1..], b[1..]);
      SameKeysFound(a[1..], b[1..], key);
    }
  }

  /** The keys decide whether fields are in order. */
  lemma SameKeysProper(parse: Parser, back: seq<Field>, part: seq<Field>)
    requires part != [] && SameKeys(back, part) && ProperFields(parse, part)
    requires Proper(parse, back[0].value) && ProperFields(parse, back[1..])
    ensures ProperFields(parse, back)
  {
    assert SameKeys(back[1..], part[1..]);
    SameKeysFound(back[1..], part[1..], part[0].key);
    forall f | f in back[1..]
      ensures Precedes(back[0].key, f.key)
    {
      var i :| 0 <= i < |back[1..]| && back[1..][i] == f;
      assert part[1..][i] in part[1..];
    }
  }

  lemma {:induction false} FieldsRoundTrip(parse: Parser, stringify: Printer, fields: seq<Field>, part: seq<Field>)
    requires JsonLaws(parse, stringify) && ProperFields(parse, part) && Finds(fields, part)
    ensures
      var back := FieldsAgain(parse, stringify, fields, part);
      && ProperFields(parse, back) && SameKeys(back, part)
      && (PrintedFields(part) == part ==> PrintedFields(back) == back)
      && (back == part <==> CanonicalFields(parse, stringify, part))
    decreases FieldsWeight(part), 2, |part|
  {
    if part != [] {
      var key, value := part[0].key, part[0].value;
      RoundTrip(parse, stringify, value, key);
      FieldsRoundTrip(parse, stringify, fields, part[1..]);
      FieldsStep(parse, stringify, fields, part);
      var back := FieldsAgain(parse, stringify, fields, part);
      KeysBySteps(back, part);
      SameKeysProper(parse, back, part);
      FiniteFields(part);
      FiniteFields(back);
    }
  }

  lemma KeysBySteps(back: seq<Field>, part: seq<Field>)
    requires back != [] && part != [] && back[0].key == part[0].key && SameKeys(back[1..], part[1..])
    ensures SameKeys(back, part)
  {
    forall i | 0 < i < |back|
      ensures back[i].key == part[i].key
    {
      assert back[i] == back[1..][i - 1] && part[i] == part[1..][i - 1];
    }
  }

  function FieldsAgain(parse: Parser, stringify: Printer, fields: seq<Field>, part: seq<Field>): seq<Field>
    requires ParserLaw(parse)
  {
    EncodeFields(parse, stringify, DecodeFields(parse, part), Some(Obj(fields)))
  }

  lemma FieldsStep(parse: Parser, stringify: Printer, fields: seq<Field>, part: seq<Field>)
    requires ParserLaw(parse) && part != [] && Finds(fields, part)
    ensures
      var back := FieldsAgain(parse, stringify, fields, part);
      && back != []
      && back[0] == Field(part[0].key, Again(parse, stringify, part[0].value, part[0].key))
      && back[1..] == FieldsAgain(parse, stringify, fields, part[1..])
      && (back == part <==> back[0] == part[0] && back[1..] == part[1..])
  {
    var decoded := DecodeFields(parse, part);
    assert decoded[1..] == DecodeFields(parse, part[1..]);
    assert part == [part[0]] + part[1..];
  }

  // ---- secrets stay as they are ----

  datatype Place = Item(index: nat) | Property(key: string)

  /** One place deeper. */
  function Child(v: Json, place: Place): Option<Json> {
    match place
    case Item(i) => if v.Arr? && i < |v.items| then Some(v.items[i]) else None
    case Property(k) => Get(v, k)
  }

  /** The value at a place in a value, without looking into serialized strings. */
  function At(v: Json, path: seq<Place>): Option<Json>
    decreases path
  {
    if path == [] then Some(v)
    else
      var child := Child(v, path[0]);
      if child.Some? then At(child.value, path[1..]) else None
  }

  /** The field name in force at the end of a path. */
  function FieldAt(path: seq<Place>, key: string): string {
    if path == [] then key
    else FieldAt(path[1..], match path[0] case Item(_) => key case Property(k) => k)
  }

  lemma {:induction false} DecodeItemAt(parse: Parser, items: seq<Json>, key: string, i: nat)
    requires ParserLaw(parse) && i < |items|
    ensures |DecodeItems(parse, items, key)| == |items| && DecodeItems(parse, items, key)[i] == Decode(parse, items[i], key)
  {
    if i > 0 {
      DecodeItemAt(parse, items[1..], key, i - 1);
    } else if |items| > 1 {
      DecodeItemAt(parse, items[1..], key, 0);
    }
  }

  lemma {:induction false} DecodeFieldAt(parse: Parser, fields: seq<Field>, key: string)
    requires ParserLaw(parse)
    ensures Lookup(DecodeFields(parse, fields), key) ==
            if Lookup(fields, key).Some? then Some(Decode(parse, Lookup(fields, key).value, key)) else None
  {
    if fields != [] {
      var decoded := DecodeFields(parse, fields);
      assert decoded[1..] == DecodeFields(parse, fields[1..]);
      if fields[0].key != key {
        DecodeFieldAt(parse, fields[1..], key);
      }
    }
  }

  lemma DecodeStep(parse: Parser, v: Json, key: string, place: Place)
    requires ParserLaw(parse) && !IsSecretField(key) && Child(v, place).Some?
    ensures
      var name := match place case Item(_) => key case Property(k) => k;
      Child(Decode(parse, v, key), place) == Some(Decode(parse, Child(v, place).value, name))
  {
    match place
    case Item(i) => DecodeItemAt(parse, v.items, key, i);
    case Property(k) => DecodeFieldAt(parse, v.fields, k);
  }

  /** Decoding acts place by place: what stands at a place of arrays and objects is
      decoded under its own field name, and under a secret name not at all. */
  lemma {:induction false} DecodesInPlace(parse: Parser, v: Json, key: string, path: seq<Place>)
    requires ParserLaw(parse)
    requires forall i :: 0 <= i < |path| ==> !IsSecretField(FieldAt(path[..i], key))
    requires At(v, path).Some?
    ensures At(Decode(parse, v, key), path) == Some(Decode(parse, At(v, path).value, FieldAt(path, key)))
    ensures IsSecretField(FieldAt(path, key)) ==> At(Decode(parse, v, key), path) == At(v, path)
    decreases path
  {
    if path != [] {
      assert !IsSecretField(FieldAt(path[..0], key));
      var next := match path[0] case Item(_) => key case Property(k) => k;
      forall i | 0 <= i < |path[1..]|
        ensures !IsSecretField(FieldAt(path[1..][..i], next))
      {
        assert path[..i + 1][1..] == path[1..][..i] && path[..i + 1][0] == path[0];
      }
      DecodeStep(parse, v, key, path[0]);
      DecodesInPlace(parse, Child(v, path[0]).value, next, path[1..]);
    }
  }

}
