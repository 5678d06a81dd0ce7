/** A parser and a printer that meet the laws assumed of JSON: values are written in
    JSON's syntax, and a text is read as the one value it is written for. */
module JsonTexts {
  import opened Options
  import opened JsonValues
  import opened PanelFields

  // ---- writing ----

  function Unit(c: char): string {
    if c == '"' || c == '\\' then ['\\', c] else [c]
  }

  function Escaped(s: string): string {
    if s == [] then [] else Unit(s[0]) + Escaped(s[1..])
  }

  function Quoted(s: string): string {
    ['"'] + (Escaped(s) + ['"'])
  }

  function Write(v: Json): string {
    match v
    case Null => "null"
    case Bool(b) => if b then "true" else "false"
    case Num(t) => t
    case Str(s) => Quoted(s)
    case Arr(items) => "[" + WriteItems(items, true)
    case Obj(fields) => "{" + WriteFields(fields, true)
  }

  function Comma(first: bool): string {
    if first then "" else ","
  }

  function WriteItems(items: seq<Json>, first: bool): string {
    if items == [] then "]" else Comma(first) + (Write(items[0]) + WriteItems(items[1..], false))
  }

  function WriteFields(fields: seq<Field>, first: bool): string {
    if fields == [] then "}"
    else Comma(first) + (Quoted(fields[0].key) + (":" + (Write(fields[0].value) + WriteFields(fields[1..], false))))
  }

  /** The characters a number is written with. */
  predicate Numeric(c: char) {
    '0' <= c <= '9' || c in {'-', '+', '.', 'e'}
  }

  predicate Numeral(t: string) {
    t != "" && t[0] != 'e' && forall c <- t :: Numeric(c)
  }

  predicate Numerals(v: Json) {
    match v
    case Num(t) => Numeral(t)
    case Arr(items) => forall i :: 0 <= i < |items| ==> Numerals(items[i])
    case Obj(fields) => forall i :: 0 <= i < |fields| ==> Numerals(fields[i].value)
    case _ => true
  }

  // ---- a text is written for one value only ----

  /** What can follow a value. */
  predicate Stops(x: string) {
    x == "" || x[0] in {',', ']', '}'}
  }

  lemma UnitUnique(c: char, d: char, x: string, y: string)
    requires Unit(c) + x == Unit(d) + y
    ensures c == d && x == y
  {
    var a, b := Unit(c) + x, Unit(d) + y;
    assert a[0] == Unit(c)[0] && b[0] == Unit(d)[0];
    assert |Unit(c)| == 2 ==> a[1] == c;
    assert |Unit(d)| == 2 ==> b[1] == d;
    assert x == a[|Unit(c)|..] && y == b[|Unit(d)|..];
  }

  lemma EscapedHead(s: string, x: string)
    ensures (Escaped(s) + (['"'] + x))[0] == '"' <==> s == []
    ensures s == [] ==> (Escaped(s) + (['"'] + x))[1..] == x
    ensures s != [] ==> Escaped(s) + (['"'] + x) == Unit(s[0]) + (Escaped(s[1..]) + (['"'] + x))
  {
  }

  lemma {:induction false} EscapedUnique(s: string, r: string, x: string, y: string)
    requires Escaped(s) + (['"'] + x) == Escaped(r) + (['"'] + y)
    ensures s == r && x == y
    decreases s
  {
    EscapedHead(s, x);
    EscapedHead(r, y);
    if s != [] {
      UnitUnique(s[0], r[0], Escaped(s[1..]) + (['"'] + x), Escaped(r[1..]) + (['"'] + y));
      EscapedUnique(s[1..], r[1..], x, y);
      assert s == [s[0]] + s[1..] && r == [r[0]] + r[1..];
    }
  }

  lemma QuotedUnique(s: string, r: string, x: string, y: string)
    requires Quoted(s) + x == Quoted(r) + y
    ensures s == r && x == y
  {
    assert (Quoted(s) + x)[1..] == Escaped(s) + (['"'] + x);
    assert (Quoted(r) + y)[1..] == Escaped(r) + (['"'] + y);
    EscapedUnique(s, r, x, y);
  }

  lemma NumeralHead(t: string, x: string)
    requires (forall c <- t :: Numeric(c)) && Stops(x)
    ensures t == "" <==> Stops(t + x)
  {
    if t != "" {
      assert t[0] in t;
    } else {
      assert t + x == x;
    }
  }

  lemma {:induction false} NumeralUnique(t: string, u: string, x: string, y: string)
    requires (forall c <- t :: Numeric(c)) && (forall c <- u :: Numeric(c)) && Stops(x) && Stops(y)
    requires t + x == u + y
    ensures t == u && x == y
  {
    NumeralHead(t, x);
    NumeralHead(u, y);
    if t == "" || u == "" {
      assert x == (t + x)[|t|..] && y == (u + y)[|u|..];
    } else {
      assert (t + x)[0] == t[0] && (u + y)[0] == u[0];
      assert (t + x)[1..] == t[1..] + x && (u + y)[1..] == u[1..] + y;
      NumeralUnique(t[1..], u[1..], x, y);
      assert t == [t[0]] + t[1..] && u == [u[0]] + u[1..];
    }
  }

  /** The first character tells the kinds of values apart. */
  function Head(v: Json): char {
    match v
    case Null => 'n'
    case Bool(b) => if b then 't' else 'f'
    case Num(t) => if t != "" then t[0] else '0'
    case Str(_) => '"'
    case Arr(_) => '['
    case Obj(_) => '{'
  }

  lemma HeadIsFirst(v: Json, x: string)
    requires Numerals(v)
    ensures Write(v) != "" && (Write(v) + x)[0] == Head(v) && Head(v) !in {',', ']', '}'}
    ensures v.Num? ==> Numeric(Head(v)) && Head(v) != 'e'
  {
    if v.Num? {
      assert v.text[0] in v.text;
    }
  }

  lemma {:induction false} WriteUnique(v: Json, w: Json, x: string, y: string)
    requires Numerals(v) && Numerals(w) && Stops(x) && Stops(y)
    requires Write(v) + x == Write(w) + y
    ensures v == w && x == y
    decreases v, 1
  {
    HeadIsFirst(v, x);
    HeadIsFirst(w, y);
    if v.Num? {
      NumeralUnique(v.text, w.text, x, y);
    } else if v.Str? {
      QuotedUnique(v.s, w.s, x, y);
    } else if v.Arr? {
      AfterBracket("[", WriteItems(v.items, true), x);
      AfterBracket("[", WriteItems(w.items, true), y);
      ItemsUnique(v.items, w.items, true, x, y);
    } else if v.Obj? {
      AfterBracket("{", WriteFields(v.fields, true), x);
      AfterBracket("{", WriteFields(w.fields, true), y);
      FieldsUnique(v.fields, w.fields, true, x, y);
    } else {
      assert v == w;
      assert x == (Write(v) + x)[|Write(v)|..] && y == (Write(w) + y)[|Write(w)|..];
    }
  }

  lemma AfterBracket(bracket: string, text: string, x: string)
    ensures (bracket + text + x)[|bracket|..] == text + x
  {
  }

  lemma {:induction false} ItemsUnique(a: seq<Json>, b: seq<Json>, first: bool, x: string, y: string)
    requires (forall i :: 0 <= i < |a| ==> Numerals(a[i])) && forall i :: 0 <= i < |b| ==> Numerals(b[i])
    requires WriteItems(a, first) + x == WriteItems(b, first) + y
    ensures a == b && x == y
    decreases a, 0
  {
    if a == [] || b == [] {
      ItemsHead(a, first, x);
      ItemsHead(b, first, y);
      assert "]" + x == [']'] + x && "]" + y == [']'] + y;
      assert x == (WriteItems(a, first) + x)[|WriteItems(a, first)|..] && y == (WriteItems(b, first) + y)[|WriteItems(b, first)|..];
    } else {
      ItemsRest(a, first, x);
      ItemsRest(b, first, y);
      WriteUnique(a[0], b[0], WriteItems(a[1..], false) + x, WriteItems(b[1..], false) + y);
      ItemsUnique(a[1..], b[1..], false, x, y);
      assert a == [a[0]] + a[1..] && b == [b[0]] + b[1..];
    }
  }

  lemma ItemsHead(items: seq<Json>, first: bool, x: string)
    requires forall i :: 0 <= i < |items| ==> Numerals(items[i])
    ensures WriteItems(items, first) != ""
    ensures (WriteItems(items, first) + x)[0] == ']' <==> items == []
    ensures Stops(WriteItems(items, false) + x)
  {
    if items != [] {
      HeadIsFirst(items[0], WriteItems(items[1..], false) + x);
      assert Comma(first) + (Write(items[0]) + WriteItems(items[1..], false)) + x
          == Comma(first) + (Write(items[0]) + (WriteItems(items[1..], false) + x));
    }
  }

  lemma ItemsRest(items: seq<Json>, first: bool, x: string)
    requires items != [] && forall i :: 0 <= i < |items| ==> Numerals(items[i])
    ensures (WriteItems(items, first) + x)[|Comma(first)|..] == Write(items[0]) + (WriteItems(items[1..], false) + x)
    ensures Stops(WriteItems(items[1..], false) + x)
  {
    ItemsHead(items[1..], false, x);
    assert WriteItems(items, first) + x == Comma(first) + (Write(items[0]) + (WriteItems(items[1..], false) + x));
  }

  lemma {:induction false} FieldsUnique(a: seq<Field>, b: seq<Field>, first: bool, x: string, y: string)
    requires (forall i :: 0 <= i < |a| ==> Numerals(a[i].value)) && forall i :: 0 <= i < |b| ==> Numerals(b[i].value)
    requires WriteFields(a, first) + x == WriteFields(b, first) + y
    ensures a == b && x == y
    decreases a, 0
  {
    if a == [] || b == [] {
      FieldsHead(a, first, x);
      FieldsHead(b, first, y);
      assert x == (WriteFields(a, first) + x)[|WriteFields(a, first)|..] && y == (WriteFields(b, first) + y)[|WriteFields(b, first)|..];
    } else {
      FieldsRest(a, first, x);
      FieldsRest(b, first, y);
      var s, t := Write(a[0].value) + (WriteFields(a[1..], false) + x), Write(b[0].value) + (WriteFields(b[1..], false) + y);
      QuotedUnique(a[0].key, b[0].key, ":" + s, ":" + t);
      assert (":" + s)[1..] == s && (":" + t)[1..] == t;
      WriteUnique(a[0].value, b[0].value, WriteFields(a[1..], false) + x, WriteFields(b[1..], false) + y);
      FieldsUnique(a[1..], b[1..], false, x, y);
      assert a == [a[0]] + a[1..] && b == [b[0]] + b[1..];
    }
  }

  lemma FieldsHead(fields: seq<Field>, first: bool, x: string)
    ensures WriteFields(fields, first) != ""
    ensures (WriteFields(fields, first) + x)[0] == '}' <==> fields == []
    ensures Stops(WriteFields(fields, false) + x)
  {
    if fields != [] {
      assert Quoted(fields[0].key)[0] == '"';
    }
  }

  lemma FieldsRest(fields: seq<Field>, first: bool, x: string)
    requires fields != []
    ensures (WriteFields(fields, first) + x)[|Comma(first)|..]
            == Quoted(fields[0].key) + (":" + (Write(fields[0].value) + (WriteFields(fields[1..], false) + x)))
    ensures Stops(WriteFields(fields[1..], false) + x)
  {
    FieldsHead(fields[1..], false, x);
    Nested(Comma(first), Quoted(fields[0].key), ":", Write(fields[0].value), WriteFields(fields[1..], false), x);
  }

  lemma Nested(a: string, b: string, c: string, d: string, e: string, x: string)
    ensures (a + (b + (c + (d + e))) + x)[|a|..] == b + (c + (d + (e + x)))
  {
  }

  // ---- a text is no shorter than its value ----

  lemma {:induction false} EscapedLonger(s: string)
    ensures |Escaped(s)| >= |s|
  {
    if s != [] {
      EscapedLonger(s[1..]);
    }
  }

  lemma {:induction false} WriteLonger(v: Json)
    requires Numerals(v)
    ensures Weight(v) <= |Write(v)|
    decreases v, 1
  {
    match v
    case Str(s) => EscapedLonger(s);
    case Arr(items) => ItemsLonger(items, true);
    case Obj(fields) => FieldsLonger(fields, true);
    case _ =>
  }

  lemma {:induction false} ItemsLonger(items: seq<Json>, first: bool)
    requires forall i :: 0 <= i < |items| ==> Numerals(items[i])
    ensures ItemsWeight(items) <= |WriteItems(items, first)|
    decreases items, 0
  {
    if items != [] {
      WriteLonger(items[0]);
      ItemsLonger(items[1..], false);
    }
  }

  lemma {:induction false} FieldsLonger(fields: seq<Field>, first: bool)
    requires forall i :: 0 <= i < |fields| ==> Numerals(fields[i].value)
    ensures FieldsWeight(fields) <= |WriteFields(fields, first)|
    decreases fields, 0
  {
    if fields != [] {
      WriteLonger(fields[0].value);
      FieldsLonger(fields[1..], false);
    }
  }

  // ---- reading ----

  function NumeralOnly(t: string): Option<Json> {
    if Numeral(t) then Some(Num(t)) else None
  }

  ghost predicate Writes(v: Json, s: string) {
    Proper(NumeralOnly, v) && Finite(v) && Write(v) == s
  }

  ghost function ReadText(s: string): Option<Json> {
    if v :| Writes(v, s) then Some(v) else None
  }

  ghost function PrintText(v: Json): string {
    Write(Printed(v))
  }

  lemma WrittenIsNumeral(t: string)
    ensures ReadText(t) == Some(Num(t)) <==> NumeralOnly(t) == Some(Num(t))
  {
    if Numeral(t) {
      NumeralIsFinite(t);
      assert Writes(Num(t), t);
      var v :| Writes(v, t) && ReadText(t) == Some(v);
      WritesOnce(v, Num(t), t);
    }
    if ReadText(t) == Some(Num(t)) {
      assert Writes(Num(t), t);
    }
  }

  lemma NumeralIsFinite(t: string)
    requires Numeral(t)
    ensures Finite(Num(t))
  {
    assert !Numeric('I') && "Infinity"[0] == 'I' && "-Infinity"[1] == 'I';
    assert t[0] in t;
    assert |t| > 1 ==> t[1] in t;
  }

  lemma WritesOnce(v: Json, w: Json, s: string)
    requires Writes(v, s) && Writes(w, s)
    ensures v == w
  {
    WrittenNumerals(v);
    WrittenNumerals(w);
    WriteUnique(v, w, "", "");
  }

  lemma {:induction false} WrittenNumerals(v: Json)
    requires Proper(NumeralOnly, v) && Finite(v)
    ensures Numerals(v)
    decreases v
  {
    match v
    case Arr(items) => ItemsNumerals(items);
    case Obj(fields) => FieldsNumerals(fields);
    case _ =>
  }

  lemma {:induction false} ItemsNumerals(items: seq<Json>)
    requires ProperItems(NumeralOnly, items) && PrintedItems(items) == items
    ensures forall i :: 0 <= i < |items| ==> Numerals(items[i])
    decreases items
  {
    if items != [] {
      FiniteItems(items);
      WrittenNumerals(items[0]);
      ItemsNumerals(items[1..]);
      assert forall i :: 0 < i < |items| ==> items[i] == items[1..][i - 1];
    }
  }

  lemma {:induction false} FieldsNumerals(fields: seq<Field>)
    requires ProperFields(NumeralOnly, fields) && PrintedFields(fields) == fields
    ensures forall i :: 0 <= i < |fields| ==> Numerals(fields[i].value)
    decreases fields
  {
    if fields != [] {
      FiniteFields(fields);
      WrittenNumerals(fields[0].value);
      FieldsNumerals(fields[1..]);
      assert forall i :: 0 < i < |fields| ==> fields[i] == fields[1..][i - 1];
    }
  }

  // ---- the laws ----

  ghost predicate SameNumbers(p: Parser, q: Parser) {
    forall t :: p(t) == Some(Num(t)) <==> q(t) == Some(Num(t))
  }

  /** All a parser says about whether a value is proper is which numbers are. */
  lemma {:induction false} ProperBy(p: Parser, q: Parser, v: Json)
    requires SameNumbers(p, q) && Proper(p, v)
    ensures Proper(q, v)
    decreases v
  {
    match v
    case Arr(items) => ItemsProperBy(p, q, items);
    case Obj(fields) => FieldsProperBy(p, q, fields);
    case _ =>
  }

  lemma {:induction false} ItemsProperBy(p: Parser, q: Parser, items: seq<Json>)
    requires SameNumbers(p, q) && ProperItems(p, items)
    ensures ProperItems(q, items)
    decreases items
  {
    if items != [] {
      ProperBy(p, q, items[0]);
      ItemsProperBy(p, q, items[1..]);
    }
  }

  lemma {:induction false} FieldsProperBy(p: Parser, q: Parser, fields: seq<Field>)
    requires SameNumbers(p, q) && ProperFields(p, fields)
    ensures ProperFields(q, fields)
    decreases fields
  {
    if fields != [] {
      ProperBy(p, q, fields[0].value);
      FieldsProperBy(p, q, fields[1..]);
    }
  }

  lemma {:induction false} PrintedProper(p: Parser, v: Json)
    requires Proper(p, v)
    ensures Proper(p, Printed(v))
    decreases v
  {
    match v
    case Arr(items) => PrintedItemsProper(p, items);
    case Obj(fields) => PrintedFieldsProper(p, fields);
    case _ =>
  }

  lemma {:induction false} PrintedItemsProper(p: Parser, items: seq<Json>)
    requires ProperItems(p, items)
    ensures ProperItems(p, PrintedItems(items))
    decreases items
  {
    if items != [] {
      PrintedProper(p, items[0]);
      PrintedItemsProper(p, items[1..]);
      assert PrintedItems(items)[1..] == PrintedItems(items[1..]);
    }
  }

  lemma {:induction false} PrintedFieldsProper(p: Parser, fields: seq<Field>)
    requires ProperFields(p, fields)
    ensures ProperFields(p, PrintedFields(fields)) && SameKeys(PrintedFields(fields), fields)
    decreases fields
  {
    if fields != [] {
      var printed := PrintedFields(fields);
      PrintedProper(p, fields[0].value);
      PrintedFieldsProper(p, fields[1..]);
      assert printed[1..] == PrintedFields(fields[1..]);
      KeysBySteps(printed, fields);
      SameKeysProper(p, printed, fields);
    }
  }

  /** The laws assumed of JSON can be met. */
  lemma LawsAreMet()
    ensures JsonLaws(ReadText, PrintText)
    ensures forall t :: Numeral(t) ==> ReadText(t) == Some(Num(t))
  {
    forall t
      ensures ReadText(t) == Some(Num(t)) <==> NumeralOnly(t) == Some(Num(t))
    {
      WrittenIsNumeral(t);
    }
    assert SameNumbers(NumeralOnly, ReadText) && SameNumbers(ReadText, NumeralOnly);
    forall s | ReadText(s).Some?
      ensures Weight(ReadText(s).value) <= |s| && Proper(ReadText, ReadText(s).value)
    {
      ReadIsProper(s);
    }
    forall v | Proper(ReadText, v)
      ensures ReadText(PrintText(v)) == Some(Printed(v))
    {
      PrintedIsRead(v);
    }
  }

  lemma ReadIsProper(s: string)
    requires ReadText(s).Some? && SameNumbers(NumeralOnly, ReadText)
    ensures Weight(ReadText(s).value) <= |s| && Proper(ReadText, ReadText(s).value)
  {
    var v := ReadText(s).value;
    assert Writes(v, s);
    WrittenNumerals(v);
    WriteLonger(v);
    ProperBy(NumeralOnly, ReadText, v);
  }

  lemma PrintedIsRead(v: Json)
    requires Proper(ReadText, v) && SameNumbers(ReadText, NumeralOnly)
    ensures ReadText(PrintText(v)) == Some(Printed(v))
  {
    var s := PrintText(v);
    ProperBy(ReadText, NumeralOnly, v);
    PrintedProper(NumeralOnly, v);
    PrintedTwice(v);
    assert Writes(Printed(v), s);
    var w :| Writes(w, s) && ReadText(s) == Some(w);
    WritesOnce(w, Printed(v), s);
  }
}
