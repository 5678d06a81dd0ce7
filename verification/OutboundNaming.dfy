/** What the preparation of outbounds makes of a row, over its JSON: the name it
    gets, whether it is taken at all, and which names it refers to. */
module OutboundNaming {
  import opened Options
  import opened JsonValues
  import opened Texts
  import opened OutboundImport

  // ---- names ----

  /** The part of a text between its outer white space. */
  ghost predicate Inner(text: string, part: string) {
    && (exists i, j :: Trims(text, i, j) && part == text[i..j])
    && (part != "" ==> !IsSpace(part[0]) && !IsSpace(part[|part| - 1]))
  }

  /** The name a row comes with: its tag as text, without outer white space. */
  ghost predicate ComesAs(outbound: Json, name: string) {
    match Get(outbound, "tag")
    case Some(Str(s)) => Inner(s, name)
    case Some(Num(t)) => if t == "0" then name == "" else Inner(t, name)
    case Some(Bool(b)) => if b then name == "true" else name == ""
    case Some(Obj(_)) => name == "[object Object]"
    case Some(Arr(items)) => Inner(JsonText(Arr(items)), name)
    case Some(Null) => name == ""
    case None => name == ""
  }

  /** Every cut that takes only white space keeps what is between two other characters. */
  lemma CutKeeps(text: string, i: int, j: int, m: int, n: int)
    requires 0 <= i < j <= |text| && !IsSpace(text[i]) && !IsSpace(text[j - 1])
    requires Trims(text, m, n)
    ensures m <= i && j <= n
  {
  }

  lemma SameCut(text: string, i: int, j: int, m: int, n: int)
    requires Trims(text, i, j) && Trims(text, m, n)
    requires i < j ==> !IsSpace(text[i]) && !IsSpace(text[j - 1])
    requires m < n ==> !IsSpace(text[m]) && !IsSpace(text[n - 1])
    ensures text[i..j] == text[m..n]
  {
    if i < j {
      CutKeeps(text, i, j, m, n);
    }
    if m < n {
      CutKeeps(text, m, n, i, j);
    }
  }

  lemma InnerIsUnique(text: string, a: string, b: string)
    requires Inner(text, a) && Inner(text, b)
    ensures a == b
  {
    var i, j :| Trims(text, i, j) && a == text[i..j];
    var m, n :| Trims(text, m, n) && b == text[m..n];
    SameCut(text, i, j, m, n);
  }

  lemma InnerIsTrim(text: string, part: string)
    ensures Inner(text, part) <==> part == Trim(text)
  {
    TrimTakesSpace(text);
    var i, j :| Trims(text, i, j) && Trim(text) == text[i..j];
    if Inner(text, part) {
      InnerIsUnique(text, part, Trim(text));
    }
  }

  lemma OriginalIs(outbound: Json, name: string)
    ensures ComesAs(outbound, name) <==> name == OriginalTag(outbound)
  {
    PlainTexts();
    match Get(outbound, "tag")
    case Some(Str(s)) => InnerIsTrim(s, name);
    case Some(Num(t)) => InnerIsTrim(t, name);
    case Some(Arr(items)) => InnerIsTrim(JsonText(Arr(items)), name);
    case _ =>
  }

  lemma PlainTexts()
    ensures Trim("") == "" && Trim("true") == "true" && Trim("[object Object]") == "[object Object]"
  {
  }

  /** The n-th replacement of a name: its first 150 characters, a dash and n. */
  function Replacement(name: string, n: nat): string {
    (if |name| > 150 then name[..150] else name) + "-" + Decimal(n)
  }

  /** The first replacement that is free, counted from 2. */
  ghost predicate FirstFree(name: string, taken: set<string>, n: nat) {
    n >= 2 && Replacement(name, n) !in taken && forall m: nat :: 2 <= m < n ==> Replacement(name, m) in taken
  }

  /** A row is taken under its own name, or where that is occupied and renaming was
      asked for under the first free replacement. */
  ghost predicate NamedAs(row: Row, taken: set<string>, conflict: string, tag: string) {
    exists name ::
      && ComesAs(row.outbound, name) && 1 <= |name| <= 160
      && (exists kind :: Get(row.outbound, "type") == Some(Str(kind)) && kind != "")
      && (if name !in taken then tag == name
          else conflict == "rename" && exists n: nat :: FirstFree(name, taken, n) && tag == Replacement(name, n))
  }

  lemma FirstFreeIs(name: string, taken: set<string>, n: nat)
    ensures FirstFree(name, taken, n) <==> n >= 2 && IsFirstFree(name, n, taken)
    ensures Replacement(name, n) == Suffixed(Stem(name), n)
  {
    forall m: nat
      ensures Replacement(name, m) == Suffixed(Stem(name), m)
    {
    }
  }

  lemma NextTagIs(name: string, taken: set<string>, tag: string)
    ensures NextTag(name, taken, tag) <==>
      if name !in taken then tag == name
      else exists n: nat :: FirstFree(name, taken, n) && tag == Replacement(name, n)
  {
    forall n: nat
      ensures FirstFree(name, taken, n) <==> n >= 2 && IsFirstFree(name, n, taken)
      ensures Replacement(name, n) == Suffixed(Stem(name), n)
    {
      FirstFreeIs(name, taken, n);
    }
    if name in taken && NextTag(name, taken, tag) {
      var n: nat :| n >= 2 && IsFirstFree(name, n, taken) && tag == Suffixed(Stem(name), n);
      assert FirstFree(name, taken, n) && tag == Replacement(name, n);
    }
  }

  /** A plan names every row against the occupied names and the rows before it. */
  lemma PlanMeans(rows: seq<Row>, occupied: set<string>, conflict: string, tags: seq<string>, i: nat)
    requires i < |tags| <= |rows|
    ensures
      var before := set t | t in tags[..i];
      PlannedAt(rows, occupied, conflict, tags, i) <==> NamedAs(rows[i], occupied + before, conflict, tags[i])
  {
    var row, taken := rows[i], occupied + Elements(tags[..i]);
    var name := OriginalTag(row.outbound);
    OriginalIs(row.outbound, name);
    GoodRowIs(row);
    NextTagIs(name, taken, tags[i]);
    if NamedAs(row, taken, conflict, tags[i]) {
      var other :| ComesAs(row.outbound, other) && 1 <= |other| <= 160
        && (exists kind :: Get(row.outbound, "type") == Some(Str(kind)) && kind != "")
        && (if other !in taken then tags[i] == other
            else conflict == "rename" && exists n: nat :: FirstFree(other, taken, n) && tags[i] == Replacement(other, n));
      OriginalIs(row.outbound, other);
    }
  }

  lemma GoodRowIs(row: Row)
    ensures GoodRow(row) <==>
      1 <= |OriginalTag(row.outbound)| <= 160 && exists kind :: Get(row.outbound, "type") == Some(Str(kind)) && kind != ""
  {
    if GoodRow(row) {
      var kind := Get(row.outbound, "type").value.s;
      assert Get(row.outbound, "type") == Some(Str(kind));
    }
  }

  /** A name of up to 150 characters is a proper prefix of its replacement, and a
      longer one shares its first 150 characters with it. */
  lemma RenamedKeepsPrefix(rows: seq<Row>, occupied: set<string>, conflict: string, tags: seq<string>, i: nat, name: string)
    requires Planned(rows, occupied, conflict, tags) && i < |tags|
    requires ComesAs(rows[i].outbound, name)
    ensures tags[i] != name ==>
              && conflict == "rename" && (name in occupied || name in tags[..i])
              && exists n: nat :: n >= 2 && tags[i] == Replacement(name, n)
    ensures tags[i] != name && |name| <= 150 ==> name < tags[i]
    ensures |name| > 150 ==> name[..150] < tags[i]
  {
    assert PlannedAt(rows, occupied, conflict, tags, i);
    OriginalIs(rows[i].outbound, name);
    NextTagIs(name, occupied + Elements(tags[..i]), tags[i]);
  }

  /** An occupied "hk" is imported as "hk-2". */
  lemma RenamedExample()
    ensures
      var row := Row("hk", Obj([Field("tag", Str("hk")), Field("type", Str("vless"))]));
      forall tags :: |tags| == 1 ==> (Planned([row], {"hk"}, "rename", tags) <==> tags == ["hk-2"])
  {
    RenamedExampleIsPlan();
    var row := Row("hk", Obj([Field("tag", Str("hk")), Field("type", Str("vless"))]));
    forall tags: seq<string> | |tags| == 1 && Planned([row], {"hk"}, "rename", tags)
      ensures tags == ["hk-2"]
    {
      assert PlannedAt([row], {"hk"}, "rename", tags, 0);
      assert tags[..0] == [];
      assert Trim("hk") == "hk" && OriginalTag(row.outbound) == "hk";
      NextTagIs("hk", {"hk"}, tags[0]);
      var n: nat :| FirstFree("hk", {"hk"}, n) && tags[0] == Replacement("hk", n);
      assert |Replacement("hk", 2)| > 2;
      assert Replacement("hk", 2) !in {"hk"};
      assert n == 2;
      assert Digit(2) == '2' && Decimal(2) == "2";
      assert tags[0] == "hk" + "-" + "2" == "hk-2";
    }
  }

  lemma RenamedExampleIsPlan()
    ensures
      var row := Row("hk", Obj([Field("tag", Str("hk")), Field("type", Str("vless"))]));
      Planned([row], {"hk"}, "rename", ["hk-2"])
  {
    var row := Row("hk", Obj([Field("tag", Str("hk")), Field("type", Str("vless"))]));
    var rest := row.outbound.fields[1..];
    assert rest[0] == Field("type", Str("vless"));
    assert Trim("hk") == "hk" && OriginalTag(row.outbound) == "hk";
    assert Digit(2) == '2' && Decimal(2) == "2";
    assert Replacement("hk", 2) == "hk" + "-" + "2" == "hk-2";
    assert ["hk-2"][..0] == [];
    assert FirstFree("hk", {"hk"}, 2) by {
      assert |"hk-2"| == 4;
    }
    NextTagIs("hk", {"hk"}, "hk-2");
    GoodRowIs(row);
    assert {"hk"} + Elements([]) == {"hk"};
    assert PlannedAt([row], {"hk"}, "rename", ["hk-2"], 0);
  }

  // ---- references ----

  /** `o` is reached in `v` without going below a link field. */
  ghost predicate Seen(v: Json, o: Json)
    decreases v
  {
    || o == v
    || (v.Arr? && exists item <- v.items :: Seen(item, o))
    || (v.Obj? && exists f <- v.fields :: f.key !in {"detour", "default", "outbounds"} && Seen(f.value, o))
  }

  /** A link field of `o` is the name, or a list with it. */
  ghost predicate Links(o: Json, name: string) {
    o.Obj? && exists f <- o.fields :: f.key in {"detour", "default", "outbounds"} && LinksTo(f.value, name)
  }

  predicate LinksTo(x: Json, name: string) {
    (x == Str(name) && name != "") || (x.Arr? && Str(name) in x.items)
  }

  ghost predicate SeesLink(v: Json, name: string) {
    exists o :: Seen(v, o) && Links(o, name)
  }

  lemma LinkDepsAre(x: Json, name: string)
    ensures name in LinkDeps(x) <==> LinksTo(x, name)
  {
  }

  /** The names a row depends on are those a link field that can be seen holds. */
  lemma {:induction false} DepsAre(v: Json, name: string)
    ensures name in Deps(v) <==> SeesLink(v, name)
    decreases v, 0
  {
    match v
    case Arr(items) =>
      ItemDepsAre(items, name);
      if item :| item in items && SeesLink(item, name) {
        var o :| Seen(item, o) && Links(o, name);
        assert Seen(v, o);
      }
      if SeesLink(v, name) {
        var o :| Seen(v, o) && Links(o, name);
        var item :| item in items && Seen(item, o);
        assert SeesLink(item, name);
      }
    case Obj(fields) =>
      FieldDepsAre(fields, name);
      ObjectSees(fields, name);
    case _ =>
  }

  ghost predicate FieldSees(f: Field, name: string) {
    if f.key in {"detour", "default", "outbounds"} then LinksTo(f.value, name) else SeesLink(f.value, name)
  }

  lemma ObjectSees(fields: seq<Field>, name: string)
    ensures SeesLink(Obj(fields), name) <==> exists f <- fields :: FieldSees(f, name)
  {
    var v := Obj(fields);
    if f :| f in fields && FieldSees(f, name) {
      if f.key in {"detour", "default", "outbounds"} {
        assert Seen(v, v) && Links(v, name);
      } else {
        var o :| Seen(f.value, o) && Links(o, name);
        assert Seen(v, o);
      }
    }
    if SeesLink(v, name) {
      var o :| Seen(v, o) && Links(o, name);
      if o == v {
        var f :| f in fields && f.key in {"detour", "default", "outbounds"} && LinksTo(f.value, name);
        assert FieldSees(f, name);
      } else {
        var f :| f in fields && f.key !in {"detour", "default", "outbounds"} && Seen(f.value, o);
        assert FieldSees(f, name);
      }
    }
  }

  lemma {:induction false} ItemDepsAre(items: seq<Json>, name: string)
    ensures name in ItemDeps(items) <==> exists item <- items :: SeesLink(item, name)
    decreases items, 1
  {
    if items != [] {
      var first, rest := items[0], items[1..];
      assert items == [first] + rest && first in items;
      DepsAre(first, name);
      ItemDepsAre(rest, name);
      assert forall item <- items :: item == first || item in rest;
      assert forall item <- rest :: item in items;
    }
  }

  lemma {:induction false} FieldDepsAre(fields: seq<Field>, name: string)
    ensures name in FieldDeps(fields) <==> exists f <- fields :: FieldSees(f, name)
    decreases fields, 1
  {
    if fields != [] {
      var first, rest := fields[0], fields[1..];
      assert fields == [first] + rest && first in fields;
      if first.key in LINKS {
        LinkDepsAre(first.value, name);
      } else {
        DepsAre(first.value, name);
      }
      FieldDepsAre(rest, name);
      assert forall f <- fields :: f == first || f in rest;
      assert forall f <- rest :: f in fields;
    }
  }

  // ---- whom a reference follows ----

  /** The last of the rows that comes as this name. */
  ghost predicate LastNamed(rows: seq<Row>, name: string, k: nat) {
    && k < |rows| && ComesAs(rows[k].outbound, name)
    && forall m :: k < m < |rows| ==> !ComesAs(rows[m].outbound, name)
  }

  /** The map leads from the name, when one row is written so, to the tag of the last
      row that comes as it. */
  ghost predicate ToLast(renamed: map<string, string>, rows: seq<Row>, tags: seq<string>, name: string)
    requires |tags| <= |rows|
  {
    if name in renamed then
      Count(rows, name) == 1 && exists k: nat :: k < |tags| && LastNamed(rows[..|tags|], name, k) && renamed[name] == tags[k]
    else
      Count(rows, name) != 1 || forall k :: 0 <= k < |tags| ==> !ComesAs(rows[k].outbound, name)
  }

  lemma {:induction false} RenamesAre(rows: seq<Row>, tags: seq<string>, name: string)
    requires |tags| <= |rows|
    ensures ToLast(Renames(rows, tags), rows, tags, name)
  {
    if tags != [] {
      var last := |tags| - 1;
      RenamesAre(rows, tags[..last], name);
      OriginalIs(rows[last].outbound, name);
      RenamesStep(rows, tags, OriginalTag(rows[last].outbound));
      if ComesAs(rows[last].outbound, name) {
        assert LastNamed(rows[..|tags|], name, last);
      } else {
        EarlierStays(Renames(rows, tags), Renames(rows, tags[..last]), rows, tags, name);
      }
    }
  }

  lemma EarlierStays(renamed: map<string, string>, before: map<string, string>, rows: seq<Row>, tags: seq<string>, name: string)
    requires 0 < |tags| <= |rows| && !ComesAs(rows[|tags| - 1].outbound, name)
    requires ToLast(before, rows, tags[..|tags| - 1], name)
    requires (name in renamed <==> name in before) && (name in before ==> renamed[name] == before[name])
    ensures ToLast(renamed, rows, tags, name)
  {
    var last := |tags| - 1;
    if name in renamed {
      var k: nat :| k < last && LastNamed(rows[..last], name, k) && before[name] == tags[..last][k];
      LastGrows(rows, last, name, k);
    }
  }

  lemma LastGrows(rows: seq<Row>, last: nat, name: string, k: nat)
    requires last < |rows| && LastNamed(rows[..last], name, k) && !ComesAs(rows[last].outbound, name)
    ensures LastNamed(rows[..last + 1], name, k)
  {
    assert forall m :: 0 <= m < last ==> rows[..last + 1][m] == rows[..last][m];
  }

  /** A reference is ambiguous when several rows are written with the name; it follows
      the last row that comes as the name when one row is written so, and else stays. */
  lemma FollowIs(rows: seq<Row>, tags: seq<string>, name: string)
    requires |tags| == |rows|
    ensures Follow(rows, tags, name).None? <==> Count(rows, name) > 1
    ensures forall k: nat :: LastNamed(rows, name, k) && Count(rows, name) == 1 ==> Follow(rows, tags, name) == Some(tags[k])
    ensures Count(rows, name) == 0 || (forall k: nat :: !LastNamed(rows, name, k)) ==>
              Follow(rows, tags, name) in {None, Some(name)}
  {
    RenamesAre(rows, tags, name);
    assert rows[..|tags|] == rows;
  }

  /** A row that is the only one written with its name is followed exactly when no
      later row comes as the same name behind or before white space. */
  lemma FollowsItsRow(rows: seq<Row>, occupied: set<string>, conflict: string, tags: seq<string>, j: nat, name: string)
    requires |tags| == |rows| && Planned(rows, occupied, conflict, tags) && j < |rows|
    requires ComesAs(rows[j].outbound, name) && Count(rows, name) == 1
    ensures Follow(rows, tags, name) == Some(tags[j]) <==> LastNamed(rows, name, j)
  {
    FollowIs(rows, tags, name);
    var k := LastRow(rows, name, j);
    if k > j {
      PlannedTagsAreFresh(rows, occupied, conflict, tags, k, j);
    }
  }

  /** There is a last one. */
  lemma {:induction false} LastRow(rows: seq<Row>, name: string, j: nat) returns (k: nat)
    requires j < |rows| && ComesAs(rows[j].outbound, name)
    ensures k >= j && LastNamed(rows, name, k)
    decreases |rows| - j
  {
    if m: nat :| j < m < |rows| && ComesAs(rows[m].outbound, name) {
      k := LastRow(rows, name, m);
    } else {
      k := j;
    }
  }

  /** Beside "hk" a row " hk " is imported as "hk-2", and references to "hk" go there. */
  lemma TwinNamesExample()
    ensures
      var rows := [Row("a", Obj([Field("tag", Str("hk")), Field("type", Str("vless"))])),
                   Row("b", Obj([Field("tag", Str(" hk ")), Field("type", Str("vless"))]))];
      Planned(rows, {}, "rename", ["hk", "hk-2"]) && Follow(rows, ["hk", "hk-2"], "hk") == Some("hk-2")
  {
    var first := Row("a", Obj([Field("tag", Str("hk")), Field("type", Str("vless"))]));
    var second := Row("b", Obj([Field("tag", Str(" hk ")), Field("type", Str("vless"))]));
    var rows, tags := [first, second], ["hk", "hk-2"];
    TwinRows(first, second);
    assert tags[..0] == [] && tags[..1] == ["hk"];
    assert PlannedAt(rows, {}, "rename", tags, 0);
    TwinSuffix();
    assert {} + Elements(["hk"]) == {"hk"};
    assert PlannedAt(rows, {}, "rename", tags, 1);
    assert rows[..1] == [first];
    assert Count([first], "hk") == 1 && Count(rows, "hk") == 1;
    OriginalIs(second.outbound, "hk");
    assert LastNamed(rows, "hk", 1);
    FollowIs(rows, tags, "hk");
  }

  lemma TwinSuffix()
    ensures NextTag("hk", {"hk"}, "hk-2")
  {
    assert Digit(2) == '2' && Decimal(2) == "2";
    assert Replacement("hk", 2) == "hk" + "-" + "2" == "hk-2";
    assert FirstFree("hk", {"hk"}, 2) by {
      assert |"hk-2"| == 4;
    }
    NextTagIs("hk", {"hk"}, "hk-2");
  }

  lemma TwinRows(first: Row, second: Row)
    requires first.outbound == Obj([Field("tag", Str("hk")), Field("type", Str("vless"))])
    requires second.outbound == Obj([Field("tag", Str(" hk ")), Field("type", Str("vless"))])
    ensures OriginalTag(first.outbound) == "hk" && OriginalTag(second.outbound) == "hk"
    ensures CountKey(first) == "hk" && CountKey(second) == " hk " != "hk"
    ensures GoodRow(first) && GoodRow(second)
  {
    assert first.outbound.fields[1..][0] == Field("type", Str("vless"));
    assert second.outbound.fields[1..][0] == Field("type", Str("vless"));
    assert IsSpace(' ') && !IsSpace('h') && !IsSpace('k');
    assert " hk "[1..] == "hk " && "hk "[..2] == "hk";
    assert Trim("hk") == "hk" && Trim("hk ") == Trim("hk") && Trim(" hk ") == Trim("hk ");
    assert |" hk "| == 4 && |"hk"| == 2;
  }

  // ---- the rest of a row ----

  lemma {:induction false} LookupRewriteLink(fields: seq<Field>, key: string, dependency: Dependency)
    requires key in LINKS
    ensures Lookup(RewriteFields(fields, dependency), key) ==
            match Lookup(fields, key) case None => None case Some(v) => Some(RewriteLink(v, dependency))
  {
    if fields != [] {
      LookupRewriteLink(fields[1..], key, dependency);
      assert RewriteFields(fields, dependency)[1..] == RewriteFields(fields[1..], dependency);
    }
  }

  /** A prepared row keeps its name and, beside the id and the tag, all its
      properties, in which references follow the renamed rows. */
  lemma PreparedRow(rows: seq<Row>, tags: seq<string>, i: nat, key: string, follow: Dependency)
    requires |tags| == |rows| && i < |rows| && GoodRow(rows[i])
    requires forall t :: follow(t) == Follow(rows, tags, t)
    ensures
      var prepared := Followed(rows, tags, TaggedRows(rows, tags))[i];
      && prepared.name == rows[i].name && prepared.outbound.Obj?
      && Get(prepared.outbound, key) ==
           if key == "id" then None
           else if key == "tag" then Some(Str(tags[i]))
           else match Get(rows[i].outbound, key)
                case None => None
                case Some(v) => Some(if key in {"detour", "default", "outbounds"} then RewriteLink(v, follow) else Rewrite(v, follow))
  {
    var before := TaggedRows(rows, tags)[i].outbound;
    assert rows[i].outbound.Obj?;
    var fields := Drop(rows[i].outbound.fields, "id");
    LookupDrop(rows[i].outbound.fields, "id", key);
    LookupPut(fields, "tag", Str(tags[i]), key);
    if key in LINKS {
      LookupRewriteLink(before.fields, key, follow);
    } else {
      LookupRewrite(before.fields, key, follow);
    }
    RewriteSame(before, follow, t => Follow(rows, tags, t));
  }
}
