/** Rows the preparation accepts and the panel does not: the import and the panel
    disagree about what a reference is. */
module ImportFailures {
  import opened Options
  import opened JsonValues
  import opened Texts
  import opened SuiNetwork
  import O = OutboundImport
  import opened ReadBack
  import opened ImportedRows
  import opened PanelNetwork

  /** The outbound "a" with one link field. */
  function LinkRow(key: string, value: Json): Json {
    Obj([Field("type", Str("selector")), Field("tag", Str("a")), Field(key, value)])
  }

  function Plan(key: string, value: Json): seq<O.Row> {
    [O.Row("a", LinkRow(key, value))]
  }

  /** A panel without settings that holds one outbound, or none. */
  function Bare(rows: seq<Json>): Panel {
    Panel(Obj([]), [], rows, [])
  }

  /** An outbound whose name is the number 5. */
  function Numbered(): Json {
    Obj([Field("tag", Num("5"))])
  }

  /** The fields of the row, one by one. */
  lemma LinkRowList(key: string, value: Json)
    ensures
      var row, rest, last := LinkRow(key, value), [Field("tag", Str("a")), Field(key, value)], [Field(key, value)];
      row.fields == [Field("type", Str("selector"))] + rest && row.fields[1..] == rest && rest[1..] == last && last[1..] == []
  {
  }

  lemma LinkRowGets(key: string, value: Json)
    requires key in O.LINKS
    ensures
      var row := LinkRow(key, value);
      && Get(row, "type") == Some(Str("selector")) && Get(row, "tag") == Some(Str("a")) && Get(row, "id") == None
      && OwnTag(row) == {"a"}
  {
    LinkRowList(key, value);
    var row, rest, last := LinkRow(key, value), [Field("tag", Str("a")), Field(key, value)], [Field(key, value)];
    assert |key| >= 6 && |"type"| == 4 && |"tag"| == 3 && |"id"| == 2;
    assert Lookup(last, "id") == None;
    assert Lookup(rest, "id") == None && Lookup(rest, "tag") == Some(Str("a"));
    assert Lookup(row.fields, "id") == None && Lookup(row.fields, "tag") == Some(Str("a"));
  }

  lemma LinkRowDeps(key: string, value: Json)
    requires key in O.LINKS
    ensures O.Deps(LinkRow(key, value)) == O.LinkDeps(value)
  {
    LinkRowList(key, value);
    var row, rest, last := LinkRow(key, value), [Field("tag", Str("a")), Field(key, value)], [Field(key, value)];
    assert |"type"| == 4 && |"tag"| == 3;
    assert "type" !in O.LINKS && "tag" !in O.LINKS;
    assert O.FieldDeps(last) == O.LinkDeps(value);
    assert O.FieldDeps(rest) == O.FieldDeps(last);
    assert O.FieldDeps(row.fields) == O.FieldDeps(rest);
  }

  lemma LinkRowVisits(key: string, value: Json, c: Visit)
    requires key in O.LINKS
    ensures
      var row := LinkRow(key, value);
      c in Visits(row) <==>
        c == Visit("type", Str("selector"), row) || c == Visit("tag", Str("a"), row) || c == Visit(key, value, row)
        || c in Visits(value)
  {
    LinkRowList(key, value);
    var row, rest, last := LinkRow(key, value), [Field("tag", Str("a")), Field(key, value)], [Field(key, value)];
    assert FieldVisits(last, row) == [Visit(key, value, row)] + Visits(value) + FieldVisits([], row);
    assert FieldVisits(rest, row) == [Visit("tag", Str("a"), row)] + Visits(Str("a")) + FieldVisits(last, row);
    assert FieldVisits(row.fields, row) == [Visit("type", Str("selector"), row)] + Visits(Str("selector")) + FieldVisits(rest, row);
  }

  /** Only the link field itself and what is below it matter to the panel. */
  lemma LinkRowKnown(key: string, value: Json, known: set<string>)
    requires key in O.LINKS
    ensures LinksKnown(LinkRow(key, value), known) <==>
            LinkCheck(Visit(key, value, LinkRow(key, value)), known) && LinksKnown(value, known)
  {
    var row := LinkRow(key, value);
    assert |"type"| == 4 && |"tag"| == 3 && |"detour"| == 6 && |"outbounds"| == 9;
    forall c: Visit {
      LinkRowVisits(key, value, c);
    }
    LinkRowVisits(key, value, Visit(key, value, row));
  }

  lemma BareIsGood(rows: seq<Json>)
    requires forall row <- rows :: LinksKnown(row, TagSet(rows))
    ensures NetworkOk(Bare(rows)) && Bare(rows).OutboundTags() == TagSet(rows)
  {
    assert rows + [] == rows;
    NetworkParts(Bare(rows));
  }

  lemma LinkRowTagged(key: string, value: Json)
    requires key in O.LINKS
    ensures O.TaggedRows(Plan(key, value), ["a"]) == Plan(key, value)
  {
    var rows, row := Plan(key, value), LinkRow(key, value);
    LinkRowList(key, value);
    var rest, last := [Field("tag", Str("a")), Field(key, value)], [Field(key, value)];
    assert |key| >= 6 && |"type"| == 4 && |"tag"| == 3 && |"id"| == 2;
    assert Drop(last, "id") == last;
    assert Drop(rest, "id") == rest;
    assert Drop(row.fields, "id") == row.fields;
    assert Put(rest, "tag", Str("a")) == rest;
    assert Put(row.fields, "tag", Str("a")) == row.fields;
    assert O.Tagged(rows[0], "a") == rows[0];
  }

  lemma LinkRowRewritten(key: string, value: Json, d: O.Dependency)
    requires key in O.LINKS && forall t <- O.LinkDeps(value) :: d(t) == Some(t)
    ensures O.Rewrite(LinkRow(key, value), d) == LinkRow(key, value)
  {
    var row := LinkRow(key, value);
    LinkRowList(key, value);
    var rest, last := [Field("tag", Str("a")), Field(key, value)], [Field(key, value)];
    assert |"type"| == 4 && |"tag"| == 3;
    assert "type" !in O.LINKS && "tag" !in O.LINKS;
    assert O.RewriteLink(value, d) == value by {
      if value.Arr? {
        assert O.RewriteLink(value, d).items == value.items;
      }
    }
    assert O.RewriteFields(last, d) == last;
    assert O.RewriteFields(rest, d) == rest;
    assert O.RewriteFields(row.fields, d) == row.fields;
  }

  lemma OthersAreKept(key: string, value: Json, t: string)
    requires key in O.LINKS && t != "a"
    ensures O.Follow(Plan(key, value), ["a"], t) == Some(t)
  {
    var rows := Plan(key, value);
    LinkRowGets(key, value);
    TrimLetter();
    assert rows[..0] == [] && O.Count([], t) == 0;
    assert O.CountKey(rows[0]) == "a";
    assert O.Count(rows, t) == 0;
    assert ["a"][..0] == [] && O.Renames(rows, []) == map[];
  }

  lemma TrimLetter()
    ensures Trim("a") == "a"
  {
    assert "a"[0] == 'a' && !IsSpace('a');
  }

  /** The plan for the row gives it back as it is. */
  lemma LinkRowFollowed(key: string, value: Json)
    requires key in O.LINKS && "a" !in O.LinkDeps(value)
    ensures O.TaggedRows(Plan(key, value), ["a"]) == Plan(key, value)
    ensures O.Resolvable(Plan(key, value), ["a"], Plan(key, value))
    ensures O.Followed(Plan(key, value), ["a"], Plan(key, value)) == Plan(key, value)
  {
    var rows := Plan(key, value);
    LinkRowTagged(key, value);
    LinkRowDeps(key, value);
    forall t | t in O.LinkDeps(value)
      ensures O.Follow(rows, ["a"], t) == Some(t)
    {
      OthersAreKept(key, value, t);
    }
    LinkRowRewritten(key, value, t => O.Follow(rows, ["a"], t));
  }

  lemma LinkRowPlanned(key: string, value: Json, occupied: set<string>)
    requires key in O.LINKS && "a" !in occupied
    ensures O.Planned(Plan(key, value), occupied, "fail", ["a"])
  {
    LinkRowGets(key, value);
    TrimLetter();
    assert ["a"][..0] == [];
    assert O.OriginalTag(LinkRow(key, value)) == "a";
    assert O.PlannedAt(Plan(key, value), occupied, "fail", ["a"], 0);
  }

  /** The import prepares the row when what it takes for its references is there. */
  lemma LinkRowIsPrepared(p: Panel, key: string, value: Json)
    requires key in O.LINKS && "a" !in O.LinkDeps(value) && "a" !in p.OutboundTags()
    requires O.LinkDeps(value) <= O.Elements(TagTexts(p.outbounds + p.endpoints))
    ensures PreparedFor(p, [], true, Plan(key, value), "fail", Plan(key, value))
  {
    var rows, tags := Plan(key, value), ["a"];
    var remote := p.outbounds + p.endpoints;
    var occupied, available := NameList(remote) + LocalTags([]), TagTexts(remote);
    LinkRowDeps(key, value);
    LinkRowFollowed(key, value);
    LinkRowPlanned(key, value, O.Elements(occupied));
    assert O.ValidOrder(rows, O.Elements(available));
    assert PreparedWith(rows, occupied, available, "fail", tags, rows);
  }

  /** What the panel's guard says of the row. */
  lemma LinkRowRefused(p: Panel, key: string, value: Json)
    requires NetworkOk(p) && key in O.LINKS && "a" !in p.OutboundTags()
    ensures
      var known := p.OutboundTags() + {"a"};
      var good := LinkCheck(Visit(key, value, LinkRow(key, value)), known) && LinksKnown(value, known);
      && (Accepted(p, Save(Outbounds, New, LinkRow(key, value))) <==> good)
      && (Creatable(p, Plan(key, value)) <==> good)
  {
    LinkRowGets(key, value);
    LinkRowKnown(key, value, p.OutboundTags() + {"a"});
    var rows := Plan(key, value);
    assert rows[..1] == rows;
    assert O.TagsOf(rows) == {"a"};
    CreationAccepted(p, LinkRow(key, value));
    assert Creatable(p, rows) <==> RowCreatable(p, rows, 0);
  }

  lemma EmptyPanel()
    ensures NetworkOk(Bare([])) && Bare([]).OutboundTags() == {}
  {
    BareIsGood([]);
  }

  lemma OneEntry()
    ensures Tags(Some(Arr([Num("1")]))) == None
    ensures O.LinkDeps(Arr([Num("1")])) == {} && Visits(Arr([Num("1")])) == []
  {
    assert [Num("1")][1..] == [];
  }

  lemma OneName(t: string, known: set<string>)
    requires t != ""
    ensures Known(Some(Str(t)), known) <==> t in known
  {
    assert [Str(t)][1..] == [];
    assert Names([Str(t)]) == Some([t] + []);
    assert Str(t) != Str("");
    assert Tags(Some(Str(t))) == Names([Str(t)]);
    assert ([t] + [])[0] == t;
  }

  /** A group with an entry that is no string: the import counts only strings, the
      panel's assertion throws at anything else. */
  lemma BadEntryExample()
    ensures NetworkOk(Bare([]))
    ensures PreparedFor(Bare([]), [], true, Plan("outbounds", Arr([Num("1")])), "fail", Plan("outbounds", Arr([Num("1")])))
    ensures !Accepted(Bare([]), Save(Outbounds, New, LinkRow("outbounds", Arr([Num("1")]))))
  {
    EmptyPanel();
    OneEntry();
    LinkRowIsPrepared(Bare([]), "outbounds", Arr([Num("1")]));
    LinkRowRefused(Bare([]), "outbounds", Arr([Num("1")]));
  }

  function Hidden(): Json {
    Obj([Field("detour", Str("missing"))])
  }

  lemma HiddenLink()
    ensures O.LinkDeps(Hidden()) == {} && !LinksKnown(Hidden(), {"a"})
  {
    var c := Visit("detour", Str("missing"), Hidden());
    assert Visits(Hidden())[0] == c;
    OneName("missing", {"a"});
    assert |"missing"| == 7 && |"a"| == 1;
    assert !LinkCheck(c, {"a"});
  }

  /** A detour below a link field: the import's walk stops at the field, the
      panel's goes on. */
  lemma HiddenLinkExample()
    ensures NetworkOk(Bare([]))
    ensures PreparedFor(Bare([]), [], true, Plan("default", Hidden()), "fail", Plan("default", Hidden()))
    ensures !Accepted(Bare([]), Save(Outbounds, New, LinkRow("default", Hidden())))
  {
    EmptyPanel();
    HiddenLink();
    LinkRowIsPrepared(Bare([]), "default", Hidden());
    LinkRowRefused(Bare([]), "default", Hidden());
  }

  lemma NumberedPanel()
    ensures NetworkOk(Bare([Numbered()])) && Bare([Numbered()]).OutboundTags() == {}
    ensures "5" in O.Elements(TagTexts(Bare([Numbered()]).outbounds + Bare([Numbered()]).endpoints))
  {
    var fields := [Field("tag", Num("5"))];
    assert Numbered().fields == fields && fields[1..] == [];
    assert Get(Numbered(), "tag") == Some(Num("5"));
    assert Visits(Numbered()) == [Visit("tag", Num("5"), Numbered())] + Visits(Num("5")) + FieldVisits([], Numbered());
    assert |"tag"| == 3 && |"detour"| == 6 && |"outbounds"| == 9;
    assert LinksKnown(Numbered(), {});
    assert TagSet([Numbered()]) == {};
    BareIsGood([Numbered()]);
    var rows := Bare([Numbered()]).outbounds + Bare([Numbered()]).endpoints;
    assert rows == [Numbered()];
    assert TagTexts(rows)[0] == "5";
  }

  lemma NumberText()
    ensures O.LinkDeps(Str("5")) == {"5"} && !Known(Some(Str("5")), {"a"}) && "a" !in {"5"}
  {
    OneName("5", {"a"});
    assert "5"[0] != "a"[0];
  }

  /** An outbound named by a number: the import compares its text, the panel's
      assertion its value. */
  lemma NumberedTagExample()
    ensures NetworkOk(Bare([Numbered()]))
    ensures PreparedFor(Bare([Numbered()]), [], true, Plan("detour", Str("5")), "fail", Plan("detour", Str("5")))
    ensures !Accepted(Bare([Numbered()]), Save(Outbounds, New, LinkRow("detour", Str("5"))))
  {
    NumberedPanel();
    NumberText();
    LinkRowIsPrepared(Bare([Numbered()]), "detour", Str("5"));
    LinkRowRefused(Bare([Numbered()]), "detour", Str("5"));
  }

  /** A malformed `default`: creation does not look at it, taking the row back does. */
  lemma BadDefaultExample()
    ensures NetworkOk(Bare([]))
    ensures PreparedFor(Bare([]), [], true, Plan("default", Arr([Num("1")])), "fail", Plan("default", Arr([Num("1")])))
    ensures Creatable(Bare([]), Plan("default", Arr([Num("1")]))) && !Removable(Bare([]), Plan("default", Arr([Num("1")])), 0)
  {
    EmptyPanel();
    OneEntry();
    LinkRowIsPrepared(Bare([]), "default", Arr([Num("1")]));
    LinkRowRefused(Bare([]), "default", Arr([Num("1")]));
    BadDefaultStays(Arr([Num("1")]));
  }

  lemma BadDefaultStays(value: Json)
    requires Tags(Some(value)).None?
    ensures !Removable(Bare([]), Plan("default", value), 0)
  {
    var row := LinkRow("default", value);
    LinkRowVisits("default", value, Visit("default", value, row));
    LinkRowGets("default", value);
    assert !LinkUse(Visit("default", value, row), "a");
  }
}
