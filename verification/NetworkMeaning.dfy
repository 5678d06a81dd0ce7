/** What the guards of a panel's network accept, over the JSON itself: objects at any
    depth, their fields, and the names the panel carries. */
module NetworkMeaning {
  import opened Options
  import opened JsonValues
  import opened SuiNetwork

  /** `o` occurs in `v`: it is `v`, or occurs in one of its items or fields. */
  ghost predicate Below(v: Json, o: Json)
    decreases v
  {
    || o == v
    || (v.Arr? && exists item <- v.items :: Below(item, o))
    || (v.Obj? && exists f <- v.fields :: Below(f.value, o))
  }

  /** `o` is an object at some depth of `v`, and has the field. */
  ghost predicate Holds(v: Json, o: Json, key: string, x: Json) {
    Below(v, o) && o.Obj? && Field(key, x) in o.fields
  }

  /** The walk visits exactly the fields of the objects at any depth. */
  lemma {:induction false} VisitsAre(v: Json, c: Visit)
    ensures c in Visits(v) <==> Holds(v, c.row, c.key, c.value)
    decreases v, 0
  {
    match v
    case Arr(items) =>
      InItemVisits(items, c);
      forall item | item in items
        ensures c in Visits(item) <==> Holds(item, c.row, c.key, c.value)
      {
        VisitsAre(item, c);
      }
    case Obj(fields) =>
      FieldVisitsAre(fields, v, c);
    case _ =>
  }

  lemma {:induction false} FieldVisitsAre(fields: seq<Field>, row: Json, c: Visit)
    ensures c in FieldVisits(fields, row) <==>
              (c.row == row && Field(c.key, c.value) in fields)
              || exists f <- fields :: Holds(f.value, c.row, c.key, c.value)
    decreases fields, 1
  {
    if fields != [] {
      var first, rest := fields[0], fields[1..];
      assert fields == [first] + rest;
      VisitsAre(first.value, c);
      FieldVisitsAre(rest, row, c);
      assert c == Visit(first.key, first.value, row) <==> c.row == row && Field(c.key, c.value) == first;
      assert first in fields;
      if f :| f in fields && Holds(f.value, c.row, c.key, c.value) {
        assert f == first || f in rest;
      }
      if f :| f in rest && Holds(f.value, c.row, c.key, c.value) {
        assert f in fields;
      }
    }
  }

  // ---- names ----

  predicate IsName(v: Json) {
    v.Str? && v.s != ""
  }

  /** Some row carries the name. */
  ghost predicate Carried(rows: seq<Json>, name: string) {
    exists row <- rows :: Get(row, "tag") == Some(Str(name))
  }

  /** Nothing, one name, or a list of names. */
  predicate WellFormed(x: Json) {
    x.Null? || x.Str? || (x.Arr? && forall item <- x.items :: IsName(item))
  }

  /** `x` is the name, or a list with it. */
  predicate Mentions(x: Json, name: string) {
    name != "" && (x == Str(name) || (x.Arr? && Str(name) in x.items))
  }

  /** A well-formed reference to rows that are there. */
  ghost predicate Refers(x: Json, rows: seq<Json>) {
    && WellFormed(x)
    && (IsName(x) ==> Carried(rows, x.s))
    && (x.Arr? ==> forall item <- x.items :: item.Str? ==> Carried(rows, item.s))
  }

  /** The rule has an outbound to send its traffic to: a name, or at least one name. */
  ghost predicate Chooses(rule: Json) {
    match Get(rule, "outbound")
    case Some(x) => IsName(x) || (x.Arr? && x.items != [] && forall item <- x.items :: IsName(item))
    case None => false
  }

  lemma {:induction false} NamesAre(list: seq<Json>)
    ensures Names(list).Some? <==> forall item <- list :: IsName(item)
    ensures Names(list).Some? ==>
              && |Names(list).value| == |list|
              && forall i :: 0 <= i < |list| ==> list[i] == Str(Names(list).value[i])
  {
    if list != [] {
      NamesAre(list[1..]);
      assert list == [list[0]] + list[1..] && list[0] in list;
      assert forall item <- list :: item == list[0] || item in list[1..];
      assert forall item <- list[1..] :: item in list;
      assert Names(list).Some? ==> Names(list).value == [list[0].s] + Names(list[1..]).value;
    }
  }

  lemma TagsAre(x: Json, t: string)
    ensures Tags(Some(x)).Some? <==> WellFormed(x)
    ensures WellFormed(x) ==> (t in Tags(Some(x)).value <==> Mentions(x, t))
    ensures WellFormed(x) ==> (Tags(Some(x)).value == [] <==> x.Null? || x == Str("") || x == Arr([]))
  {
    match x
    case Arr(items) =>
      NamesAre(items);
      if WellFormed(x) {
        var names := Names(items).value;
        if i :| 0 <= i < |items| && items[i] == Str(t) {
          assert names[i] == t;
        }
        if i :| 0 <= i < |names| && names[i] == t {
          assert items[i] in items && IsName(items[i]);
        }
      }
    case _ =>
      NamesAre([x]);
  }

  lemma KnownIs(x: Json, rows: seq<Json>)
    ensures Known(Some(x), TagSet(rows)) <==> Refers(x, rows)
  {
    TagsAre(x, "");
    forall t
      ensures t in TagSet(rows) <==> Carried(rows, t)
      ensures WellFormed(x) ==> (t in Tags(Some(x)).value <==> Mentions(x, t))
    {
      TagSetMeaning(rows, t);
      TagsAre(x, t);
    }
    if Refers(x, rows) {
      forall t | t in Tags(Some(x)).value
        ensures Carried(rows, t)
      {
        assert Mentions(x, t);
      }
    }
    if Known(Some(x), TagSet(rows)) && x.Arr? {
      forall item | item in x.items && item.Str?
        ensures Carried(rows, item.s)
      {
        assert Mentions(x, item.s);
      }
    }
  }

  lemma AvoidsIs(x: Json, tag: string)
    ensures Avoids(Some(x), tag) <==> WellFormed(x) && !Mentions(x, tag)
  {
    TagsAre(x, tag);
  }

  lemma ChoosesIs(rule: Json)
    ensures
      var x := Get(rule, "outbound");
      Chooses(rule) <==> Tags(x).Some? && Tags(x).value != []
  {
    if Get(rule, "outbound").Some? {
      TagsAre(Get(rule, "outbound").value, "");
    }
  }

  // ---- the network assertion ----

  /** Below the routing configuration every rule that routes chooses an outbound, and
      every inbound and outbound field refers to rows of the panel. */
  ghost predicate RoutesSoundly(config: Json, inbounds: seq<Json>, outbounds: seq<Json>) {
    forall route, o, key, x :: Get(config, "route") == Some(route) && Holds(route, o, key, x) ==>
      && (key == "action" && x == Str("route") ==> Chooses(o))
      && (key == "inbound" ==> Refers(x, inbounds))
      && (key == "outbound" ==> Refers(x, outbounds))
  }

  ghost predicate FinalIsSound(config: Json, outbounds: seq<Json>) {
    forall route, x :: Get(config, "route") == Some(route) && Get(route, "final") == Some(x) ==> Refers(x, outbounds)
  }

  /** Every detour and group in the value refers to rows of the panel. */
  ghost predicate LinksSoundly(v: Json, outbounds: seq<Json>) {
    forall o, key, x :: Holds(v, o, key, x) && (key == "detour" || key == "outbounds") ==> Refers(x, outbounds)
  }

  ghost predicate Sound(p: Panel) {
    var rows := p.outbounds + p.endpoints;
    && RoutesSoundly(p.config, p.inbounds, rows)
    && FinalIsSound(p.config, rows)
    && LinksSoundly(p.config, rows)
    && forall row <- rows :: LinksSoundly(row, rows)
  }

  lemma RouteCheckIs(c: Visit, inbounds: seq<Json>, outbounds: seq<Json>)
    ensures RouteCheck(c, TagSet(inbounds), TagSet(outbounds)) <==>
      && (c.key == "action" && c.value == Str("route") ==> Chooses(c.row))
      && (c.key == "inbound" ==> Refers(c.value, inbounds))
      && (c.key == "outbound" ==> Refers(c.value, outbounds))
  {
    ChoosesIs(c.row);
    KnownIs(c.value, inbounds);
    KnownIs(c.value, outbounds);
  }

  lemma RoutesAre(config: Json, inbounds: seq<Json>, outbounds: seq<Json>)
    ensures RouteKnown(config, TagSet(inbounds), TagSet(outbounds)) <==> RoutesSoundly(config, inbounds, outbounds)
  {
    if Get(config, "route").Some? {
      var route := Get(config, "route").value;
      forall c: Visit
        ensures c in Visits(route) <==> Holds(route, c.row, c.key, c.value)
      {
        VisitsAre(route, c);
      }
      if RouteKnown(config, TagSet(inbounds), TagSet(outbounds)) {
        forall o, key, x | Holds(route, o, key, x)
          ensures key == "action" && x == Str("route") ==> Chooses(o)
          ensures key == "inbound" ==> Refers(x, inbounds)
          ensures key == "outbound" ==> Refers(x, outbounds)
        {
          assert Visit(key, x, o) in Visits(route);
          RouteCheckIs(Visit(key, x, o), inbounds, outbounds);
        }
      }
      if RoutesSoundly(config, inbounds, outbounds) {
        forall c | c in Visits(route)
          ensures RouteCheck(c, TagSet(inbounds), TagSet(outbounds))
        {
          RouteCheckIs(c, inbounds, outbounds);
        }
      }
    }
  }

  lemma LinksAre(v: Json, outbounds: seq<Json>)
    ensures LinksKnown(v, TagSet(outbounds)) <==> LinksSoundly(v, outbounds)
  {
    if LinksKnown(v, TagSet(outbounds)) {
      forall o, key, x | Holds(v, o, key, x) && (key == "detour" || key == "outbounds")
        ensures Refers(x, outbounds)
      {
        VisitsAre(v, Visit(key, x, o));
        assert LinkCheck(Visit(key, x, o), TagSet(outbounds));
        KnownIs(x, outbounds);
      }
    }
    if LinksSoundly(v, outbounds) {
      forall c | c in Visits(v)
        ensures LinkCheck(c, TagSet(outbounds))
      {
        VisitsAre(v, c);
        KnownIs(c.value, outbounds);
      }
    }
  }

  lemma FinalIs(config: Json, outbounds: seq<Json>)
    ensures Known(FinalOf(config), TagSet(outbounds)) <==> FinalIsSound(config, outbounds)
  {
    if FinalOf(config).Some? {
      KnownIs(FinalOf(config).value, outbounds);
    }
  }

  /** The assertion accepts a panel exactly when its routing, its default exit and
      its links, at any depth, are sound. */
  lemma NetworkMeans(p: Panel)
    ensures NetworkOk(p) <==> Sound(p)
  {
    var rows := p.outbounds + p.endpoints;
    NetworkParts(p);
    RoutesAre(p.config, p.inbounds, rows);
    FinalIs(p.config, rows);
    LinksAre(p.config, rows);
    forall row | row in rows
      ensures LinksKnown(row, TagSet(rows)) <==> LinksSoundly(row, rows)
    {
      LinksAre(row, rows);
    }
  }

  // ---- the check before a name goes away ----

  ghost predicate FieldsAvoid(v: Json, keys: set<string>, tag: string) {
    forall o, key, x :: Holds(v, o, key, x) && key in keys ==> WellFormed(x) && !Mentions(x, tag)
  }

  lemma FieldsAre(v: Json, keys: set<string>, tag: string)
    ensures (forall c <- Visits(v) :: c.key in keys ==> Avoids(Some(c.value), tag)) <==> FieldsAvoid(v, keys, tag)
  {
    if forall c <- Visits(v) :: c.key in keys ==> Avoids(Some(c.value), tag) {
      forall o, key, x | Holds(v, o, key, x) && key in keys
        ensures WellFormed(x) && !Mentions(x, tag)
      {
        VisitsAre(v, Visit(key, x, o));
        assert Visit(key, x, o) in Visits(v);
        AvoidsIs(x, tag);
      }
    }
    if FieldsAvoid(v, keys, tag) {
      forall c | c in Visits(v) && c.key in keys
        ensures Avoids(Some(c.value), tag)
      {
        VisitsAre(v, c);
        AvoidsIs(c.value, tag);
      }
    }
  }

  /** No rule mentions the inbound; or no rule, no default exit that is one name, and
      no link mentions the outbound. */
  ghost predicate Unmentioned(kind: Kind, tag: string, p: Panel) {
    && (forall route :: Get(p.config, "route") == Some(route) ==>
          FieldsAvoid(route, if kind.Inbounds? then {"inbound"} else {"outbound"}, tag))
    && (!kind.Inbounds? ==>
          && (forall route :: Get(p.config, "route") == Some(route) ==> Get(route, "final") != Some(Str(tag)))
          && FieldsAvoid(p.config, {"detour", "outbounds", "default"}, tag)
          && forall row <- p.outbounds + p.endpoints :: FieldsAvoid(row, {"detour", "outbounds", "default"}, tag))
  }

  lemma RouteUseIs(config: Json, key: string, tag: string)
    ensures (forall c <- MaybeVisits(Get(config, "route")) :: RouteUse(c, key, tag)) <==>
              forall route :: Get(config, "route") == Some(route) ==> FieldsAvoid(route, {key}, tag)
  {
    if Get(config, "route").Some? {
      var route := Get(config, "route").value;
      FieldsAre(route, {key}, tag);
      assert MaybeVisits(Get(config, "route")) == Visits(route);
      assert forall c: Visit :: RouteUse(c, key, tag) <==> (c.key in {key} ==> Avoids(Some(c.value), tag));
    }
  }

  lemma LinksAvoidIs(v: Json, tag: string)
    ensures LinksAvoid(v, tag) <==> FieldsAvoid(v, {"detour", "outbounds", "default"}, tag)
  {
    FieldsAre(v, {"detour", "outbounds", "default"}, tag);
  }

  lemma LinkUses(tag: string, p: Panel)
    ensures (forall c <- Visits(Arr([p.config] + p.outbounds + p.endpoints)) :: LinkUse(c, tag)) <==>
              LinksAvoid(p.config, tag) && forall row <- p.outbounds + p.endpoints :: LinksAvoid(row, tag)
  {
    forall c: Visit {
      PanelVisits(p, c);
    }
  }

  lemma FinalUse(config: Json, tag: string)
    ensures FinalOf(config) != Some(Str(tag)) <==>
              forall route :: Get(config, "route") == Some(route) ==> Get(route, "final") != Some(Str(tag))
  {
  }

  lemma InboundUnused(tag: string, p: Panel)
    ensures Unused(Inbounds, tag, p.config, p.outbounds, p.endpoints) <==>
              forall c <- MaybeVisits(RouteOf(p.config)) :: RouteUse(c, "inbound", tag)
  {
    if Unused(Inbounds, tag, p.config, p.outbounds, p.endpoints) {
      forall c | c in MaybeVisits(RouteOf(p.config))
        ensures RouteUse(c, "inbound", tag)
      {
      }
    }
  }

  /** A name may go away exactly when nothing the check looks at mentions it. */
  lemma UnusedMeans(kind: Kind, tag: string, p: Panel)
    ensures Unused(kind, tag, p.config, p.outbounds, p.endpoints) <==> Unmentioned(kind, tag, p)
  {
    if kind.Inbounds? {
      RouteUseIs(p.config, "inbound", tag);
      InboundUnused(tag, p);
    } else {
      RouteUseIs(p.config, "outbound", tag);
      FinalUse(p.config, tag);
      LinkUses(tag, p);
      LinksAvoidIs(p.config, tag);
      forall row | row in p.outbounds + p.endpoints
        ensures LinksAvoid(row, tag) <==> FieldsAvoid(row, {"detour", "outbounds", "default"}, tag)
      {
        LinksAvoidIs(row, tag);
      }
    }
  }

  // ---- the guarded write ----

  /** The row a write replaces or deletes: the first with the same numeric id. */
  ghost predicate Previous(rows: seq<Json>, data: Json, i: nat) {
    && i < |rows| && SharesId(rows[i], data)
    && forall j :: 0 <= j < i ==> !SharesId(rows[j], data)
  }

  ghost predicate SharesId(row: Json, data: Json) {
    exists n :: Get(row, "id") == Some(Num(n)) && Get(data, "id") == Some(Num(n))
  }

  /** The rows that stay beside the written one. */
  ghost predicate Others(rows: seq<Json>, data: Json, rest: seq<Json>) {
    && (forall i: nat :: Previous(rows, data, i) ==> rest == rows[..i] + rows[i + 1..])
    && ((forall i: nat :: !Previous(rows, data, i)) ==> rest == rows)
  }

  /** `===` on two properties: lists and objects are only identical to themselves. */
  predicate Identical(a: Option<Json>, b: Option<Json>) {
    match (a, b)
    case (None, None) => true
    case (Some(Null), Some(Null)) => true
    case (Some(Bool(x)), Some(Bool(y))) => x == y
    case (Some(Num(x)), Some(Num(y))) => x == y
    case (Some(Str(x)), Some(Str(y))) => x == y
    case _ => false
  }

  function Rows(p: Panel, kind: Kind): seq<Json> {
    match kind
    case Config => []
    case Inbounds => p.inbounds
    case Outbounds => p.outbounds
    case Endpoints => p.endpoints
  }

  /** The write is let through. */
  ghost predicate MayWrite(p: Panel, w: Save) {
    if w.kind.Config? then Sound(Panel(w.data, p.inbounds, p.outbounds, p.endpoints))
    else
      var rows := Rows(p, w.kind);
      && (forall i: nat :: Previous(rows, w.data, i) ==> MayGo(p, w, rows[i]))
      && (!w.action.Del? ==> forall rest :: Others(rows, w.data, rest) ==> MayStand(p, w, rest + [w.data]))
  }

  /** The row keeps its name, or nothing mentions it. */
  ghost predicate MayGo(p: Panel, w: Save, row: Json) {
    || (!w.action.Del? && Identical(Get(row, "tag"), Get(w.data, "tag")))
    || Unmentioned(w.kind, Text(Get(row, "tag")), p)
  }

  /** With the new rows the network is sound; inbounds hold no references. */
  ghost predicate MayStand(p: Panel, w: Save, rows: seq<Json>) {
    && (w.kind.Outbounds? ==> Sound(Panel(p.config, p.inbounds, rows, p.endpoints)))
    && (w.kind.Endpoints? ==> Sound(Panel(p.config, p.inbounds, p.outbounds, rows)))
  }

  lemma IdenticalIs(a: Option<Json>, b: Option<Json>)
    ensures Identical(a, b) <==> !Differs(a, b)
  {
  }

  lemma MayGoIs(p: Panel, w: Save)
    requires !w.kind.Config?
    ensures
      var rows := RowsOf(p, w.kind);
      var at := FindId(rows, w.data);
      && (forall i: nat :: Previous(rows, w.data, i) ==> MayGo(p, w, rows[i])) <==>
         (at < |rows| && (w.action.Del? || Differs(Get(rows[at], "tag"), Get(w.data, "tag"))) ==>
            Unused(w.kind, Text(Get(rows[at], "tag")), p.config, p.outbounds, p.endpoints))
  {
    var rows := RowsOf(p, w.kind);
    var at := FindId(rows, w.data);
    forall i: nat
      ensures Previous(rows, w.data, i) <==> i < |rows| && i == at
    {
      PreviousIs(rows, w.data, i);
    }
    if at < |rows| {
      assert Previous(rows, w.data, at);
      UnusedMeans(w.kind, Text(Get(rows[at], "tag")), p);
      IdenticalIs(Get(rows[at], "tag"), Get(w.data, "tag"));
    }
  }

  lemma MayStandIs(p: Panel, w: Save)
    requires !w.kind.Config?
    ensures (forall rest :: Others(RowsOf(p, w.kind), w.data, rest) ==> MayStand(p, w, rest + [w.data])) <==>
              (!w.kind.Inbounds? ==> NetworkOk(Candidate(p, w)))
  {
    var rows := RowsOf(p, w.kind);
    var rest := Without(rows, FindId(rows, w.data));
    forall other
      ensures Others(rows, w.data, other) <==> other == rest
    {
      OthersAre(rows, w.data, other);
    }
    assert Others(rows, w.data, rest);
    NetworkMeans(Candidate(p, w));
  }

  lemma PreviousIs(rows: seq<Json>, data: Json, i: nat)
    ensures Previous(rows, data, i) <==> i < |rows| && i == FindId(rows, data)
  {
    forall row
      ensures SameId(row, data) <==> SharesId(row, data)
    {
      SharesIdIs(row, data);
    }
  }

  lemma SharesIdIs(row: Json, data: Json)
    ensures SameId(row, data) <==> SharesId(row, data)
  {
    if SameId(row, data) {
      var n := Get(row, "id").value.text;
      assert Get(row, "id") == Some(Num(n)) && Get(data, "id") == Some(Num(n));
    }
  }

  lemma OthersAre(rows: seq<Json>, data: Json, rest: seq<Json>)
    ensures Others(rows, data, rest) <==> rest == Without(rows, FindId(rows, data))
  {
    var at := FindId(rows, data);
    PreviousIs(rows, data, at);
    forall i: nat
      ensures Previous(rows, data, i) <==> i < |rows| && i == FindId(rows, data)
    {
      PreviousIs(rows, data, i);
    }
  }

  /** The check accepts exactly the writes after which the network is sound, and
      which take no name away that is still mentioned. */
  lemma WriteMeans(p: Panel, w: Save)
    ensures Accepted(p, w) <==> MayWrite(p, w)
  {
    if w.kind.Config? {
      NetworkMeans(p.(config := w.data));
    } else {
      assert Rows(p, w.kind) == RowsOf(p, w.kind);
      MayGoIs(p, w);
      MayStandIs(p, w);
    }
  }

  /** A configuration with a rule that routes and names no outbound is refused by
      every panel. */
  lemma RuleWithoutOutbound(p: Panel, action: Action, config: Json, route: Json, rule: Json)
    requires Get(config, "route") == Some(route)
    requires Holds(route, rule, "action", Str("route")) && Get(rule, "outbound") in {None, Some(Null), Some(Str("")), Some(Arr([]))}
    ensures !Accepted(p, Save(Config, action, config))
  {
    NetworkMeans(p.(config := config));
    assert !Chooses(rule);
  }

  /** The rule that only names its inbound, on a panel with that inbound. */
  lemma RuleWithoutOutboundExample(action: Action)
    ensures
      var rule := Obj([Field("action", Str("route")), Field("inbound", Arr([Str("in")]))]);
      var config := Obj([Field("route", Obj([Field("rules", Arr([rule]))]))]);
      var p := Panel(Obj([]), [Obj([Field("tag", Str("in"))])], [], []);
      !Accepted(p, Save(Config, action, config))
  {
    var rule := Obj([Field("action", Str("route")), Field("inbound", Arr([Str("in")]))]);
    var list := Arr([rule]);
    var route := Obj([Field("rules", list)]);
    var config := Obj([Field("route", route)]);
    assert Below(list, rule) by {
      assert rule in list.items && Below(rule, rule);
    }
    assert Below(route, rule) by {
      assert Field("rules", list) in route.fields;
    }
    assert Field("action", Str("route")) in rule.fields;
    assert Get(rule, "outbound") == None by {
      var rest := rule.fields[1..];
      assert rest == [Field("inbound", Arr([Str("in")]))] && rest[1..] == [];
    }
    RuleWithoutOutbound(Panel(Obj([]), [Obj([Field("tag", Str("in"))])], [], []), action, config, route, rule);
  }
}
