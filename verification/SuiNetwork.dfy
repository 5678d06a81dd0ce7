/** Referential integrity of an S-UI panel: which inbound and outbound names the
    routing rules and the outbounds may mention, and which writes are let through. */
module SuiNetwork {
  import opened Options
  import opened JsonValues

  // ---- the two assertions ----

  /** The names a reference field holds; `None` where reading it throws. */
  function Tags(value: Option<Json>): Option<seq<string>> {
    match value
    case None => Some([])
    case Some(Null) => Some([])
    case Some(Arr(items)) => Names(items)
    case Some(v) => if v == Str("") then Some([]) else Names([v])
  }

  function Names(list: seq<Json>): Option<seq<string>> {
    if list == [] then Some([])
    else
      var rest := Names(list[1..]);
      if list[0].Str? && list[0].s != "" && rest.Some? then Some([list[0].s] + rest.value) else None
  }

  /** The set of names the rows carry. A name that is not a string can never be referred to. */
  function TagSet(rows: seq<Json>): set<string> {
    set row, t | row in rows && t in OwnTag(row) :: t
  }

  function OwnTag(row: Json): set<string> {
    match Get(row, "tag")
    case Some(Str(t)) => {t}
    case _ => {}
  }

  predicate Known(value: Option<Json>, known: set<string>) {
    Tags(value).Some? && forall t <- Tags(value).value :: t in known
  }

  predicate Avoids(value: Option<Json>, tag: string) {
    Tags(value).Some? && tag !in Tags(value).value
  }

  predicate RouteCheck(c: Visit, inbounds: set<string>, outbounds: set<string>) {
    && (c.key == "action" && c.value == Str("route") ==>
          Tags(Get(c.row, "outbound")).Some? && Tags(Get(c.row, "outbound")).value != [])
    && (c.key == "inbound" ==> Known(Some(c.value), inbounds))
    && (c.key == "outbound" ==> Known(Some(c.value), outbounds))
  }

  predicate LinkCheck(c: Visit, outbounds: set<string>) {
    c.key == "detour" || c.key == "outbounds" ==> Known(Some(c.value), outbounds)
  }

  predicate RouteUse(c: Visit, key: string, tag: string) {
    c.key == key ==> Avoids(Some(c.value), tag)
  }

  predicate LinkUse(c: Visit, tag: string) {
    c.key in {"detour", "outbounds", "default"} ==> Avoids(Some(c.value), tag)
  }

  function RouteOf(config: Json): Option<Json> {
    Get(config, "route")
  }

  function FinalOf(config: Json): Option<Json> {
    if RouteOf(config).Some? then Get(RouteOf(config).value, "final") else None
  }

  datatype Panel = Panel(config: Json, inbounds: seq<Json>, outbounds: seq<Json>, endpoints: seq<Json>) {
    function OutboundTags(): set<string> {
      TagSet(outbounds + endpoints)
    }
  }

  /** No reference dangles: every name a rule, the default exit, a detour or a
      group mentions, at any depth, is carried by a row of the panel. */
  ghost predicate NetworkOk(p: Panel) {
    && (forall c <- MaybeVisits(RouteOf(p.config)) :: RouteCheck(c, TagSet(p.inbounds), p.OutboundTags()))
    && Known(FinalOf(p.config), p.OutboundTags())
    && (forall c <- Visits(Arr([p.config, Arr(p.outbounds), Arr(p.endpoints)])) :: LinkCheck(c, p.OutboundTags()))
  }

  datatype Kind = Config | Inbounds | Outbounds | Endpoints

  ghost predicate Unused(kind: Kind, tag: string, config: Json, outbounds: seq<Json>, endpoints: seq<Json>) {
    && (forall c <- MaybeVisits(RouteOf(config)) ::
          RouteUse(c, if kind.Inbounds? then "inbound" else "outbound", tag))
    && (!kind.Inbounds? ==>
          && FinalOf(config) != Some(Str(tag))
          && forall c <- Visits(Arr([config] + outbounds + endpoints)) :: LinkUse(c, tag))
  }

  method AssertSuiNetwork(p: Panel) returns (ok: bool)
    ensures ok <==> NetworkOk(p)
  {
    var inboundTags, outboundTags := TagSet(p.inbounds), p.OutboundTags();
    var route := RouteOf(p.config);
    var checkRoute := (c: Visit) => RouteCheck(c, inboundTags, outboundTags);
    var checkLink := (c: Visit) => LinkCheck(c, outboundTags);
    if route.Some? {
      var rules := Walk(route.value, checkRoute);
      assert rules <==> forall c <- Visits(route.value) :: RouteCheck(c, inboundTags, outboundTags) by {
        assert forall c: Visit :: checkRoute(c) == RouteCheck(c, inboundTags, outboundTags);
      }
      if !rules {
        return false;
      }
    }
    if !Known(FinalOf(p.config), outboundTags) {
      return false;
    }
    ok := Walk(Arr([p.config, Arr(p.outbounds), Arr(p.endpoints)]), checkLink);
    assert forall c: Visit :: checkLink(c) == LinkCheck(c, outboundTags);
  }

  method AssertSuiResourceUnused(kind: Kind, tag: string, config: Json, outbounds: seq<Json>, endpoints: seq<Json>)
    returns (ok: bool)
    ensures ok <==> Unused(kind, tag, config, outbounds, endpoints)
  {
    var key := if kind.Inbounds? then "inbound" else "outbound";
    var route := RouteOf(config);
    var checkRoute := (c: Visit) => RouteUse(c, key, tag);
    var checkLink := (c: Visit) => LinkUse(c, tag);
    if route.Some? {
      var rules := Walk(route.value, checkRoute);
      if !rules {
        ghost var c :| c in Visits(route.value) && !checkRoute(c);
        assert c in MaybeVisits(RouteOf(config)) && !RouteUse(c, key, tag);
        return false;
      }
      assert forall c <- Visits(route.value) :: checkRoute(c) && RouteUse(c, key, tag);
    }
    if kind.Inbounds? {
      return true;
    }
    if FinalOf(config) == Some(Str(tag)) {
      return false;
    }
    ok := Walk(Arr([config] + outbounds + endpoints), checkLink);
    assert forall c: Visit :: checkLink(c) == LinkUse(c, tag);
  }

  // ---- the guarded write ----

  datatype Action = New | Edit | Del
  datatype Save = Save(kind: Kind, action: Action, data: Json)

  /** `Number(a.id) === Number(b.id)` for numeric ids. */
  predicate SameId(a: Json, b: Json) {
    Get(a, "id").Some? && Get(a, "id").value.Num? && Get(a, "id") == Get(b, "id")
  }

  /** The position of the first row with the id of `data`, or the number of rows. */
  function FindId(rows: seq<Json>, data: Json): (i: nat)
    ensures i <= |rows|
    ensures i < |rows| ==> SameId(rows[i], data)
    ensures forall j :: 0 <= j < i ==> !SameId(rows[j], data)
  {
    if rows == [] || SameId(rows[0], data) then 0 else 1 + FindId(rows[1..], data)
  }

  /** `!==` between two parsed values: two objects or arrays are never identical. */
  predicate Differs(a: Option<Json>, b: Option<Json>) {
    a != b || (a.Some? && (a.value.Arr? || a.value.Obj?))
  }

  function RowsOf(p: Panel, kind: Kind): seq<Json>
    requires !kind.Config?
  {
    match kind
    case Inbounds => p.inbounds
    case Outbounds => p.outbounds
    case Endpoints => p.endpoints
  }

  function WithRows(p: Panel, kind: Kind, rows: seq<Json>): Panel
    requires !kind.Config?
  {
    match kind
    case Inbounds => p.(inbounds := rows)
    case Outbounds => p.(outbounds := rows)
    case Endpoints => p.(endpoints := rows)
  }

  function Without(rows: seq<Json>, i: nat): seq<Json>
    requires i <= |rows|
  {
    if i < |rows| then rows[..i] + rows[i + 1..] else rows
  }

  /** The panel a write of an outbound or endpoint is checked against. */
  function Candidate(p: Panel, w: Save): Panel
    requires !w.kind.Config?
  {
    var list := RowsOf(p, w.kind);
    WithRows(p, w.kind, Without(list, FindId(list, w.data)) + [w.data])
  }

  ghost predicate Accepted(p: Panel, w: Save) {
    if w.kind.Config? then NetworkOk(p.(config := w.data))
    else
      var list := RowsOf(p, w.kind);
      var i := FindId(list, w.data);
      && (i < |list| && (w.action.Del? || Differs(Get(list[i], "tag"), Get(w.data, "tag"))) ==>
            Unused(w.kind, Text(Get(list[i], "tag")), p.config, p.outbounds, p.endpoints))
      && (!w.action.Del? && !w.kind.Inbounds? ==> NetworkOk(Candidate(p, w)))
  }

  method CheckNetworkWrite(p: Panel, w: Save) returns (ok: bool)
    ensures ok <==> Accepted(p, w)
  {
    if w.kind.Config? {
      ok := AssertSuiNetwork(p.(config := w.data));
      return;
    }
    var list := RowsOf(p, w.kind);
    var i := FindId(list, w.data);
    if i < |list| && (w.action.Del? || Differs(Get(list[i], "tag"), Get(w.data, "tag"))) {
      var unused := AssertSuiResourceUnused(w.kind, Text(Get(list[i], "tag")), p.config, p.outbounds, p.endpoints);
      if !unused {
        return false;
      }
    }
    if !w.action.Del? && !w.kind.Inbounds? {
      ok := AssertSuiNetwork(Candidate(p, w));
      return;
    }
    return true;
  }

  /** The row as the panel stores it, under the id the panel gives it. */
  function Identified(data: Json, id: string): Json {
    if data.Obj? then Obj(Put(data.fields, "id", Num(id))) else data
  }

  /** What the panel holds after it has stored the write. A new row is added at
      the end under the id the panel chose, an edit replaces the row with the same id (or adds it when there is
      none), and a delete removes it. */
  function Stored(p: Panel, w: Save, id: string): Panel {
    if w.kind.Config? then p.(config := w.data)
    else
      var list := RowsOf(p, w.kind);
      var i := FindId(list, w.data);
      match w.action
      case New => WithRows(p, w.kind, list + [Identified(w.data, id)])
      case Edit => WithRows(p, w.kind, if i < |list| then list[i := w.data] else list + [w.data])
      case Del => WithRows(p, w.kind, Without(list, i))
  }

  // ---- what an accepted write keeps ----

  lemma TagSetMeaning(rows: seq<Json>, t: string)
    ensures t in TagSet(rows) <==> exists row <- rows :: Get(row, "tag") == Some(Str(t))
  {
    if t in TagSet(rows) {
      var row :| row in rows && t in OwnTag(row);
      assert Get(row, "tag") == Some(Str(t));
    }
    if exists row <- rows :: Get(row, "tag") == Some(Str(t)) {
      var row :| row in rows && Get(row, "tag") == Some(Str(t));
      assert t in OwnTag(row);
    }
  }

  lemma SameRowsSameTags(a: seq<Json>, b: seq<Json>)
    requires forall row <- a :: row in b
    ensures TagSet(a) <= TagSet(b)
  {
  }

  /** A link is visited in the panel exactly when it is visited in its
      configuration or in one of its outbounds or endpoints. */
  lemma PanelVisits(p: Panel, c: Visit)
    ensures c in Visits(Arr([p.config, Arr(p.outbounds), Arr(p.endpoints)])) <==>
            c in Visits(p.config) || exists row <- p.outbounds + p.endpoints :: c in Visits(row)
    ensures c in Visits(Arr([p.config] + p.outbounds + p.endpoints)) <==>
            c in Visits(p.config) || exists row <- p.outbounds + p.endpoints :: c in Visits(row)
  {
    var lists := [p.config, Arr(p.outbounds), Arr(p.endpoints)];
    InItemVisits(lists, c);
    assert p.config in lists && Arr(p.outbounds) in lists && Arr(p.endpoints) in lists;
    InItemVisits(p.outbounds, c);
    InItemVisits(p.endpoints, c);
    var flat := [p.config] + p.outbounds + p.endpoints;
    InItemVisits(flat, c);
    assert p.config in flat;
    forall row
      ensures row in flat <==> row == p.config || row in p.outbounds + p.endpoints
      ensures row in p.outbounds + p.endpoints <==> row in p.outbounds || row in p.endpoints
    {
    }
  }

  predicate LinksKnown(v: Json, known: set<string>) {
    forall c <- Visits(v) :: LinkCheck(c, known)
  }

  predicate LinksAvoid(v: Json, tag: string) {
    forall c <- Visits(v) :: LinkUse(c, tag)
  }

  predicate RouteKnown(config: Json, inbounds: set<string>, outbounds: set<string>) {
    forall c <- MaybeVisits(RouteOf(config)) :: RouteCheck(c, inbounds, outbounds)
  }

  /** The two assertions, read row by row. */
  lemma NetworkParts(p: Panel)
    ensures NetworkOk(p) <==>
      && RouteKnown(p.config, TagSet(p.inbounds), p.OutboundTags())
      && Known(FinalOf(p.config), p.OutboundTags())
      && LinksKnown(p.config, p.OutboundTags())
      && forall row <- p.outbounds + p.endpoints :: LinksKnown(row, p.OutboundTags())
  {
    forall c: Visit {
      PanelVisits(p, c);
    }
  }

  lemma UnusedParts(kind: Kind, tag: string, p: Panel)
    requires !kind.Inbounds?
    requires Unused(kind, tag, p.config, p.outbounds, p.endpoints)
    ensures LinksAvoid(p.config, tag)
    ensures forall row <- p.outbounds + p.endpoints :: LinksAvoid(row, tag)
  {
    forall c: Visit {
      PanelVisits(p, c);
    }
  }

  /** The one delete that is let through although it leaves a dangling name: the
      default exit is a list that holds the tag of the removed row, and no other
      outbound or endpoint carries that tag. */
  predicate FinalListEscapes(p: Panel, w: Save, id: string) {
    && w.action.Del? && (w.kind.Outbounds? || w.kind.Endpoints?)
    && var list := RowsOf(p, w.kind);
    && var i := FindId(list, w.data);
    && i < |list|
    && FinalOf(p.config).Some? && FinalOf(p.config).value.Arr?
    && exists t <- OwnTag(list[i]) ::
         Str(t) in FinalOf(p.config).value.items && t !in Stored(p, w, id).OutboundTags()
  }

  lemma NamesMembers(list: seq<Json>, t: string)
    requires Names(list).Some?
    ensures t in Names(list).value <==> Str(t) in list
  {
    if list != [] {
      NamesMembers(list[1..], t);
      assert list == [list[0]] + list[1..];
    }
  }

  lemma KnownWithout(value: Option<Json>, known: set<string>, fewer: set<string>)
    requires Known(value, known)
    requires forall t <- known - fewer :: Avoids(value, t)
    ensures Known(value, fewer)
  {
    assert forall t <- Tags(value).value :: t in known && t !in known - fewer;
  }

  /** Growing the known names, or removing a name no reference uses, keeps every
      reference known. */
  lemma NetworkTransfers(p: Panel, q: Panel)
    requires NetworkOk(p)
    requires q.config == p.config
    requires forall row <- q.outbounds + q.endpoints :: row in p.outbounds + p.endpoints
    requires forall t, c <- MaybeVisits(RouteOf(p.config)) :: t in TagSet(p.inbounds) - TagSet(q.inbounds) ==> RouteUse(c, "inbound", t)
    requires forall t, c <- MaybeVisits(RouteOf(p.config)) :: t in p.OutboundTags() - q.OutboundTags() ==> RouteUse(c, "outbound", t)
    requires forall t <- p.OutboundTags() - q.OutboundTags() :: LinksAvoid(p.config, t)
    requires forall t <- p.OutboundTags() - q.OutboundTags(), row <- p.outbounds + p.endpoints :: LinksAvoid(row, t)
    ensures NetworkOk(q) <==> Known(FinalOf(p.config), q.OutboundTags())
  {
    NetworkParts(p);
    NetworkParts(q);
    var lost := p.OutboundTags() - q.OutboundTags();
    forall c <- MaybeVisits(RouteOf(p.config))
      ensures RouteCheck(c, TagSet(q.inbounds), q.OutboundTags())
    {
      assert RouteCheck(c, TagSet(p.inbounds), p.OutboundTags());
      forall t | t in TagSet(p.inbounds) - TagSet(q.inbounds)
        ensures RouteUse(c, "inbound", t)
      {
      }
      forall t | t in lost
        ensures RouteUse(c, "outbound", t)
      {
      }
      if c.key == "inbound" {
        KnownWithout(Some(c.value), TagSet(p.inbounds), TagSet(q.inbounds));
      }
      if c.key == "outbound" {
        KnownWithout(Some(c.value), p.OutboundTags(), q.OutboundTags());
      }
    }
    forall v, c | (v == p.config || v in p.outbounds + p.endpoints) && c in Visits(v)
      ensures LinkCheck(c, q.OutboundTags())
    {
      assert LinksKnown(v, p.OutboundTags());
      assert LinkCheck(c, p.OutboundTags());
      forall t | t in lost
        ensures LinkUse(c, t)
      {
        assert LinksAvoid(v, t);
      }
      if c.key == "detour" || c.key == "outbounds" {
        KnownWithout(Some(c.value), p.OutboundTags(), q.OutboundTags());
      }
    }
  }

  lemma RouteUseOfUnused(kind: Kind, tag: string, p: Panel, c: Visit)
    requires Unused(kind, tag, p.config, p.outbounds, p.endpoints)
    requires c in MaybeVisits(RouteOf(p.config))
    ensures RouteUse(c, if kind.Inbounds? then "inbound" else "outbound", tag)
  {
  }

  /** The names that leave with one row are that row's own. */
  lemma TagsLost(rows: seq<Json>, i: nat, after: seq<Json>, t: string)
    requires i < |rows|
    requires forall row <- Without(rows, i) :: row in after
    requires t in TagSet(rows) - TagSet(after)
    ensures Get(rows[i], "tag") == Some(Str(t))
  {
    TagSetMeaning(rows, t);
    TagSetMeaning(after, t);
    forall row | row in rows && Get(row, "tag") == Some(Str(t))
      ensures row == rows[i]
    {
      InWithout(rows, i, row);
    }
  }

  lemma InWithout(rows: seq<Json>, i: nat, row: Json)
    requires i < |rows| && row in rows
    ensures row == rows[i] || row in Without(rows, i)
  {
    var j :| 0 <= j < |rows| && rows[j] == row;
    if j < i {
      assert Without(rows, i)[j] == row;
    } else if i < j {
      assert Without(rows, i)[j - 1] == row;
    }
  }

  /** A write that is let through leaves no dangling reference behind, at any depth
      and for every kind of write, exactly when it does not delete an outbound that
      only a list in `route.final` names. */
  lemma AcceptedWriteKeepsNetwork(p: Panel, w: Save, id: string)
    requires NetworkOk(p)
    requires Accepted(p, w)
    ensures NetworkOk(Stored(p, w, id)) <==> !FinalListEscapes(p, w, id)
  {
    if w.kind.Config? {
    } else if w.kind.Inbounds? {
      InboundWriteKeepsNetwork(p, w, id);
    } else if w.action.Del? {
      DeleteKeepsNetwork(p, w, id);
    } else {
      OutboundWriteKeepsNetwork(p, w, id);
    }
  }

  lemma InboundWriteKeepsNetwork(p: Panel, w: Save, id: string)
    requires NetworkOk(p)
    requires Accepted(p, w) && w.kind.Inbounds?
    ensures NetworkOk(Stored(p, w, id))
  {
    var q := Stored(p, w, id);
    var i := FindId(p.inbounds, w.data);
    assert q.outbounds == p.outbounds && q.endpoints == p.endpoints;
    forall t, c | t in TagSet(p.inbounds) - TagSet(q.inbounds) && c in MaybeVisits(RouteOf(p.config))
      ensures RouteUse(c, "inbound", t)
    {
      LostTagWasChecked(p, w, id, t);
      RouteUseOfUnused(Inbounds, t, p, c);
    }
    NetworkTransfers(p, q);
  }

  /** A row list after a write still holds every row but the one written to. */
  lemma OthersStay(rows: seq<Json>, i: nat, data: Json)
    requires i < |rows|
    ensures forall row <- Without(rows, i) :: row in rows[i := data]
    ensures forall row <- rows[i := data] :: row in Without(rows, i) + [data]
    ensures forall row <- Without(rows, i) + [data] :: row in rows[i := data]
    ensures forall row <- Without(rows, i) :: row in rows
  {
    forall j | 0 <= j < |rows| - 1
      ensures Without(rows, i)[j] in rows[i := data]
      ensures Without(rows, i)[j] in rows
    {
      var k := if j < i then j else j + 1;
      assert Without(rows, i)[j] == rows[i := data][k] == rows[k];
    }
    assert rows[i := data][i] == data;
    forall row | row in rows[i := data] && row != data
      ensures row in Without(rows, i)
    {
      InWithout(rows[i := data], i, row);
      assert Without(rows[i := data], i) == Without(rows, i);
    }
  }

  /** A name can leave its list only when the write was checked as a removal of it. */
  lemma LostTagWasChecked(p: Panel, w: Save, id: string, t: string)
    requires !w.kind.Config? && Accepted(p, w)
    requires t in TagSet(RowsOf(p, w.kind)) - TagSet(RowsOf(Stored(p, w, id), w.kind))
    ensures Unused(w.kind, t, p.config, p.outbounds, p.endpoints)
    ensures FindId(RowsOf(p, w.kind), w.data) < |RowsOf(p, w.kind)|
    ensures Get(RowsOf(p, w.kind)[FindId(RowsOf(p, w.kind), w.data)], "tag") == Some(Str(t))
  {
    var list, after := RowsOf(p, w.kind), RowsOf(Stored(p, w, id), w.kind);
    var i := FindId(list, w.data);
    if w.action.New? || i == |list| {
      SameRowsSameTags(list, after);
      assert false;
    }
    OthersStay(list, i, w.data);
    TagsLost(list, i, after, t);
    if w.action.Edit? && !Differs(Get(list[i], "tag"), Get(w.data, "tag")) {
      assert after[i] == w.data;
      TagSetMeaning(after, t);
      assert false;
    }
  }

  lemma SplitTags(a: seq<Json>, b: seq<Json>)
    ensures TagSet(a + b) == TagSet(a) + TagSet(b)
  {
    forall t
      ensures t in TagSet(a + b) <==> t in TagSet(a) || t in TagSet(b)
    {
      TagSetMeaning(a + b, t);
      TagSetMeaning(a, t);
      TagSetMeaning(b, t);
    }
  }

  lemma DeleteKeepsNetwork(p: Panel, w: Save, id: string)
    requires NetworkOk(p)
    requires Accepted(p, w) && w.action.Del? && (w.kind.Outbounds? || w.kind.Endpoints?)
    ensures NetworkOk(Stored(p, w, id)) <==> !FinalListEscapes(p, w, id)
  {
    var q := Stored(p, w, id);
    SplitTags(p.outbounds, p.endpoints);
    SplitTags(q.outbounds, q.endpoints);
    var list := RowsOf(p, w.kind);
    var i := FindId(list, w.data);
    if i < |list| {
      OthersStay(list, i, w.data);
    }
    var lost := p.OutboundTags() - q.OutboundTags();
    forall t | t in lost
      ensures i < |list| && Get(list[i], "tag") == Some(Str(t))
      ensures Unused(w.kind, t, p.config, p.outbounds, p.endpoints)
      ensures LinksAvoid(p.config, t)
      ensures forall row <- p.outbounds + p.endpoints :: LinksAvoid(row, t)
    {
      LostTagWasChecked(p, w, id, t);
      UnusedParts(w.kind, t, p);
    }
    forall t, c | t in lost && c in MaybeVisits(RouteOf(p.config))
      ensures RouteUse(c, "outbound", t)
    {
      RouteUseOfUnused(w.kind, t, p, c);
    }
    NetworkTransfers(p, q);
    FinalAfterDelete(p, w, id);
  }

  lemma FinalAfterDelete(p: Panel, w: Save, id: string)
    requires NetworkOk(p)
    requires Accepted(p, w) && w.action.Del? && (w.kind.Outbounds? || w.kind.Endpoints?)
    ensures Known(FinalOf(p.config), Stored(p, w, id).OutboundTags()) <==> !FinalListEscapes(p, w, id)
  {
    var q := Stored(p, w, id);
    var final := FinalOf(p.config);
    NetworkParts(p);
    assert Known(final, p.OutboundTags());
    if FinalListEscapes(p, w, id) {
      var list := RowsOf(p, w.kind);
      var t :| t in OwnTag(list[FindId(list, w.data)]) && Str(t) in final.value.items && t !in q.OutboundTags();
      NamesMembers(final.value.items, t);
    }
    forall t | t in Tags(final).value && t !in q.OutboundTags()
      ensures FinalListEscapes(p, w, id)
    {
      LostFinalEscapes(p, w, id, t);
    }
  }

  lemma LostFinalEscapes(p: Panel, w: Save, id: string, t: string)
    requires Accepted(p, w) && w.action.Del? && (w.kind.Outbounds? || w.kind.Endpoints?)
    requires Known(FinalOf(p.config), p.OutboundTags())
    requires t in Tags(FinalOf(p.config)).value && t !in Stored(p, w, id).OutboundTags()
    ensures FinalListEscapes(p, w, id)
  {
    SplitTags(p.outbounds, p.endpoints);
    SplitTags(Stored(p, w, id).outbounds, Stored(p, w, id).endpoints);
    LostTagWasChecked(p, w, id, t);
    var value := FinalOf(p.config).value;
    assert value != Str(t);
    NamesMembers(if value.Arr? then value.items else [value], t);
  }

  /** The id a new row is given changes neither its name nor its references. */
  lemma IdentifiedRow(data: Json, id: string)
    ensures OwnTag(Identified(data, id)) == OwnTag(data)
    ensures Get(Identified(data, id), "tag") == Get(data, "tag")
    ensures forall c <- Visits(Identified(data, id)) ::
              c.key == "id" || exists d <- Visits(data) :: d.key == c.key && d.value == c.value
  {
    if data.Obj? {
      LookupPut(data.fields, "id", Num(id), "tag");
      forall c | c in Visits(Identified(data, id))
        ensures c.key == "id" || exists d <- Visits(data) :: d.key == c.key && d.value == c.value
      {
        PutVisits(data.fields, "id", Num(id), data, Identified(data, id), c);
      }
    }
  }

  lemma IdentifiedLinks(data: Json, id: string, known: set<string>)
    requires LinksKnown(data, known)
    ensures LinksKnown(Identified(data, id), known)
  {
    IdentifiedRow(data, id);
    forall c | c in Visits(Identified(data, id))
      ensures LinkCheck(c, known)
    {
      if c.key != "id" {
        var d :| d in Visits(data) && d.key == c.key && d.value == c.value;
        assert LinkCheck(d, known);
      }
    }
  }

  /** Rows and names are all an assertion about links reads. */
  lemma NetworkCovers(r: Panel, q: Panel)
    requires NetworkOk(r)
    requires q.config == r.config && TagSet(q.inbounds) >= TagSet(r.inbounds)
    requires q.OutboundTags() >= r.OutboundTags()
    requires forall row <- q.outbounds + q.endpoints :: LinksKnown(row, q.OutboundTags())
    ensures NetworkOk(q)
  {
    NetworkParts(r);
    NetworkParts(q);
    forall c | c in MaybeVisits(RouteOf(q.config))
      ensures RouteCheck(c, TagSet(q.inbounds), q.OutboundTags())
    {
      assert RouteCheck(c, TagSet(r.inbounds), r.OutboundTags());
    }
    LinksGrow(q.config, r.OutboundTags(), q.OutboundTags());
  }

  lemma LinksGrow(v: Json, known: set<string>, more: set<string>)
    requires LinksKnown(v, known) && known <= more
    ensures LinksKnown(v, more)
  {
    forall c | c in Visits(v)
      ensures LinkCheck(c, more)
    {
      assert LinkCheck(c, known);
    }
  }

  lemma OutboundWriteKeepsNetwork(p: Panel, w: Save, id: string)
    requires NetworkOk(p)
    requires Accepted(p, w) && !w.action.Del? && (w.kind.Outbounds? || w.kind.Endpoints?)
    ensures NetworkOk(Stored(p, w, id))
  {
    var q, r := Stored(p, w, id), Candidate(p, w);
    var list := RowsOf(p, w.kind);
    var i := FindId(list, w.data);
    if i < |list| {
      OthersStay(list, i, w.data);
    }
    NetworkParts(p);
    NetworkParts(r);
    IdentifiedRow(w.data, id);
    StoredCoversCandidate(p, w, id);
    forall row | row in q.outbounds + q.endpoints
      ensures LinksKnown(row, q.OutboundTags())
    {
      if row in r.outbounds + r.endpoints {
        LinksGrow(row, r.OutboundTags(), q.OutboundTags());
      } else if row in p.outbounds + p.endpoints {
        LinksGrow(row, p.OutboundTags(), q.OutboundTags());
      } else {
        assert w.data in RowsOf(r, w.kind);
        LinksGrow(w.data, r.OutboundTags(), q.OutboundTags());
        IdentifiedLinks(w.data, id, q.OutboundTags());
      }
    }
    NetworkCovers(r, q);
  }

  lemma StoredCoversCandidate(p: Panel, w: Save, id: string)
    requires !w.action.Del? && (w.kind.Outbounds? || w.kind.Endpoints?)
    ensures Stored(p, w, id).OutboundTags() >= Candidate(p, w).OutboundTags()
    ensures w.action.New? ==> Stored(p, w, id).OutboundTags() >= p.OutboundTags()
  {
    var q, r := Stored(p, w, id), Candidate(p, w);
    var list, after := RowsOf(p, w.kind), RowsOf(q, w.kind);
    var i := FindId(list, w.data);
    if i < |list| {
      OthersStay(list, i, w.data);
    }
    IdentifiedRow(w.data, id);
    SplitTags(p.outbounds, p.endpoints);
    SplitTags(q.outbounds, q.endpoints);
    SplitTags(r.outbounds, r.endpoints);
    SplitTags(Without(list, i), [w.data]);
    SplitTags(list, [Identified(w.data, id)]);
    SplitTags(list, [w.data]);
    assert TagSet([w.data]) == TagSet([Identified(w.data, id)]) == OwnTag(w.data);
    SameRowsSameTags(Without(list, i), list);
    if w.action.Edit? && i < |list| {
      SameRowsSameTags(Without(list, i) + [w.data], after);
    }
  }

  /** The smallest panel with an escaping delete: the default exit is the list
      ["a"] and the only outbound is "a". */
  function LoneOutbound(): Json {
    Obj([Field("id", Num("1")), Field("tag", Str("a"))])
  }

  function LoneRoute(): Json {
    Obj([Field("final", Arr([Str("a")]))])
  }

  function LonePanel(): Panel {
    Panel(Obj([Field("route", LoneRoute())]), [], [LoneOutbound()], [])
  }

  lemma LonePanelVisits()
    ensures OwnTag(LoneOutbound()) == {"a"} && LonePanel().OutboundTags() == {"a"}
    ensures RouteOf(LonePanel().config) == Some(LoneRoute())
    ensures FinalOf(LonePanel().config) == Some(Arr([Str("a")]))
    ensures forall c <- Visits(LoneRoute()) :: c.key == "final"
    ensures forall c <- Visits(LonePanel().config) :: c.key in {"route", "final"}
    ensures forall c <- Visits(LoneOutbound()) :: c.key in {"id", "tag"}
  {
    var route, config, row := LoneRoute(), LonePanel().config, LoneOutbound();
    assert row.fields[1..] == [Field("tag", Str("a"))];
    assert row.fields[1..][1..] == [];
    assert Get(row, "tag") == Some(Str("a"));
    assert LonePanel().outbounds + LonePanel().endpoints == [row];
    forall t
      ensures t in TagSet([row]) <==> t == "a"
    {
      TagSetMeaning([row], t);
      assert row in [row];
    }
    assert route.fields[1..] == [] && config.fields[1..] == [];
    assert Visits(Arr([Str("a")])) == [] by {
      assert [Str("a")][1..] == [];
    }
    assert Visits(route) == [Visit("final", Arr([Str("a")]), route)];
    assert Visits(config) == [Visit("route", route, config)] + Visits(route) + FieldVisits([], config);
  }

  lemma LonePanelIsGood()
    ensures NetworkOk(LonePanel())
  {
    var p := LonePanel();
    LonePanelVisits();
    NetworkParts(p);
    assert p.outbounds + p.endpoints == [LoneOutbound()];
    assert Tags(FinalOf(p.config)) == Some(["a"]) by {
      var list := [Str("a")];
      assert list[1..] == [] && Names(list) == Some(["a"] + []);
      assert ["a"] + [] == ["a"];
    }
  }

  lemma LoneOutboundCountsAsUnused()
    ensures Unused(Outbounds, "a", LonePanel().config, LonePanel().outbounds, LonePanel().endpoints)
  {
    var p := LonePanel();
    LonePanelVisits();
    assert p.outbounds + p.endpoints == [LoneOutbound()];
    forall c | c in Visits(Arr([p.config] + p.outbounds + p.endpoints))
      ensures LinkUse(c, "a")
    {
      PanelVisits(p, c);
    }
  }

  lemma FinalListExample(id: string)
    ensures
      var w := Save(Outbounds, Del, LoneOutbound());
      NetworkOk(LonePanel()) && Accepted(LonePanel(), w) && !NetworkOk(Stored(LonePanel(), w, id))
  {
    var p := LonePanel();
    var w := Save(Outbounds, Del, LoneOutbound());
    LonePanelIsGood();
    LoneOutboundCountsAsUnused();
    LonePanelVisits();
    assert FindId(p.outbounds, w.data) == 0;
    assert Stored(p, w, id).outbounds + Stored(p, w, id).endpoints == [];
    assert "a" in OwnTag(p.outbounds[0]) && Str("a") in FinalOf(p.config).value.items;
    AcceptedWriteKeepsNetwork(p, w, id);
  }
}
