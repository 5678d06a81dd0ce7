/** Prepared outbounds on a panel: which of them the guards let in, and which of
    those they let be taken back. */
module ImportedRows {
  import opened Options
  import opened JsonValues
  import opened SuiNetwork
  import O = OutboundImport
  import opened ReadBack

  // ---- rows on the panel ----

  /** Rows as the panel holds them after `i` of them were created. */
  function Placed(planned: seq<O.Row>, ids: seq<string>): (r: seq<Json>)
    requires |ids| <= |planned|
    ensures |r| == |ids|
  {
    seq(|ids|, i requires 0 <= i < |ids| => Identified(planned[i].outbound, ids[i]))
  }

  function TagTexts(rows: seq<Json>): seq<string> {
    seq(|rows|, i requires 0 <= i < |rows| => Text(Get(rows[i], "tag")))
  }

  /** Prepared rows as `PrepareSuiOutbounds` returns them for a panel. */
  ghost predicate Importable(p: Panel, planned: seq<O.Row>) {
    && (forall i :: 0 <= i < |planned| ==>
          && planned[i].outbound.Obj? && Get(planned[i].outbound, "id") == None
          && exists t :: t != "" && t !in p.OutboundTags() && Get(planned[i].outbound, "tag") == Some(Str(t)))
    && (forall i, j :: 0 <= i < j < |planned| ==>
          Get(planned[i].outbound, "tag") != Get(planned[j].outbound, "tag"))
  }

  ghost predicate AllUnique(rows: seq<O.Row>) {
    forall row <- rows :: UniqueKeys(row.outbound)
  }

  function TagAt(planned: seq<O.Row>, k: nat): string
    requires k < |planned|
  {
    Text(Get(planned[k].outbound, "tag"))
  }

  /** The panel with some of the planned rows added. */
  function With(base: Panel, planned: seq<O.Row>, ids: seq<string>): Panel
    requires |ids| <= |planned|
  {
    base.(outbounds := base.outbounds + Placed(planned, ids))
  }

  lemma TagsOfRows(rows: seq<O.Row>, t: string)
    ensures t in O.TagsOf(rows) <==> exists row <- rows :: Get(row.outbound, "tag") == Some(Str(t))
  {
    if exists row <- rows :: Get(row.outbound, "tag") == Some(Str(t)) {
      var row :| row in rows && Get(row.outbound, "tag") == Some(Str(t));
      assert t in OwnTag(row.outbound);
    }
  }

  /** The names of the placed rows are the names of the planned ones. */
  lemma PlacedTags(planned: seq<O.Row>, ids: seq<string>)
    requires |ids| <= |planned|
    ensures TagSet(Placed(planned, ids)) == O.TagsOf(planned[..|ids|])
  {
    var placed := Placed(planned, ids);
    forall t
      ensures t in TagSet(placed) <==> t in O.TagsOf(planned[..|ids|])
    {
      TagSetMeaning(placed, t);
      TagsOfRows(planned[..|ids|], t);
      forall i | 0 <= i < |ids|
        ensures Get(placed[i], "tag") == Get(planned[..|ids|][i].outbound, "tag")
      {
        IdentifiedRow(planned[i].outbound, ids[i]);
      }
      if row: O.Row :| row in planned[..|ids|] && Get(row.outbound, "tag") == Some(Str(t)) {
        var i :| 0 <= i < |ids| && planned[..|ids|][i] == row;
        assert placed[i] in placed;
      }
    }
  }

  lemma WithTags(base: Panel, planned: seq<O.Row>, ids: seq<string>)
    requires |ids| <= |planned|
    ensures With(base, planned, ids).OutboundTags() == base.OutboundTags() + O.TagsOf(planned[..|ids|])
  {
    var p := With(base, planned, ids);
    PlacedTags(planned, ids);
    SplitTags(base.outbounds, Placed(planned, ids));
    SplitTags(base.outbounds, base.endpoints);
    SplitTags(p.outbounds, p.endpoints);
  }

  // ---- when a creation is let through ----

  lemma NoIdIsNowhere(rows: seq<Json>, data: Json)
    requires Get(data, "id") == None
    ensures FindId(rows, data) == |rows|
  {
  }

  /** A new outbound is let through exactly when every detour and group in it, at
      any depth, is well formed and names only outbounds of the panel or itself. */
  lemma CreationAccepted(p: Panel, data: Json)
    requires NetworkOk(p) && Get(data, "id") == None
    ensures Accepted(p, Save(Outbounds, New, data)) <==> LinksKnown(data, p.OutboundTags() + OwnTag(data))
  {
    var q := Candidate(p, Save(Outbounds, New, data));
    NoIdIsNowhere(p.outbounds, data);
    assert q.outbounds == p.outbounds + [data];
    NetworkParts(p);
    NetworkParts(q);
    SplitTags(p.outbounds, [data]);
    SplitTags(p.outbounds, p.endpoints);
    SplitTags(q.outbounds, q.endpoints);
    assert TagSet([data]) == OwnTag(data);
    assert q.OutboundTags() == p.OutboundTags() + OwnTag(data);
    assert data in q.outbounds + q.endpoints;
    if LinksKnown(data, q.OutboundTags()) {
      forall row | row in q.outbounds + q.endpoints
        ensures LinksKnown(row, q.OutboundTags())
      {
        if row in p.outbounds + p.endpoints {
          LinksGrow(row, p.OutboundTags(), q.OutboundTags());
        }
      }
      NetworkCovers(p, q);
    }
  }

  /** A row of the plan names only the panel, the rows before it, and itself. */
  ghost predicate RowCreatable(base: Panel, planned: seq<O.Row>, i: nat)
    requires i < |planned|
  {
    LinksKnown(planned[i].outbound, base.OutboundTags() + O.TagsOf(planned[..i + 1]))
  }

  ghost predicate Creatable(base: Panel, planned: seq<O.Row>) {
    forall i :: 0 <= i < |planned| ==> RowCreatable(base, planned, i)
  }

  /** The same for the next row of a plan, on the panel that holds the rows before it. */
  lemma NextCreationAccepted(base: Panel, planned: seq<O.Row>, ids: seq<string>)
    requires Importable(base, planned) && |ids| < |planned|
    requires NetworkOk(With(base, planned, ids))
    ensures Accepted(With(base, planned, ids), Save(Outbounds, New, planned[|ids|].outbound)) <==>
            RowCreatable(base, planned, |ids|)
  {
    var k := |ids|;
    WithTags(base, planned, ids);
    CreationAccepted(With(base, planned, ids), planned[k].outbound);
    assert planned[..k + 1] == planned[..k] + [planned[k]];
    assert O.TagsOf(planned[..k + 1]) == O.TagsOf(planned[..k]) + OwnTag(planned[k].outbound);
  }

  // ---- when a removal is let through ----

  predicate DefaultAvoid(c: Visit, tag: string) {
    c.key == "default" ==> Avoids(Some(c.value), tag)
  }

  /** No `default` field anywhere in the value names the tag or is malformed. */
  predicate DefaultsIn(v: Json, tag: string) {
    forall c <- Visits(v) :: DefaultAvoid(c, tag)
  }

  ghost predicate DefaultsAvoid(p: Panel, tag: string) {
    && DefaultsIn(p.config, tag)
    && forall row <- p.outbounds + p.endpoints :: DefaultsIn(row, tag)
  }

  /** No `default` of the panel or of an earlier row stands in the way of taking a
      row back, and the row does not refer to itself. */
  ghost predicate Removable(base: Panel, planned: seq<O.Row>, k: nat)
    requires k < |planned|
  {
    && DefaultsAvoid(base, TagAt(planned, k))
    && (forall j :: 0 <= j < k ==> DefaultsIn(planned[j].outbound, TagAt(planned, k)))
    && LinksAvoid(planned[k].outbound, TagAt(planned, k))
  }

  ghost predicate AllRemovable(base: Panel, planned: seq<O.Row>, n: nat)
    requires n <= |planned|
  {
    forall k :: 0 <= k < n ==> Removable(base, planned, k)
  }

  /** Where detours and groups name only known outbounds, an unknown name can only
      stand in a `default`. */
  lemma KnownLinksAvoid(v: Json, known: set<string>, tag: string)
    requires LinksKnown(v, known) && tag !in known
    ensures LinksAvoid(v, tag) <==> DefaultsIn(v, tag)
  {
    forall c | c in Visits(v)
      ensures LinkUse(c, tag) <==> DefaultAvoid(c, tag)
    {
      assert LinkCheck(c, known);
    }
  }

  /** A name the routes of a good panel cannot know is unused exactly when no
      outbound, endpoint or setting of the panel links to it. */
  lemma UnusedOfFresh(base: Panel, p: Panel, tag: string)
    requires NetworkOk(base) && tag !in base.OutboundTags() && tag != "" && p.config == base.config
    ensures Unused(Outbounds, tag, p.config, p.outbounds, p.endpoints) <==>
            LinksAvoid(p.config, tag) && forall row <- p.outbounds + p.endpoints :: LinksAvoid(row, tag)
  {
    NetworkParts(base);
    if Unused(Outbounds, tag, p.config, p.outbounds, p.endpoints) {
      UnusedParts(Outbounds, tag, p);
    }
    if LinksAvoid(p.config, tag) && forall row <- p.outbounds + p.endpoints :: LinksAvoid(row, tag) {
      forall c | c in MaybeVisits(RouteOf(p.config))
        ensures RouteUse(c, "outbound", tag)
      {
        assert RouteCheck(c, TagSet(base.inbounds), base.OutboundTags());
      }
      forall c | c in Visits(Arr([p.config] + p.outbounds + p.endpoints))
        ensures LinkUse(c, tag)
      {
        PanelVisits(p, c);
      }
      if FinalOf(p.config) == Some(Str(tag)) {
        assert Known(FinalOf(p.config), base.OutboundTags());
        NamesMembers([Str(tag)], tag);
      }
    }
  }

  lemma {:induction false} FieldVisitsAppend(a: seq<Field>, b: seq<Field>, row: Json)
    ensures FieldVisits(a + b, row) == FieldVisits(a, row) + FieldVisits(b, row)
  {
    if a == [] {
      assert a + b == b;
    } else {
      assert (a + b)[1..] == a[1..] + b;
      FieldVisitsAppend(a[1..], b, row);
    }
  }

  lemma {:induction false} PutNew(fields: seq<Field>, key: string, x: Json)
    requires Lookup(fields, key) == None
    ensures Put(fields, key, x) == fields + [Field(key, x)]
  {
    if fields != [] {
      PutNew(fields[1..], key, x);
    }
  }

  /** Every field met in `v`, but for its id, is met in `w` as well. */
  ghost predicate MetIn(v: Json, w: Json) {
    forall c <- Visits(v) :: c.key == "id" || exists d <- Visits(w) :: d.key == c.key && d.value == c.value
  }

  lemma MetAvoids(v: Json, w: Json, tag: string)
    requires MetIn(v, w) && LinksAvoid(w, tag)
    ensures LinksAvoid(v, tag)
  {
    forall c | c in Visits(v)
      ensures LinkUse(c, tag)
    {
      if c.key != "id" {
        var d :| d in Visits(w) && d.key == c.key && d.value == c.value;
        assert LinkUse(d, tag);
      }
    }
  }

  lemma MetAfterId(data: Json, id: string)
    requires data.Obj? && Get(data, "id") == None
    ensures MetIn(data, Identified(data, id))
  {
    var after := Identified(data, id);
    PutNew(data.fields, "id", Num(id));
    FieldVisitsAppend(data.fields, [Field("id", Num(id))], after);
    forall c | c in Visits(data)
      ensures exists d <- Visits(after) :: d.key == c.key && d.value == c.value
    {
      SameVisits(data.fields, data, after, c);
      var d :| d in FieldVisits(data.fields, after) && d.key == c.key && d.value == c.value;
      assert d in Visits(after);
    }
  }

  /** The id of a stored row is no link, and hides none. */
  lemma IdentifiedAvoids(data: Json, id: string, tag: string)
    requires data.Obj? && Get(data, "id") == None
    ensures LinksAvoid(Identified(data, id), tag) <==> LinksAvoid(data, tag)
  {
    IdentifiedRow(data, id);
    assert MetIn(Identified(data, id), data);
    MetAfterId(data, id);
    if LinksAvoid(data, tag) {
      MetAvoids(Identified(data, id), data, tag);
    }
    if LinksAvoid(Identified(data, id), tag) {
      MetAvoids(data, Identified(data, id), tag);
    }
  }

  lemma PlacedAvoid(planned: seq<O.Row>, ids: seq<string>, tag: string)
    requires |ids| <= |planned|
    requires forall j :: 0 <= j < |ids| ==> planned[j].outbound.Obj? && Get(planned[j].outbound, "id") == None
    ensures (forall row <- Placed(planned, ids) :: LinksAvoid(row, tag)) <==>
            (forall j :: 0 <= j < |ids| ==> LinksAvoid(planned[j].outbound, tag))
  {
    var placed := Placed(planned, ids);
    forall j | 0 <= j < |ids|
      ensures LinksAvoid(placed[j], tag) <==> LinksAvoid(planned[j].outbound, tag)
    {
      IdentifiedAvoids(planned[j].outbound, ids[j], tag);
    }
    if forall row <- placed :: LinksAvoid(row, tag) {
      forall j | 0 <= j < |ids|
        ensures LinksAvoid(planned[j].outbound, tag)
      {
        assert placed[j] in placed;
      }
    }
  }

  /** A row that was let in names nothing that comes after it. */
  lemma CreatedLinks(base: Panel, planned: seq<O.Row>, j: nat, k: nat)
    requires Importable(base, planned) && j < k < |planned| && RowCreatable(base, planned, j)
    ensures LinksAvoid(planned[j].outbound, TagAt(planned, k)) <==> DefaultsIn(planned[j].outbound, TagAt(planned, k))
  {
    var tag := TagAt(planned, k);
    TagsOfRows(planned[..j + 1], tag);
    assert tag !in O.TagsOf(planned[..j + 1]) by {
      forall row | row in planned[..j + 1]
        ensures Get(row.outbound, "tag") != Some(Str(tag))
      {
        var i :| 0 <= i < j + 1 && planned[i] == row;
      }
    }
    KnownLinksAvoid(planned[j].outbound, base.OutboundTags() + O.TagsOf(planned[..j + 1]), tag);
  }

  lemma BaseLinks(base: Panel, tag: string)
    requires NetworkOk(base) && tag !in base.OutboundTags()
    ensures DefaultsAvoid(base, tag) <==>
            LinksAvoid(base.config, tag) && forall row <- base.outbounds + base.endpoints :: LinksAvoid(row, tag)
  {
    NetworkParts(base);
    forall v | v == base.config || v in base.outbounds + base.endpoints
      ensures LinksAvoid(v, tag) <==> DefaultsIn(v, tag)
    {
      KnownLinksAvoid(v, base.OutboundTags(), tag);
    }
  }

  /** Taking back the row created last is let through exactly when it is removable. */
  lemma CleanupAccepted(base: Panel, planned: seq<O.Row>, ids: seq<string>, data: Json)
    requires NetworkOk(base) && Importable(base, planned) && 0 < |ids| <= |planned|
    requires forall j :: 0 <= j < |ids| ==> RowCreatable(base, planned, j)
    requires FindId(With(base, planned, ids).outbounds, data) == |base.outbounds| + |ids| - 1
    ensures Accepted(With(base, planned, ids), Save(Outbounds, Del, data)) <==> Removable(base, planned, |ids| - 1)
  {
    var p, k := With(base, planned, ids), |ids| - 1;
    var tag, placed := TagAt(planned, k), Placed(planned, ids);
    IdentifiedRow(planned[k].outbound, ids[k]);
    assert p.outbounds[|p.outbounds| - 1] == placed[k];
    UnusedOfFresh(base, p, tag);
    BaseLinks(base, tag);
    PlacedAvoid(planned, ids, tag);
    forall j | 0 <= j < k
      ensures LinksAvoid(planned[j].outbound, tag) <==> DefaultsIn(planned[j].outbound, tag)
    {
      CreatedLinks(base, planned, j, k);
    }
    assert forall row :: row in p.outbounds + p.endpoints <==> row in base.outbounds + base.endpoints || row in placed;
  }

  // ---- what the preparation returns ----

  /** The rows in a valid order, under their planned tags and with their references followed. */
  ghost predicate PreparedWith(rows: seq<O.Row>, occupied: seq<string>, available: seq<string>, conflict: string,
                               tags: seq<string>, planned: seq<O.Row>) {
    && |tags| == |rows| && O.Planned(rows, O.Elements(occupied), conflict, tags)
    && O.Resolvable(rows, tags, O.TaggedRows(rows, tags))
    && multiset(planned) == multiset(O.Followed(rows, tags, O.TaggedRows(rows, tags)))
    && O.ValidOrder(planned, O.Elements(available))
  }

  /** What the preparation returns can be created and taken back on the panel it
      was prepared for. */
  lemma PreparedIsImportable(p: Panel, rows: seq<O.Row>, occupied: seq<string>, available: seq<string>,
                             conflict: string, tags: seq<string>, planned: seq<O.Row>)
    requires PreparedWith(rows, occupied, available, conflict, tags, planned)
    requires p.OutboundTags() <= O.Elements(occupied)
    ensures Importable(p, planned)
  {
    var final := O.Followed(rows, tags, O.TaggedRows(rows, tags));
    FollowedRows(rows, occupied, conflict, tags);
    forall i | 0 <= i < |planned|
      ensures planned[i].outbound.Obj? && Get(planned[i].outbound, "id") == None
      ensures exists t :: t != "" && t !in p.OutboundTags() && Get(planned[i].outbound, "tag") == Some(Str(t))
    {
      var k := PreparedFrom(rows, occupied, available, conflict, tags, planned, planned[i]);
      assert tags[k] !in p.OutboundTags();
    }
    forall i, j | 0 <= i < j < |planned|
      ensures Get(planned[i].outbound, "tag") != Get(planned[j].outbound, "tag")
    {
      DistinctInAnyOrder(final, planned, i, j);
    }
  }

  lemma FollowedRows(rows: seq<O.Row>, occupied: seq<string>, conflict: string, tags: seq<string>)
    requires |tags| == |rows| && O.Planned(rows, O.Elements(occupied), conflict, tags)
    requires O.Resolvable(rows, tags, O.TaggedRows(rows, tags))
    ensures
      var final := O.Followed(rows, tags, O.TaggedRows(rows, tags));
      forall k :: 0 <= k < |rows| ==>
        && final[k].outbound.Obj? && Get(final[k].outbound, "id") == None
        && Get(final[k].outbound, "tag") == Some(Str(tags[k]))
        && tags[k] != "" && tags[k] !in O.Elements(occupied) && O.GoodRow(rows[k])
        && forall j :: 0 <= j < k ==> tags[j] != tags[k]
  {
    var final := O.Followed(rows, tags, O.TaggedRows(rows, tags));
    forall k, j | 0 <= k < |rows| && 0 <= j < |rows|
      ensures tags[k] != "" && tags[k] !in O.Elements(occupied) && O.GoodRow(rows[k])
      ensures j < k ==> tags[j] != tags[k]
    {
      O.PlannedTagsAreFresh(rows, O.Elements(occupied), conflict, tags, k, j);
    }
    forall k | 0 <= k < |rows|
      ensures final[k].outbound.Obj? && Get(final[k].outbound, "id") == None
      ensures Get(final[k].outbound, "tag") == Some(Str(tags[k]))
    {
      O.FollowedRow(rows, tags, k);
    }
  }

  /** Every prepared row comes from one of the rows given. */
  lemma PreparedFrom(rows: seq<O.Row>, occupied: seq<string>, available: seq<string>, conflict: string,
                     tags: seq<string>, planned: seq<O.Row>, row: O.Row) returns (k: nat)
    requires PreparedWith(rows, occupied, available, conflict, tags, planned) && row in planned
    ensures k < |rows| && row == O.Followed(rows, tags, O.TaggedRows(rows, tags))[k]
    ensures rows[k].outbound.Obj? && O.GoodRow(rows[k])
  {
    var final := O.Followed(rows, tags, O.TaggedRows(rows, tags));
    assert row in multiset(planned) && row in multiset(final);
    k :| 0 <= k < |final| && final[k] == row;
    O.PlannedTagsAreFresh(rows, O.Elements(occupied), conflict, tags, k, k);
  }

  lemma {:induction false} CountedTwice<T>(s: seq<T>, i: nat, j: nat)
    requires i < j < |s| && s[i] == s[j]
    ensures multiset(s)[s[i]] >= 2
  {
    assert s == s[..j] + s[j..];
    assert s[i] in s[..j] && s[j] in s[j..];
    assert s[..j][i] == s[i] && s[j..][0] == s[j];
  }

  lemma {:induction false} CountedOnce<T>(s: seq<T>, k: nat)
    requires k < |s|
    requires forall i :: 0 <= i < |s| && i != k ==> s[i] != s[k]
    ensures multiset(s)[s[k]] == 1
  {
    assert s == s[..k] + [s[k]] + s[k + 1..];
    assert s[k] !in s[..k] && s[k] !in s[k + 1..];
  }

  /** Rows with distinct tags stay distinct in any order. */
  lemma DistinctInAnyOrder(final: seq<O.Row>, planned: seq<O.Row>, i: nat, j: nat)
    requires multiset(planned) == multiset(final) && i < j < |planned|
    requires forall k, m :: 0 <= k < m < |final| ==> Get(final[k].outbound, "tag") != Get(final[m].outbound, "tag")
    ensures Get(planned[i].outbound, "tag") != Get(planned[j].outbound, "tag")
  {
    assert planned[i] in multiset(final) && planned[j] in multiset(final);
    var k :| 0 <= k < |final| && final[k] == planned[i];
    var m :| 0 <= m < |final| && final[m] == planned[j];
    if k == m {
      CountedTwice(planned, i, j);
      CountedOnce(final, k);
    }
  }
}
