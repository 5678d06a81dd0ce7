/** Rows in which every link field holds a name, a list of names, or nothing: for
    them the order of the preparation is all the panel asks for. */
module SoundImports {
  import opened Options
  import opened JsonValues
  import opened SuiNetwork
  import O = OutboundImport
  import opened ReadBack
  import opened ImportedRows
  import opened PanelNetwork

  // ---- references seen by the import and by the panel ----

  /** Every link field holds a name, a list of names, or nothing. */
  ghost predicate Sound(v: Json) {
    forall c <- Visits(v) :: c.key in O.LINKS ==> Tags(Some(c.value)).Some?
  }

  /** In a sound value the panel's checks meet only references the import
      counted as dependencies. */
  lemma {:induction false} SoundLinksAreDeps(v: Json, c: Visit, t: string)
    requires Sound(v)
    requires c in Visits(v) && c.key in O.LINKS && t in Tags(Some(c.value)).value
    ensures t in O.Deps(v)
    decreases v
  {
    match v
    case Arr(items) => SoundItemLinksAreDeps(items, c, t);
    case Obj(fields) => SoundFieldLinksAreDeps(fields, v, c, t);
  }

  lemma {:induction false} SoundItemLinksAreDeps(items: seq<Json>, c: Visit, t: string)
    requires forall d <- ItemVisits(items) :: d.key in O.LINKS ==> Tags(Some(d.value)).Some?
    requires c in ItemVisits(items) && c.key in O.LINKS && t in Tags(Some(c.value)).value
    ensures t in O.ItemDeps(items)
    decreases items, 0
  {
    if c in Visits(items[0]) {
      SoundLinksAreDeps(items[0], c, t);
    } else {
      SoundItemLinksAreDeps(items[1..], c, t);
    }
  }

  lemma {:induction false} SoundFieldLinksAreDeps(fields: seq<Field>, row: Json, c: Visit, t: string)
    requires forall d <- FieldVisits(fields, row) :: d.key in O.LINKS ==> Tags(Some(d.value)).Some?
    requires c in FieldVisits(fields, row) && c.key in O.LINKS && t in Tags(Some(c.value)).value
    ensures t in O.FieldDeps(fields)
    decreases fields, 0
  {
    var here, below := Visit(fields[0].key, fields[0].value, row), Visits(fields[0].value);
    assert FieldVisits(fields, row) == [here] + below + FieldVisits(fields[1..], row);
    assert here in FieldVisits(fields, row);
    if here.key in O.LINKS {
      SoundLinkHasNoFields(here.value);
    }
    if c == here {
      LinkTagsAreDeps(c.value, t);
    } else if c in below {
      SoundLinksAreDeps(fields[0].value, c, t);
    } else {
      SoundFieldLinksAreDeps(fields[1..], row, c, t);
    }
  }

  lemma NamesAreStrings(list: seq<Json>)
    requires Names(list).Some?
    ensures ItemVisits(list) == []
    ensures forall t :: t in Names(list).value <==> Str(t) in list
  {
    forall t {
      NamesMembers(list, t);
    }
    if list != [] {
      NamesAreStrings(list[1..]);
    }
  }

  lemma SoundLinkHasNoFields(v: Json)
    requires Tags(Some(v)).Some?
    ensures Visits(v) == []
  {
    if v.Arr? {
      NamesAreStrings(v.items);
    }
  }

  lemma LinkTagsAreDeps(v: Json, t: string)
    requires Tags(Some(v)).Some? && t in Tags(Some(v)).value
    ensures t in O.LinkDeps(v)
  {
    if v.Arr? {
      NamesAreStrings(v.items);
      assert Str(t) in v.items;
    } else {
      NamesMembers([v], t);
    }
  }

  lemma SoundLinksKnown(data: Json, known: set<string>)
    requires Sound(data) && O.Deps(data) <= known
    ensures LinksKnown(data, known)
  {
    forall c, t | c in Visits(data) && c.key in O.LINKS && t in Tags(Some(c.value)).value
      ensures t in known
    {
      SoundLinksAreDeps(data, c, t);
    }
  }

  lemma SoundLinksAvoid(data: Json, tag: string)
    requires Sound(data) && tag !in O.Deps(data)
    ensures LinksAvoid(data, tag)
  {
    forall c | c in Visits(data)
      ensures LinkUse(c, tag)
    {
      if c.key in O.LINKS && tag in Tags(Some(c.value)).value {
        SoundLinksAreDeps(data, c, tag);
      }
    }
  }

  // ---- rewriting keeps rows sound ----

  lemma {:induction false} RewriteSound(v: Json, d: O.Dependency)
    requires Sound(v)
    requires forall t <- O.Deps(v) :: d(t).Some? && (d(t).value == "" ==> t == "")
    ensures Sound(O.Rewrite(v, d))
    decreases v
  {
    match v
    case Arr(items) =>
      RewriteItemsSound(items, d);
    case Obj(fields) =>
      RewriteFieldsSound(fields, v, O.Rewrite(v, d), d);
    case _ =>
  }

  lemma {:induction false} RewriteItemsSound(items: seq<Json>, d: O.Dependency)
    requires forall c <- ItemVisits(items) :: c.key in O.LINKS ==> Tags(Some(c.value)).Some?
    requires forall t <- O.ItemDeps(items) :: d(t).Some? && (d(t).value == "" ==> t == "")
    ensures forall c <- ItemVisits(O.RewriteItems(items, d)) :: c.key in O.LINKS ==> Tags(Some(c.value)).Some?
    decreases items, 0
  {
    if items != [] {
      RewriteSound(items[0], d);
      RewriteItemsSound(items[1..], d);
      assert O.RewriteItems(items, d)[1..] == O.RewriteItems(items[1..], d);
    }
  }

  lemma {:induction false} RewriteFieldsSound(fields: seq<Field>, was: Json, row: Json, d: O.Dependency)
    requires forall c <- FieldVisits(fields, was) :: c.key in O.LINKS ==> Tags(Some(c.value)).Some?
    requires forall t <- O.FieldDeps(fields) :: d(t).Some? && (d(t).value == "" ==> t == "")
    ensures forall c <- FieldVisits(O.RewriteFields(fields, d), row) :: c.key in O.LINKS ==> Tags(Some(c.value)).Some?
    decreases fields, 0
  {
    if fields != [] {
      var after := O.RewriteFields(fields, d);
      var here := Visit(fields[0].key, fields[0].value, was);
      assert FieldVisits(fields, was) == [here] + Visits(fields[0].value) + FieldVisits(fields[1..], was);
      assert here in FieldVisits(fields, was);
      assert after[1..] == O.RewriteFields(fields[1..], d);
      RewriteFieldsSound(fields[1..], was, row, d);
      if fields[0].key in O.LINKS {
        RewriteLinkSound(fields[0].value, d);
        SoundLinkHasNoFields(after[0].value);
      } else {
        RewriteSound(fields[0].value, d);
      }
    }
  }

  lemma RewriteLinkSound(v: Json, d: O.Dependency)
    requires Tags(Some(v)).Some?
    requires forall t <- O.LinkDeps(v) :: d(t).Some? && (d(t).value == "" ==> t == "")
    ensures Tags(Some(O.RewriteLink(v, d))).Some?
  {
    match v
    case Arr(items) =>
      var after := O.RewriteLink(v, d).items;
      forall i | 0 <= i < |items|
        ensures after[i].Str? && after[i].s != ""
      {
        NamesAllStrings(items, i);
        assert items[i].s in O.LinkDeps(v);
      }
      StringsAreNames(after);
    case _ =>
      StringsAreNames([O.RewriteLink(v, d)]);
  }

  lemma {:induction false} NamesAllStrings(list: seq<Json>, i: nat)
    requires Names(list).Some? && i < |list|
    ensures list[i].Str? && list[i].s != ""
  {
    if i > 0 {
      NamesAllStrings(list[1..], i - 1);
    }
  }

  lemma {:induction false} StringsAreNames(list: seq<Json>)
    ensures (forall i :: 0 <= i < |list| ==> list[i].Str? && list[i].s != "") ==> Names(list).Some?
  {
    if list != [] {
      StringsAreNames(list[1..]);
      assert forall i :: 0 < i < |list| ==> list[i] == list[1..][i - 1];
    }
  }

  lemma {:induction false} DropVisits(fields: seq<Field>, key: string, was: Json, row: Json, c: Visit)
    requires c in FieldVisits(Drop(fields, key), row)
    ensures exists d <- FieldVisits(fields, was) :: d.key == c.key && d.value == c.value
  {
    var here := Visit(fields[0].key, fields[0].value, was);
    var all := FieldVisits(fields, was);
    assert all == [here] + Visits(fields[0].value) + FieldVisits(fields[1..], was);
    if fields[0].key == key {
      DropVisits(fields[1..], key, was, row, c);
    } else {
      assert Drop(fields, key)[1..] == Drop(fields[1..], key);
      if c == Visit(fields[0].key, fields[0].value, row) {
        assert here in all;
      } else if c in Visits(fields[0].value) {
        assert c in all;
      } else {
        DropVisits(fields[1..], key, was, row, c);
      }
    }
  }

  /** A tagged row is as sound as the row it came from. */
  lemma TaggedSound(row: O.Row, tag: string)
    requires Sound(row.outbound) && row.outbound.Obj?
    ensures Sound(O.Tagged(row, tag).outbound)
  {
    var dropped := Drop(row.outbound.fields, "id");
    var after := O.Tagged(row, tag).outbound;
    forall c | c in Visits(after) && c.key in O.LINKS
      ensures Tags(Some(c.value)).Some?
    {
      PutVisits(dropped, "tag", Str(tag), row.outbound, after, c);
      var d :| d in FieldVisits(dropped, row.outbound) && d.key == c.key && d.value == c.value;
      DropVisits(row.outbound.fields, "id", row.outbound, row.outbound, d);
    }
  }

  ghost predicate SoundRows(rows: seq<O.Row>) {
    forall row <- rows :: Sound(row.outbound)
  }

  lemma FollowedIsSound(rows: seq<O.Row>, occupied: seq<string>, conflict: string, tags: seq<string>, k: nat)
    requires |tags| == |rows| && O.Planned(rows, O.Elements(occupied), conflict, tags) && k < |rows|
    requires O.Resolvable(rows, tags, O.TaggedRows(rows, tags))
    requires SoundRows(rows)
    ensures Sound(O.Followed(rows, tags, O.TaggedRows(rows, tags))[k].outbound)
  {
    var tagged := O.TaggedRows(rows, tags);
    O.PlannedTagsAreFresh(rows, O.Elements(occupied), conflict, tags, k, k);
    assert rows[k] in rows && tagged[k] in tagged;
    TaggedSound(rows[k], tags[k]);
    var follow: O.Dependency := t => O.Follow(rows, tags, t);
    forall t | t in O.Deps(tagged[k].outbound)
      ensures follow(t).Some? && (follow(t).value == "" ==> t == "")
    {
      if t in O.Renames(rows, tags) {
        O.RenamesOnlyImported(rows, tags, t);
        var i :| 0 <= i < |tags| && tags[i] == O.Renames(rows, tags)[t];
        O.PlannedTagsAreFresh(rows, O.Elements(occupied), conflict, tags, i, i);
      }
    }
    RewriteSound(tagged[k].outbound, follow);
    O.RewriteSame(tagged[k].outbound, follow, t => O.Follow(rows, tags, t));
  }

  // ---- sound rows are created, and can be taken back ----

  /** Every row of the panel that can be referred to has a string for a name. */
  ghost predicate StringTags(p: Panel) {
    forall row <- p.outbounds + p.endpoints :: Get(row, "tag").Some? && Get(row, "tag").value.Str?
  }

  lemma StringTagTexts(rows: seq<Json>)
    requires forall row <- rows :: Get(row, "tag").Some? && Get(row, "tag").value.Str?
    ensures O.Elements(TagTexts(rows)) == TagSet(rows)
  {
    forall t
      ensures t in O.Elements(TagTexts(rows)) <==> t in TagSet(rows)
    {
      TagSetMeaning(rows, t);
      if t in TagSet(rows) {
        var row :| row in rows && Get(row, "tag") == Some(Str(t));
        var i :| 0 <= i < |rows| && rows[i] == row;
        assert TagTexts(rows)[i] == t;
      }
      if t in TagTexts(rows) {
        var i :| 0 <= i < |rows| && TagTexts(rows)[i] == t;
        assert rows[i] in rows;
      }
    }
  }

  /** A panel on which `default` fields resolve too, although its own assertion
      does not look at them. */
  ghost predicate NoDangling(p: Panel) {
    && NetworkOk(p)
    && (forall c <- Visits(p.config) :: c.key == "default" ==> Known(Some(c.value), p.OutboundTags()))
    && forall row <- p.outbounds + p.endpoints :: forall c <- Visits(row) ::
         c.key == "default" ==> Known(Some(c.value), p.OutboundTags())
  }

  lemma FreshAvoidsDefaults(p: Panel, tag: string)
    requires NoDangling(p) && tag !in p.OutboundTags()
    ensures DefaultsAvoid(p, tag)
  {
  }

  ghost predicate SoundPlan(planned: seq<O.Row>) {
    forall i :: 0 <= i < |planned| ==> Sound(planned[i].outbound)
  }

  lemma SoundRowCreatable(p: Panel, planned: seq<O.Row>, i: nat)
    requires SoundPlan(planned) && O.ValidOrder(planned, p.OutboundTags()) && i < |planned|
    ensures RowCreatable(p, planned, i)
  {
    assert forall row <- planned[..i] :: row in planned[..i + 1];
    assert O.TagsOf(planned[..i]) <= O.TagsOf(planned[..i + 1]);
    SoundLinksKnown(planned[i].outbound, p.OutboundTags() + O.TagsOf(planned[..i + 1]));
  }

  lemma SoundRowAvoids(p: Panel, planned: seq<O.Row>, j: nat, k: nat)
    requires Importable(p, planned) && SoundPlan(planned) && O.ValidOrder(planned, p.OutboundTags())
    requires j <= k < |planned|
    ensures LinksAvoid(planned[j].outbound, TagAt(planned, k))
  {
    var tag := TagAt(planned, k);
    TagsOfRows(planned[..j], tag);
    forall row | row in planned[..j]
      ensures Get(row.outbound, "tag") != Some(Str(tag))
    {
      var i :| 0 <= i < j && planned[i] == row;
    }
    SoundLinksAvoid(planned[j].outbound, tag);
  }

  lemma SoundRowRemovable(p: Panel, planned: seq<O.Row>, k: nat)
    requires Importable(p, planned) && SoundPlan(planned) && O.ValidOrder(planned, p.OutboundTags())
    requires NoDangling(p) && k < |planned|
    ensures Removable(p, planned, k)
  {
    FreshAvoidsDefaults(p, TagAt(planned, k));
    forall j | 0 <= j <= k
      ensures LinksAvoid(planned[j].outbound, TagAt(planned, k))
      ensures DefaultsIn(planned[j].outbound, TagAt(planned, k))
    {
      SoundRowAvoids(p, planned, j, k);
      assert forall c <- Visits(planned[j].outbound) :: LinkUse(c, TagAt(planned, k));
    }
  }

  lemma PreparedIsSound(p: Panel, local: seq<O.Row>, rows: seq<O.Row>, conflict: string, planned: seq<O.Row>)
    requires PreparedFor(p, local, true, rows, conflict, planned)
    requires SoundRows(rows) && StringTags(p)
    ensures Importable(p, planned) && SoundPlan(planned) && O.ValidOrder(planned, p.OutboundTags())
  {
    var remote := p.outbounds + p.endpoints;
    var occupied := NameList(remote) + LocalTags(local);
    var tags :| PreparedWith(rows, occupied, TagTexts(remote), conflict, tags, planned);
    StringTagTexts(remote);
    PreparedIsImportable(p, rows, occupied, TagTexts(remote), conflict, tags, planned);
    forall i | 0 <= i < |planned|
      ensures Sound(planned[i].outbound)
    {
      var k := PreparedFrom(rows, occupied, TagTexts(remote), conflict, tags, planned, planned[i]);
      FollowedIsSound(rows, occupied, conflict, tags, k);
    }
  }

  /** Importing sound rows in the prepared order is never refused, and where the
      panel's `default` fields resolve as well, neither is taking any of them back. */
  lemma SoundRowsAreImported(p: Panel, local: seq<O.Row>, rows: seq<O.Row>, conflict: string, planned: seq<O.Row>)
    requires PreparedFor(p, local, true, rows, conflict, planned)
    requires SoundRows(rows) && StringTags(p)
    ensures Creatable(p, planned)
    ensures NoDangling(p) ==> AllRemovable(p, planned, |planned|)
  {
    PreparedIsSound(p, local, rows, conflict, planned);
    forall i | 0 <= i < |planned|
      ensures RowCreatable(p, planned, i)
      ensures NoDangling(p) ==> Removable(p, planned, i)
    {
      SoundRowCreatable(p, planned, i);
      if NoDangling(p) {
        SoundRowRemovable(p, planned, i);
      }
    }
  }
}
