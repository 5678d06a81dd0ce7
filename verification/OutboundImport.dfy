/** Preparing outbounds for import into an S-UI panel: colliding tags are renamed,
    references are rewritten to follow, and the rows are put in dependency order. */
module OutboundImport {
  import opened Options
  import opened JsonValues
  import opened Texts
  import SuiNetwork

  datatype Row = Row(name: string, outbound: Json)

  datatype Failure = BadRow | TagTaken(tag: string) | AmbiguousTag | NoOrder
  datatype Result<+T> = Ok(value: T) | Err(failure: Failure)

  const LINKS: set<string> := {"detour", "default", "outbounds"}

  // ---- references ----

  /** The tags the walk passes to its dependency callback. The walk does not look
      below a link field that is neither a name nor a list. */
  function Deps(v: Json): set<string> {
    match v
    case Arr(items) => ItemDeps(items)
    case Obj(fields) => FieldDeps(fields)
    case _ => {}
  }

  function ItemDeps(items: seq<Json>): set<string> {
    if items == [] then {} else Deps(items[0]) + ItemDeps(items[1..])
  }

  function FieldDeps(fields: seq<Field>): set<string> {
    if fields == [] then {}
    else (if fields[0].key in LINKS then LinkDeps(fields[0].value) else Deps(fields[0].value))
         + FieldDeps(fields[1..])
  }

  function LinkDeps(v: Json): set<string> {
    match v
    case Str(s) => if s == "" then {} else {s}
    case Arr(items) => set item | item in items && item.Str? :: item.s
    case _ => {}
  }

  type Dependency = string -> Option<string>

  /** The value after the walk has put `dependency(tag)` in place of every tag. */
  function Rewrite(v: Json, dependency: Dependency): Json {
    match v
    case Arr(items) => Arr(RewriteItems(items, dependency))
    case Obj(fields) => Obj(RewriteFields(fields, dependency))
    case _ => v
  }

  function RewriteItems(items: seq<Json>, dependency: Dependency): (r: seq<Json>)
    ensures |r| == |items|
  {
    if items == [] then [] else [Rewrite(items[0], dependency)] + RewriteItems(items[1..], dependency)
  }

  function RewriteFields(fields: seq<Field>, dependency: Dependency): (r: seq<Field>)
    ensures |r| == |fields|
  {
    if fields == [] then []
    else [Field(fields[0].key,
                if fields[0].key in LINKS then RewriteLink(fields[0].value, dependency)
                else Rewrite(fields[0].value, dependency))]
         + RewriteFields(fields[1..], dependency)
  }

  function RewriteLink(v: Json, dependency: Dependency): Json {
    match v
    case Str(s) => if s == "" then v else RewriteName(v, dependency)
    case Arr(items) => Arr(seq(|items|, i requires 0 <= i < |items| => RewriteName(items[i], dependency)))
    case _ => v
  }

  function RewriteName(v: Json, dependency: Dependency): Json {
    if v.Str? && dependency(v.s).Some? then Str(dependency(v.s).value) else v
  }

  /** The walk: rewrites in place, or throws when a dependency does. */
  method Visit(value: Json, dependency: Dependency) returns (r: Option<Json>)
    ensures r.Some? <==> AllSome(Deps(value), dependency)
    ensures r.Some? ==> r.value == Rewrite(value, dependency)
    decreases value
  {
    match value
    case Arr(items) =>
      var after := VisitItems(items, dependency);
      return if after.Some? then Some(Arr(after.value)) else None;
    case Obj(fields) =>
      var after := VisitFields(fields, dependency);
      return if after.Some? then Some(Obj(after.value)) else None;
    case _ =>
      return Some(value);
  }

  ghost predicate AllSome(tags: set<string>, dependency: Dependency) {
    forall t <- tags :: dependency(t).Some?
  }

  /** How far the walk over a list has come: what is left decides, and what is done
      stands in front. */
  ghost predicate ItemsLeft(items: seq<Json>, dependency: Dependency, i: nat, after: seq<Json>)
    requires i <= |items|
  {
    && (AllSome(ItemDeps(items), dependency) <==> AllSome(ItemDeps(items[i..]), dependency))
    && RewriteItems(items, dependency) == after + RewriteItems(items[i..], dependency)
  }

  lemma AllSomeBoth(a: set<string>, b: set<string>, dependency: Dependency)
    ensures AllSome(a + b, dependency) <==> AllSome(a, dependency) && AllSome(b, dependency)
  {
  }

  lemma Regrouped<T>(a: seq<T>, b: seq<T>, c: seq<T>)
    ensures a + (b + c) == a + b + c
  {
  }

  lemma NextItem(items: seq<Json>, dependency: Dependency, i: nat)
    requires i < |items|
    ensures ItemDeps(items[i..]) == Deps(items[i]) + ItemDeps(items[i + 1..])
    ensures RewriteItems(items[i..], dependency) == [Rewrite(items[i], dependency)] + RewriteItems(items[i + 1..], dependency)
  {
    assert items[i..][0] == items[i] && items[i..][1..] == items[i + 1..];
  }

  lemma ItemDone(items: seq<Json>, dependency: Dependency, i: nat, after: seq<Json>)
    requires i < |items| && ItemsLeft(items, dependency, i, after)
    ensures AllSome(Deps(items[i]), dependency) ==> ItemsLeft(items, dependency, i + 1, after + [Rewrite(items[i], dependency)])
    ensures !AllSome(Deps(items[i]), dependency) ==> !AllSome(ItemDeps(items), dependency)
  {
    NextItem(items, dependency, i);
    AllSomeBoth(Deps(items[i]), ItemDeps(items[i + 1..]), dependency);
    Regrouped(after, [Rewrite(items[i], dependency)], RewriteItems(items[i + 1..], dependency));
  }

  lemma ItemsDone(items: seq<Json>, dependency: Dependency, after: seq<Json>)
    requires ItemsLeft(items, dependency, |items|, after)
    ensures AllSome(ItemDeps(items), dependency) && RewriteItems(items, dependency) == after
  {
    assert items[|items|..] == [];
  }

  /** What a field adds to the names, and what becomes of its value. */
  function FieldDep(field: Field): set<string> {
    if field.key in LINKS then LinkDeps(field.value) else Deps(field.value)
  }

  function FieldValue(field: Field, dependency: Dependency): Json {
    if field.key in LINKS then RewriteLink(field.value, dependency) else Rewrite(field.value, dependency)
  }

  ghost predicate FieldsLeft(fields: seq<Field>, dependency: Dependency, i: nat, after: seq<Field>)
    requires i <= |fields|
  {
    && (AllSome(FieldDeps(fields), dependency) <==> AllSome(FieldDeps(fields[i..]), dependency))
    && RewriteFields(fields, dependency) == after + RewriteFields(fields[i..], dependency)
  }

  lemma NextField(fields: seq<Field>, dependency: Dependency, i: nat)
    requires i < |fields|
    ensures FieldDeps(fields[i..]) == FieldDep(fields[i]) + FieldDeps(fields[i + 1..])
    ensures RewriteFields(fields[i..], dependency)
         == [Field(fields[i].key, FieldValue(fields[i], dependency))] + RewriteFields(fields[i + 1..], dependency)
  {
    assert fields[i..][0] == fields[i] && fields[i..][1..] == fields[i + 1..];
  }

  lemma FieldDone(fields: seq<Field>, dependency: Dependency, i: nat, after: seq<Field>)
    requires i < |fields| && FieldsLeft(fields, dependency, i, after)
    ensures AllSome(FieldDep(fields[i]), dependency) ==>
              FieldsLeft(fields, dependency, i + 1, after + [Field(fields[i].key, FieldValue(fields[i], dependency))])
    ensures !AllSome(FieldDep(fields[i]), dependency) ==> !AllSome(FieldDeps(fields), dependency)
  {
    NextField(fields, dependency, i);
    AllSomeBoth(FieldDep(fields[i]), FieldDeps(fields[i + 1..]), dependency);
    Regrouped(after, [Field(fields[i].key, FieldValue(fields[i], dependency))], RewriteFields(fields[i + 1..], dependency));
  }

  lemma FieldsDone(fields: seq<Field>, dependency: Dependency, after: seq<Field>)
    requires FieldsLeft(fields, dependency, |fields|, after)
    ensures AllSome(FieldDeps(fields), dependency) && RewriteFields(fields, dependency) == after
  {
    assert fields[|fields|..] == [];
  }

  method VisitItems(items: seq<Json>, dependency: Dependency) returns (r: Option<seq<Json>>)
    ensures r.Some? <==> AllSome(ItemDeps(items), dependency)
    ensures r.Some? ==> r.value == RewriteItems(items, dependency)
    decreases items, 0
  {
    var after := [];
    assert items[0..] == items;
    for i := 0 to |items|
      invariant ItemsLeft(items, dependency, i, after)
    {
      ItemDone(items, dependency, i, after);
      var item := Visit(items[i], dependency);
      if item.None? {
        return None;
      }
      after := after + [item.value];
    }
    ItemsDone(items, dependency, after);
    return Some(after);
  }

  method VisitFields(fields: seq<Field>, dependency: Dependency) returns (r: Option<seq<Field>>)
    ensures r.Some? <==> AllSome(FieldDeps(fields), dependency)
    ensures r.Some? ==> r.value == RewriteFields(fields, dependency)
    decreases fields, 0
  {
    var after := [];
    assert fields[0..] == fields;
    for i := 0 to |fields|
      invariant FieldsLeft(fields, dependency, i, after)
    {
      FieldDone(fields, dependency, i, after);
      var item;
      if fields[i].key in LINKS {
        item := VisitLink(fields[i].value, dependency);
      } else {
        item := Visit(fields[i].value, dependency);
      }
      if item.None? {
        return None;
      }
      after := after + [Field(fields[i].key, item.value)];
    }
    FieldsDone(fields, dependency, after);
    return Some(after);
  }

  method VisitLink(value: Json, dependency: Dependency) returns (r: Option<Json>)
    ensures r.Some? <==> AllSome(LinkDeps(value), dependency)
    ensures r.Some? ==> r.value == RewriteLink(value, dependency)
  {
    match value
    case Str(s) =>
      if s == "" {
        return Some(value);
      }
      if dependency(s).None? {
        return None;
      }
      return Some(Str(dependency(s).value));
    case Arr(items) =>
      var after := [];
      for i := 0 to |items|
        invariant |after| == i
        invariant forall j :: 0 <= j < i ==> after[j] == RewriteName(items[j], dependency)
        invariant forall j :: 0 <= j < i && items[j].Str? ==> dependency(items[j].s).Some?
      {
        if items[i].Str? && dependency(items[i].s).None? {
          assert items[i].s in LinkDeps(value);
          return None;
        }
        after := after + [RewriteName(items[i], dependency)];
      }
      assert after == RewriteLink(value, dependency).items;
      return Some(Arr(after));
    case _ =>
      return Some(value);
  }

  /** Every reference is replaced by its image, and nothing becomes or stops
      being a reference. */
  lemma {:induction false} DepsOfRewrite(v: Json, dependency: Dependency)
    requires forall t <- Deps(v) :: dependency(t).Some? && (dependency(t).value == "" ==> t == "")
    ensures Deps(Rewrite(v, dependency)) == set t | t in Deps(v) :: dependency(t).value
    decreases v
  {
    match v
    case Arr(items) => DepsOfRewriteItems(items, dependency);
    case Obj(fields) => DepsOfRewriteFields(fields, dependency);
    case _ =>
  }

  lemma {:induction false} DepsOfRewriteItems(items: seq<Json>, dependency: Dependency)
    requires forall t <- ItemDeps(items) :: dependency(t).Some? && (dependency(t).value == "" ==> t == "")
    ensures ItemDeps(RewriteItems(items, dependency)) == set t | t in ItemDeps(items) :: dependency(t).value
    decreases items, 0
  {
    if items != [] {
      DepsOfRewrite(items[0], dependency);
      DepsOfRewriteItems(items[1..], dependency);
      assert RewriteItems(items, dependency)[1..] == RewriteItems(items[1..], dependency);
    }
  }

  lemma {:induction false} DepsOfRewriteFields(fields: seq<Field>, dependency: Dependency)
    requires forall t <- FieldDeps(fields) :: dependency(t).Some? && (dependency(t).value == "" ==> t == "")
    ensures FieldDeps(RewriteFields(fields, dependency)) == set t | t in FieldDeps(fields) :: dependency(t).value
    decreases fields, 0
  {
    if fields != [] {
      if fields[0].key in LINKS {
        DepsOfRewriteLink(fields[0].value, dependency);
      } else {
        DepsOfRewrite(fields[0].value, dependency);
      }
      DepsOfRewriteFields(fields[1..], dependency);
      assert RewriteFields(fields, dependency)[1..] == RewriteFields(fields[1..], dependency);
    }
  }

  lemma DepsOfRewriteLink(v: Json, dependency: Dependency)
    requires forall t <- LinkDeps(v) :: dependency(t).Some? && (dependency(t).value == "" ==> t == "")
    ensures LinkDeps(RewriteLink(v, dependency)) == set t | t in LinkDeps(v) :: dependency(t).value
  {
    if v.Arr? {
      var after := RewriteLink(v, dependency).items;
      forall t | t in LinkDeps(v)
        ensures dependency(t).value in LinkDeps(Arr(after))
      {
        var i :| 0 <= i < |v.items| && v.items[i] == Str(t);
        assert after[i] == Str(dependency(t).value);
      }
      forall u | u in LinkDeps(Arr(after))
        ensures exists t <- LinkDeps(v) :: dependency(t).value == u
      {
        var i :| 0 <= i < |after| && after[i] == Str(u);
        assert v.items[i].Str? && v.items[i].s in LinkDeps(v);
      }
    }
  }

  /** Rewriting touches reference names only: with the names blanked out, the
      value before and after is the same. */
  lemma {:induction false} RewriteKeepsTheRest(v: Json, dependency: Dependency, blank: Dependency)
    requires forall t :: blank(t) == Some("#")
    requires forall t <- Deps(v) :: dependency(t).Some? && (dependency(t).value == "" ==> t == "")
    ensures Rewrite(Rewrite(v, dependency), blank) == Rewrite(v, blank)
    decreases v
  {
    match v
    case Arr(items) => RewriteItemsKeepsTheRest(items, dependency, blank);
    case Obj(fields) => RewriteFieldsKeepsTheRest(fields, dependency, blank);
    case _ =>
  }

  lemma {:induction false} RewriteItemsKeepsTheRest(items: seq<Json>, dependency: Dependency, blank: Dependency)
    requires forall t :: blank(t) == Some("#")
    requires forall t <- ItemDeps(items) :: dependency(t).Some? && (dependency(t).value == "" ==> t == "")
    ensures RewriteItems(RewriteItems(items, dependency), blank) == RewriteItems(items, blank)
    decreases items, 0
  {
    if items != [] {
      RewriteKeepsTheRest(items[0], dependency, blank);
      RewriteItemsKeepsTheRest(items[1..], dependency, blank);
      assert RewriteItems(items, dependency)[1..] == RewriteItems(items[1..], dependency);
    }
  }

  lemma {:induction false} RewriteFieldsKeepsTheRest(fields: seq<Field>, dependency: Dependency, blank: Dependency)
    requires forall t :: blank(t) == Some("#")
    requires forall t <- FieldDeps(fields) :: dependency(t).Some? && (dependency(t).value == "" ==> t == "")
    ensures RewriteFields(RewriteFields(fields, dependency), blank) == RewriteFields(fields, blank)
    decreases fields, 0
  {
    if fields != [] {
      var v := fields[0].value;
      if fields[0].key in LINKS {
        if v.Arr? {
          assert RewriteLink(RewriteLink(v, dependency), blank).items == RewriteLink(v, blank).items;
        }
        assert RewriteLink(RewriteLink(v, dependency), blank) == RewriteLink(v, blank);
      } else {
        RewriteKeepsTheRest(v, dependency, blank);
      }
      RewriteFieldsKeepsTheRest(fields[1..], dependency, blank);
      assert RewriteFields(fields, dependency)[1..] == RewriteFields(fields[1..], dependency);
    }
  }

  /** Rewriting every name to itself changes nothing. */
  lemma {:induction false} RewriteToItself(v: Json, same: Dependency)
    requires forall t :: same(t) == Some(t)
    ensures Rewrite(v, same) == v
    decreases v
  {
    match v
    case Arr(items) => RewriteItemsToItself(items, same);
    case Obj(fields) => RewriteFieldsToItself(fields, same);
    case _ =>
  }

  lemma {:induction false} RewriteItemsToItself(items: seq<Json>, same: Dependency)
    requires forall t :: same(t) == Some(t)
    ensures RewriteItems(items, same) == items
    decreases items, 0
  {
    if items != [] {
      RewriteToItself(items[0], same);
      RewriteItemsToItself(items[1..], same);
    }
  }

  lemma {:induction false} RewriteFieldsToItself(fields: seq<Field>, same: Dependency)
    requires forall t :: same(t) == Some(t)
    ensures RewriteFields(fields, same) == fields
    decreases fields, 0
  {
    if fields != [] {
      var v := fields[0].value;
      RewriteToItself(v, same);
      if v.Arr? {
        assert RewriteLink(v, same).items == v.items;
      }
      RewriteFieldsToItself(fields[1..], same);
    }
  }

  // ---- dependency order ----

  function TagsOf(rows: seq<Row>): set<string> {
    set row, t | row in rows && t in SuiNetwork.OwnTag(row.outbound) :: t
  }

  /** Every row refers only to names that are available or carried by an earlier row. */
  ghost predicate ValidOrder(rows: seq<Row>, available: set<string>) {
    forall i :: 0 <= i < |rows| ==> Deps(rows[i].outbound) <= available + TagsOf(rows[..i])
  }

  /** `pending.findIndex(ready)`; the length stands for "none". */
  method FindReady(pending: seq<Row>, available: set<string>) returns (index: nat)
    ensures index <= |pending|
    ensures index < |pending| ==> Deps(pending[index].outbound) <= available
    ensures forall j :: 0 <= j < index ==> !(Deps(pending[j].outbound) <= available)
  {
    var dependency := (tag: string) => if tag in available then Some(tag) else None;
    for i := 0 to |pending|
      invariant forall j :: 0 <= j < i ==> !(Deps(pending[j].outbound) <= available)
    {
      var ready := Visit(pending[i].outbound, dependency);
      if ready.Some? {
        return i;
      }
    }
    return |pending|;
  }

  method OrderRows(planned: seq<Row>, availableTags: set<string>) returns (r: Result<seq<Row>>)
    ensures r.Ok? ==> multiset(r.value) == multiset(planned) && ValidOrder(r.value, availableTags)
    ensures r.Err? ==> r.failure == NoOrder
    ensures r.Err? ==>
      forall order: seq<Row> :: multiset(order) == multiset(planned) ==> !ValidOrder(order, availableTags)
    ensures ValidOrder(planned, availableTags) ==> r == Ok(planned)
  {
    var pending, ordered, available := planned, [], availableTags;
    while pending != []
      invariant multiset(ordered) + multiset(pending) == multiset(planned)
      invariant ValidOrder(ordered, availableTags)
      invariant available == availableTags + TagsOf(ordered)
      invariant Unmoved(planned, availableTags, ordered, pending)
      decreases |pending|
    {
      var index := FindReady(pending, available);
      if index == |pending| {
        forall order: seq<Row> | multiset(order) == multiset(planned)
          ensures !ValidOrder(order, availableTags)
        {
          StuckMeansNoOrder(ordered, pending, availableTags, order);
        }
        return Err(NoOrder);
      }
      var row := pending[index];
      TakesRow(ordered, pending, index);
      OrderExtends(ordered, row, availableTags);
      UnmovedStays(planned, availableTags, ordered, pending, index);
      pending := pending[..index] + pending[index + 1..];
      ordered := ordered + [row];
      available := available + SuiNetwork.OwnTag(row.outbound);
    }
    UnmovedEnds(planned, availableTags, ordered);
    return Ok(ordered);
  }

  /** While the rows are in order already, none is taken out of turn. */
  ghost predicate Unmoved(planned: seq<Row>, available: set<string>, ordered: seq<Row>, pending: seq<Row>) {
    ValidOrder(planned, available) ==> ordered + pending == planned
  }

  lemma TakesRow(ordered: seq<Row>, pending: seq<Row>, index: nat)
    requires index < |pending|
    ensures
      multiset(ordered + [pending[index]]) + multiset(pending[..index] + pending[index + 1..])
      == multiset(ordered) + multiset(pending)
  {
    assert pending == pending[..index] + [pending[index]] + pending[index + 1..];
  }

  lemma UnmovedStays(planned: seq<Row>, available: set<string>, ordered: seq<Row>, pending: seq<Row>, index: nat)
    requires index < |pending| && Unmoved(planned, available, ordered, pending)
    requires forall j :: 0 <= j < index ==> !(Deps(pending[j].outbound) <= available + TagsOf(ordered))
    ensures Unmoved(planned, available, ordered + [pending[index]], pending[..index] + pending[index + 1..])
  {
    if ValidOrder(planned, available) {
      NextInOrder(planned, available, ordered, pending);
      assert index == 0;
      assert pending[..0] + pending[1..] == pending[1..] && pending == [pending[0]] + pending[1..];
      Regrouped(ordered, [pending[0]], pending[1..]);
    }
  }

  lemma NextInOrder(planned: seq<Row>, available: set<string>, ordered: seq<Row>, pending: seq<Row>)
    requires ValidOrder(planned, available) && ordered + pending == planned && pending != []
    ensures Deps(pending[0].outbound) <= available + TagsOf(ordered)
  {
    assert planned[|ordered|] == pending[0] && planned[..|ordered|] == ordered;
  }

  lemma UnmovedEnds(planned: seq<Row>, available: set<string>, ordered: seq<Row>)
    requires Unmoved(planned, available, ordered, [])
    ensures ValidOrder(planned, available) ==> ordered == planned
  {
    assert ordered + [] == ordered;
  }

  lemma OrderExtends(ordered: seq<Row>, row: Row, available: set<string>)
    requires ValidOrder(ordered, available)
    requires Deps(row.outbound) <= available + TagsOf(ordered)
    ensures ValidOrder(ordered + [row], available)
    ensures TagsOf(ordered + [row]) == TagsOf(ordered) + SuiNetwork.OwnTag(row.outbound)
  {
    var after := ordered + [row];
    forall i | 0 <= i < |after|
      ensures Deps(after[i].outbound) <= available + TagsOf(after[..i])
    {
      if i < |ordered| {
        assert after[i] == ordered[i] && after[..i] == ordered[..i];
      } else {
        assert after[..i] == ordered;
      }
    }
  }

  /** When no pending row is ready, no order of all the rows works: the first
      pending row of any order would be ready. */
  lemma StuckMeansNoOrder(ordered: seq<Row>, pending: seq<Row>, available: set<string>, order: seq<Row>)
    requires pending != []
    requires multiset(order) == multiset(ordered) + multiset(pending)
    requires forall row <- pending :: !(Deps(row.outbound) <= available + TagsOf(ordered))
    ensures !ValidOrder(order, available)
  {
    assert order[..|order|] == order;
    assert pending[0] in multiset(pending);
    assert multiset(order)[pending[0]] > multiset(ordered)[pending[0]];
    if ValidOrder(order, available) {
      PrefixIsOrdered(ordered, pending, available, order, |order|);
    }
  }

  lemma {:induction false} PrefixIsOrdered(ordered: seq<Row>, pending: seq<Row>, available: set<string>, order: seq<Row>, k: nat)
    requires k <= |order|
    requires multiset(order) == multiset(ordered) + multiset(pending)
    requires forall row <- pending :: !(Deps(row.outbound) <= available + TagsOf(ordered))
    requires ValidOrder(order, available)
    ensures multiset(order[..k]) <= multiset(ordered)
  {
    if k > 0 {
      PrefixIsOrdered(ordered, pending, available, order, k - 1);
      NextIsNotPending(ordered, pending, available, order, k - 1);
      CountInPrefix(order, k, order[k - 1]);
      PrefixGrows(order, k - 1, multiset(ordered), multiset(pending));
    }
  }

  lemma PrefixGrows<T>(s: seq<T>, k: nat, bound: multiset<T>, rest: multiset<T>)
    requires k < |s| && multiset(s[..k]) <= bound
    requires multiset(s[..k + 1])[s[k]] <= (bound + rest)[s[k]] && rest[s[k]] == 0
    ensures multiset(s[..k + 1]) <= bound
  {
    assert s[..k + 1] == s[..k] + [s[k]];
  }

  lemma NextIsNotPending(ordered: seq<Row>, pending: seq<Row>, available: set<string>, order: seq<Row>, k: nat)
    requires k < |order|
    requires forall row <- pending :: !(Deps(row.outbound) <= available + TagsOf(ordered))
    requires ValidOrder(order, available)
    requires multiset(order[..k]) <= multiset(ordered)
    ensures multiset(pending)[order[k]] == 0
  {
    forall other | other in order[..k]
      ensures other in ordered
    {
      assert other in multiset(order[..k]);
    }
    assert TagsOf(order[..k]) <= TagsOf(ordered);
    assert Deps(order[k].outbound) <= available + TagsOf(ordered);
  }

  lemma CountInPrefix<T>(s: seq<T>, k: nat, x: T)
    requires k <= |s|
    ensures multiset(s[..k])[x] <= multiset(s)[x]
  {
    assert s == s[..k] + s[k..];
  }

  // ---- planning the tags ----

  /** `String(outbound.tag || "").trim()`. */
  function OriginalTag(outbound: Json): string {
    var tag := Get(outbound, "tag");
    Trim(if Truthy(tag) then Text(tag) else "")
  }

  /** The key a row is counted under: `String(outbound.tag)`, untrimmed. */
  function CountKey(row: Row): string {
    Text(Get(row.outbound, "tag"))
  }

  function Count(rows: seq<Row>, key: string): nat {
    if rows == [] then 0
    else Count(rows[..|rows| - 1], key) + if CountKey(rows[|rows| - 1]) == key then 1 else 0
  }

  predicate GoodRow(row: Row) {
    var tag, kind := OriginalTag(row.outbound), Get(row.outbound, "type");
    tag != "" && |tag| <= 160 && kind.Some? && kind.value.Str? && kind.value.s != ""
  }

  function Stem(original: string): string {
    if |original| > 150 then original[..150] else original
  }

  /** The tag a row gets: its own, or the first free replacement. */
  ghost predicate NextTag(original: string, taken: set<string>, tag: string) {
    if original !in taken then tag == original
    else exists n: nat :: n >= 2 && IsFirstFree(original, n, taken) && tag == Suffixed(Stem(original), n)
  }

  ghost predicate IsFirstFree(original: string, n: nat, taken: set<string>) {
    Suffixed(Stem(original), n) !in taken && forall m :: 2 <= m < n ==> Suffixed(Stem(original), m) in taken
  }

  /** The tags of a prefix of the rows, each chosen against the occupied names
      and the tags before it. */
  ghost predicate Planned(rows: seq<Row>, occupied: set<string>, conflict: string, tags: seq<string>) {
    && |tags| <= |rows|
    && forall i :: 0 <= i < |tags| ==> PlannedAt(rows, occupied, conflict, tags, i)
  }

  ghost predicate PlannedAt(rows: seq<Row>, occupied: set<string>, conflict: string, tags: seq<string>, i: nat)
    requires i < |tags| <= |rows|
  {
    var original := OriginalTag(rows[i].outbound);
    var taken := occupied + Elements(tags[..i]);
    && GoodRow(rows[i])
    && (original in taken ==> conflict == "rename")
    && NextTag(original, taken, tags[i])
  }

  function Elements(tags: seq<string>): set<string> {
    set t | t in tags
  }

  /** The planned row: the id is dropped and the tag set. */
  function Tagged(row: Row, tag: string): Row {
    if row.outbound.Obj? then row.(outbound := Obj(Put(Drop(row.outbound.fields, "id"), "tag", Str(tag)))) else row
  }

  function TaggedRows(rows: seq<Row>, tags: seq<string>): (r: seq<Row>)
    requires |tags| <= |rows|
    ensures |r| == |tags|
  {
    seq(|tags|, i requires 0 <= i < |tags| => Tagged(rows[i], tags[i]))
  }

  /** `renamed`: the new tag under each original one that is counted once. */
  function Renames(rows: seq<Row>, tags: seq<string>): map<string, string>
    requires |tags| <= |rows|
  {
    if tags == [] then map[]
    else
      var k := |tags| - 1;
      var before := Renames(rows, tags[..k]);
      var original := OriginalTag(rows[k].outbound);
      if Count(rows, original) == 1 then before[original := tags[k]] else before
  }

  function CountIn(counts: map<string, nat>, key: string): nat {
    if key in counts then counts[key] else 0
  }

  ghost predicate Counts(counts: map<string, nat>, rows: seq<Row>) {
    forall key :: CountIn(counts, key) == Count(rows, key)
  }

  method CountTags(rows: seq<Row>) returns (counts: map<string, nat>)
    ensures Counts(counts, rows)
  {
    counts := map[];
    for i := 0 to |rows|
      invariant Counts(counts, rows[..i])
    {
      assert rows[..i + 1][..i] == rows[..i];
      var key := CountKey(rows[i]);
      ghost var before := counts;
      counts := counts[key := CountIn(counts, key) + 1];
      forall other
        ensures CountIn(counts, other) == Count(rows[..i + 1], other)
      {
        assert CountIn(before, other) == Count(rows[..i], other);
      }
    }
    assert rows[..|rows|] == rows;
  }

  /** The suffix search. */
  method FreeTag(original: string, taken: set<string>) returns (tag: string)
    ensures NextTag(original, taken, tag) && tag !in taken
  {
    tag := original;
    if original in taken {
      var n: nat := 2;
      ghost var m: nat := 1;
      while tag in taken
        invariant n == m + 1 && m >= 1
        invariant tag == if m == 1 then original else Suffixed(Stem(original), m)
        invariant forall j :: 2 <= j < m ==> Suffixed(Stem(original), j) in taken
        decreases m == 1, TakenFrom(Stem(original), m, taken)
      {
        if m > 1 {
          TakenFromShrinks(Stem(original), m, taken);
        }
        tag := Suffixed(Stem(original), n);
        m := n;
        n := n + 1;
      }
      assert IsFirstFree(original, m, taken);
    }
  }

  method PlanTags(rows: seq<Row>, counts: map<string, nat>, occupiedTags: set<string>, conflict: string)
    returns (failure: Option<Failure>, tags: seq<string>, planned: seq<Row>, renamed: map<string, string>)
    requires Counts(counts, rows)
    ensures |tags| <= |rows| && Planned(rows, occupiedTags, conflict, tags)
    ensures planned == TaggedRows(rows, tags)
    ensures failure.None? <==> |tags| == |rows|
    ensures renamed == Renames(rows, tags)
    ensures failure.Some? ==>
      var row := rows[|tags|];
      if GoodRow(row) then
        failure.value == TagTaken(OriginalTag(row.outbound)) && conflict != "rename"
        && OriginalTag(row.outbound) in occupiedTags + Elements(tags)
      else failure.value == BadRow
  {
    var occupied := occupiedTags;
    failure, tags, planned, renamed := None, [], [], map[];
    for i := 0 to |rows|
      invariant |tags| == i && PlanSoFar(rows, occupiedTags, conflict, tags, occupied, planned, renamed)
    {
      var row := rows[i];
      var original := OriginalTag(row.outbound);
      if !GoodRow(row) {
        failure := Some(BadRow);
        return;
      }
      if original in occupied && conflict != "rename" {
        failure := Some(TagTaken(original));
        return;
      }
      var tag := FreeTag(original, occupied);
      PlanStep(rows, occupiedTags, conflict, tags, tag, occupied, planned, renamed);
      assert CountIn(counts, original) == Count(rows, original);
      tags := tags + [tag];
      occupied := occupied + {tag};
      planned := planned + [Tagged(row, tag)];
      if original in counts && counts[original] == 1 {
        renamed := renamed[original := tag];
      }
    }
  }

  ghost predicate PlanSoFar(rows: seq<Row>, occupiedTags: set<string>, conflict: string, tags: seq<string>,
                            occupied: set<string>, planned: seq<Row>, renamed: map<string, string>) {
    && |tags| <= |rows| && Planned(rows, occupiedTags, conflict, tags)
    && occupied == occupiedTags + Elements(tags)
    && planned == TaggedRows(rows, tags) && renamed == Renames(rows, tags)
  }

  lemma PlanStep(rows: seq<Row>, occupiedTags: set<string>, conflict: string, tags: seq<string>, tag: string,
                 occupied: set<string>, planned: seq<Row>, renamed: map<string, string>)
    requires PlanSoFar(rows, occupiedTags, conflict, tags, occupied, planned, renamed)
    requires |tags| < |rows| && GoodRow(rows[|tags|])
    requires OriginalTag(rows[|tags|].outbound) in occupied ==> conflict == "rename"
    requires NextTag(OriginalTag(rows[|tags|].outbound), occupied, tag)
    ensures
      var original := OriginalTag(rows[|tags|].outbound);
      PlanSoFar(rows, occupiedTags, conflict, tags + [tag], occupied + {tag}, planned + [Tagged(rows[|tags|], tag)],
                if Count(rows, original) == 1 then renamed[original := tag] else renamed)
  {
    PlanExtends(rows, occupiedTags, conflict, tags, tag);
    ElementsExtend(tags, tag);
    TaggedRowsExtend(rows, tags, tag);
    RenamesExtend(rows, tags, tag);
  }

  lemma PlanExtends(rows: seq<Row>, occupied: set<string>, conflict: string, tags: seq<string>, tag: string)
    requires |tags| < |rows| && Planned(rows, occupied, conflict, tags)
    requires GoodRow(rows[|tags|])
    requires OriginalTag(rows[|tags|].outbound) in occupied + Elements(tags) ==> conflict == "rename"
    requires NextTag(OriginalTag(rows[|tags|].outbound), occupied + Elements(tags), tag)
    ensures Planned(rows, occupied, conflict, tags + [tag])
  {
    var after := tags + [tag];
    assert after[..|tags|] == tags;
    forall i | 0 <= i < |tags|
      ensures PlannedAt(rows, occupied, conflict, after, i)
    {
      assert PlannedAt(rows, occupied, conflict, tags, i);
      assert after[..i] == tags[..i] && after[i] == tags[i];
    }
    assert PlannedAt(rows, occupied, conflict, after, |tags|);
  }

  lemma RenamesExtend(rows: seq<Row>, tags: seq<string>, tag: string)
    requires |tags| < |rows|
    ensures Renames(rows, tags + [tag]) ==
            var original := OriginalTag(rows[|tags|].outbound);
            if Count(rows, original) == 1 then Renames(rows, tags)[original := tag] else Renames(rows, tags)
  {
    var k := |tags|;
    assert (tags + [tag])[..k] == tags && (tags + [tag])[k] == tag && |tags + [tag]| - 1 == k;
  }

  lemma ElementsExtend(tags: seq<string>, tag: string)
    ensures Elements(tags + [tag]) == Elements(tags) + {tag}
  {
  }

  lemma TaggedRowsExtend(rows: seq<Row>, tags: seq<string>, tag: string)
    requires |tags| < |rows|
    ensures TaggedRows(rows, tags + [tag]) == TaggedRows(rows, tags) + [Tagged(rows[|tags|], tag)]
  {
    var a, b := TaggedRows(rows, tags + [tag]), TaggedRows(rows, tags) + [Tagged(rows[|tags|], tag)];
    forall i | 0 <= i < |a|
      ensures a[i] == b[i]
    {
      assert (tags + [tag])[i] == if i < |tags| then tags[i] else tag;
    }
  }

  // ---- the whole preparation ----

  /** What a reference becomes; `None` when several imported rows carry the name. */
  function Follow(rows: seq<Row>, tags: seq<string>, t: string): Option<string>
    requires |tags| <= |rows|
  {
    if Count(rows, t) > 1 then None
    else if t in Renames(rows, tags) then Some(Renames(rows, tags)[t])
    else Some(t)
  }

  predicate Resolvable(rows: seq<Row>, tags: seq<string>, planned: seq<Row>)
    requires |tags| <= |rows|
  {
    forall row <- planned :: forall t <- Deps(row.outbound) :: Follow(rows, tags, t).Some?
  }

  /** The planned rows with every reference followed. */
  function Followed(rows: seq<Row>, tags: seq<string>, planned: seq<Row>): (r: seq<Row>)
    requires |tags| <= |rows|
    ensures |r| == |planned|
  {
    seq(|planned|, i requires 0 <= i < |planned| =>
      planned[i].(outbound := Rewrite(planned[i].outbound, t => Follow(rows, tags, t))))
  }

  lemma {:induction false} RewriteSame(v: Json, f: Dependency, g: Dependency)
    requires forall t :: f(t) == g(t)
    ensures Rewrite(v, f) == Rewrite(v, g)
    decreases v
  {
    match v
    case Arr(items) => RewriteItemsSame(items, f, g);
    case Obj(fields) => RewriteFieldsSame(fields, f, g);
    case _ =>
  }

  lemma {:induction false} RewriteItemsSame(items: seq<Json>, f: Dependency, g: Dependency)
    requires forall t :: f(t) == g(t)
    ensures RewriteItems(items, f) == RewriteItems(items, g)
    decreases items, 0
  {
    if items != [] {
      RewriteSame(items[0], f, g);
      RewriteItemsSame(items[1..], f, g);
    }
  }

  lemma {:induction false} RewriteFieldsSame(fields: seq<Field>, f: Dependency, g: Dependency)
    requires forall t :: f(t) == g(t)
    ensures RewriteFields(fields, f) == RewriteFields(fields, g)
    decreases fields, 0
  {
    if fields != [] {
      var v := fields[0].value;
      RewriteSame(v, f, g);
      if v.Arr? {
        assert RewriteLink(v, f).items == RewriteLink(v, g).items;
      }
      RewriteFieldsSame(fields[1..], f, g);
    }
  }

  method FollowReferences(rows: seq<Row>, ghost tags: seq<string>, counts: map<string, nat>,
                          renamed: map<string, string>, planned: seq<Row>) returns (r: Option<seq<Row>>)
    requires Counts(counts, rows)
    requires |tags| <= |rows| && renamed == Renames(rows, tags)
    ensures r.Some? <==> Resolvable(rows, tags, planned)
    ensures r.Some? ==> r.value == Followed(rows, tags, planned)
  {
    var dependency := (tag: string) =>
      if CountIn(counts, tag) > 1 then None
      else if tag in renamed then Some(renamed[tag])
      else Some(tag);
    ghost var follow := (t: string) => Follow(rows, tags, t);
    assert forall t :: dependency(t) == follow(t);
    var after := planned;
    for i := 0 to |planned|
      invariant |after| == |planned|
      invariant after[..i] == Followed(rows, tags, planned)[..i]
      invariant after[i..] == planned[i..]
      invariant forall row <- planned[..i] :: forall t <- Deps(row.outbound) :: Follow(rows, tags, t).Some?
    {
      assert after[i] == planned[i];
      var outbound := Visit(after[i].outbound, dependency);
      if outbound.None? {
        assert planned[i] in planned;
        ghost var t :| t in Deps(planned[i].outbound) && dependency(t).None?;
        assert Follow(rows, tags, t).None?;
        return None;
      }
      RewriteSame(planned[i].outbound, dependency, t => Follow(rows, tags, t));
      after := after[i := after[i].(outbound := outbound.value)];
      forall t | t in Deps(planned[i].outbound)
        ensures Follow(rows, tags, t).Some?
      {
        assert dependency(t).Some?;
      }
    }
    assert planned[..|planned|] == planned;
    return Some(after);
  }

  method PrepareSuiOutbounds(rows: seq<Row>, occupiedTags: seq<string>, availableTags: seq<string>, conflict: string)
    returns (r: Result<seq<Row>>, ghost tags: seq<string>)
    ensures |tags| <= |rows| && Planned(rows, Elements(occupiedTags), conflict, tags)
    ensures r.Ok? ==>
      var final := Followed(rows, tags, TaggedRows(rows, tags));
      && |tags| == |rows| && Resolvable(rows, tags, TaggedRows(rows, tags))
      && multiset(r.value) == multiset(final)
      && ValidOrder(r.value, Elements(availableTags))
    ensures r.Err? && r.failure == NoOrder ==>
      var final := Followed(rows, tags, TaggedRows(rows, tags));
      && |tags| == |rows| && Resolvable(rows, tags, TaggedRows(rows, tags))
      && forall order: seq<Row> :: multiset(order) == multiset(final) ==> !ValidOrder(order, Elements(availableTags))
    ensures r.Err? && r.failure == AmbiguousTag ==>
      |tags| == |rows| && !Resolvable(rows, tags, TaggedRows(rows, tags))
    ensures r.Err? && r.failure != NoOrder && r.failure != AmbiguousTag ==>
      forall plan :: |plan| == |rows| ==> !Planned(rows, Elements(occupiedTags), conflict, plan)
    ensures r.Err? && r.failure != NoOrder && r.failure != AmbiguousTag ==>
      && |tags| < |rows|
      && var outbound := rows[|tags|].outbound;
      if GoodRow(rows[|tags|]) then
        && r.failure == TagTaken(OriginalTag(outbound)) && conflict != "rename"
        && OriginalTag(outbound) in Elements(occupiedTags) + Elements(tags)
      else r.failure == BadRow
    ensures r.Ok? && ValidOrder(Followed(rows, tags, TaggedRows(rows, tags)), Elements(availableTags)) ==>
      r.value == Followed(rows, tags, TaggedRows(rows, tags))
  {
    var counts := CountTags(rows);
    var failure, planTags, planned, renamed := PlanTags(rows, counts, Elements(occupiedTags), conflict);
    tags := planTags;
    if failure.Some? {
      forall plan: seq<string> | |plan| == |rows|
        ensures !Planned(rows, Elements(occupiedTags), conflict, plan)
      {
        NoPlanBeyond(rows, Elements(occupiedTags), conflict, tags, plan);
      }
      return Err(failure.value), tags;
    }
    var followed := FollowReferences(rows, tags, counts, renamed, planned);
    if followed.None? {
      return Err(AmbiguousTag), tags;
    }
    r := OrderRows(followed.value, Elements(availableTags));
  }

  /** A plan's tags are distinct and none of them is occupied. */
  lemma PlannedTagsAreFresh(rows: seq<Row>, occupied: set<string>, conflict: string, tags: seq<string>, i: nat, j: nat)
    requires Planned(rows, occupied, conflict, tags)
    requires i < |tags|
    ensures tags[i] !in occupied && tags[i] != "" && GoodRow(rows[i])
    ensures j < i ==> tags[j] != tags[i]
  {
    assert PlannedAt(rows, occupied, conflict, tags, i);
    assert tags[i] !in occupied + Elements(tags[..i]);
    if j < i {
      assert tags[..i][j] == tags[j];
    }
  }

  /** There is at most one plan of each length. */
  lemma {:induction false} PlanIsUnique(rows: seq<Row>, occupied: set<string>, conflict: string, a: seq<string>, b: seq<string>, k: nat)
    requires Planned(rows, occupied, conflict, a) && Planned(rows, occupied, conflict, b)
    requires k <= |a| && k <= |b|
    ensures a[..k] == b[..k]
  {
    if k > 0 {
      PlanIsUnique(rows, occupied, conflict, a, b, k - 1);
      assert PlannedAt(rows, occupied, conflict, a, k - 1) && PlannedAt(rows, occupied, conflict, b, k - 1);
      assert a[..k] == a[..k - 1] + [a[k - 1]] && b[..k] == b[..k - 1] + [b[k - 1]];
      var original := OriginalTag(rows[k - 1].outbound);
      var taken := occupied + Elements(a[..k - 1]);
      if original in taken {
        var m: nat :| m >= 2 && IsFirstFree(original, m, taken) && a[k - 1] == Suffixed(Stem(original), m);
        var n: nat :| n >= 2 && IsFirstFree(original, n, taken) && b[k - 1] == Suffixed(Stem(original), n);
        assert m == n;
      }
    }
  }

  lemma NoPlanBeyond(rows: seq<Row>, occupied: set<string>, conflict: string, tags: seq<string>, plan: seq<string>)
    requires |tags| < |rows| == |plan|
    requires Planned(rows, occupied, conflict, tags)
    requires var row := rows[|tags|];
      !GoodRow(row) || (conflict != "rename" && OriginalTag(row.outbound) in occupied + Elements(tags))
    ensures !Planned(rows, occupied, conflict, plan)
  {
    assert tags[..|tags|] == tags;
    assert plan[..|tags|] == tags ==> !PlannedAt(rows, occupied, conflict, plan, |tags|);
    if Planned(rows, occupied, conflict, plan) {
      PlanIsUnique(rows, occupied, conflict, tags, plan, |tags|);
    }
  }

  // ---- what renaming means ----

  /** The tag is a string without surrounding white space. */
  predicate Trimmed(row: Row) {
    OriginalTag(row.outbound) == CountKey(row)
  }

  lemma {:induction false} CountOfTwo(rows: seq<Row>, i: nat, j: nat)
    requires i < j < |rows| && CountKey(rows[i]) == CountKey(rows[j])
    ensures Count(rows, CountKey(rows[i])) >= 2
  {
    if j < |rows| - 1 {
      CountOfTwo(rows[..|rows| - 1], i, j);
    } else {
      CountOfOne(rows[..j], i);
    }
  }

  lemma {:induction false} CountOfOne(rows: seq<Row>, i: nat)
    requires i < |rows|
    ensures Count(rows, CountKey(rows[i])) >= 1
  {
    if i < |rows| - 1 {
      CountOfOne(rows[..|rows| - 1], i);
    }
  }

  lemma {:induction false} RenamesUnique(rows: seq<Row>, tags: seq<string>, j: nat)
    requires |tags| <= |rows| && j < |tags|
    requires forall row <- rows :: Trimmed(row)
    requires Count(rows, CountKey(rows[j])) == 1
    ensures CountKey(rows[j]) in Renames(rows, tags) && Renames(rows, tags)[CountKey(rows[j])] == tags[j]
  {
    var k := |tags| - 1;
    assert Trimmed(rows[k]) && Trimmed(rows[j]);
    if j < k {
      RenamesUnique(rows, tags[..k], j);
      NotRepeated(rows, j, k);
    }
    RenamesStep(rows, tags, CountKey(rows[k]));
  }

  lemma NotRepeated(rows: seq<Row>, j: nat, k: nat)
    requires j < k < |rows| && Count(rows, CountKey(rows[j])) == 1
    ensures CountKey(rows[k]) != CountKey(rows[j])
  {
    if CountKey(rows[k]) == CountKey(rows[j]) {
      CountOfTwo(rows, j, k);
    }
  }

  lemma RenamesStep(rows: seq<Row>, tags: seq<string>, original: string)
    requires 0 < |tags| <= |rows| && original == OriginalTag(rows[|tags| - 1].outbound)
    ensures
      var k := |tags| - 1;
      var before := Renames(rows, tags[..k]);
      Renames(rows, tags) == if Count(rows, original) == 1 then before[original := tags[k]] else before
  {
  }

  lemma {:induction false} RenamesOnlyImported(rows: seq<Row>, tags: seq<string>, t: string)
    requires |tags| <= |rows|
    requires t in Renames(rows, tags)
    ensures exists i :: 0 <= i < |tags| && OriginalTag(rows[i].outbound) == t
    ensures Renames(rows, tags)[t] in tags
  {
    var k := |tags| - 1;
    if OriginalTag(rows[k].outbound) != t || Count(rows, t) != 1 {
      RenamesOnlyImported(rows, tags[..k], t);
    }
  }

  /** A reference to a row imported once under that name follows the row to its
      new tag; a reference to a name that is not imported is left alone. */
  lemma RenamingKeepsMeaning(rows: seq<Row>, tags: seq<string>, t: string)
    requires |tags| == |rows|
    requires forall row <- rows :: Trimmed(row)
    ensures forall j :: 0 <= j < |rows| && CountKey(rows[j]) == t && Count(rows, t) == 1 ==>
              Follow(rows, tags, t) == Some(tags[j])
    ensures (forall row <- rows :: CountKey(row) != t) ==> Follow(rows, tags, t) == Some(t)
    ensures Follow(rows, tags, t).None? <==> Count(rows, t) > 1
  {
    forall j | 0 <= j < |rows| && CountKey(rows[j]) == t && Count(rows, t) == 1
      ensures Follow(rows, tags, t) == Some(tags[j])
    {
      RenamesUnique(rows, tags, j);
    }
    if forall row <- rows :: CountKey(row) != t {
      CountOfNone(rows, t);
      forall i | 0 <= i < |rows|
        ensures OriginalTag(rows[i].outbound) != t
      {
        assert Trimmed(rows[i]);
      }
      if t in Renames(rows, tags) {
        RenamesOnlyImported(rows, tags, t);
      }
    }
  }

  lemma {:induction false} CountOfNone(rows: seq<Row>, t: string)
    requires forall row <- rows :: CountKey(row) != t
    ensures Count(rows, t) == 0
  {
    if rows != [] {
      assert rows[|rows| - 1] in rows;
      CountOfNone(rows[..|rows| - 1], t);
    }
  }

  lemma {:induction false} LookupRewrite(fields: seq<Field>, key: string, dependency: Dependency)
    requires key !in LINKS
    ensures Lookup(RewriteFields(fields, dependency), key) ==
            match Lookup(fields, key) case None => None case Some(v) => Some(Rewrite(v, dependency))
  {
    if fields != [] {
      LookupRewrite(fields[1..], key, dependency);
      assert RewriteFields(fields, dependency)[1..] == RewriteFields(fields[1..], dependency);
    }
  }

  /** A prepared row carries its planned tag and no id, and its references are
      the images of the references it came with. */
  lemma FollowedRow(rows: seq<Row>, tags: seq<string>, i: nat)
    requires |tags| == |rows| && i < |rows|
    requires GoodRow(rows[i])
    requires forall j :: 0 <= j < |tags| ==> tags[j] != ""
    requires Resolvable(rows, tags, TaggedRows(rows, tags))
    ensures
      var before, after := TaggedRows(rows, tags)[i].outbound, Followed(rows, tags, TaggedRows(rows, tags))[i].outbound;
      && after.Obj? && SuiNetwork.OwnTag(after) == {tags[i]} && Get(after, "id") == None
      && Get(after, "tag") == Some(Str(tags[i]))
      && Deps(after) == set t | t in Deps(before) :: Follow(rows, tags, t).value
  {
    var planned := TaggedRows(rows, tags);
    var before := planned[i].outbound;
    var follow: Dependency := t => Follow(rows, tags, t);
    var after := Rewrite(before, follow);
    assert planned[i] in planned;
    assert rows[i].outbound.Obj?;
    var fields := Drop(rows[i].outbound.fields, "id");
    LookupDrop(rows[i].outbound.fields, "id", "id");
    LookupPut(fields, "tag", Str(tags[i]), "tag");
    LookupPut(fields, "tag", Str(tags[i]), "id");
    LookupRewrite(before.fields, "tag", follow);
    LookupRewrite(before.fields, "id", follow);
    forall t | t in Deps(before)
      ensures follow(t).Some? && (follow(t).value == "" ==> t == "")
    {
      if t in Renames(rows, tags) {
        RenamesOnlyImported(rows, tags, t);
      }
    }
    DepsOfRewrite(before, follow);
    RewriteSame(before, follow, t => Follow(rows, tags, t));
  }
}
