/** Importing prepared outbounds into an S-UI panel, and taking them back. */
module PanelNetwork {
  import opened Options
  import opened JsonValues
  import opened Texts
  import opened SuiNetwork
  import O = OutboundImport
  import opened ReadBack
  import opened ImportedRows

  ghost predicate IdsFree(rows: seq<Json>, from: nat) {
    forall row <- rows, m: nat :: m >= from ==> Get(row, "id") != Some(Num(Decimal(m)))
  }


  datatype SaveOutcome = Done | Refused | Threw

  datatype ImportResult =
    | Rejected(failure: O.Failure)   // nothing was written
    | Imported(rows: seq<O.Row>)
    | RolledBack                     // failed, and everything was cleaned up
    | RecoveryFailed                 // failed, and the clean-up did too

  /** `data: { id: row.id }`. */
  function IdOnly(row: Json): Json {
    match Get(row, "id")
    case Some(id) => Obj([Field("id", id)])
    case None => Obj([])
  }

  /** The first row that carries the tag. */
  function FindTag(rows: seq<Json>, tag: Option<Json>): (i: nat)
    ensures i <= |rows|
    ensures i < |rows| ==> Get(rows[i], "tag") == tag
    ensures forall j :: 0 <= j < i ==> Get(rows[j], "tag") != tag
  {
    if rows == [] || Get(rows[0], "tag") == tag then 0 else 1 + FindTag(rows[1..], tag)
  }

  class PanelNetworkService {
    var panel: Panel
    var nextId: nat
    var local: seq<O.Row>

    ghost predicate Valid()
      reads this
    {
      IdsFree(panel.outbounds, nextId)
    }

    /** A guarded write of an outbound. A refused one sends nothing; one that
        throws was either stored or not. */
    method Save(action: Action, data: Json) returns (outcome: SaveOutcome)
      requires Valid() && data.Obj? && !action.Edit?
      modifies this`panel, this`nextId
      ensures Valid() && nextId >= old(nextId)
      ensures panel != old(panel) || outcome.Done? ==> nextId > old(nextId)
      ensures panel == old(panel) || panel == Stored(old(panel), SuiNetwork.Save(Outbounds, action, data), Decimal(old(nextId)))
      ensures outcome.Refused? <==> !Accepted(old(panel), SuiNetwork.Save(Outbounds, action, data))
      ensures outcome.Refused? ==> panel == old(panel)
      ensures outcome.Done? ==> panel == Stored(old(panel), SuiNetwork.Save(Outbounds, action, data), Decimal(old(nextId)))
    {
      var w := SuiNetwork.Save(Outbounds, action, data);
      var ok := CheckNetworkWrite(panel, w);
      if !ok {
        return Refused;
      }
      if * {
        return Threw;
      }
      IdsStayFree(panel, w, nextId);
      panel := Stored(panel, w, Decimal(nextId));
      nextId := nextId + 1;
      if * {
        return Threw;
      }
      return Done;
    }

    /** Creates one row and reads it back. The ghost arguments describe the panel:
        the original one with the rows before this one placed on it. */
    method CreateRow(raw: Json, ghost base: Panel, ghost planned: seq<O.Row>, ghost ids: seq<string>, ghost first: nat)
      returns (ok: bool, ghost ids': seq<string>, ghost refused: bool, ghost faulted: bool)
      requires Valid() && Importable(base, planned)
      requires |ids| < |planned| && raw == planned[|ids|].outbound
      requires panel == With(base, planned, ids)
      requires IdsIncrease(first, ids, nextId)
      modifies this`panel, this`nextId
      ensures Valid()
      ensures ids' == ids || (|ids'| == |ids| + 1 && ids'[..|ids|] == ids)
      ensures ok ==> |ids'| == |ids| + 1 && !refused && !faulted
      ensures refused ==> ids' == ids
      ensures panel == With(base, planned, ids')
      ensures IdsIncrease(first, ids', nextId)
      ensures NetworkOk(old(panel)) ==>
        && NetworkOk(panel)
        && (|ids'| > |ids| ==> RowCreatable(base, planned, |ids|))
        && (refused ==> !RowCreatable(base, planned, |ids|))
      ensures AllUnique(planned) && !faulted ==> (ok <==> !refused)
    {
      ghost var was, n, w := panel, nextId, SuiNetwork.Save(Outbounds, New, raw);
      if NetworkOk(was) {
        NextCreationAccepted(base, planned, ids);
        if Accepted(was, w) {
          AcceptedWriteKeepsNetwork(was, w, Decimal(n));
        }
      }
      CreationIsPlaced(base, planned, ids, n);
      var outcome := Save(New, raw);
      ids' := if panel != was then ids + [Decimal(n)] else ids;
      assert panel != was ==> ids'[..|ids|] == ids;
      assert Placed(planned, ids + [Decimal(n)])[|ids|] !in Placed(planned, ids)[|ids|..];
      if !outcome.Done? {
        return false, ids', outcome.Refused?, outcome.Threw?;
      }
      assert |Stored(was, w, Decimal(n)).outbounds| == |was.outbounds| + 1;
      if * {
        return false, ids', false, true;   // the read-back throws
      }
      var rows := panel.outbounds + panel.endpoints;
      var at := FindTag(rows, Get(raw, "tag"));
      if at == |rows| || !OutboundMatches(Some(rows[at]), raw) {
        if AllUnique(planned) {
          ReadBackMatches(base, planned, ids');
          assert false;
        }
        return false, ids', false, false;
      }
      return true, ids', false, false;
    }

    /** Creates the planned rows one by one. Stops at the first one that is refused,
        fails, or does not read back as sent. */
    method CreateRows(planned: seq<O.Row>)
      returns (ok: bool, created: seq<Json>, ghost ids: seq<string>, ghost refused: bool, ghost faulted: bool)
      requires Valid() && Importable(panel, planned)
      modifies this`panel, this`nextId
      ensures Valid()
      ensures |ids| <= |created| <= |planned| && |created| <= |ids| + 1
      ensures forall i :: 0 <= i < |created| ==> created[i] == planned[i].outbound
      ensures panel == With(old(panel), planned, ids)
      ensures IdsIncrease(old(nextId), ids, nextId)
      ensures ok ==> |ids| == |planned| && !refused && !faulted
      ensures NetworkOk(old(panel)) ==>
        && NetworkOk(panel) && CreatedOn(old(panel), planned, ids)
        && (refused ==> |ids| < |planned| && !RowCreatable(old(panel), planned, |ids|))
      ensures AllUnique(planned) && !faulted ==> (ok <==> !refused)
    {
      ok, created, ids, refused, faulted := true, [], [], false, false;
      ghost var base, first := panel, nextId;
      assert base.outbounds + Placed(planned, []) == base.outbounds;
      var i := 0;
      while ok && i < |planned|
        invariant 0 <= i <= |planned|
        invariant Valid()
        invariant |ids| <= |created| <= |ids| + 1 && |created| == i
        invariant ok ==> |ids| == i && !refused && !faulted
        invariant refused ==> |ids| < i
        invariant forall j :: 0 <= j < i ==> created[j] == planned[j].outbound
        invariant panel == With(base, planned, ids)
        invariant IdsIncrease(first, ids, nextId)
        invariant NetworkOk(base) ==>
          && NetworkOk(panel) && CreatedOn(base, planned, ids)
          && (refused ==> !RowCreatable(base, planned, |ids|))
        invariant AllUnique(planned) && !faulted ==> (ok <==> !refused)
        decreases |planned| - i
      {
        created := created + [planned[i].outbound];
        ok, ids, refused, faulted := CreateRow(planned[i].outbound, base, planned, ids, first);
        i := i + 1;
      }
    }

    /** Takes one row back: finds it by its tag, deletes it by its id, and checks
        that it is gone. The ghost arguments describe the panel when every
        clean-up before this one succeeded (`on`). */
    method CleanupRow(raw: Json, ghost base: Panel, ghost planned: seq<O.Row>, ghost rest: seq<string>, ghost first: nat,
                      ghost k: nat, ghost on: bool)
      returns (failed: bool, ghost blocked: bool, ghost faulted: bool)
      requires Valid() && Importable(base, planned) && IdsFree(base.outbounds, first)
      requires k < |planned| && raw == planned[k].outbound
      requires on ==>
        && |rest| <= k + 1 && k <= |rest|
        && panel == With(base, planned, rest)
        && IdsIncrease(first, rest, nextId)
      modifies this`panel, this`nextId
      ensures Valid() && nextId >= old(nextId)
      ensures on && !failed ==>
        var left := if |rest| == k + 1 then rest[..k] else rest;
        panel == With(base, planned, left) && IdsIncrease(first, left, nextId)
      ensures on && CreatedOn(base, planned, rest) ==>
        && (blocked ==> |rest| == k + 1 && !Removable(base, planned, k))
        && (!failed && |rest| == k + 1 ==> Removable(base, planned, k))
      ensures on && AllUnique(planned) && failed && !faulted ==> blocked
    {
      failed, blocked, faulted := false, false, false;
      ghost var before := nextId;
      var tag := Get(raw, "tag");
      var rows := panel.outbounds + panel.endpoints;
      var at := FindTag(rows, tag);
      if at < |rows| {
        if on {
          FoundIsPlaced(base, planned, rest, k);
        }
        if !OutboundMatches(Some(rows[at]), raw) {
          if on && AllUnique(planned) {
            ReadBackMatches(base, planned, rest);
            assert false;
          }
          failed := true;
          return;
        }
        if on {
          LastPlacedById(base, planned, rest, first, nextId);
          CleanupOfLast(base, planned, rest, IdOnly(rows[at]));
        }
        var outcome := Save(Del, IdOnly(rows[at]));
        if !outcome.Done? {
          failed, blocked, faulted := true, outcome.Refused?, outcome.Threw?;
          return;
        }
        if * {
          failed, faulted := true, true;   // reading the panel back throws
          return;
        }
        var after := panel.outbounds + panel.endpoints;
        if on {
          NotPlaced(base, planned, rest[..k], k);
          IdsShrink(first, rest, before, nextId);
        }
        if FindTag(after, tag) < |after| {
          failed := true;
          return;
        }
      } else if on {
        if |rest| == k + 1 {
          FindPlaced(base, planned, rest, k);
          assert false;
        }
      }
    }

    /** Takes the created rows back, last one first. `blocked` and `faulted` tell
        how the first failure came about. */
    method Cleanup(created: seq<Json>, ghost base: Panel, ghost planned: seq<O.Row>, ghost ids: seq<string>, ghost first: nat)
      returns (recoveryFailed: bool, ghost blocked: bool, ghost faulted: bool)
      requires Valid() && Importable(base, planned) && IdsFree(base.outbounds, first)
      requires |ids| <= |created| <= |planned| && |created| <= |ids| + 1
      requires forall i :: 0 <= i < |created| ==> created[i] == planned[i].outbound
      requires panel == With(base, planned, ids)
      requires IdsIncrease(first, ids, nextId)
      modifies this`panel, this`nextId
      ensures Valid()
      ensures !recoveryFailed ==> panel == base
      ensures recoveryFailed ==> created != []
      ensures blocked || faulted ==> recoveryFailed
      ensures CreatedOn(base, planned, ids) ==>
        && (blocked ==> !AllRemovable(base, planned, |ids|))
        && (!recoveryFailed ==> AllRemovable(base, planned, |ids|))
      ensures AllUnique(planned) && recoveryFailed && !faulted ==> blocked
    {
      recoveryFailed, blocked, faulted := false, false, false;
      ghost var rest := ids;
      var k := |created|;
      assert ids[..|ids|] == ids;
      while k > 0
        invariant 0 <= k <= |created|
        invariant Valid()
        invariant !recoveryFailed ==>
          && TakenBackTo(ids, rest, k)
          && panel == With(base, planned, rest)
          && IdsIncrease(first, rest, nextId)
        invariant recoveryFailed ==> created != []
        invariant blocked || faulted ==> recoveryFailed
        invariant AllUnique(planned) && recoveryFailed && !faulted ==> blocked
        invariant CreatedOn(base, planned, ids) && blocked ==> !AllRemovable(base, planned, |ids|)
        invariant CreatedOn(base, planned, ids) && !recoveryFailed ==> RemovableFrom(base, planned, k, |ids|)
      {
        k := k - 1;
        var raw := created[k];
        var failed := true;
        ghost var rowBlocked, rowFaulted := false, true;
        if * {
          // reading the panel throws
        } else {
          failed, rowBlocked, rowFaulted := CleanupRow(raw, base, planned, rest, first, k, !recoveryFailed);
        }
        if failed && !recoveryFailed {
          blocked, faulted := rowBlocked, rowFaulted;
        }
        recoveryFailed := recoveryFailed || failed;
        if !recoveryFailed && |rest| == k + 1 {
          rest := rest[..k];
        }
      }
      if !recoveryFailed {
        assert rest == [];
        assert base.outbounds + Placed(planned, []) == base.outbounds;
      }
    }

    /** The whole import: prepare, create on the panel, record locally, and take
        everything back when a step fails. */
    method ImportSuiRows(rows: seq<O.Row>, targetPanel: bool, conflict: string)
      returns (result: ImportResult, ghost planned: seq<O.Row>, ghost blocked: bool, ghost faulted: bool)
      requires Valid()
      modifies this
      ensures Valid()
      ensures !result.Rejected? ==> PreparedFor(old(panel), old(local), targetPanel, rows, conflict, planned)
      ensures result.Rejected? || result.RolledBack? ==> panel == old(panel) && local == old(local)
      ensures result.Imported? ==>
        && result.rows == planned && local == old(local) + planned
        && (targetPanel ==> HoldsPlaced(old(panel), planned, panel))
        && (!targetPanel ==> panel == old(panel))
        && (NetworkOk(old(panel)) ==> NetworkOk(panel))
      ensures NetworkOk(old(panel)) && AllUnique(rows) && !result.Rejected? ==>
        && (result.Imported? && targetPanel ==> Creatable(old(panel), planned))
        && (!result.Imported? && !faulted ==> targetPanel && EndsRefused(old(panel), planned, result.RecoveryFailed?))
        && (blocked ==> !AllRemovable(old(panel), planned, |planned|))
        && (result.RecoveryFailed? && !faulted ==> blocked)
    {
      ghost var base, localBefore, first := panel, local, nextId;
      blocked, faulted := false, false;
      var remote := panel.outbounds + panel.endpoints;
      var occupied := NameList(remote) + LocalTags(local);
      var available := if targetPanel then TagTexts(remote) else occupied;
      var prepared, tags := O.PrepareSuiOutbounds(rows, occupied, available, conflict);
      if prepared.Err? {
        planned := [];
        return Rejected(prepared.failure), planned, blocked, faulted;
      }
      planned := prepared.value;
      assert PreparedWith(rows, occupied, available, conflict, tags, planned);
      PreparedIsImportable(panel, rows, occupied, available, conflict, tags, prepared.value);
      PreparedIsUnique(rows, occupied, available, conflict, tags, prepared.value);
      var ok, created := true, [];
      ghost var ids: seq<string>, refused := [], false;
      assert base.outbounds + Placed(planned, []) == base.outbounds;
      if targetPanel {
        ok, created, ids, refused, faulted := CreateRows(prepared.value);
      }
      if ok {
        if * {
          local := local + prepared.value;
          return Imported(prepared.value), planned, blocked, faulted;
        }
        faulted := true;   // the local transaction fails
      }
      ghost var cleanFaulted;
      var recoveryFailed;
      recoveryFailed, blocked, cleanFaulted := Cleanup(created, base, planned, ids, first);
      faulted := faulted || cleanFaulted;
      if recoveryFailed {
        return RecoveryFailed, planned, blocked, faulted;
      }
      return RolledBack, planned, blocked, faulted;
    }
  }

  /** The rows with the given ids were let in on a good panel. */
  ghost predicate CreatedOn(base: Panel, planned: seq<O.Row>, ids: seq<string>) {
    && NetworkOk(base) && |ids| <= |planned|
    && forall i :: 0 <= i < |ids| ==> RowCreatable(base, planned, i)
  }

  /** Clean-up has reached place `k`: the ids from there on are gone. */
  ghost predicate TakenBackTo(ids: seq<string>, rest: seq<string>, k: nat) {
    rest <= ids && |rest| <= k && k <= |rest| + 1 && (|rest| == k || rest == ids)
  }

  ghost predicate RemovableFrom(base: Panel, planned: seq<O.Row>, k: nat, n: nat)
    requires n <= |planned|
  {
    forall j :: k <= j < n ==> Removable(base, planned, j)
  }

  /** The creation stops at the first row the guard refuses, and the clean-up fails
      exactly when one of the rows before it cannot be removed. */
  ghost predicate EndsRefused(base: Panel, planned: seq<O.Row>, recoveryFailed: bool) {
    exists n: nat ::
      && n < |planned| && !RowCreatable(base, planned, n)
      && (forall i :: 0 <= i < n ==> RowCreatable(base, planned, i))
      && (recoveryFailed <==> !AllRemovable(base, planned, n))
  }

  /** The panel with all planned rows added, under some ids. */
  ghost predicate HoldsPlaced(base: Panel, planned: seq<O.Row>, p: Panel) {
    exists ids: seq<string> :: |ids| == |planned| && p == With(base, planned, ids)
  }

  function NameList(rows: seq<Json>): (r: seq<string>)
    ensures O.Elements(r) == TagSet(rows)
  {
    if rows == [] then []
    else
      var rest := NameList(rows[1..]);
      assert rows == [rows[0]] + rows[1..];
      SplitTags([rows[0]], rows[1..]);
      assert TagSet([rows[0]]) == OwnTag(rows[0]);
      match Get(rows[0], "tag")
      case Some(Str(t)) => assert O.Elements([t] + rest) == {t} + O.Elements(rest); [t] + rest
      case _ => rest
  }

  function LocalTags(local: seq<O.Row>): seq<string> {
    seq(|local|, i requires 0 <= i < |local| => Text(Get(local[i].outbound, "tag")))
  }

  /** What the preparation returned for the panel, the local rows and the strategy. */
  ghost predicate PreparedFor(p: Panel, local: seq<O.Row>, targetPanel: bool, rows: seq<O.Row>, conflict: string, planned: seq<O.Row>) {
    var remote := p.outbounds + p.endpoints;
    var occupied := NameList(remote) + LocalTags(local);
    var available := if targetPanel then TagTexts(remote) else occupied;
    exists tags :: PreparedWith(rows, occupied, available, conflict, tags, planned)
  }

  /** The ids given to the placed rows: increasing numbers the panel had not used. */
  ghost predicate IdsIncrease(from: nat, ids: seq<string>, to: nat) {
    if ids == [] then from <= to
    else exists n: nat :: from <= n < to && ids[|ids| - 1] == Decimal(n) && IdsIncrease(from, ids[..|ids| - 1], n)
  }

  /** The ids of the rows before the last one, some ids later. */
  lemma IdsShrink(from: nat, ids: seq<string>, to: nat, later: nat)
    requires IdsIncrease(from, ids, to) && ids != [] && to <= later
    ensures IdsIncrease(from, ids[..|ids| - 1], later)
  {
    var n: nat :| from <= n < to && IdsIncrease(from, ids[..|ids| - 1], n);
    IdsLater(from, ids[..|ids| - 1], n, later);
  }

  lemma IdsLater(from: nat, ids: seq<string>, to: nat, later: nat)
    requires IdsIncrease(from, ids, to) && to <= later
    ensures IdsIncrease(from, ids, later)
  {
  }

  lemma IdsStayFree(p: Panel, w: SuiNetwork.Save, n: nat)
    requires IdsFree(p.outbounds, n)
    requires w.kind.Outbounds? && !w.action.Edit? && w.data.Obj?
    ensures IdsFree(Stored(p, w, Decimal(n)).outbounds, n + 1)
  {
    var after := Stored(p, w, Decimal(n)).outbounds;
    if w.action.New? {
      var row := Identified(w.data, Decimal(n));
      NewIdIsTaken(w.data, n);
      assert forall r <- after :: r in p.outbounds || r == row;
    } else {
      assert forall r <- after :: r in p.outbounds;
    }
  }

  lemma NewIdIsTaken(data: Json, n: nat)
    requires data.Obj?
    ensures forall m: nat :: m > n ==> Get(Identified(data, Decimal(n)), "id") != Some(Num(Decimal(m)))
  {
    LookupPut(data.fields, "id", Num(Decimal(n)), "id");
    forall m: nat | m > n
      ensures Decimal(m) != Decimal(n)
    {
      if Decimal(m) == Decimal(n) {
        DecimalInjective(m, n);
      }
    }
  }

  lemma CreationIsPlaced(base: Panel, planned: seq<O.Row>, ids: seq<string>, n: nat)
    requires |ids| < |planned|
    ensures Stored(base.(outbounds := base.outbounds + Placed(planned, ids)),
                   SuiNetwork.Save(Outbounds, New, planned[|ids|].outbound), Decimal(n))
            == base.(outbounds := base.outbounds + Placed(planned, ids + [Decimal(n)]))
  {
    assert Placed(planned, ids + [Decimal(n)]) == Placed(planned, ids) + [Identified(planned[|ids|].outbound, Decimal(n))];
  }

  /** The tag of a placed row leads back to that row. */
  lemma FindPlaced(base: Panel, planned: seq<O.Row>, ids: seq<string>, k: nat)
    requires Importable(base, planned) && k < |ids| <= |planned|
    ensures
      var rows := base.outbounds + Placed(planned, ids) + base.endpoints;
      FindTag(rows, Get(planned[k].outbound, "tag")) == |base.outbounds| + k
  {
    var placed := Placed(planned, ids);
    var rows := base.outbounds + placed + base.endpoints;
    var tag := Get(planned[k].outbound, "tag");
    IdentifiedRow(planned[k].outbound, ids[k]);
    assert rows[|base.outbounds| + k] == placed[k];
    forall j | 0 <= j < |base.outbounds| + k
      ensures Get(rows[j], "tag") != tag
    {
      if j < |base.outbounds| {
        assert rows[j] == (base.outbounds + base.endpoints)[j];
        TagSetMeaning(base.outbounds + base.endpoints, tag.value.s);
      } else {
        IdentifiedRow(planned[j - |base.outbounds|].outbound, ids[j - |base.outbounds|]);
      }
    }
  }

  lemma ReadBackMatches(base: Panel, planned: seq<O.Row>, ids: seq<string>)
    requires Importable(base, planned) && AllUnique(planned) && 0 < |ids| <= |planned|
    ensures
      var rows := base.outbounds + Placed(planned, ids) + base.endpoints;
      var raw := planned[|ids| - 1].outbound;
      var at := FindTag(rows, Get(raw, "tag"));
      at < |rows| && OutboundMatches(Some(rows[at]), raw)
  {
    var k := |ids| - 1;
    assert planned[k] in planned;
    FindPlaced(base, planned, ids, k);
    StoredRowMatches(planned[k].outbound, ids[k]);
  }

  lemma WithoutLast(base: Panel, planned: seq<O.Row>, ids: seq<string>)
    requires 0 < |ids| <= |planned|
    ensures
      var list := base.outbounds + Placed(planned, ids);
      Without(list, |list| - 1) == base.outbounds + Placed(planned, ids[..|ids| - 1])
  {
  }

  /** The tag of a row that is not on the panel is not found there. */
  lemma NotPlaced(base: Panel, planned: seq<O.Row>, ids: seq<string>, k: nat)
    requires Importable(base, planned) && |ids| <= k < |planned|
    ensures
      var rows := base.outbounds + Placed(planned, ids) + base.endpoints;
      FindTag(rows, Get(planned[k].outbound, "tag")) == |rows|
  {
    var placed := Placed(planned, ids);
    var rows := base.outbounds + placed + base.endpoints;
    var tag := Get(planned[k].outbound, "tag");
    forall j | 0 <= j < |rows|
      ensures Get(rows[j], "tag") != tag
    {
      if |base.outbounds| <= j < |base.outbounds| + |ids| {
        IdentifiedRow(planned[j - |base.outbounds|].outbound, ids[j - |base.outbounds|]);
      } else {
        assert rows[j] in base.outbounds + base.endpoints;
        TagSetMeaning(base.outbounds + base.endpoints, tag.value.s);
      }
    }
  }

  /** What is found under the tag of the next row to take back is that row. */
  lemma FoundIsPlaced(base: Panel, planned: seq<O.Row>, ids: seq<string>, k: nat)
    requires Importable(base, planned) && k < |planned| && |ids| <= k + 1 && k <= |ids|
    ensures
      var rows := base.outbounds + Placed(planned, ids) + base.endpoints;
      var at := FindTag(rows, Get(planned[k].outbound, "tag"));
      at < |rows| ==> |ids| == k + 1 && at == |base.outbounds| + k && rows[at] == Placed(planned, ids)[k]
  {
    if |ids| == k + 1 {
      FindPlaced(base, planned, ids, k);
    } else {
      NotPlaced(base, planned, ids, k);
    }
  }

  lemma {:induction false} IdsAreFresh(from: nat, ids: seq<string>, to: nat, i: nat)
    requires IdsIncrease(from, ids, to) && i < |ids|
    ensures exists n: nat :: from <= n < to && ids[i] == Decimal(n)
    ensures forall j :: 0 <= j < i ==> ids[j] != ids[i]
  {
    var last := |ids| - 1;
    var n: nat :| from <= n < to && ids[last] == Decimal(n) && IdsIncrease(from, ids[..last], n);
    if i < last {
      IdsAreFresh(from, ids[..last], n, i);
    } else {
      forall j | 0 <= j < last
        ensures ids[j] != ids[last]
      {
        IdsAreFresh(from, ids[..last], n, j);
        var m: nat :| from <= m < n && ids[..last][j] == Decimal(m);
        if Decimal(m) == Decimal(n) {
          DecimalInjective(m, n);
        }
      }
    }
  }

  /** The id of the last placed row leads back to that row. */
  lemma LastPlacedById(base: Panel, planned: seq<O.Row>, ids: seq<string>, first: nat, to: nat)
    requires Importable(base, planned) && 0 < |ids| <= |planned|
    requires IdsFree(base.outbounds, first) && IdsIncrease(first, ids, to)
    ensures
      var rows := base.outbounds + Placed(planned, ids);
      FindId(rows, IdOnly(rows[|rows| - 1])) == |rows| - 1
  {
    var rows := base.outbounds + Placed(planned, ids);
    var k := |ids| - 1;
    PlacedId(planned, ids, k);
    assert rows[|rows| - 1] == Placed(planned, ids)[k];
    var data := IdOnly(rows[|rows| - 1]);
    assert Get(data, "id") == Some(Num(ids[k]));
    IdsAreFresh(first, ids, to, k);
    forall j | 0 <= j < |rows| - 1
      ensures !SameId(rows[j], data)
    {
      EarlierIdDiffers(base, planned, ids, first, to, j);
    }
    FindsLast(rows, data);
  }

  lemma FindsLast(rows: seq<Json>, data: Json)
    requires rows != [] && SameId(rows[|rows| - 1], data)
    requires forall j :: 0 <= j < |rows| - 1 ==> !SameId(rows[j], data)
    ensures FindId(rows, data) == |rows| - 1
  {
  }

  lemma EarlierIdDiffers(base: Panel, planned: seq<O.Row>, ids: seq<string>, first: nat, to: nat, j: nat)
    requires Importable(base, planned) && 0 < |ids| <= |planned|
    requires IdsFree(base.outbounds, first) && IdsIncrease(first, ids, to)
    requires j < |base.outbounds| + |ids| - 1
    ensures Get((base.outbounds + Placed(planned, ids))[j], "id") != Some(Num(ids[|ids| - 1]))
  {
    var k := |ids| - 1;
    IdsAreFresh(first, ids, to, k);
    if j < |base.outbounds| {
      var n: nat :| first <= n < to && ids[k] == Decimal(n);
      assert base.outbounds[j] in base.outbounds;
    } else {
      PlacedId(planned, ids, j - |base.outbounds|);
    }
  }

  lemma PlacedId(planned: seq<O.Row>, ids: seq<string>, k: nat)
    requires k < |ids| <= |planned| && planned[k].outbound.Obj?
    ensures Get(Placed(planned, ids)[k], "id") == Some(Num(ids[k]))
  {
    LookupPut(planned[k].outbound.fields, "id", Num(ids[k]), "id");
  }

  /** Taking the last row back leaves the panel with the rows before it, and is let
      through exactly when the row is removable. */
  lemma CleanupOfLast(base: Panel, planned: seq<O.Row>, ids: seq<string>, data: Json)
    requires Importable(base, planned) && 0 < |ids| <= |planned|
    requires FindId(With(base, planned, ids).outbounds, data) == |base.outbounds| + |ids| - 1
    ensures
      var w := SuiNetwork.Save(Outbounds, Del, data);
      && (forall id :: Stored(With(base, planned, ids), w, id) == With(base, planned, ids[..|ids| - 1]))
      && (CreatedOn(base, planned, ids) ==> (Accepted(With(base, planned, ids), w) <==> Removable(base, planned, |ids| - 1)))
  {
    WithoutLast(base, planned, ids);
    if CreatedOn(base, planned, ids) {
      CleanupAccepted(base, planned, ids, data);
    }
  }

  lemma PreparedIsUnique(rows: seq<O.Row>, occupied: seq<string>, available: seq<string>, conflict: string,
                         tags: seq<string>, planned: seq<O.Row>)
    requires PreparedWith(rows, occupied, available, conflict, tags, planned)
    ensures AllUnique(rows) ==> AllUnique(planned)
  {
    if AllUnique(rows) {
      forall row | row in planned
        ensures UniqueKeys(row.outbound)
      {
        var k := PreparedFrom(rows, occupied, available, conflict, tags, planned, row);
        assert rows[k] in rows;
        FollowedIsUnique(rows, tags, k);
      }
    }
  }
}
