/** The write-started flag: when the rows say beforehand that a renewal writes to
    the panel, and the one write of the service they do not announce. */
module RenewalFlag {
  import opened Options
  import opened Calendar
  import opened RenewalRows
  import opened RenewalSaga
  import opened RenewalSafety
  import opened RenewalAgreement

  predicate IsWrite(e: Event) {
    e.Sent? || e.Undone?
  }

  /** A renewal without the flag has sent nothing to the panel. */
  ghost predicate RowFlagged(r: Renewal) {
    !r.detail.writeStarted ==> forall e <- r.events :: !IsWrite(e)
  }

  ghost predicate Flagged(db: Db) {
    forall k <- db.renewals :: RowFlagged(db.renewals[k])
  }

  /** The rollback of a renewal that found the target on the panel before it ever
      wrote there. */
  predicate UnflaggedUndo(s: State, a: Action) {
    a.WriteSnapshot? && WorkerOf(s, a.node).LocalFailed? && WorkerOf(s, a.node).p.key in s.db.renewals
    && !WorkerOf(s, a.node).p.detail.writeStarted
  }

  lemma OwnUpdateFlagged(db: Db, key: Key, r: Renewal)
    requires Flagged(db) && RowFlagged(r)
    ensures Flagged(WithRenewal(db, key, r))
  {
  }

  lemma ReadsFlagged(s: State, node: string, p: Local, ok: bool, noted: bool)
    requires Flagged(s.db) && Holds(s.db.renewals, node, p)
    ensures Flagged(DoReadState(s, node, p, ok, noted).db)
    ensures Flagged(DoReadUnsure(s, node, p, ok, noted).db)
    ensures Flagged(DoReadRollback(s, node, p, ok).db)
  {
    var r := s.db.renewals[p.key];
    assert RowFlagged(r);
    OwnUpdateFlagged(s.db, p.key, r.(detail := p.detail));
    if node in s.remote {
      OwnUpdateFlagged(s.db, p.key, r.(events := r.events + [Saw(s.remote[node], p.enable)]));
    }
  }

  lemma ClosesFlagged(s: State, node: string, p: Local, reply: Reply, verified: bool, fallback: Reply)
    requires Flagged(s.db) && Holds(s.db.renewals, node, p)
    ensures Flagged(DoFinalize(s, node, p, reply, verified).db)
    ensures Flagged(DoReconcile(s, node, p, reply).db)
    ensures Flagged(DoRefund(s, node, p, reply, fallback).db)
  {
    assert RowFlagged(s.db.renewals[p.key]);
    OwnUpdateFlagged(s.db, p.key, s.db.renewals[p.key].(status := Success));
    ReconcileFlagged(s, node, p, reply);
    ReconcileFlagged(s, node, p, fallback);
    RefundFlagged(s, node, p, reply, fallback);
  }

  lemma ReconcileFlagged(s: State, node: string, p: Local, reply: Reply)
    requires Flagged(s.db) && Holds(s.db.renewals, node, p)
    ensures Flagged(DoReconcile(s, node, p, reply).db)
  {
    var r := s.db.renewals[p.key];
    assert RowFlagged(r);
    OwnUpdateFlagged(s.db, p.key, r.(status := Failed, detail := p.detail.(reconciliation := true)));
  }

  lemma RefundFlagged(s: State, node: string, p: Local, reply: Reply, fallback: Reply)
    requires Flagged(s.db) && Holds(s.db.renewals, node, p)
    ensures Flagged(DoRefund(s, node, p, reply, fallback).db)
  {
    ReconcileFlagged(s, node, p, fallback);
    var r := s.db.renewals[p.key];
    assert RowFlagged(r);
    var closed := r.(status := Failed, detail := p.detail.(refunded := true));
    OwnUpdateFlagged(s.db, p.key, closed);
    var tx := RefundTx(s.db, p.key, p.detail);
    if tx.Some? {
      assert tx.value.renewals == s.db.renewals[p.key := closed];
    }
  }

  lemma WritesFlagged(s: State, node: string, p: Local, reply: Reply)
    requires Flagged(s.db) && Holds(s.db.renewals, node, p)
    ensures Flagged(DoMarkStarted(s, node, p, reply).db)
    ensures p.detail.writeStarted ==> Flagged(DoWriteTarget(s, node, p, reply).db)
    ensures Flagged(DoWriteSnapshot(s, node, p, reply).db) <==> p.detail.writeStarted
  {
    var r := s.db.renewals[p.key];
    OwnUpdateFlagged(s.db, p.key, r.(detail := p.detail.(writeStarted := true)));
    var sure := reply.Applied? && node in s.remote;
    var undone := Undone(SnapshotState(s, p), sure);
    var row := r.(events := r.events + [undone]);
    assert DoWriteSnapshot(s, node, p, reply).db == WithRenewal(s.db, p.key, row);
    assert undone in row.events && IsWrite(undone);
    assert RowFlagged(row) <==> p.detail.writeStarted;
    if p.detail.writeStarted {
      OwnUpdateFlagged(s.db, p.key, row);
      OwnUpdateFlagged(s.db, p.key, r.(events := r.events + [Sent(TargetState(s, p), sure)]));
    } else {
      assert DoWriteSnapshot(s, node, p, reply).db.renewals[p.key] == row;
    }
  }

  /** A step leaves every write announced exactly when it is not that rollback. */
  lemma FlagStep(opening: map<string, int>, s: State, a: Action)
    requires Inv(opening, s) && Flagged(s.db)
    ensures Flagged(Apply(s, a).db) <==> !UnflaggedUndo(s, a)
  {
    if a.Request? || a.Resume? {
      assert Apply(s, a).db == s.db;
    } else if ByOthers(a) {
      assert Apply(s, a).db.renewals == s.db.renewals;
    } else {
      assert WorkerOk(s.db.renewals, a.node, WorkerOf(s, a.node));
      WorkerFlagStep(s, a.node, a);
    }
  }

  lemma WorkerFlagStep(s: State, node: string, a: Action)
    requires WorkerOk(s.db.renewals, node, WorkerOf(s, node)) && Flagged(s.db)
    requires !a.Request? && !a.Resume? && !ByOthers(a)
    requires a.node == node
    ensures Flagged(WorkerStep(s, node, a).db) <==> !UnflaggedUndo(s, a)
  {
    match WorkerOf(s, node)
    case Idle => FirstFlagStep(s, node, a);
    case Requested(_, _) => FirstFlagStep(s, node, a);
    case Priced(_, _, _, _) => FirstFlagStep(s, node, a);
    case Confirmed(p) => if a.Finalize? { ClosesFlagged(s, node, p, a.reply, a.verified, Applied); }
    case Refunding(p) => if a.RefundStep? { ClosesFlagged(s, node, p, a.reply, true, a.fallback); }
    case Reconciling(p) => if a.Reconcile? { ClosesFlagged(s, node, p, a.reply, true, Applied); }
    case _ => PanelFlagStep(s, node, a);
  }

  lemma FirstFlagStep(s: State, node: string, a: Action)
    requires WorkerOf(s, node).Idle? || WorkerOf(s, node).Requested? || WorkerOf(s, node).Priced?
    requires Flagged(s.db)
    ensures Flagged(WorkerStep(s, node, a).db)
  {
  }

  lemma PanelFlagStep(s: State, node: string, a: Action)
    requires WorkerOk(s.db.renewals, node, WorkerOf(s, node)) && Flagged(s.db)
    requires !a.Request? && !a.Resume? && !ByOthers(a)
    requires a.node == node
    requires
      var w := WorkerOf(s, node);
      w.Started? || w.WriteAllowed? || w.Marked? || w.Unsure? || w.LocalFailed? || w.RolledBack?
    ensures Flagged(WorkerStep(s, node, a).db) <==> !UnflaggedUndo(s, a)
  {
    match WorkerOf(s, node)
    case Started(p) => if a.ReadState? { ReadsFlagged(s, node, p, a.ok, a.noted); }
    case WriteAllowed(p) => if a.MarkStarted? { WritesFlagged(s, node, p, a.reply); }
    case Marked(p) => if a.WriteTarget? { WritesFlagged(s, node, p, a.reply); }
    case Unsure(p) => if a.ReadUnsure? { ReadsFlagged(s, node, p, a.ok, a.noted); }
    case LocalFailed(p) => if a.WriteSnapshot? { WritesFlagged(s, node, p, a.reply); }
    case RolledBack(p) => if a.ReadRollback? { ReadsFlagged(s, node, p, a.ok, false); }
  }

  /** At every point of the run the rows announce every write. */
  ghost predicate AlwaysFlagged(start: State, actions: seq<Action>) {
    && Flagged(Run(start, actions).db)
    && (actions != [] ==> AlwaysFlagged(start, actions[..|actions| - 1]))
  }

  predicate NoUnflaggedUndo(start: State, actions: seq<Action>) {
    actions != [] ==>
      && NoUnflaggedUndo(start, actions[..|actions| - 1])
      && !UnflaggedUndo(Run(start, actions[..|actions| - 1]), actions[|actions| - 1])
  }

  /** Along a run every write is announced at every point exactly when no step is
      such a rollback. */
  lemma {:induction false} FlagRun(opening: map<string, int>, start: State, actions: seq<Action>)
    requires Init(opening, start)
    ensures AlwaysFlagged(start, actions) <==> NoUnflaggedUndo(start, actions)
  {
    if actions != [] {
      var most := actions[..|actions| - 1];
      FlagRun(opening, start, most);
      EveryRunKeepsInv(opening, start, most);
      if Flagged(Run(start, most).db) {
        FlagStep(opening, Run(start, most), actions[|actions| - 1]);
      }
    }
  }

  /** While nobody else touches the client, that rollback does not happen. */
  lemma UndisturbedIsFlagged(opening: map<string, int>, start: State, actions: seq<Action>, a: Action)
    requires Init(opening, start) && UndisturbedRun(start, actions)
    ensures !UnflaggedUndo(Run(start, actions), a)
  {
    UndisturbedRunAgrees(opening, start, actions);
    var s := Run(start, actions);
    if a.WriteSnapshot? {
      assert WorkerAgrees(s.remote, s.db.renewals, a.node, WorkerOf(s, a.node));
    }
  }

  lemma {:induction false} UndisturbedRunIsFlagged(opening: map<string, int>, start: State, actions: seq<Action>)
    requires Init(opening, start) && UndisturbedRun(start, actions)
    ensures NoUnflaggedUndo(start, actions)
  {
    if actions != [] {
      var most := actions[..|actions| - 1];
      forall i | 0 <= i < |most|
        ensures Undisturbed(Run(start, most[..i]), most[i])
      {
        assert most[..i] == actions[..i] && Undisturbed(Run(start, actions[..i]), actions[i]);
      }
      UndisturbedRunIsFlagged(opening, start, most);
      UndisturbedIsFlagged(opening, start, most, actions[|actions| - 1]);
    }
  }

  // ---- what a refund means ----

  /** Nothing of this renewal was ever sent to the panel. */
  ghost predicate Untouched(r: Renewal) {
    forall e <- r.events :: !IsWrite(e)
  }

  /** A refund without that meaning: the row holds a rollback nobody announced, and
      the panel was last seen somewhere else. */
  ghost predicate RefundedAstray(r: Renewal) {
    && r.detail.refunded && !r.detail.writeStarted && !SeenAtSnapshot(r)
    && exists e <- r.events :: e.Undone?
  }

  /** In every run without an unannounced rollback - in particular, in every run in
      which nobody else edits the client - a refund means that the renewal never
      wrote to the panel, or that the panel was last seen at the snapshot. In any
      run a refund lacks that meaning exactly when it is astray. */
  lemma RefundAgreement(opening: map<string, int>, start: State, actions: seq<Action>, key: Key)
    requires Init(opening, start)
    requires key in Run(start, actions).db.renewals
    ensures
      var r := Run(start, actions).db.renewals[key];
      && (r.detail.refunded && !Untouched(r) && !SeenAtSnapshot(r) <==> RefundedAstray(r))
      && (NoUnflaggedUndo(start, actions) ==> (r.detail.refunded ==> Untouched(r) || SeenAtSnapshot(r)))
      && (UndisturbedRun(start, actions) ==> (r.detail.refunded ==> Untouched(r) || SeenAtSnapshot(r)))
  {
    EveryRunKeepsInv(opening, start, actions);
    var db := Run(start, actions).db;
    assert RenewalOk(db.ledger, key, db.renewals[key]);
    FlagRun(opening, start, actions);
    if UndisturbedRun(start, actions) {
      UndisturbedRunIsFlagged(opening, start, actions);
    }
    assert NoUnflaggedUndo(start, actions) ==> RowFlagged(db.renewals[key]);
  }

  // ---- the run that breaks it ----

  const EXAMPLE_KEY := Key("c", "n", "r")

  /** The example's customer, node and panel client; `r` is its renewal, if any. */
  function Example(balance: int, r: Option<Renewal>, ledger: seq<Entry>, stored: set<nat>, remote: Remote, workers: map<string, Worker>): State {
    State(Db(map["c" := Customer(balance, true)], map["n" := Node("c", true, NoReason, None, true, 10)],
             if r.Some? then map[EXAMPLE_KEY := r.value] else map[], ledger, stored),
          map["n" := remote], workers, {}, 0)
  }

  function ExampleStart(): State {
    Example(100, None, [], {}, Remote(0, true), map[])
  }

  /** A renewal is debited, and before its first read of the panel somebody sets
      the client to exactly its target. The local commit fails, the rollback is
      sent, and the process stops; then somebody edits the client again. Recovery
      refunds as if nothing had been written. */
  function ExampleAction(target: int, i: nat): Action {
    if i == 0 then Request(EXAMPLE_KEY, 1)
    else if i == 1 then ReadBefore("n", true, 0)
    else if i == 2 then DebitStep("n", Applied)
    else if i == 3 then EditRemote("n", Remote(target, true))
    else if i == 4 then ReadState("n", true, true)
    else if i == 5 then Finalize("n", NotApplied, true)
    else if i == 6 then WriteSnapshot("n", Applied)
    else if i == 7 then Crash("n")
    else if i == 8 then EditRemote("n", Remote(target + 5000, true))
    else if i == 9 then Resume(EXAMPLE_KEY, 1)
    else if i == 10 then ReadState("n", true, true)
    else RefundStep("n", Applied, Applied)
  }

  function ExampleRow(target: int, events: seq<Event>): Renewal {
    Renewal(1, 10, Pending, target, Remote(0, true), 0, Detail(false, false, false), events)
  }

  function ExampleState(target: int, i: nat): State {
    var p := Local(EXAMPLE_KEY, Detail(false, false, false), true);
    var aim, past, zero := Remote(target, true), Remote(target + 5000, true), Remote(0, true);
    var debit := [Entry("c", DebitOf(EXAMPLE_KEY), -10, 100, 90)];
    var refund := debit + [Entry("c", RefundOf(EXAMPLE_KEY), 10, 90, 100)];
    var r0 := ExampleRow(target, []);
    var r1 := ExampleRow(target, [Saw(aim, true)]);
    var r2 := ExampleRow(target, [Saw(aim, true), Undone(zero, true)]);
    var r3 := ExampleRow(target, [Saw(aim, true), Undone(zero, true), Saw(past, true)]);
    if i == 0 then ExampleStart()
    else if i == 1 then Example(100, None, [], {}, zero, map["n" := Requested(EXAMPLE_KEY, 1)])
    else if i == 2 then Example(100, None, [], {}, zero, map["n" := Priced(EXAMPLE_KEY, 1, zero, 0)])
    else if i == 3 then Example(90, Some(r0), debit, {0}, zero, map["n" := Started(p)])
    else if i == 4 then Example(90, Some(r0), debit, {0}, aim, map["n" := Started(p)])
    else if i == 5 then Example(90, Some(r1), debit, {0}, aim, map["n" := Confirmed(p)])
    else if i == 6 then Example(90, Some(r1), debit, {0}, aim, map["n" := LocalFailed(p)])
    else if i == 7 then Example(90, Some(r2), debit, {0}, zero, map["n" := RolledBack(p)])
    else if i == 8 then Example(90, Some(r2), debit, {0}, zero, map["n" := Idle])
    else if i == 9 then Example(90, Some(r2), debit, {0}, past, map["n" := Idle])
    else if i == 10 then Example(90, Some(r2), debit, {0}, past, map["n" := Started(p)])
    else if i == 11 then Example(90, Some(r3), debit, {0}, past, map["n" := Refunding(p)])
    else Example(100, Some(r3.(status := Failed, detail := Detail(false, true, false))), refund, {0, 1}, past, map["n" := Idle])
  }

  /** A run visits the states its steps lead to. */
  lemma {:induction false} Trace(actions: seq<Action>, state: nat -> State)
    requires forall i :: 0 <= i < |actions| ==> Apply(state(i), actions[i]) == state(i + 1)
    ensures Run(state(0), actions) == state(|actions|)
  {
    if actions != [] {
      Trace(actions[..|actions| - 1], state);
    }
  }

  ghost predicate Leads(target: int, i: nat) {
    Apply(ExampleState(target, i), ExampleAction(target, i)) == ExampleState(target, i + 1)
  }

  lemma ExampleRequest(target: int, i: nat)
    requires i < 4 && i != 2 && target >= 0
    ensures Leads(target, i)
  {
    var s, next := ExampleState(target, i), ExampleState(target, i + 1);
    assert s.workers["n" := next.workers["n"]] == next.workers;
    assert s.remote["n" := next.remote["n"]] == next.remote;
  }

  lemma ExampleDebit(target: int)
    requires target == RenewalTarget(0, None, Remote(0, true), 1, 0)
    ensures Leads(target, 2)
  {
    var s := ExampleState(target, 2);
    ExampleDebitTx(target);
    DebitIs(s, "n", s.workers["n"], Applied);
    ExampleDebitStarts(target);
  }

  lemma ExampleDebitStarts(target: int)
    requires DebitTx(ExampleState(target, 2).db, EXAMPLE_KEY, 1, Remote(0, true), 0, 0) == Some(ExampleState(target, 3).db)
    ensures DoDebit(ExampleState(target, 2), "n", ExampleState(target, 2).workers["n"], Applied) == ExampleState(target, 3)
  {
    var s, next := ExampleState(target, 2), ExampleState(target, 3);
    assert TargetEnable(next.db.nodes["n"], true);
    assert s.workers["n" := next.workers["n"]] == next.workers;
  }

  lemma ExampleDebitTx(target: int)
    requires target == RenewalTarget(0, None, Remote(0, true), 1, 0)
    ensures DebitTx(ExampleState(target, 2).db, EXAMPLE_KEY, 1, Remote(0, true), 0, 0) == Some(ExampleState(target, 3).db)
  {
    var db := ExampleState(target, 2).db;
    var r := ExampleRow(target, []);
    assert NewRenewal(db.nodes["n"], 0, 1, Remote(0, true), 0, 0) == r;
    assert RenewalAllowed(db, EXAMPLE_KEY);
    ExampleDebited(target);
  }

  lemma ExampleDebited(target: int)
    ensures Debited(ExampleState(target, 2).db, EXAMPLE_KEY, ExampleRow(target, [])) == ExampleState(target, 3).db
  {
    var after, next := Debited(ExampleState(target, 2).db, EXAMPLE_KEY, ExampleRow(target, [])), ExampleState(target, 3).db;
    assert after.customers == next.customers;
    assert after.renewals == next.renewals;
    assert after.ledger == next.ledger;
    assert after.stored == next.stored;
  }

  lemma ExampleFirstRead(target: int)
    requires target >= 28 * DAY_MS
    ensures Leads(target, 4)
  {
    var s := ExampleState(target, 4);
    ReadStateIs(s, "n", s.workers["n"].p, true, true);
    var aim := Remote(target, true);
    assert [] + [Saw(aim, true)] == [Saw(aim, true)];
  }

  lemma ExampleUndo(target: int)
    ensures Leads(target, 6)
  {
    var s, next := ExampleState(target, 6), ExampleState(target, 7);
    var p := s.workers["n"].p;
    WriteSnapshotIs(s, "n", p, Applied);
    assert SnapshotState(s, p) == Remote(0, true);
    ExampleUndoRows(target);
    assert s.remote["n" := Remote(0, true)] == next.remote;
    assert s.workers["n" := RolledBack(p)] == next.workers;
  }

  lemma ExampleUndoRows(target: int)
    ensures Observe(ExampleState(target, 6).db, EXAMPLE_KEY, Undone(Remote(0, true), true)) == ExampleState(target, 7).db
  {
    var db, next := ExampleState(target, 6).db, ExampleState(target, 7).db;
    var undone := Undone(Remote(0, true), true);
    assert db.renewals[EXAMPLE_KEY].events + [undone] == next.renewals[EXAMPLE_KEY].events;
    assert db.renewals[EXAMPLE_KEY := next.renewals[EXAMPLE_KEY]] == next.renewals;
  }

  lemma ExampleCrash(target: int, i: nat)
    requires i == 5 || i == 7
    ensures Leads(target, i)
  {
    var s, next := ExampleState(target, i), ExampleState(target, i + 1);
    assert s.workers["n" := next.workers["n"]] == next.workers;
  }

  lemma ExampleResume(target: int, i: nat)
    requires 8 <= i < 10 && target >= 0
    ensures Leads(target, i)
  {
    var s, next := ExampleState(target, i), ExampleState(target, i + 1);
    assert s.workers["n" := next.workers["n"]] == next.workers;
    assert s.remote["n" := next.remote["n"]] == next.remote;
    assert Complete(s.db, EXAMPLE_KEY);
  }

  lemma ExampleSecondRead(target: int)
    requires target >= 28 * DAY_MS
    ensures Leads(target, 10)
  {
    var s := ExampleState(target, 10);
    ReadStateIs(s, "n", s.workers["n"].p, true, true);
    var seen := [Saw(Remote(target, true), true), Undone(Remote(0, true), true)];
    var past := Saw(Remote(target + 5000, true), true);
    assert seen + [past] == [seen[0], seen[1], past];
  }

  lemma ExampleRefund(target: int)
    ensures Leads(target, 11)
  {
    var s, next := ExampleState(target, 11), ExampleState(target, 12);
    var p := s.workers["n"].p;
    RefundStepIs(s, "n", p, Applied, Applied);
    ExampleRefundTx(target);
    assert s.workers["n" := Idle] == next.workers;
  }

  lemma ExampleRefundTx(target: int)
    ensures RefundTx(ExampleState(target, 11).db, EXAMPLE_KEY, Detail(false, false, false)) == Some(ExampleState(target, 12).db)
  {
    var db, next := ExampleState(target, 11).db, ExampleState(target, 12).db;
    var after := RefundTx(db, EXAMPLE_KEY, Detail(false, false, false)).value;
    assert after.ledger == next.ledger;
    assert after.stored == next.stored;
    assert after.customers == next.customers;
    assert after.renewals == next.renewals;
  }

  lemma ExampleLeads(target: int, i: nat)
    requires target == RenewalTarget(0, None, Remote(0, true), 1, 0) && i < 12
    ensures Leads(target, i)
  {
    TargetIsLater(0, None, Remote(0, true), 1, 0);
    if i == 2 {
      ExampleDebit(target);
    } else if i < 4 {
      ExampleRequest(target, i);
    } else if i < 5 {
      ExampleFirstRead(target);
    } else if i == 6 {
      ExampleUndo(target);
    } else if i < 8 {
      ExampleCrash(target, i);
    } else if i < 10 {
      ExampleResume(target, i);
    } else if i < 11 {
      ExampleSecondRead(target);
    } else {
      ExampleRefund(target);
    }
  }

  /** The example refunds a renewal after writing to the panel, with the panel last
      seen away from the snapshot. */
  lemma UnflaggedUndoExample()
    ensures Init(map["c" := 100], ExampleStart())
    ensures
      var target := RenewalTarget(0, None, Remote(0, true), 1, 0);
      var db := Run(ExampleStart(), seq(12, i requires 0 <= i => ExampleAction(target, i))).db;
      && EXAMPLE_KEY in db.renewals
      && var r := db.renewals[EXAMPLE_KEY];
      && RefundedAstray(r)
  {
    var target := RenewalTarget(0, None, Remote(0, true), 1, 0);
    var state := (i: nat) => ExampleState(target, i);
    var run := seq(12, i requires 0 <= i => ExampleAction(target, i));
    forall i | 0 <= i < |run|
      ensures Apply(state(i), run[i]) == state(i + 1)
    {
      ExampleLeads(target, i);
    }
    Trace(run, state);
    ExampleEnds(target);
  }

  lemma ExampleEnds(target: int)
    requires target == RenewalTarget(0, None, Remote(0, true), 1, 0)
    ensures EXAMPLE_KEY in ExampleState(target, 12).db.renewals
    ensures RefundedAstray(ExampleState(target, 12).db.renewals[EXAMPLE_KEY])
  {
    var r := ExampleState(target, 12).db.renewals[EXAMPLE_KEY];
    TargetIsLater(0, None, Remote(0, true), 1, 0);
    assert r.events[1].Undone?;
  }
}
