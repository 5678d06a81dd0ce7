/** What a single step of a renewal changes in the rows, field by field. */
module RenewalEffects {
  import opened Options
  import opened Calendar
  import opened RenewalRows
  import opened RenewalSaga
  import opened RenewalSafety
  import opened RenewalAgreement

  // ---- the commit of a success ----

  /** The step turns a pending renewal into a success. */
  predicate Commits(before: Db, after: Db, key: Key) {
    && key in before.renewals && before.renewals[key].status == Pending
    && key in after.renewals && after.renewals[key].status == Success
  }

  /** The node is paid up to the renewal's target and active again; nothing else of
      it, no other row, no balance and no entry changes. */
  ghost predicate Renewed(before: Db, after: Db, key: Key) {
    && key in before.renewals && key.node in before.nodes
    && var r, node := before.renewals[key], before.nodes[key.node];
    && after.nodes == before.nodes[key.node :=
         Node(node.customer, true, NoReason, Some(r.target), node.serviceEnabled, node.price)]
    && after.renewals == before.renewals[key := r.(status := Success)]
    && after.customers == before.customers && after.ledger == before.ledger && after.stored == before.stored
  }

  /** The commit takes effect on a pending renewal whose node and debit entry are there. */
  lemma FinalizeTxRenews(db: Db, key: Key)
    requires key in db.renewals
    ensures
      var tx, r := FinalizeTx(db, key), db.renewals[key];
      && (tx.Some? <==> r.status == Pending && key.node in db.nodes && r.debitRow in db.stored)
      && (tx.Some? ==> Renewed(db, tx.value, key))
  {
  }

  lemma FinalizeRenews(s: State, node: string, p: Local, reply: Reply, verified: bool)
    requires Holds(s.db.renewals, node, p)
    ensures
      var after := DoFinalize(s, node, p, reply, verified).db;
      after == s.db || Renewed(s.db, after, p.key)
  {
    FinalizeTxRenews(s.db, p.key);
  }

  /** Committing a success is the one step of a worker that touches a node row. */
  lemma WorkerNodes(s: State, node: string, a: Action)
    requires WorkerOk(s.db.renewals, node, WorkerOf(s, node))
    ensures
      var after := WorkerStep(s, node, a).db;
      after.nodes == s.db.nodes
      || (a.Finalize? && WorkerOf(s, node).Confirmed? && Renewed(s.db, after, WorkerOf(s, node).p.key))
  {
    var w := WorkerOf(s, node);
    if w.Confirmed? && a.Finalize? {
      FinalizeRenews(s, node, w.p, a.reply, a.verified);
    } else if w.Idle? || w.Requested? || w.Priced? {
      FirstStepNodes(s, node, a);
    } else if w.Started? || w.WriteAllowed? || w.Marked? || w.Unsure? {
      OpenStepNodes(s, node, a);
    } else {
      ClosingStepNodes(s, node, a);
    }
  }

  lemma FirstStepNodes(s: State, node: string, a: Action)
    ensures WorkerOf(s, node).Idle? || WorkerOf(s, node).Requested? || WorkerOf(s, node).Priced? ==>
              WorkerStep(s, node, a).db.nodes == s.db.nodes
  {
  }

  lemma OpenStepNodes(s: State, node: string, a: Action)
    ensures
      var w := WorkerOf(s, node);
      w.Started? || w.WriteAllowed? || w.Marked? || w.Unsure? ==> WorkerStep(s, node, a).db.nodes == s.db.nodes
  {
  }

  lemma ClosingStepNodes(s: State, node: string, a: Action)
    ensures
      var w := WorkerOf(s, node);
      (w.Confirmed? && !a.Finalize?) || w.LocalFailed? || w.RolledBack? || w.Refunding? || w.Reconciling? ==>
        WorkerStep(s, node, a).db.nodes == s.db.nodes
  {
  }

  /** A step that commits a success renews the node of that renewal. */
  lemma CommitRenews(opening: map<string, int>, s: State, a: Action, key: Key)
    requires Inv(opening, s)
    ensures Commits(s.db, Apply(s, a).db, key) ==> Renewed(s.db, Apply(s, a).db, key)
  {
    if Commits(s.db, Apply(s, a).db, key) {
      CommitIsFinalize(opening, s, a, key);
    }
  }

  /** And beside edits by others nothing else touches a node row. */
  lemma NodesChangeByCommit(opening: map<string, int>, s: State, a: Action)
    requires Inv(opening, s)
    ensures Apply(s, a).db.nodes != s.db.nodes ==>
              a.EditNode? || exists k :: Commits(s.db, Apply(s, a).db, k) && Renewed(s.db, Apply(s, a).db, k)
  {
    if a.Request? || a.Resume? || ByOthers(a) {
      OthersNodes(s, a);
    } else {
      var w := WorkerOf(s, a.node);
      assert WorkerOk(s.db.renewals, a.node, w);
      WorkerNodes(s, a.node, a);
      if Apply(s, a).db.nodes != s.db.nodes {
        assert Commits(s.db, Apply(s, a).db, w.p.key);
      }
    }
  }

  lemma OthersNodes(s: State, a: Action)
    ensures (a.Request? || a.Resume? || ByOthers(a)) && !a.EditNode? ==> Apply(s, a).db.nodes == s.db.nodes
  {
  }

  /** Only the worker that holds a renewal and has confirmed its write commits it. */
  lemma CommitIsFinalize(opening: map<string, int>, s: State, a: Action, key: Key)
    requires Inv(opening, s) && Commits(s.db, Apply(s, a).db, key)
    ensures Renewed(s.db, Apply(s, a).db, key)
  {
    if a.Request? || a.Resume? || ByOthers(a) {
      OthersClose(s, a);
    } else {
      var w := WorkerOf(s, a.node);
      assert WorkerOk(s.db.renewals, a.node, w);
      AllOpen(opening, s);
      WorkerCloses(s, a.node, a, key);
      ConfirmedStep(s, a.node, a);
    }
  }

  lemma ConfirmedStep(s: State, node: string, a: Action)
    requires WorkerOk(s.db.renewals, node, WorkerOf(s, node)) && WorkerOf(s, node).Confirmed?
    ensures
      var after := WorkerStep(s, node, a).db;
      after == s.db || Renewed(s.db, after, WorkerOf(s, node).p.key)
  {
    if a.Finalize? {
      FinalizeRenews(s, node, WorkerOf(s, node).p, a.reply, a.verified);
    }
  }

  // ---- the debit that creates a renewal ----

  /** The latest of now, the node's expiry and the one on the panel, where there is one. */
  predicate IsLatest(base: int, now: int, expireAt: Option<int>, remote: int) {
    && base >= now && (expireAt.Some? ==> base >= expireAt.value) && (remote > 0 ==> base >= remote)
    && (base == now || Some(base) == expireAt || (remote > 0 && base == remote))
  }

  /** The same day and time some months later, or the last day of a shorter month. */
  predicate MonthsApartDates(from: int, to: int, months: int, offset: int) {
    var d, e := FromMs(from, offset), FromMs(to, offset);
    && e.month == d.month + months && e.clock == d.clock
    && e.day == if d.day <= DaysInMonth(e.month) then d.day else DaysInMonth(e.month)
  }

  /** The node is the customer's and may be renewed, and the balance covers the price. */
  predicate Chargeable(db: Db, key: Key, months: nat) {
    && key !in db.renewals && key.node in db.nodes && key.customer in db.customers
    && var node, c := db.nodes[key.node], db.customers[key.customer];
    && node.customer == key.customer && c.active && node.serviceEnabled
    && (node.reason == Expired || (node.reason == NoReason && node.active))
    && months * node.price <= c.balance
  }

  /** The charge is the months at the node's price, the target those months beyond
      the latest date, and the row, the balance and the entry are all that changes. */
  ghost predicate Charged(before: Db, after: Db, key: Key, months: nat, snapshot: Remote, now: int, offset: int) {
    && key.node in before.nodes && key.customer in before.customers && key in after.renewals
    && var node, c, r := before.nodes[key.node], before.customers[key.customer], after.renewals[key];
    && r.months == months && r.amount == months * node.price && r.snapshot == snapshot
    && r.status == Pending && !r.detail.writeStarted && !r.detail.refunded && !r.detail.reconciliation && r.events == []
    && (exists base :: IsLatest(base, now, node.expireAt, snapshot.expiry) && MonthsApartDates(base, r.target, months, offset))
    && after.renewals == before.renewals[key := r]
    && after.customers == before.customers[key.customer := Customer(c.balance - r.amount, c.active)]
    && after.ledger == before.ledger + [Entry(key.customer, DebitOf(key), 0 - r.amount, c.balance, c.balance - r.amount)]
    && r.debitRow == |before.ledger| && after.stored == before.stored + {r.debitRow}
    && after.nodes == before.nodes
  }

  lemma TargetDates(now: int, expireAt: Option<int>, remote: Remote, months: int, offset: int)
    ensures
      var target := RenewalTarget(now, expireAt, remote, months, offset);
      exists base :: IsLatest(base, now, expireAt, remote.expiry) && MonthsApartDates(base, target, months, offset)
  {
    var dates := [expireAt, if remote.expiry > 0 then Some(remote.expiry) else None];
    var base := LatestDate(now, dates);
    assert dates[0] in dates && dates[1] in dates;
    RoundTripDate(MonthsLater(FromMs(base, offset), months), offset);
    assert IsLatest(base, now, expireAt, remote.expiry);
  }

  lemma DebitTxCharges(db: Db, key: Key, months: nat, snapshot: Remote, now: int, offset: int)
    ensures
      var tx := DebitTx(db, key, months, snapshot, now, offset);
      && (tx.Some? <==> Chargeable(db, key, months))
      && (tx.Some? ==> Charged(db, tx.value, key, months, snapshot, now, offset))
  {
    var tx := DebitTx(db, key, months, snapshot, now, offset);
    if RenewalAllowed(db, key) {
      var node := db.nodes[key.node];
      TargetDates(now, node.expireAt, snapshot, months, offset);
      assert node.price * months == months * node.price;
    }
  }

  /** A debit that takes effect charges exactly a chargeable renewal. */
  lemma DebitCharges(s: State, node: string, reply: Reply)
    ensures
      var w, after := WorkerOf(s, node), Apply(s, DebitStep(node, reply)).db;
      w.Priced? && !reply.NotApplied? ==>
        if Chargeable(s.db, w.request, w.months) then Charged(s.db, after, w.request, w.months, w.snapshot, w.now, s.offset)
        else after == s.db
  {
    var w := WorkerOf(s, node);
    if w.Priced? {
      DebitIs(s, node, w, reply);
      DebitTxCharges(s.db, w.request, w.months, w.snapshot, w.now, s.offset);
    }
  }

  /** And nothing else creates a renewal. */
  lemma CreationCharges(opening: map<string, int>, s: State, a: Action, key: Key)
    requires Inv(opening, s)
    ensures key in Apply(s, a).db.renewals && key !in s.db.renewals ==>
      var w := WorkerOf(s, key.node);
      && w.Priced? && w.request == key && Chargeable(s.db, key, w.months)
      && Charged(s.db, Apply(s, a).db, key, w.months, w.snapshot, w.now, s.offset)
  {
    if key in Apply(s, a).db.renewals && key !in s.db.renewals {
      if a.Request? || a.Resume? || ByOthers(a) {
        OthersClose(s, a);
        assert false;
      } else {
        var w := WorkerOf(s, a.node);
        assert WorkerOk(s.db.renewals, a.node, w);
        CreatesOnlyAtDebit(s, a.node, a, key);
        DebitCharges(s, a.node, a.reply);
      }
    }
  }

  lemma CreatesOnlyAtDebit(s: State, node: string, a: Action, key: Key)
    requires WorkerOk(s.db.renewals, node, WorkerOf(s, node))
    requires key in WorkerStep(s, node, a).db.renewals && key !in s.db.renewals
    ensures WorkerOf(s, node).Priced? && a.DebitStep? && WorkerOf(s, node).request == key
    ensures !a.reply.NotApplied?
  {
    var w := WorkerOf(s, node);
    if w.Started? || w.WriteAllowed? || w.Marked? || w.Unsure? {
      OpenStepKeys(s, node, a);
    } else if !w.Idle? && !w.Requested? && !w.Priced? {
      ClosingStepKeys(s, node, a);
    }
  }

  lemma OpenStepKeys(s: State, node: string, a: Action)
    ensures
      var w := WorkerOf(s, node);
      w.Started? || w.WriteAllowed? || w.Marked? || w.Unsure? ==> WorkerStep(s, node, a).db.renewals.Keys == s.db.renewals.Keys
  {
  }

  lemma ClosingStepKeys(s: State, node: string, a: Action)
    ensures
      var w := WorkerOf(s, node);
      w.Confirmed? || w.LocalFailed? || w.RolledBack? || w.Refunding? || w.Reconciling? ==>
        WorkerStep(s, node, a).db.renewals.Keys == s.db.renewals.Keys
  {
  }

  // ---- refunds ----

  /** The whole charge is returned with one entry; node rows stay as they are. */
  ghost predicate PaidBack(before: Db, after: Db, key: Key) {
    && key in before.renewals && key.customer in before.customers && key in after.renewals
    && var r, c := before.renewals[key], before.customers[key.customer];
    && after.customers == before.customers[key.customer := Customer(c.balance + r.amount, c.active)]
    && after.ledger == before.ledger + [Entry(key.customer, RefundOf(key), r.amount, c.balance, c.balance + r.amount)]
    && after.nodes == before.nodes
    && after.renewals == before.renewals[key := r.(status := Failed, detail := r.detail.(refunded := true))]
  }

  /** The refund takes effect on a pending renewal whose customer and debit entry are
      there; one that is closed already is left as it is. */
  lemma RefundTxPaysBack(db: Db, key: Key, detail: Detail)
    requires key in db.renewals
    ensures
      var tx, r := RefundTx(db, key, detail), db.renewals[key];
      && (r.status != Pending ==> tx == Some(db))
      && (r.status == Pending ==> (tx.Some? <==> key.customer in db.customers && r.debitRow in db.stored))
      && (r.status == Pending && tx.Some? && r.detail == detail ==> PaidBack(db, tx.value, key))
  {
  }

  /** Only the renewal's own row changes: it waits for a person. */
  ghost predicate SetAside(before: Db, after: Db, key: Key) {
    && key in before.renewals
    && var r := before.renewals[key];
    && after == before.(renewals := before.renewals[key := r.(status := Failed, detail := r.detail.(reconciliation := true))])
  }

  lemma ReconcileTxSetsAside(db: Db, key: Key, detail: Detail)
    requires key in db.renewals
    ensures
      var tx, r := ReconcileTx(db, key, detail), db.renewals[key];
      && (r.status != Pending ==> tx == Some(db))
      && (r.status == Pending ==> (tx.Some? <==> r.debitRow in db.stored))
      && (r.status == Pending && tx.Some? && r.detail == detail ==> SetAside(db, tx.value, key))
  {
  }

  /** A renewal that becomes refunded is paid back by that step. */
  lemma RefundPaysBack(opening: map<string, int>, s: State, a: Action, key: Key)
    requires Inv(opening, s)
    ensures
      var after := Apply(s, a).db;
      (key in s.db.renewals && s.db.renewals[key].status == Pending
       && key in after.renewals && after.renewals[key].detail.refunded) ==> PaidBack(s.db, after, key)
  {
    var after := Apply(s, a).db;
    if key in s.db.renewals && s.db.renewals[key].status == Pending && key in after.renewals && after.renewals[key].detail.refunded {
      AllOpen(opening, s);
      RefundIsPayback(opening, s, a, key);
    }
  }

  lemma RefundIsPayback(opening: map<string, int>, s: State, a: Action, key: Key)
    requires Inv(opening, s) && Open(s.db, key) && forall k <- s.db.renewals :: s.db.renewals[k].status == Pending ==> Open(s.db, k)
    requires key in Apply(s, a).db.renewals && Apply(s, a).db.renewals[key].detail.refunded
    ensures PaidBack(s.db, Apply(s, a).db, key)
  {
    if a.Request? || a.Resume? || ByOthers(a) {
      OthersClose(s, a);
    } else {
      assert WorkerOk(s.db.renewals, a.node, WorkerOf(s, a.node));
      WorkerCloses(s, a.node, a, key);
      RefundingStep(s, a.node, a);
    }
  }

  lemma RefundingStep(s: State, node: string, a: Action)
    requires WorkerOk(s.db.renewals, node, WorkerOf(s, node)) && WorkerOf(s, node).Refunding?
    ensures
      var p, after := WorkerOf(s, node).p, WorkerStep(s, node, a).db;
      PaidBack(s.db, after, p.key) || (p.key in after.renewals && after.renewals[p.key].detail.refunded == s.db.renewals[p.key].detail.refunded)
  {
    if a.RefundStep? {
      var p := WorkerOf(s, node).p;
      RefundTxPaysBack(s.db, p.key, p.detail);
    }
  }

  // ---- over whole runs ----

  /** The rows before and after a step of a run. */
  function Before(start: State, actions: seq<Action>, i: nat): Db
    requires i < |actions|
  {
    Run(start, actions[..i]).db
  }

  function After(start: State, actions: seq<Action>, i: nat): Db
    requires i < |actions|
  {
    Run(start, actions[..i + 1]).db
  }

  ghost predicate ChargedAt(start: State, actions: seq<Action>, i: nat, key: Key, r: Renewal)
    requires i < |actions|
  {
    exists now :: Charged(Before(start, actions, i), After(start, actions, i), key, r.months, r.snapshot, now, start.offset)
  }

  ghost predicate RenewedAt(start: State, actions: seq<Action>, i: nat, key: Key)
    requires i < |actions|
  {
    Renewed(Before(start, actions, i), After(start, actions, i), key)
  }

  ghost predicate PaidBackAt(start: State, actions: seq<Action>, i: nat, key: Key)
    requires i < |actions|
  {
    PaidBack(Before(start, actions, i), After(start, actions, i), key)
  }

  lemma SameSteps(start: State, actions: seq<Action>, a: Action, i: nat)
    requires i < |actions|
    ensures Before(start, actions + [a], i) == Before(start, actions, i)
    ensures After(start, actions + [a], i) == After(start, actions, i)
  {
    assert (actions + [a])[..i] == actions[..i] && (actions + [a])[..i + 1] == actions[..i + 1];
  }

  lemma LastStep(start: State, actions: seq<Action>, a: Action)
    ensures Before(start, actions + [a], |actions|) == Run(start, actions).db
    ensures After(start, actions + [a], |actions|) == Apply(Run(start, actions), a).db
  {
    assert (actions + [a])[..|actions|] == actions && (actions + [a])[..|actions| + 1] == actions + [a];
    RunStep(start, actions, a);
  }

  lemma {:induction false} OffsetIsConstant(start: State, actions: seq<Action>)
    ensures Run(start, actions).offset == start.offset
  {
    if actions != [] {
      OffsetIsConstant(start, actions[..|actions| - 1]);
      SameConstants(Run(start, actions[..|actions| - 1]), actions[|actions| - 1]);
    }
  }

  /** What a worker is about to charge was asked for, and the snapshot it holds is
      what the panel showed when it was read. */
  ghost predicate Sourced(start: State, actions: seq<Action>, node: string, w: Worker) {
    && (w.Requested? || w.Priced? ==> Request(w.request, w.months) in actions && w.request.node == node)
    && (w.Priced? ==> ShownAt(start, actions, node, w.snapshot))
  }

  ghost predicate ShownAt(start: State, actions: seq<Action>, node: string, snapshot: Remote) {
    exists i: nat :: i < |actions| && Shown(Run(start, actions[..i]), actions[i], node, snapshot)
  }

  predicate Shown(s: State, a: Action, node: string, snapshot: Remote) {
    a.ReadBefore? && a.node == node && node in s.remote && s.remote[node] == snapshot
  }

  lemma ShownStays(start: State, actions: seq<Action>, a: Action, node: string, snapshot: Remote)
    ensures ShownAt(start, actions, node, snapshot) || Shown(Run(start, actions), a, node, snapshot) ==>
              ShownAt(start, actions + [a], node, snapshot)
  {
    if i: nat :| i < |actions| && Shown(Run(start, actions[..i]), actions[i], node, snapshot) {
      assert (actions + [a])[..i] == actions[..i];
    } else if Shown(Run(start, actions), a, node, snapshot) {
      assert (actions + [a])[..|actions|] == actions;
      assert Shown(Run(start, (actions + [a])[..|actions|]), (actions + [a])[|actions|], node, snapshot);
    }
  }

  lemma OwnSource(s: State, a: Action, node: string)
    ensures
      var w, next := WorkerOf(s, node), WorkerOf(Apply(s, a), node);
      && (next.Requested? ==> next == w || (a == Request(next.request, next.months) && next.request.node == node))
      && (next.Priced? ==> next == w || (w.Requested? && next.request == w.request && next.months == w.months
                                         && Shown(s, a, node, next.snapshot)))
  {
    if !RenewalSaga.Own(node, a) {
      NotOwn(s, node, a);
    }
  }

  lemma {:induction false} AllSourced(start: State, actions: seq<Action>, node: string)
    requires start.workers == map[]
    ensures Sourced(start, actions, node, WorkerOf(Run(start, actions), node))
  {
    if actions != [] {
      var most, a := actions[..|actions| - 1], actions[|actions| - 1];
      assert actions == most + [a];
      AllSourced(start, most, node);
      OwnSource(Run(start, most), a, node);
      var w := WorkerOf(Run(start, actions), node);
      if w.Priced? {
        ShownStays(start, most, a, node, w.snapshot);
      }
    }
  }

  /** Every renewal of a run has the months somebody asked for and the snapshot the
      panel showed. */
  lemma {:induction false} EveryRowWasRequested(opening: map<string, int>, start: State, actions: seq<Action>, key: Key)
    requires Init(opening, start)
    ensures
      var renewals := Run(start, actions).db.renewals;
      key in renewals ==>
        Request(key, renewals[key].months) in actions && ShownAt(start, actions, key.node, renewals[key].snapshot)
  {
    if actions != [] && key in Run(start, actions).db.renewals {
      var most, a := actions[..|actions| - 1], actions[|actions| - 1];
      assert actions == most + [a];
      EveryRunKeepsInv(opening, start, most);
      ShownStays(start, most, a, key.node, Run(start, actions).db.renewals[key].snapshot);
      if key in Run(start, most).db.renewals {
        EveryRowWasRequested(opening, start, most, key);
        StepExtends(opening, Run(start, most), a);
      } else {
        AllSourced(start, most, key.node);
        CreationCharges(opening, Run(start, most), a, key);
      }
    }
  }

  /** Every renewal of a run was charged by one of its steps, at the price the node
      had then, and keeps the terms it was charged with. */
  lemma {:induction false} EveryRowWasCharged(opening: map<string, int>, start: State, actions: seq<Action>, key: Key)
    requires Init(opening, start)
    ensures key in Run(start, actions).db.renewals ==>
      exists i: nat :: i < |actions| && ChargedAt(start, actions, i, key, Run(start, actions).db.renewals[key])
        && SameTerms(After(start, actions, i).renewals[key], Run(start, actions).db.renewals[key])
  {
    if actions != [] && key in Run(start, actions).db.renewals {
      var most, a := actions[..|actions| - 1], actions[|actions| - 1];
      assert actions == most + [a];
      EveryRunKeepsInv(opening, start, most);
      LastStep(start, most, a);
      if key in Run(start, most).db.renewals {
        EveryRowWasCharged(opening, start, most, key);
        var i: nat :| i < |most| && ChargedAt(start, most, i, key, Run(start, most).db.renewals[key])
          && SameTerms(After(start, most, i).renewals[key], Run(start, most).db.renewals[key]);
        SameSteps(start, most, a, i);
        StepExtends(opening, Run(start, most), a);
        assert ChargedAt(start, actions, i, key, Run(start, actions).db.renewals[key]);
      } else {
        OffsetIsConstant(start, most);
        CreationCharges(opening, Run(start, most), a, key);
        assert ChargedAt(start, actions, |most|, key, Run(start, actions).db.renewals[key]);
      }
    }
  }

  /** Every success of a run renewed its node by one of its steps, and every refund
      was paid back by one. */
  lemma {:induction false} EveryClosingHappened(opening: map<string, int>, start: State, actions: seq<Action>, key: Key)
    requires Init(opening, start) && key in Run(start, actions).db.renewals
    ensures Run(start, actions).db.renewals[key].status == Success ==>
              exists i: nat :: i < |actions| && RenewedAt(start, actions, i, key)
    ensures Run(start, actions).db.renewals[key].detail.refunded ==>
              exists i: nat :: i < |actions| && PaidBackAt(start, actions, i, key)
  {
    if actions != [] {
      var most, a := actions[..|actions| - 1], actions[|actions| - 1];
      assert actions == most + [a];
      EveryRunKeepsInv(opening, start, most);
      LastStep(start, most, a);
      var s, r := Run(start, most), Run(start, actions).db.renewals[key];
      StepExtends(opening, s, a);
      if key !in s.db.renewals {
        CreationCharges(opening, s, a, key);
      } else if s.db.renewals[key].status == Pending {
        CommitRenews(opening, s, a, key);
        RefundPaysBack(opening, s, a, key);
        assert r.status == Success ==> RenewedAt(start, actions, |most|, key);
        assert r.detail.refunded ==> PaidBackAt(start, actions, |most|, key);
      } else {
        EveryClosingHappened(opening, start, most, key);
        ClosingStays(start, most, a, key);
      }
    }
  }

  lemma ClosingStays(start: State, actions: seq<Action>, a: Action, key: Key)
    ensures (exists i: nat :: i < |actions| && RenewedAt(start, actions, i, key)) ==>
              exists i: nat :: i < |actions + [a]| && RenewedAt(start, actions + [a], i, key)
    ensures (exists i: nat :: i < |actions| && PaidBackAt(start, actions, i, key)) ==>
              exists i: nat :: i < |actions + [a]| && PaidBackAt(start, actions + [a], i, key)
  {
    if i: nat :| i < |actions| && RenewedAt(start, actions, i, key) {
      SameSteps(start, actions, a, i);
      assert RenewedAt(start, actions + [a], i, key);
    }
    if i: nat :| i < |actions| && PaidBackAt(start, actions, i, key) {
      SameSteps(start, actions, a, i);
      assert PaidBackAt(start, actions + [a], i, key);
    }
  }

  // ---- the flag a renewal wants on the panel ----

  /** A worker that begins wants its client enabled when the node had expired, and
      as it was found otherwise. */
  lemma WantedFlag(s: State, a: Action, node: string)
    ensures
      var t := Apply(s, a);
      var w := WorkerOf(t, node);
      w.Started? && !WorkerOf(s, node).Started? ==>
        && w.p.key in t.db.renewals && w.p.key.node in t.db.nodes
        && var r, row := t.db.renewals[w.p.key], t.db.nodes[w.p.key.node];
        && w.p.detail == r.detail
        && w.p.enable == ((!row.active && row.reason == Expired) || r.snapshot.enable)
  {
    if !RenewalSaga.Own(node, a) {
      NotOwn(s, node, a);
    } else if a.Request? || a.Resume? {
    } else {
      StartsAtDebit(s, node, a);
    }
  }

  lemma StartsAtDebit(s: State, node: string, a: Action)
    ensures
      var t := WorkerStep(s, node, a);
      WorkerOf(t, node).Started? && !WorkerOf(s, node).Started? ==>
        WorkerOf(s, node).Priced? && Begun(t, node, WorkerOf(s, node))
  {
    OnlyDebitStarts(s, node, a);
    if WorkerOf(s, node).Priced? && a.DebitStep? {
      DebitStarts(s, node, WorkerOf(s, node), a.reply);
    }
  }

  ghost predicate Begun(t: State, node: string, w: Worker)
    requires WorkerOf(t, node).Started? && w.Priced?
  {
    var p := WorkerOf(t, node).p;
    && p.key == w.request && p.key in t.db.renewals && p.key.node in t.db.nodes
    && p.detail == t.db.renewals[p.key].detail && t.db.renewals[p.key].snapshot == w.snapshot
    && p.enable == ((!t.db.nodes[p.key.node].active && t.db.nodes[p.key.node].reason == Expired) || w.snapshot.enable)
  }

  lemma OnlyDebitStarts(s: State, node: string, a: Action)
    ensures WorkerOf(WorkerStep(s, node, a), node).Started? && !WorkerOf(s, node).Started? ==>
              WorkerOf(s, node).Priced? && a.DebitStep? && WorkerStep(s, node, a) == DoDebit(s, node, WorkerOf(s, node), a.reply)
  {
  }

  lemma DebitStarts(s: State, node: string, w: Worker, reply: Reply)
    requires w.Priced?
    ensures
      var t := DoDebit(s, node, w, reply);
      WorkerOf(t, node).Started? ==> Begun(t, node, w)
  {
    DebitTxCharges(s.db, w.request, w.months, w.snapshot, w.now, s.offset);
  }
}
