/** What a renewal can rely on while nobody else touches its client, and the one
    place where it writes to the panel without having said so first. */
module RenewalAgreement {
  import opened Options
  import opened Calendar
  import opened RenewalRows
  import opened RenewalSaga
  import opened RenewalSafety

  // ---- the panel agrees with the rows ----

  /** Nobody edits a client while its renewal is pending or its lock is held. */
  predicate Undisturbed(s: State, a: Action) {
    a.EditRemote? ==> WorkerOf(s, a.node).Idle? && !PendingOn(s.db, a.node)
  }

  ghost predicate UndisturbedRun(start: State, actions: seq<Action>) {
    forall i :: 0 <= i < |actions| ==> Undisturbed(Run(start, actions[..i]), actions[i])
  }

  /** The panel holds the snapshot or, once the write was started, the target. */
  ghost predicate Agrees(remote: map<string, Remote>, node: string, r: Renewal) {
    && node in remote
    && (RemoteMatchesSnapshot(remote[node], r.snapshot)
        || (r.detail.writeStarted && Abs(remote[node].expiry - r.target) <= TOLERANCE))
  }

  ghost predicate AtTarget(remote: map<string, Remote>, renewals: map<Key, Renewal>, node: string, p: Local) {
    && node in remote && p.key in renewals && p.detail.writeStarted
    && RemoteMatches(remote[node], renewals[p.key].target, p.enable)
  }

  ghost predicate WorkerAgrees(remote: map<string, Remote>, renewals: map<Key, Renewal>, node: string, w: Worker) {
    match w
    case Priced(_, _, snapshot, _) => node in remote && remote[node] == snapshot
    case Confirmed(p) => AtTarget(remote, renewals, node, p)
    case LocalFailed(p) => AtTarget(remote, renewals, node, p)
    case Refunding(p) => node in remote && p.key in renewals && RemoteMatchesSnapshot(remote[node], renewals[p.key].snapshot)
    case _ => true
  }

  ghost predicate PanelAgrees(remote: map<string, Remote>, renewals: map<Key, Renewal>, workers: map<string, Worker>) {
    && (forall k <- renewals :: renewals[k].status == Pending ==> Agrees(remote, k.node, renewals[k]))
    && forall n <- workers :: WorkerAgrees(remote, renewals, n, workers[n])
  }

  ghost predicate AllAgree(s: State) {
    PanelAgrees(s.remote, s.db.renewals, s.workers)
  }

  predicate SameElsewhere(before: map<string, Remote>, after: map<string, Remote>, node: string) {
    && before.Keys + {node} == after.Keys + {node}
    && forall n <- before :: n != node ==> after[n] == before[n]
  }

  /** A step of a node's worker on its own renewal leaves the others in agreement. */
  lemma OwnAgrees(opening: map<string, int>, s: State, node: string, key: Key, r: Renewal, w: Worker, remote: map<string, Remote>)
    requires Inv(opening, s) && AllAgree(s) && SameElsewhere(s.remote, remote, node)
    requires key in s.db.renewals && key.node == node && s.db.renewals[key].status == Pending
    requires r.status == Pending ==> Agrees(remote, node, r)
    requires WorkerAgrees(remote, s.db.renewals[key := r], node, w)
    ensures PanelAgrees(remote, s.db.renewals[key := r], s.workers[node := w])
  {
    var renewals := s.db.renewals[key := r];
    forall k | k in renewals && renewals[k].status == Pending
      ensures Agrees(remote, k.node, renewals[k])
    {
      assert k != key ==> k.node != node && Agrees(s.remote, k.node, s.db.renewals[k]);
    }
    forall n | n in s.workers && n != node
      ensures WorkerAgrees(remote, renewals, n, s.workers[n])
    {
      assert WorkerAgrees(s.remote, s.db.renewals, n, s.workers[n]) && WorkerOk(s.db.renewals, n, s.workers[n]);
    }
  }

  lemma MoveAgrees(s: State, node: string, w: Worker)
    requires AllAgree(s) && WorkerAgrees(s.remote, s.db.renewals, node, w)
    ensures AllAgree(Goto(s, node, w))
  {
  }

  lemma WorkerStepAgrees(opening: map<string, int>, s: State, node: string, a: Action)
    requires Inv(opening, s) && AllAgree(s)
    ensures AllAgree(WorkerStep(s, node, a))
  {
    var w := WorkerOf(s, node);
    assert WorkerOk(s.db.renewals, node, w) && WorkerAgrees(s.remote, s.db.renewals, node, w);
    if a.Crash? {
      MoveAgrees(s, node, Idle);
    } else if w.Priced? && a.DebitStep? {
      DebitAgrees(opening, s, node, w, a.reply);
    } else if w.Requested? && a.ReadBefore? {
      MoveAgrees(s, node, DoReadBefore(s, node, w, a.ok, a.now).workers[node]);
    } else if !w.Idle? && !w.Requested? && !w.Priced? {
      assert RenewalOk(s.db.ledger, w.p.key, s.db.renewals[w.p.key]);
      OwnStepAgrees(opening, s, node, w.p, a);
    }
  }

  lemma DebitAgrees(opening: map<string, int>, s: State, node: string, w: Worker, reply: Reply)
    requires Inv(opening, s) && AllAgree(s) && w.Priced? && WorkerOk(s.db.renewals, node, w)
    requires WorkerAgrees(s.remote, s.db.renewals, node, w)
    ensures AllAgree(DoDebit(s, node, w, reply))
  {
    var after := DoDebit(s, node, w, reply);
    forall n | n in s.workers && n != node
      ensures WorkerAgrees(after.remote, after.db.renewals, n, s.workers[n])
    {
      assert WorkerAgrees(s.remote, s.db.renewals, n, s.workers[n]) && WorkerOk(s.db.renewals, n, s.workers[n]);
    }
  }

  /** The worker holds a pending renewal in a state where everything agrees. */
  ghost predicate Own(opening: map<string, int>, s: State, node: string, p: Local) {
    && Inv(opening, s) && AllAgree(s) && Holds(s.db.renewals, node, p)
    && RenewalOk(s.db.ledger, p.key, s.db.renewals[p.key])
  }

  /** The node's own pending renewal still agrees after a step of its worker. */
  lemma OwnStepAgrees(opening: map<string, int>, s: State, node: string, p: Local, a: Action)
    requires Own(opening, s, node, p) && node in s.workers && !a.Crash?
    requires !s.workers[node].Idle? && !s.workers[node].Requested? && !s.workers[node].Priced? && s.workers[node].p == p
    requires WorkerOk(s.db.renewals, node, s.workers[node]) && WorkerAgrees(s.remote, s.db.renewals, node, s.workers[node])
    ensures AllAgree(WorkerStep(s, node, a))
  {
    match s.workers[node]
    case Started(_) => if a.ReadState? { ReadAgrees(opening, s, node, p, a.ok, a.noted); }
    case WriteAllowed(_) => if a.MarkStarted? { MarkAgrees(opening, s, node, p, a.reply); }
    case Marked(_) => if a.WriteTarget? { WriteTargetAgrees(opening, s, node, p, a.reply); }
    case Unsure(_) => if a.ReadUnsure? { ReadUnsureAgrees(opening, s, node, p, a.ok, a.noted); }
    case _ => OwnCloseAgrees(opening, s, node, p, a);
  }

  lemma OwnCloseAgrees(opening: map<string, int>, s: State, node: string, p: Local, a: Action)
    requires Own(opening, s, node, p) && node in s.workers && !a.Crash?
    requires
      var w := s.workers[node];
      (w.Confirmed? || w.LocalFailed? || w.RolledBack? || w.Refunding? || w.Reconciling?) && w.p == p
    requires WorkerOk(s.db.renewals, node, s.workers[node]) && WorkerAgrees(s.remote, s.db.renewals, node, s.workers[node])
    ensures AllAgree(WorkerStep(s, node, a))
  {
    match s.workers[node]
    case Confirmed(_) => if a.Finalize? { FinalizeAgrees(opening, s, node, p, a.reply, a.verified); }
    case LocalFailed(_) => if a.WriteSnapshot? { WriteSnapshotAgrees(opening, s, node, p, a.reply); }
    case RolledBack(_) => if a.ReadRollback? { ReadRollbackAgrees(opening, s, node, p, a.ok); }
    case Refunding(_) => if a.RefundStep? { RefundAgrees(opening, s, node, p, a.reply, a.fallback); }
    case Reconciling(_) => if a.Reconcile? { ReconcileAgrees(opening, s, node, p, a.reply); }
  }

  lemma NoteAgrees(opening: map<string, int>, s: State, node: string, p: Local, noted: bool)
    requires Own(opening, s, node, p)
    ensures AllAgree(Goto(if noted then s.(db := NoteTx(s.db, p.key, p.detail)) else s, node, Idle))
  {
    if noted {
      OwnAgrees(opening, s, node, p.key, s.db.renewals[p.key].(detail := p.detail), Idle, s.remote);
    } else {
      MoveAgrees(s, node, Idle);
    }
  }

  lemma ReadAgrees(opening: map<string, int>, s: State, node: string, p: Local, ok: bool, noted: bool)
    requires Own(opening, s, node, p)
    ensures AllAgree(DoReadState(s, node, p, ok, noted))
  {
    if !ok || node !in s.remote {
      NoteAgrees(opening, s, node, p, noted);
    } else {
      var r := s.db.renewals[p.key];
      assert Agrees(s.remote, node, r);
      var w := DoReadState(s, node, p, ok, noted).workers[node];
      OwnAgrees(opening, s, node, p.key, r.(events := r.events + [Saw(s.remote[node], p.enable)]), w, s.remote);
    }
  }

  lemma MarkAgrees(opening: map<string, int>, s: State, node: string, p: Local, reply: Reply)
    requires Own(opening, s, node, p)
    ensures AllAgree(DoMarkStarted(s, node, p, reply))
  {
    var w := DoMarkStarted(s, node, p, reply).workers[node];
    if reply.NotApplied? {
      MoveAgrees(s, node, w);
    } else {
      var r := s.db.renewals[p.key];
      assert Agrees(s.remote, node, r);
      OwnAgrees(opening, s, node, p.key, r.(detail := p.detail.(writeStarted := true)), w, s.remote);
    }
  }

  lemma WriteTargetAgrees(opening: map<string, int>, s: State, node: string, p: Local, reply: Reply)
    requires Own(opening, s, node, p) && p.detail.writeStarted
    ensures AllAgree(DoWriteTarget(s, node, p, reply))
  {
    var r := s.db.renewals[p.key];
    assert Agrees(s.remote, node, r);
    WholeSecondsMatch(r.target, p.enable);
    var after := DoWriteTarget(s, node, p, reply);
    var e := Sent(TargetState(s, p), reply.Applied?);
    OwnAgrees(opening, s, node, p.key, r.(events := r.events + [e]), after.workers[node], after.remote);
  }

  lemma ReadUnsureAgrees(opening: map<string, int>, s: State, node: string, p: Local, ok: bool, noted: bool)
    requires Own(opening, s, node, p) && p.detail.writeStarted
    ensures AllAgree(DoReadUnsure(s, node, p, ok, noted))
  {
    if !ok || node !in s.remote {
      NoteAgrees(opening, s, node, p, noted);
    } else {
      var r := s.db.renewals[p.key];
      assert Agrees(s.remote, node, r);
      var w := DoReadUnsure(s, node, p, ok, noted).workers[node];
      OwnAgrees(opening, s, node, p.key, r.(events := r.events + [Saw(s.remote[node], p.enable)]), w, s.remote);
    }
  }

  lemma FinalizeAgrees(opening: map<string, int>, s: State, node: string, p: Local, reply: Reply, verified: bool)
    requires Own(opening, s, node, p) && AtTarget(s.remote, s.db.renewals, node, p)
    ensures AllAgree(DoFinalize(s, node, p, reply, verified))
  {
    var w := DoFinalize(s, node, p, reply, verified).workers[node];
    if FinalizeTx(s.db, p.key).None? || reply.NotApplied? {
      MoveAgrees(s, node, w);
    } else {
      OwnAgrees(opening, s, node, p.key, s.db.renewals[p.key].(status := Success), w, s.remote);
    }
  }

  lemma WriteSnapshotAgrees(opening: map<string, int>, s: State, node: string, p: Local, reply: Reply)
    requires Own(opening, s, node, p) && p.detail.writeStarted
    ensures AllAgree(DoWriteSnapshot(s, node, p, reply))
  {
    var r := s.db.renewals[p.key];
    assert Agrees(s.remote, node, r);
    WholeSecondsMatch(r.snapshot.expiry, p.enable);
    var after := DoWriteSnapshot(s, node, p, reply);
    var e := Undone(SnapshotState(s, p), reply.Applied?);
    OwnAgrees(opening, s, node, p.key, r.(events := r.events + [e]), after.workers[node], after.remote);
  }

  lemma ReadRollbackAgrees(opening: map<string, int>, s: State, node: string, p: Local, ok: bool)
    requires Own(opening, s, node, p)
    ensures AllAgree(DoReadRollback(s, node, p, ok))
  {
    var w := DoReadRollback(s, node, p, ok).workers[node];
    if !ok || node !in s.remote {
      MoveAgrees(s, node, w);
    } else {
      var r := s.db.renewals[p.key];
      assert Agrees(s.remote, node, r);
      OwnAgrees(opening, s, node, p.key, r.(events := r.events + [Saw(s.remote[node], p.enable)]), w, s.remote);
    }
  }

  lemma RefundAgrees(opening: map<string, int>, s: State, node: string, p: Local, reply: Reply, fallback: Reply)
    requires Own(opening, s, node, p)
    ensures AllAgree(DoRefund(s, node, p, reply, fallback))
  {
    if RefundTx(s.db, p.key, p.detail).None? || reply.NotApplied? {
      ReconcileAgrees(opening, s, node, p, fallback);
    } else {
      var closed := s.db.renewals[p.key].(status := Failed, detail := p.detail.(refunded := true));
      OwnAgrees(opening, s, node, p.key, closed, Idle, s.remote);
    }
  }

  lemma ReconcileAgrees(opening: map<string, int>, s: State, node: string, p: Local, reply: Reply)
    requires Own(opening, s, node, p)
    ensures AllAgree(DoReconcile(s, node, p, reply))
  {
    if ReconcileTx(s.db, p.key, p.detail).None? || reply.NotApplied? {
      MoveAgrees(s, node, Idle);
    } else {
      var closed := s.db.renewals[p.key].(status := Failed, detail := p.detail.(reconciliation := true));
      OwnAgrees(opening, s, node, p.key, closed, Idle, s.remote);
    }
  }

  lemma EditAgrees(s: State, node: string, state: Remote)
    requires AllAgree(s) && WorkerOf(s, node).Idle? && !PendingOn(s.db, node)
    ensures AllAgree(s.(remote := s.remote[node := state]))
  {
    var remote := s.remote[node := state];
    forall n | n in s.workers
      ensures WorkerAgrees(remote, s.db.renewals, n, s.workers[n])
    {
      assert WorkerAgrees(s.remote, s.db.renewals, n, s.workers[n]);
    }
  }

  lemma StepAgrees(opening: map<string, int>, s: State, a: Action)
    requires Inv(opening, s) && AllAgree(s) && Undisturbed(s, a)
    ensures AllAgree(Apply(s, a))
  {
    if a.Request? || a.Resume? {
      if Apply(s, a) != s {
        MoveAgrees(s, a.key.node, Apply(s, a).workers[a.key.node]);
      }
    } else if a.EditRemote? {
      EditAgrees(s, a.node, a.state);
    } else if !ByOthers(a) {
      WorkerStepAgrees(opening, s, a.node, a);
    }
  }

  lemma {:induction false} UndisturbedRunAgrees(opening: map<string, int>, start: State, actions: seq<Action>)
    requires Init(opening, start) && UndisturbedRun(start, actions)
    ensures AllAgree(Run(start, actions))
  {
    if actions != [] {
      var most := actions[..|actions| - 1];
      forall i | 0 <= i < |most|
        ensures Undisturbed(Run(start, most[..i]), most[i])
      {
        assert most[..i] == actions[..i] && Undisturbed(Run(start, actions[..i]), actions[i]);
      }
      UndisturbedRunAgrees(opening, start, most);
      EveryRunKeepsInv(opening, start, most);
      StepAgrees(opening, Run(start, most), actions[|actions| - 1]);
    }
  }

  /** The panel at the step that closes a renewal: at the target for a success, at
      the snapshot for a refund, and never at both. */
  ghost predicate ClosedAgrees(remote: map<string, Remote>, node: string, r: Renewal) {
    && (r.status == Success ==>
          && node in remote && r.target - 1000 <= remote[node].expiry <= r.target + 1000
          && remote[node].expiry > r.snapshot.expiry + 1000)
    && (r.detail.refunded ==>
          && node in remote && remote[node].enable == r.snapshot.enable
          && r.snapshot.expiry - 1000 <= remote[node].expiry <= r.snapshot.expiry + 1000
          && remote[node].expiry < r.target - 1000)
  }

  /** While nobody else touches the client, the money follows the panel at the very
      step that commits it. */
  lemma CommitsMatchThePanel(opening: map<string, int>, start: State, actions: seq<Action>, a: Action, key: Key)
    requires Init(opening, start) && UndisturbedRun(start, actions)
    requires key in Run(start, actions).db.renewals
    requires Run(start, actions).db.renewals[key].status == Pending
    ensures key in Apply(Run(start, actions), a).db.renewals
    ensures ClosedAgrees(Run(start, actions).remote, key.node, Apply(Run(start, actions), a).db.renewals[key])
    ensures
      var s := Run(start, actions);
      Apply(s, a).db.renewals[key].status == Success ==>
        WorkerOf(s, key.node).Confirmed? && s.remote[key.node].enable == WorkerOf(s, key.node).p.enable
  {
    EveryRunKeepsInv(opening, start, actions);
    UndisturbedRunAgrees(opening, start, actions);
    CommitMatchesThePanel(opening, Run(start, actions), a, key);
  }

  lemma CommitMatchesThePanel(opening: map<string, int>, s: State, a: Action, key: Key)
    requires Inv(opening, s) && AllAgree(s)
    requires key in s.db.renewals && s.db.renewals[key].status == Pending
    ensures key in Apply(s, a).db.renewals
    ensures ClosedAgrees(s.remote, key.node, Apply(s, a).db.renewals[key])
    ensures Apply(s, a).db.renewals[key].status == Success ==>
              WorkerOf(s, key.node).Confirmed? && s.remote[key.node].enable == WorkerOf(s, key.node).p.enable
  {
    assert RenewalOk(s.db.ledger, key, s.db.renewals[key]);
    StepExtends(opening, s, a);
    ClosesOwn(opening, s, a, key);
    var w := WorkerOf(s, key.node);
    assert WorkerAgrees(s.remote, s.db.renewals, key.node, w);
    ClosingAgrees(s.remote, key.node, s.db.renewals[key], Apply(s, a).db.renewals[key], w);
  }

  lemma ClosingAgrees(remote: map<string, Remote>, node: string, r: Renewal, after: Renewal, w: Worker)
    requires SameTerms(r, after) && r.target >= r.snapshot.expiry + 28 * DAY_MS
    requires after.status == Success ==> w.Confirmed? && node in remote && RemoteMatches(remote[node], r.target, w.p.enable)
    requires after.detail.refunded ==> node in remote && RemoteMatchesSnapshot(remote[node], r.snapshot)
    ensures ClosedAgrees(remote, node, after)
  {
  }

  /** Only the worker that holds a renewal closes it: from `Confirmed` as a success,
      from `Refunding` as a refund. */
  lemma ClosesOwn(opening: map<string, int>, s: State, a: Action, key: Key)
    requires Inv(opening, s)
    requires key in s.db.renewals && s.db.renewals[key].status == Pending
    requires key in Apply(s, a).db.renewals
    ensures
      var r := Apply(s, a).db.renewals[key];
      && (r.status == Success ==> WorkerOf(s, key.node).Confirmed? && WorkerOf(s, key.node).p.key == key)
      && (r.detail.refunded ==> WorkerOf(s, key.node).Refunding? && WorkerOf(s, key.node).p.key == key)
  {
    AllOpen(opening, s);
    if !a.Request? && !a.Resume? && !ByOthers(a) {
      assert WorkerOk(s.db.renewals, a.node, WorkerOf(s, a.node));
      WorkerCloses(s, a.node, a, key);
      HoldersAgree(s, a.node, key);
    } else {
      OthersClose(s, a);
    }
  }

  lemma OthersClose(s: State, a: Action)
    requires a.Request? || a.Resume? || ByOthers(a)
    ensures Apply(s, a).db.renewals == s.db.renewals
  {
  }

  /** The worker that holds a renewal is the one of the renewal's node. */
  lemma HoldersAgree(s: State, node: string, key: Key)
    requires WorkerOk(s.db.renewals, node, WorkerOf(s, node))
    ensures
      var w := WorkerOf(s, node);
      (w.Confirmed? || w.Refunding?) && w.p.key == key ==> node == key.node
  {
  }

  lemma AllOpen(opening: map<string, int>, s: State)
    requires Inv(opening, s)
    ensures forall k <- s.db.renewals :: s.db.renewals[k].status == Pending ==> Open(s.db, k)
  {
    forall k | k in s.db.renewals && s.db.renewals[k].status == Pending
      ensures Open(s.db, k)
    {
      assert RenewalOk(s.db.ledger, k, s.db.renewals[k]);
    }
  }

  lemma WorkerCloses(s: State, node: string, a: Action, key: Key)
    requires WorkerOk(s.db.renewals, node, WorkerOf(s, node)) && Open(s.db, key)
    requires forall k <- s.db.renewals :: s.db.renewals[k].status == Pending ==> Open(s.db, k)
    requires key in WorkerStep(s, node, a).db.renewals
    ensures
      var r := WorkerStep(s, node, a).db.renewals[key];
      var w := WorkerOf(s, node);
      && (r.status == Success ==> w.Confirmed? && w.p.key == key)
      && (r.detail.refunded ==> w.Refunding? && w.p.key == key)
  {
    var w := WorkerOf(s, node);
    match w
    case Idle => FirstStepCloses(s, node, a, key);
    case Requested(_, _) => FirstStepCloses(s, node, a, key);
    case Priced(_, _, _, _) => FirstStepCloses(s, node, a, key);
    case _ => OpenStepCloses(s, node, a, key);
  }

  /** A debit closes no renewal that is there already. */
  lemma FirstStepCloses(s: State, node: string, a: Action, key: Key)
    requires WorkerOf(s, node).Idle? || WorkerOf(s, node).Requested? || WorkerOf(s, node).Priced?
    requires WorkerOk(s.db.renewals, node, WorkerOf(s, node)) && Open(s.db, key)
    ensures Open(WorkerStep(s, node, a).db, key)
  {
  }

  lemma OpenStepCloses(s: State, node: string, a: Action, key: Key)
    requires !WorkerOf(s, node).Idle? && !WorkerOf(s, node).Requested? && !WorkerOf(s, node).Priced?
    requires WorkerOk(s.db.renewals, node, WorkerOf(s, node)) && Open(s.db, key)
    requires forall k <- s.db.renewals :: s.db.renewals[k].status == Pending ==> Open(s.db, k)
    requires key in WorkerStep(s, node, a).db.renewals
    ensures
      var r := WorkerStep(s, node, a).db.renewals[key];
      var w := WorkerOf(s, node);
      && (r.status == Success ==> w.Confirmed? && w.p.key == key)
      && (r.detail.refunded ==> w.Refunding? && w.p.key == key)
  {
    match WorkerOf(s, node)
    case Confirmed(p) => if a.Finalize? { FinalizeCloses(s, node, p, a.reply, a.verified, key); }
    case Refunding(p) => if a.RefundStep? { RefundCloses(s, node, p, a.reply, a.fallback, key); }
    case Reconciling(p) => if a.Reconcile? { ReconcileCloses(s, node, p, a.reply, key); }
    case _ => PanelStepStaysOpen(s, node, a, key);
  }

  lemma FinalizeCloses(s: State, node: string, p: Local, reply: Reply, verified: bool, key: Key)
    requires Holds(s.db.renewals, node, p) && Open(s.db, key) && Open(s.db, p.key)
    ensures
      var after := DoFinalize(s, node, p, reply, verified).db;
      key in after.renewals && !after.renewals[key].detail.refunded && (key == p.key || Open(after, key))
  {
  }

  lemma RefundCloses(s: State, node: string, p: Local, reply: Reply, fallback: Reply, key: Key)
    requires Holds(s.db.renewals, node, p) && Open(s.db, key) && Open(s.db, p.key)
    ensures
      var after := DoRefund(s, node, p, reply, fallback).db;
      key in after.renewals && after.renewals[key].status != Success && (key == p.key || Open(after, key))
  {
    ReconcileCloses(s, node, p, fallback, key);
  }

  lemma ReconcileCloses(s: State, node: string, p: Local, reply: Reply, key: Key)
    requires Holds(s.db.renewals, node, p) && Open(s.db, key) && Open(s.db, p.key)
    ensures
      var after := DoReconcile(s, node, p, reply).db;
      && key in after.renewals && after.renewals[key].status != Success && !after.renewals[key].detail.refunded
      && (key == p.key || Open(after, key))
  {
  }

  /** Steps that only talk to the panel or mark the write close nothing. */
  lemma PanelStepStaysOpen(s: State, node: string, a: Action, key: Key)
    requires WorkerOk(s.db.renewals, node, WorkerOf(s, node)) && Open(s.db, key)
    requires forall k <- s.db.renewals :: s.db.renewals[k].status == Pending ==> Open(s.db, k)
    requires
      var w := WorkerOf(s, node);
      w.Started? || w.WriteAllowed? || w.Marked? || w.Unsure? || w.LocalFailed? || w.RolledBack?
    ensures Open(WorkerStep(s, node, a).db, key)
  {
    match WorkerOf(s, node)
    case Started(p) => if a.ReadState? { ReadsStayOpen(s, node, p, a.ok, a.noted, key); }
    case WriteAllowed(p) => if a.MarkStarted? { WritesStayOpen(s, node, p, a.reply, key); }
    case Marked(p) => if a.WriteTarget? { WritesStayOpen(s, node, p, a.reply, key); }
    case Unsure(p) => if a.ReadUnsure? { ReadsStayOpen(s, node, p, a.ok, a.noted, key); }
    case LocalFailed(p) => if a.WriteSnapshot? { WritesStayOpen(s, node, p, a.reply, key); }
    case RolledBack(p) => if a.ReadRollback? { ReadsStayOpen(s, node, p, a.ok, false, key); }
  }

  ghost predicate Open(db: Db, key: Key) {
    key in db.renewals && db.renewals[key].status == Pending && !db.renewals[key].detail.refunded
  }

  lemma ReadsStayOpen(s: State, node: string, p: Local, ok: bool, noted: bool, key: Key)
    requires Holds(s.db.renewals, node, p) && Open(s.db, key) && Open(s.db, p.key)
    ensures Open(DoReadState(s, node, p, ok, noted).db, key)
    ensures Open(DoReadUnsure(s, node, p, ok, noted).db, key)
    ensures Open(DoReadRollback(s, node, p, ok).db, key)
  {
  }

  lemma WritesStayOpen(s: State, node: string, p: Local, reply: Reply, key: Key)
    requires Holds(s.db.renewals, node, p) && Open(s.db, key) && Open(s.db, p.key)
    ensures Open(DoMarkStarted(s, node, p, reply).db, key)
    ensures Open(DoWriteTarget(s, node, p, reply).db, key)
    ensures Open(DoWriteSnapshot(s, node, p, reply).db, key)
  {
  }
}
