/** Renewals as a state machine: one worker per customer node (the node lock), the
    local rows, and one remote client per node. Every step is one await of the
    service; between steps anything else may happen. */
module RenewalSaga {
  import opened Options
  import opened Calendar
  import opened RenewalRows

  /** What a worker holds in memory: its renewal, its copy of the durable detail,
      and the enable flag it wants on the panel. */
  datatype Local = Local(key: Key, detail: Detail, enable: bool)

  /** Where the worker of a node stands. */
  datatype Worker =
    | Idle
    | Requested(request: Key, months: nat)                                    // about to read the snapshot
    | Priced(request: Key, months: nat, snapshot: Remote, now: int)           // about to debit
    | Started(p: Local)                                                       // about to read the remote state
    | WriteAllowed(p: Local)                                                  // about to mark the write as started
    | Marked(p: Local)                                                        // about to write the target
    | Unsure(p: Local)                                                        // the write threw; about to read back
    | Confirmed(p: Local)                                                     // about to commit locally
    | LocalFailed(p: Local)                                                   // the commit failed; about to undo the write
    | RolledBack(p: Local)                                                    // about to read the undone state back
    | Refunding(p: Local)
    | Reconciling(p: Local)

  datatype State = State(db: Db, remote: map<string, Remote>, workers: map<string, Worker>, sui: set<string>, offset: int)

  /** How a call ended: it took effect and said so, took effect and the answer was
      lost, or did not take effect. */
  datatype Reply = Applied | Lost | NotApplied

  datatype Action =
    | Request(key: Key, months: nat)
    | Resume(key: Key, months: nat)
    | ReadBefore(node: string, ok: bool, now: int)
    | DebitStep(node: string, reply: Reply)
    | ReadState(node: string, ok: bool, noted: bool)
    | MarkStarted(node: string, reply: Reply)
    | WriteTarget(node: string, reply: Reply)
    | ReadUnsure(node: string, ok: bool, noted: bool)
    | Finalize(node: string, reply: Reply, verified: bool)
    | WriteSnapshot(node: string, reply: Reply)
    | ReadRollback(node: string, ok: bool)
    | RefundStep(node: string, reply: Reply, fallback: Reply)
    | Reconcile(node: string, reply: Reply)
    | Crash(node: string)
    // everybody else
    | EditRemote(node: string, state: Remote)
    | EditNode(node: string, row: Option<Node>)
    | SetActive(customer: string, active: bool)
    | MoveMoney(customer: string, amount: int)
    | ClearHistory(rows: set<nat>)

  function WorkerOf(s: State, node: string): Worker {
    if node in s.workers then s.workers[node] else Idle
  }

  function Goto(s: State, node: string, w: Worker): State {
    s.(workers := s.workers[node := w])
  }

  /** An expiry as the panel of the node keeps it. */
  function Kept(s: State, node: string, expiry: int): int {
    if node in s.sui then WholeSeconds(expiry) else expiry
  }

  function TargetState(s: State, p: Local): Remote
    requires p.key in s.db.renewals
  {
    Remote(Kept(s, p.key.node, s.db.renewals[p.key].target), p.enable)
  }

  function SnapshotState(s: State, p: Local): Remote
    requires p.key in s.db.renewals
  {
    var snapshot := s.db.renewals[p.key].snapshot;
    Remote(if snapshot.expiry > 0 then Kept(s, p.key.node, snapshot.expiry) else 0, snapshot.enable)
  }

  function Observed(s: State, key: Key, e: Event): State
    requires key in s.db.renewals
  {
    s.(db := Observe(s.db, key, e))
  }

  predicate Complete(db: Db, key: Key) {
    key in db.renewals && key.node in db.nodes && db.renewals[key].debitRow in db.stored
  }

  // ---- the worker's steps ----

  function DoResume(s: State, key: Key, months: nat): State {
    if key !in s.db.renewals || s.db.renewals[key].months != months || s.db.renewals[key].status != Pending
       || !Complete(s.db, key) then s
    else
      var r := s.db.renewals[key];
      Goto(s, key.node, Started(Local(key, r.detail, TargetEnable(s.db.nodes[key.node], r.snapshot.enable))))
  }

  function DoRequest(s: State, key: Key, months: nat): State {
    if key in s.db.renewals then DoResume(s, key, months)
    else if months == 0 || PendingOn(s.db, key.node) || !RenewalAllowed(s.db, key) then s
    else Goto(s, key.node, Requested(key, months))
  }

  function DoReadBefore(s: State, node: string, w: Worker, ok: bool, now: int): State
    requires w.Requested?
  {
    if !ok || node !in s.remote || now < 0 then Goto(s, node, Idle)
    else Goto(s, node, Priced(w.request, w.months, s.remote[node], now))
  }

  function DoDebit(s: State, node: string, w: Worker, reply: Reply): State
    requires w.Priced?
  {
    var tx := DebitTx(s.db, w.request, w.months, w.snapshot, w.now, s.offset);
    if tx.None? || reply.NotApplied? then Goto(s, node, Idle)
    else if reply.Lost? then Goto(s.(db := tx.value), node, Idle)
    else
      var enable := TargetEnable(tx.value.nodes[w.request.node], w.snapshot.enable);
      Goto(s.(db := tx.value), node, Started(Local(w.request, Detail(false, false, false), enable)))
  }

  function DoReadState(s: State, node: string, p: Local, ok: bool, noted: bool): State
    requires p.key in s.db.renewals
  {
    if !ok || node !in s.remote then
      Goto(if noted then s.(db := NoteTx(s.db, p.key, p.detail)) else s, node, Idle)
    else
      var state, r := s.remote[node], s.db.renewals[p.key];
      var seen := Observed(s, p.key, Saw(state, p.enable));
      if RemoteMatches(state, r.target, p.enable) then Goto(seen, node, Confirmed(p))
      else if RemoteMatchesSnapshot(state, r.snapshot) then Goto(seen, node, WriteAllowed(p))
      else if !p.detail.writeStarted then Goto(seen, node, Refunding(p))
      else Goto(seen, node, Reconciling(p))
  }

  function DoMarkStarted(s: State, node: string, p: Local, reply: Reply): State
    requires p.key in s.db.renewals
  {
    var tx := MarkStartedTx(s.db, p.key, p.detail);
    if tx.None? || reply.NotApplied? then Goto(s, node, Idle)
    else if reply.Lost? then Goto(s.(db := tx.value), node, Idle)
    else Goto(s.(db := tx.value), node, Marked(p.(detail := p.detail.(writeStarted := true))))
  }

  function DoWriteTarget(s: State, node: string, p: Local, reply: Reply): State
    requires p.key in s.db.renewals
  {
    var state := TargetState(s, p);
    if node !in s.remote || reply.NotApplied? then
      Goto(Observed(s, p.key, Sent(state, false)), node, Unsure(p))
    else if reply.Lost? then
      Goto(Observed(s.(remote := s.remote[node := state]), p.key, Sent(state, false)), node, Unsure(p))
    else
      Goto(Observed(s.(remote := s.remote[node := state]), p.key, Sent(state, true)), node, Confirmed(p))
  }

  function DoReadUnsure(s: State, node: string, p: Local, ok: bool, noted: bool): State
    requires p.key in s.db.renewals
  {
    if !ok || node !in s.remote then
      Goto(if noted then s.(db := NoteTx(s.db, p.key, p.detail)) else s, node, Idle)
    else
      var state, r := s.remote[node], s.db.renewals[p.key];
      var seen := Observed(s, p.key, Saw(state, p.enable));
      if RemoteMatches(state, r.target, p.enable) then Goto(seen, node, Confirmed(p))
      else if RemoteMatchesSnapshot(state, r.snapshot) then Goto(seen, node, Refunding(p))
      else Goto(seen, node, Reconciling(p))
  }

  function DoFinalize(s: State, node: string, p: Local, reply: Reply, verified: bool): State
    requires p.key in s.db.renewals
  {
    var tx := FinalizeTx(s.db, p.key);
    if s.db.renewals[p.key].status != Pending then Goto(s, node, Idle)
    else if tx.None? || reply.NotApplied? then Goto(s, node, if verified then LocalFailed(p) else Idle)
    else Goto(s.(db := tx.value), node, Idle)
  }

  function DoWriteSnapshot(s: State, node: string, p: Local, reply: Reply): State
    requires p.key in s.db.renewals
  {
    var state := SnapshotState(s, p);
    var written := if node in s.remote && !reply.NotApplied? then s.(remote := s.remote[node := state]) else s;
    Goto(Observed(written, p.key, Undone(state, reply.Applied? && node in s.remote)), node, RolledBack(p))
  }

  function DoReadRollback(s: State, node: string, p: Local, ok: bool): State
    requires p.key in s.db.renewals
  {
    if !ok || node !in s.remote then Goto(s, node, Reconciling(p))
    else
      var state := s.remote[node];
      var seen := Observed(s, p.key, Saw(state, p.enable));
      if RemoteMatchesSnapshot(state, s.db.renewals[p.key].snapshot) then Goto(seen, node, Refunding(p))
      else Goto(seen, node, Reconciling(p))
  }

  function DoReconcile(s: State, node: string, p: Local, reply: Reply): State
    requires p.key in s.db.renewals
  {
    var tx := ReconcileTx(s.db, p.key, p.detail);
    if tx.None? || reply.NotApplied? then Goto(s, node, Idle) else Goto(s.(db := tx.value), node, Idle)
  }

  function DoRefund(s: State, node: string, p: Local, reply: Reply, fallback: Reply): State
    requires p.key in s.db.renewals
  {
    var tx := RefundTx(s.db, p.key, p.detail);
    if tx.None? || reply.NotApplied? then DoReconcile(s, node, p, fallback)
    else Goto(s.(db := tx.value), node, Idle)
  }

  /** The worker of a node takes a step it is ready for; anything else is refused. */
  function WorkerStep(s: State, node: string, a: Action): State {
    var w := WorkerOf(s, node);
    if !w.Idle? && !w.Requested? && !w.Priced? && w.p.key !in s.db.renewals then s
    else match (a, w)
      case (ReadBefore(_, ok, now), Requested(_, _)) => DoReadBefore(s, node, w, ok, now)
      case (DebitStep(_, reply), Priced(_, _, _, _)) => DoDebit(s, node, w, reply)
      case (ReadState(_, ok, noted), Started(p)) => DoReadState(s, node, p, ok, noted)
      case (MarkStarted(_, reply), WriteAllowed(p)) => DoMarkStarted(s, node, p, reply)
      case (WriteTarget(_, reply), Marked(p)) => DoWriteTarget(s, node, p, reply)
      case (ReadUnsure(_, ok, noted), Unsure(p)) => DoReadUnsure(s, node, p, ok, noted)
      case (Finalize(_, reply, verified), Confirmed(p)) => DoFinalize(s, node, p, reply, verified)
      case (WriteSnapshot(_, reply), LocalFailed(p)) => DoWriteSnapshot(s, node, p, reply)
      case (ReadRollback(_, ok), RolledBack(p)) => DoReadRollback(s, node, p, ok)
      case (RefundStep(_, reply, fallback), Refunding(p)) => DoRefund(s, node, p, reply, fallback)
      case (Reconcile(_, reply), Reconciling(p)) => DoReconcile(s, node, p, reply)
      case (Crash(_), _) => Goto(s, node, Idle)
      case _ => s
  }

  /** What everybody else does: panel edits, other jobs on the node row, account
      changes, other balance operations, clearing of history. */
  function OtherStep(s: State, a: Action): State {
    match a
    case EditRemote(node, state) =>
      if state.expiry >= 0 then s.(remote := s.remote[node := state]) else s
    case EditNode(node, row) =>
      s.(db := s.db.(nodes := if row.Some? then s.db.nodes[node := row.value] else s.db.nodes - {node}))
    case SetActive(customer, active) =>
      if customer in s.db.customers
      then s.(db := s.db.(customers := s.db.customers[customer := s.db.customers[customer].(active := active)])) else s
    case MoveMoney(customer, amount) =>
      if customer in s.db.customers && s.db.customers[customer].balance + amount >= 0
      then s.(db := Post(s.db, customer, ByAdmin, amount)) else s
    case ClearHistory(rows) =>
      s.(db := s.db.(stored := s.db.stored - rows))
    case _ => s
  }

  predicate ByOthers(a: Action) {
    a.EditRemote? || a.EditNode? || a.SetActive? || a.MoveMoney? || a.ClearHistory?
  }

  function Apply(s: State, a: Action): State {
    if a.Request? then if WorkerOf(s, a.key.node).Idle? then DoRequest(s, a.key, a.months) else s
    else if a.Resume? then if WorkerOf(s, a.key.node).Idle? then DoResume(s, a.key, a.months) else s
    else if ByOthers(a) then OtherStep(s, a)
    else WorkerStep(s, a.node, a)
  }

  /** A step of the worker of a node, or an attempt to start one. */
  predicate Own(node: string, a: Action) {
    if a.Request? || a.Resume? then a.key.node == node else !ByOthers(a) && a.node == node
  }

  lemma SameConstants(s: State, a: Action)
    ensures Apply(s, a).sui == s.sui && Apply(s, a).offset == s.offset
  {
  }

  lemma NotOwn(s: State, node: string, a: Action)
    requires !Own(node, a)
    ensures WorkerOf(Apply(s, a), node) == WorkerOf(s, node)
  {
    if !a.Request? && !a.Resume? && !ByOthers(a) {
      WorkerStepElsewhere(s, a.node, node, a);
    }
  }

  lemma WorkerStepElsewhere(s: State, node: string, other: string, a: Action)
    requires node != other
    ensures WorkerOf(WorkerStep(s, node, a), other) == WorkerOf(s, other)
  {
  }

  // ---- which step an action is ----

  lemma ReconcileIs(s: State, node: string, p: Local, reply: Reply)
    requires WorkerOf(s, node) == Reconciling(p) && p.key in s.db.renewals
    ensures Apply(s, Reconcile(node, reply)) == DoReconcile(s, node, p, reply)
  {
  }

  lemma RefundStepIs(s: State, node: string, p: Local, reply: Reply, fallback: Reply)
    requires WorkerOf(s, node) == Refunding(p) && p.key in s.db.renewals
    ensures Apply(s, RefundStep(node, reply, fallback)) == DoRefund(s, node, p, reply, fallback)
  {
  }

  lemma FinalizeIs(s: State, node: string, p: Local, reply: Reply, verified: bool)
    requires WorkerOf(s, node) == Confirmed(p) && p.key in s.db.renewals
    ensures Apply(s, Finalize(node, reply, verified)) == DoFinalize(s, node, p, reply, verified)
  {
  }

  lemma WriteSnapshotIs(s: State, node: string, p: Local, reply: Reply)
    requires WorkerOf(s, node) == LocalFailed(p) && p.key in s.db.renewals
    ensures Apply(s, WriteSnapshot(node, reply)) == DoWriteSnapshot(s, node, p, reply)
  {
  }

  lemma ReadRollbackIs(s: State, node: string, p: Local, ok: bool)
    requires WorkerOf(s, node) == RolledBack(p) && p.key in s.db.renewals
    ensures Apply(s, ReadRollback(node, ok)) == DoReadRollback(s, node, p, ok)
  {
  }

  lemma ReadStateIs(s: State, node: string, p: Local, ok: bool, noted: bool)
    requires WorkerOf(s, node) == Started(p) && p.key in s.db.renewals
    ensures Apply(s, ReadState(node, ok, noted)) == DoReadState(s, node, p, ok, noted)
  {
  }

  lemma MarkStartedIs(s: State, node: string, p: Local, reply: Reply)
    requires WorkerOf(s, node) == WriteAllowed(p) && p.key in s.db.renewals
    ensures Apply(s, MarkStarted(node, reply)) == DoMarkStarted(s, node, p, reply)
  {
  }

  lemma WriteTargetIs(s: State, node: string, p: Local, reply: Reply)
    requires WorkerOf(s, node) == Marked(p) && p.key in s.db.renewals
    ensures Apply(s, WriteTarget(node, reply)) == DoWriteTarget(s, node, p, reply)
  {
  }

  lemma ReadUnsureIs(s: State, node: string, p: Local, ok: bool, noted: bool)
    requires WorkerOf(s, node) == Unsure(p) && p.key in s.db.renewals
    ensures Apply(s, ReadUnsure(node, ok, noted)) == DoReadUnsure(s, node, p, ok, noted)
  {
  }

  lemma DebitIs(s: State, node: string, w: Worker, reply: Reply)
    requires WorkerOf(s, node) == w && w.Priced?
    ensures Apply(s, DebitStep(node, reply)) == DoDebit(s, node, w, reply)
  {
  }

  function Run(s: State, actions: seq<Action>): State {
    if actions == [] then s else Apply(Run(s, actions[..|actions| - 1]), actions[|actions| - 1])
  }

  lemma RunStep(start: State, actions: seq<Action>, a: Action)
    ensures Run(start, actions + [a]) == Apply(Run(start, actions), a)
  {
    assert (actions + [a])[..|actions|] == actions;
  }
}
