/** The renewal service over mutable rows: each method works through its awaits, at
    each of which everybody else may act, and stays a run of the state machine. */
module FinanceService {
  import opened Options
  import opened Calendar
  import opened RenewalRows
  import opened RenewalSaga
  import opened RenewalSafety
  import Effects = RenewalEffects

  /** How a call ends for its caller. */
  datatype Outcome =
    | Completed        // the renewal is done
    | Refused          // a check failed before anything was charged
    | Refunded         // not renewed, and the charge was returned
    | Unresolved       // not renewed as far as is known; recovery or a person goes on
    | Thrown           // a database or panel call failed; the rows tell what happened

  /** A call of a renewal that failed or whose answer was lost. */
  predicate FailedCall(a: Action) {
    || ((a.ReadBefore? || a.ReadState? || a.ReadUnsure? || a.ReadRollback?) && !a.ok)
    || ((a.DebitStep? || a.MarkStarted? || a.WriteTarget? || a.Finalize? || a.WriteSnapshot? || a.RefundStep? || a.Reconcile?)
        && !a.reply.Applied?)
  }

  /** A pending renewal with complete records and a free lock. */
  predicate Resumable(s: State, key: Key) {
    Complete(s.db, key) && s.db.renewals[key].status == Pending && WorkerOf(s, key.node).Idle?
  }

  /** At some point of the steps the renewal was resumed, or could not be. */
  ghost predicate Attended(start: State, steps: seq<Action>, key: Key, from: nat) {
    exists at: nat :: from <= at <= |steps| && Attends(start, steps, key, at)
  }

  ghost predicate Attends(start: State, steps: seq<Action>, key: Key, at: nat)
    requires at <= |steps|
  {
    var s := Run(start, steps[..at]);
    Resumable(s, key) ==> at < |steps| && steps[at] == Resume(key, s.db.renewals[key].months)
  }

  lemma AttendedStays(start: State, steps: seq<Action>, more: seq<Action>, key: Key, from: nat)
    requires steps <= more && Attended(start, steps, key, from)
    ensures Attended(start, more, key, from)
  {
    var at: nat :| from <= at <= |steps| && Attends(start, steps, key, at);
    assert more[..at] == steps[..at];
    assert Attends(start, more, key, at);
  }

  class FinanceService {
    var db: Db
    var remote: map<string, Remote>
    var workers: map<string, Worker>
    const sui: set<string>
    const offset: int
    var renewalRecoveryRunning: bool
    ghost const opening: map<string, int>
    ghost const start: State
    ghost var run: seq<Action>

    ghost function Abs(): State
      reads this
    {
      State(db, remote, workers, sui, offset)
    }

    ghost predicate Valid()
      reads this
    {
      Init(opening, start) && Abs() == Run(start, run)
    }

    constructor (customers: map<string, Customer>, nodes: map<string, Node>, remote: map<string, Remote>,
                 sui: set<string>, offset: int)
      requires forall c <- customers :: customers[c].balance >= 0
      requires RemotesOk(remote)
      ensures Valid() && run == [] && !renewalRecoveryRunning && db == Db(customers, nodes, map[], [], {}) && this.remote == remote
    {
      this.db := Db(customers, nodes, map[], [], {});
      this.remote := remote;
      this.workers := map[];
      this.renewalRecoveryRunning := false;
      this.sui := sui;
      this.offset := offset;
      this.opening := map c | c in customers :: customers[c].balance;
      this.start := State(Db(customers, nodes, map[], [], {}), remote, map[], sui, offset);
      this.run := [];
    }

    /** Writes a step of the worker into its program counter and the run. */
    method Record(node: string, w: Worker, ghost before: State, ghost a: Action)
      requires Init(opening, start) && before == Run(start, run)
      requires Apply(before, a) == State(db, remote, workers[node := w], sui, offset)
      modifies `workers, `run
      ensures Valid() && run == old(run) + [a] && workers == old(workers)[node := w]
    {
      RunStep(start, run, a);
      workers := workers[node := w];
      run := run + [a];
    }

    /** Somebody other than the worker of a node takes a step. */
    method Interfere(node: string, a: Action)
      requires Valid() && !Own(node, a)
      modifies `db, `remote, `workers, `run
      ensures Valid() && run == old(run) + [a]
      ensures WorkerOf(Abs(), node) == old(WorkerOf(Abs(), node))
    {
      NotOwn(Abs(), node, a);
      RunStep(start, run, a);
      var next := Apply(State(db, remote, workers, sui, offset), a);
      SameConstants(Abs(), a);
      db, remote, workers := next.db, next.remote, next.workers;
      run := run + [a];
    }

    /** An await of the worker of a node: anything others do may come in between. */
    method Await(node: string)
      requires Valid()
      modifies `db, `remote, `workers, `run
      ensures Valid() && old(run) <= run
      ensures WorkerOf(Abs(), node) == old(WorkerOf(Abs(), node))
      ensures Inv(opening, Abs())
    {
      var others: seq<Action> := *;
      for i := 0 to |others|
        invariant Valid() && old(run) <= run
        invariant WorkerOf(Abs(), node) == old(WorkerOf(Abs(), node))
      {
        if !Own(node, others[i]) {
          Interfere(node, others[i]);
        }
      }
      EveryRunKeepsInv(opening, start, run);
    }

    // ---- single transactions and panel calls ----

    /** A transaction ends: its rows are kept unless it did not commit, and the
        caller hears of success only when the answer arrives. */
    method Commit(tx: Option<Db>) returns (reply: Reply)
      modifies `db
      ensures tx.None? ==> reply == NotApplied
      ensures db == if reply.NotApplied? then old(db) else tx.value
    {
      reply := *;
      if tx.None? {
        reply := NotApplied;
      }
      if !reply.NotApplied? {
        db := tx.value;
      }
    }

    method AfterExpireAt(now: int, expireAt: Option<int>, snapshot: Remote, months: nat) returns (target: int)
      ensures target == RenewalTarget(now, expireAt, snapshot, months, offset)
    {
      var base := LatestDate(now, [expireAt, if snapshot.expiry > 0 then Some(snapshot.expiry) else None]);
      target := AddMonths(base, months, offset);
    }

    method DebitTransaction(key: Key, months: nat, snapshot: Remote, now: int) returns (tx: Option<Db>)
      ensures tx == DebitTx(db, key, months, snapshot, now, offset)
      ensures tx.Some? <==> Effects.Chargeable(db, key, months)
      ensures tx.Some? ==> Effects.Charged(db, tx.value, key, months, snapshot, now, offset)
    {
      Effects.DebitTxCharges(db, key, months, snapshot, now, offset);
      if !RenewalAllowed(db, key) || key in db.renewals {
        return None;
      }
      var node := db.nodes[key.node];
      var amount := node.price * months;
      var before := db.customers[key.customer].balance;
      if before < amount {
        return None;
      }
      var afterExpireAt := AfterExpireAt(now, node.expireAt, snapshot, months);
      var after := before - amount;
      var customers := db.customers[key.customer := db.customers[key.customer].(balance := after)];
      var row := |db.ledger|;
      var renewal := Renewal(months, amount, Pending, afterExpireAt, snapshot, row, Detail(false, false, false), []);
      assert renewal == NewRenewal(node, row, months, snapshot, now, offset);
      var entry := Entry(key.customer, DebitOf(key), -amount, after + amount, after);
      tx := Some(Db(customers, db.nodes, db.renewals[key := renewal], db.ledger + [entry], db.stored + {row}));
    }

    method FinalizeTransaction(key: Key) returns (tx: Option<Db>)
      requires key in db.renewals
      ensures tx == FinalizeTx(db, key)
      ensures tx.Some? ==> Effects.Renewed(db, tx.value, key)
    {
      Effects.FinalizeTxRenews(db, key);
      var latest := db.renewals[key];
      if latest.status != Pending || key.node !in db.nodes {
        return None;
      }
      var rows := db;
      var node := rows.nodes[key.node];
      rows := rows.(nodes := rows.nodes[key.node := node.(expireAt := Some(latest.target), active := true, reason := NoReason)]);
      rows := rows.(renewals := rows.renewals[key := latest.(status := Success)]);
      if latest.debitRow !in rows.stored {
        return None;
      }
      tx := Some(rows);
    }

    method RefundTransaction(key: Key, detail: Detail) returns (tx: Option<Db>)
      requires key in db.renewals
      ensures tx == RefundTx(db, key, detail)
      ensures tx.Some? && db.renewals[key].status == Pending && db.renewals[key].detail == detail ==>
                Effects.PaidBack(db, tx.value, key)
    {
      Effects.RefundTxPaysBack(db, key, detail);
      var rows := db;
      var renewal := rows.renewals[key];
      if renewal.status != Pending {
        return Some(rows);
      }
      rows := rows.(renewals := rows.renewals[key := renewal.(status := Failed, detail := detail.(refunded := true))]);
      if key.customer !in rows.customers {
        return None;
      }
      var before := rows.customers[key.customer].balance;
      var after := before + renewal.amount;
      rows := rows.(customers := rows.customers[key.customer := rows.customers[key.customer].(balance := after)]);
      if renewal.debitRow !in rows.stored {
        return None;
      }
      var entry := Entry(key.customer, RefundOf(key), renewal.amount, before, after);
      rows := rows.(stored := rows.stored + {|rows.ledger|}, ledger := rows.ledger + [entry]);
      tx := Some(rows);
    }

    method ReconcileTransaction(key: Key, detail: Detail) returns (tx: Option<Db>)
      requires key in db.renewals
      ensures tx == ReconcileTx(db, key, detail)
      ensures tx.Some? && db.renewals[key].status == Pending && db.renewals[key].detail == detail ==>
                Effects.SetAside(db, tx.value, key)
    {
      Effects.ReconcileTxSetsAside(db, key, detail);
      var rows := db;
      var renewal := rows.renewals[key];
      if renewal.status != Pending {
        return Some(rows);
      }
      rows := rows.(renewals := rows.renewals[key := renewal.(status := Failed, detail := detail.(reconciliation := true))]);
      if renewal.debitRow !in rows.stored {
        return None;
      }
      tx := Some(rows);
    }

    /** Reads the client of a node; the call may fail. */
    method CustomerNodeRemoteState(node: string) returns (state: Option<Remote>)
      ensures state.Some? ==> node in remote && state.value == remote[node]
    {
      var ok: bool := *;
      state := if ok && node in remote then Some(remote[node]) else None;
    }

    /** Writes the client of a node. When the call throws, the write may still have
        been applied. */
    method UpdateCustomerNodeExpiry(node: string, expiry: int, enable: bool) returns (reply: Reply)
      modifies `remote
      ensures node !in old(remote) ==> reply == NotApplied
      ensures reply.NotApplied? ==> remote == old(remote)
      ensures !reply.NotApplied? ==>
                remote == old(remote)[node := Remote(if node in sui then WholeSeconds(expiry) else expiry, enable)]
    {
      reply := *;
      if node !in remote {
        reply := NotApplied;
      }
      if !reply.NotApplied? {
        var kept := if node in sui then expiry / 1000 * 1000 else expiry;
        remote := remote[node := Remote(kept, enable)];
      }
    }

    // ---- the awaits of a renewal ----

    /** What a caller may rely on when a call ends. */
    ghost predicate Ends(outcome: Outcome, key: Key, months: nat)
      reads this
    {
      match outcome
      case Completed => key in db.renewals && db.renewals[key].status == Success
      case Refused => key in db.renewals ==> db.renewals[key].status == Failed || db.renewals[key].months != months
      case Refunded => key in db.renewals && db.renewals[key].detail.refunded
      case Unresolved => key in db.renewals && db.renewals[key].status != Success
      case Thrown => true
    }

    /** A call of the node's worker has failed since the run had `from` steps. */
    ghost predicate FailedSince(from: nat, node: string)
      reads this
    {
      exists i :: from <= i < |run| && Own(node, run[i]) && FailedCall(run[i])
    }

    ghost predicate LeftToPerson(key: Key)
      reads this
    {
      key in db.renewals && db.renewals[key].detail.reconciliation
    }

    ghost predicate Stands(w: Worker)
      reads this
    {
      Valid()
      && match w
         case Idle => true
         case Requested(key, _) => WorkerOf(Abs(), key.node) == w
         case Priced(key, _, _, _) => WorkerOf(Abs(), key.node) == w
         case _ => WorkerOf(Abs(), w.p.key.node) == w && Holds(db.renewals, w.p.key.node, w.p)
    }

    /** An await after which the worker still holds its renewal. */
    method AwaitAt(w: Worker)
      requires Stands(w) && !w.Idle? && !w.Requested? && !w.Priced?
      modifies `db, `remote, `workers, `run
      ensures Stands(w) && old(run) <= run
    {
      Await(w.p.key.node);
      assert WorkerOk(db.renewals, w.p.key.node, WorkerOf(Abs(), w.p.key.node));
    }

    /** Takes the step that leads from one point of a worker to the next. */
    method Goes(node: string, w: Worker, ghost before: State, ghost a: Action)
      requires Init(opening, start) && before == Run(start, run)
      requires Apply(before, a) == State(db, remote, workers[node := w], sui, offset)
      requires !w.Requested? && !w.Priced? && (!w.Idle? ==> w.p.key.node == node)
      modifies `workers, `run
      ensures Stands(w) && WorkerOf(Abs(), node) == w && run == old(run) + [a]
      ensures Own(node, a) && FailedCall(a) ==> FailedSince(old(|run|), node)
    {
      Record(node, w, before, a);
      assert run[old(|run|)] == a;
      EveryRunKeepsInv(opening, start, run);
      assert WorkerOk(db.renewals, node, WorkerOf(Abs(), node));
    }

    method MarkForReconciliation(p: Local)
      requires Stands(Reconciling(p))
      modifies `db, `remote, `workers, `run
      ensures Stands(Idle) && WorkerOf(Abs(), p.key.node).Idle? && old(run) <= run
      ensures Ends(Unresolved, p.key, 0)
      ensures FailedSince(old(|run|), p.key.node) || LeftToPerson(p.key)
    {
      AwaitAt(Reconciling(p));
      ghost var before := Abs();
      var tx := ReconcileTransaction(p.key, p.detail);
      var reply := Commit(tx);
      ReconcileIs(before, p.key.node, p, reply);
      Goes(p.key.node, Idle, before, Reconcile(p.key.node, reply));
    }

    method RefundOrMarkForReconciliation(p: Local) returns (refunded: bool)
      requires Stands(Refunding(p))
      modifies `db, `remote, `workers, `run
      ensures Stands(Idle) && WorkerOf(Abs(), p.key.node).Idle? && old(run) <= run
      ensures Ends(if refunded then Refunded else Unresolved, p.key, 0)
      ensures refunded || FailedSince(old(|run|), p.key.node)
    {
      AwaitAt(Refunding(p));
      ghost var before := Abs();
      var tx := RefundTransaction(p.key, p.detail);
      var reply := Commit(tx);
      var fallback := NotApplied;
      if reply.NotApplied? {
        tx := ReconcileTransaction(p.key, p.detail);
        fallback := Commit(tx);
      }
      refunded := reply.Applied?;
      RefundStepIs(before, p.key.node, p, reply, fallback);
      Goes(p.key.node, Idle, before, RefundStep(p.key.node, reply, fallback));
    }

    /** The local commit failed for good: puts the snapshot back on the panel. */
    method WriteSnapshotBack(p: Local)
      requires Stands(LocalFailed(p))
      modifies `db, `remote, `workers, `run
      ensures Stands(RolledBack(p)) && old(run) <= run
    {
      var node := p.key.node;
      AwaitAt(LocalFailed(p));
      ghost var before := Abs();
      var snapshot := db.renewals[p.key].snapshot;
      var expiry := if snapshot.expiry > 0 then snapshot.expiry else 0;
      var reply := UpdateCustomerNodeExpiry(node, expiry, snapshot.enable);
      var sent := Remote(if node in sui then WholeSeconds(expiry) else expiry, snapshot.enable);
      assert sent == SnapshotState(before, p);
      db := Observe(db, p.key, Undone(sent, reply.Applied?));
      WriteSnapshotIs(before, node, p, reply);
      Goes(node, RolledBack(p), before, WriteSnapshot(node, reply));
    }

    /** Reads the panel after the write back. */
    method ReadSnapshotBack(p: Local) returns (back: bool)
      requires Stands(RolledBack(p))
      modifies `db, `remote, `workers, `run
      ensures Stands(if back then Refunding(p) else Reconciling(p)) && old(run) <= run
    {
      var node := p.key.node;
      AwaitAt(RolledBack(p));
      ghost var before := Abs();
      var state := CustomerNodeRemoteState(node);
      ReadRollbackIs(before, node, p, state.Some?);
      back := state.Some? && RemoteMatchesSnapshot(state.value, db.renewals[p.key].snapshot);
      if state.Some? {
        db := Observe(db, p.key, Saw(state.value, p.enable));
      }
      Goes(node, if back then Refunding(p) else Reconciling(p), before, ReadRollback(node, state.Some?));
    }

    /** Refunds what may be refunded and leaves the rest to a person. */
    method Settle(p: Local, refundable: bool) returns (outcome: Outcome)
      requires Stands(if refundable then Refunding(p) else Reconciling(p))
      modifies `db, `remote, `workers, `run
      ensures Stands(Idle) && WorkerOf(Abs(), p.key.node).Idle? && old(run) <= run
      ensures Ends(outcome, p.key, 0) && (outcome == Refunded || outcome == Unresolved)
      ensures outcome == Refunded || FailedSince(old(|run|), p.key.node) || LeftToPerson(p.key)
      ensures refundable && outcome == Unresolved ==> FailedSince(old(|run|), p.key.node)
    {
      if refundable {
        var refunded := RefundOrMarkForReconciliation(p);
        outcome := if refunded then Refunded else Unresolved;
      } else {
        MarkForReconciliation(p);
        outcome := Unresolved;
      }
    }

    /** The local commit, and whether the read that checks it after a throw succeeded. */
    method CommitLocally(p: Local) returns (reply: Reply, verified: bool, open: bool)
      requires Stands(Confirmed(p))
      modifies `db, `remote, `workers, `run
      ensures Stands(if verified && open then LocalFailed(p) else Idle) && old(run) <= run
      ensures !(verified && open) ==> WorkerOf(Abs(), p.key.node).Idle?
      ensures p.key in db.renewals && (if open then db.renewals[p.key].status == Pending else db.renewals[p.key].status == Success)
      ensures reply.Applied? ==> verified && !open
      ensures !reply.Applied? ==> FailedSince(old(|run|), p.key.node)
    {
      var node := p.key.node;
      AwaitAt(Confirmed(p));
      ghost var before := Abs();
      var tx := FinalizeTransaction(p.key);
      reply := Commit(tx);
      verified := true;
      if !reply.Applied? {
        verified := *;
      }
      open := db.renewals[p.key].status == Pending;
      FinalizeIs(before, node, p, reply, verified);
      Goes(node, if verified && open then LocalFailed(p) else Idle, before, Finalize(node, reply, verified));
    }

    /** What became of the local commit: `None` means that it did not happen and the
        write has to be undone. */
    method CommitRenewal(p: Local) returns (ended: Option<Outcome>)
      requires Stands(Confirmed(p))
      modifies `db, `remote, `workers, `run
      ensures old(run) <= run
      ensures ended.None? ==> Stands(LocalFailed(p))
      ensures ended.Some? ==>
                Stands(Idle) && WorkerOf(Abs(), p.key.node).Idle? && Ends(ended.value, p.key, 0) && ended.value != Refused
      ensures ended == Some(Completed) || FailedSince(old(|run|), p.key.node)
    {
      var reply, verified, open := CommitLocally(p);
      ended := if !verified then Some(Thrown)
               else if open then None
               else if reply.Applied? || p.key.node in db.nodes then Some(Completed)
               else Some(Thrown);
    }

    method FinalizeRenewal(p: Local) returns (outcome: Outcome)
      requires Stands(Confirmed(p))
      modifies `db, `remote, `workers, `run
      ensures Stands(Idle) && WorkerOf(Abs(), p.key.node).Idle? && old(run) <= run
      ensures Ends(outcome, p.key, 0) && outcome != Refused
      ensures outcome == Completed || FailedSince(old(|run|), p.key.node)
    {
      var ended := CommitRenewal(p);
      if ended.Some? {
        return ended.value;
      }
      WriteSnapshotBack(p);
      var back := ReadSnapshotBack(p);
      outcome := Settle(p, back);
    }

    /** Makes the note that recovery must go on; the note itself may fail. */
    method NotePendingRecovery(p: Local) returns (noted: bool)
      requires p.key in db.renewals
      modifies `db
      ensures db == if noted then NoteTx(old(db), p.key, p.detail) else old(db)
    {
      noted := *;
      if noted && db.renewals[p.key].status == Pending {
        db := db.(renewals := db.renewals[p.key := db.renewals[p.key].(detail := p.detail)]);
      }
    }

    /** The first read of the panel decides where the renewal goes on. */
    method ReadBeforeWrite(p: Local) returns (w: Worker)
      requires Stands(Started(p))
      modifies `db, `remote, `workers, `run
      ensures Stands(w) && WorkerOf(Abs(), p.key.node) == w && old(run) <= run
      ensures w == Idle || w == Confirmed(p) || w == WriteAllowed(p) || w == Refunding(p) || w == Reconciling(p)
      ensures w.Idle? ==> Ends(Unresolved, p.key, 0) && FailedSince(old(|run|), p.key.node)
    {
      var node := p.key.node;
      AwaitAt(Started(p));
      ghost var before := Abs();
      var current := CustomerNodeRemoteState(node);
      if current.None? {
        var noted := NotePendingRecovery(p);
        ReadStateIs(before, node, p, false, noted);
        Goes(node, Idle, before, ReadState(node, false, noted));
        return Idle;
      }
      var r := db.renewals[p.key];
      db := Observe(db, p.key, Saw(current.value, p.enable));
      w := if RemoteMatches(current.value, r.target, p.enable) then Confirmed(p)
           else if RemoteMatchesSnapshot(current.value, r.snapshot) then WriteAllowed(p)
           else if !p.detail.writeStarted then Refunding(p)
           else Reconciling(p);
      ReadStateIs(before, node, p, true, true);
      Goes(node, w, before, ReadState(node, true, true));
    }

    /** Stores the flag before the write; without it nothing is written. */
    method MarkRemoteWriteStarted(p: Local) returns (marked: Option<Local>)
      requires Stands(WriteAllowed(p))
      modifies `db, `remote, `workers, `run
      ensures old(run) <= run
      ensures marked.Some? ==> marked.value == p.(detail := p.detail.(writeStarted := true)) && Stands(Marked(marked.value))
      ensures marked.None? ==> Stands(Idle) && WorkerOf(Abs(), p.key.node).Idle? && FailedSince(old(|run|), p.key.node)
    {
      var node := p.key.node;
      AwaitAt(WriteAllowed(p));
      ghost var before := Abs();
      var detail := p.detail.(writeStarted := true);
      var r := db.renewals[p.key];
      var tx := if r.status == Pending then Some(db.(renewals := db.renewals[p.key := r.(detail := detail)])) else None;
      var reply := Commit(tx);
      MarkStartedIs(before, node, p, reply);
      if !reply.Applied? {
        Goes(node, Idle, before, MarkStarted(node, reply));
        return None;
      }
      Goes(node, Marked(p.(detail := detail)), before, MarkStarted(node, reply));
      return Some(p.(detail := detail));
    }

    method WriteTargetExpiry(p: Local) returns (ok: bool)
      requires Stands(Marked(p))
      modifies `db, `remote, `workers, `run
      ensures Stands(if ok then Confirmed(p) else Unsure(p)) && old(run) <= run
      ensures ok || FailedSince(old(|run|), p.key.node)
    {
      var node := p.key.node;
      AwaitAt(Marked(p));
      ghost var before := Abs();
      var target := db.renewals[p.key].target;
      var reply := UpdateCustomerNodeExpiry(node, target, p.enable);
      var sent := Remote(if node in sui then WholeSeconds(target) else target, p.enable);
      assert sent == TargetState(before, p);
      ok := reply.Applied?;
      db := Observe(db, p.key, Sent(sent, ok));
      WriteTargetIs(before, node, p, reply);
      Goes(node, if ok then Confirmed(p) else Unsure(p), before, WriteTarget(node, reply));
    }

    /** The write threw: what the panel shows decides. */
    method ReadAfterFailure(p: Local) returns (w: Worker)
      requires Stands(Unsure(p))
      modifies `db, `remote, `workers, `run
      ensures Stands(w) && WorkerOf(Abs(), p.key.node) == w && old(run) <= run
      ensures w == Idle || w == Confirmed(p) || w == Refunding(p) || w == Reconciling(p)
      ensures w.Idle? ==> Ends(Unresolved, p.key, 0) && FailedSince(old(|run|), p.key.node)
    {
      var node := p.key.node;
      AwaitAt(Unsure(p));
      ghost var before := Abs();
      var state := CustomerNodeRemoteState(node);
      if state.None? {
        var noted := NotePendingRecovery(p);
        ReadUnsureIs(before, node, p, false, noted);
        Goes(node, Idle, before, ReadUnsure(node, false, noted));
        return Idle;
      }
      var r := db.renewals[p.key];
      db := Observe(db, p.key, Saw(state.value, p.enable));
      w := if RemoteMatches(state.value, r.target, p.enable) then Confirmed(p)
           else if RemoteMatchesSnapshot(state.value, r.snapshot) then Refunding(p)
           else Reconciling(p);
      ReadUnsureIs(before, node, p, true, true);
      Goes(node, w, before, ReadUnsure(node, true, true));
    }

    /** A renewal is given up only for a call that failed, or left to a person. */
    ghost predicate Excused(outcome: Outcome, key: Key, from: nat)
      reads this
    {
      match outcome
      case Thrown => FailedSince(from, key.node)
      case Unresolved => FailedSince(from, key.node) || LeftToPerson(key)
      case _ => true
    }

    method CompletePendingRenewal(p: Local) returns (outcome: Outcome)
      requires Stands(Started(p))
      modifies `db, `remote, `workers, `run
      ensures Stands(Idle) && WorkerOf(Abs(), p.key.node).Idle? && old(run) <= run
      ensures Ends(outcome, p.key, 0) && outcome != Refused
      ensures Excused(outcome, p.key, old(|run|))
    {
      var w := ReadBeforeWrite(p);
      match w {
        case Idle =>
          return Unresolved;
        case Confirmed(_) =>
          outcome := FinalizeRenewal(p);
          return;
        case Refunding(_) =>
          outcome := Settle(p, true);
          return;
        case Reconciling(_) =>
          outcome := Settle(p, false);
          return;
        case WriteAllowed(_) =>
      }
      var marked := MarkRemoteWriteStarted(p);
      if marked.None? {
        return Thrown;
      }
      outcome := WriteAndConfirm(marked.value);
    }

    method WriteAndConfirm(p: Local) returns (outcome: Outcome)
      requires Stands(Marked(p))
      modifies `db, `remote, `workers, `run
      ensures Stands(Idle) && WorkerOf(Abs(), p.key.node).Idle? && old(run) <= run
      ensures Ends(outcome, p.key, 0) && outcome != Refused
      ensures outcome == Completed || FailedSince(old(|run|), p.key.node)
    {
      var ok := WriteTargetExpiry(p);
      if ok {
        outcome := FinalizeRenewal(p);
        return;
      }
      var w := ReadAfterFailure(p);
      if w.Idle? {
        outcome := Unresolved;
      } else if w.Confirmed? {
        outcome := FinalizeRenewal(p);
      } else {
        outcome := Settle(p, w.Refunding?);
      }
    }

    // ---- the entry points ----

    /** Goes on with a renewal that is already in the rows. */
    method ResumeExistingRenewal(key: Key, months: nat) returns (outcome: Outcome)
      requires Valid() && WorkerOf(Abs(), key.node).Idle? && key in db.renewals
      modifies `db, `remote, `workers, `run
      ensures Valid() && WorkerOf(Abs(), key.node).Idle? && old(run) <= run
      ensures Ends(outcome, key, months)
      ensures
        var r := old(db).renewals[key];
        && (outcome.Refused? ==> r.months != months || r.status == Failed)
        && (outcome.Completed? ==> r.months == months)
        && (outcome.Thrown? || outcome.Unresolved? ==>
              Excused(outcome, key, old(|run|)) || key.node !in old(db).nodes || r.debitRow !in old(db).stored)
        && (Resumable(old(Abs()), key) && r.months == months ==> |run| > old(|run|) && run[old(|run|)] == Resume(key, months))
    {
      var r := db.renewals[key];
      if r.months != months || r.status == Failed {
        return Refused;
      }
      if r.status == Success {
        return if key.node in db.nodes then Completed else Thrown;
      }
      if key.node !in db.nodes || r.debitRow !in db.stored {
        return Unresolved;
      }
      var p := Local(key, r.detail, TargetEnable(db.nodes[key.node], r.snapshot.enable));
      ghost var before := Abs();
      Goes(key.node, Started(p), before, Resume(key, months));
      outcome := CompletePendingRenewal(p);
    }

    /** Checks a new request and reads the panel before the debit. */
    method Preflight(key: Key, months: nat) returns (snapshot: Option<Remote>, now: int)
      requires Valid() && WorkerOf(Abs(), key.node).Idle? && key !in db.renewals && months > 0
      modifies `db, `remote, `workers, `run
      ensures Valid() && old(run) <= run && key !in db.renewals
      ensures WorkerOf(Abs(), key.node) == if snapshot.Some? then Priced(key, months, snapshot.value, now) else Idle
      ensures snapshot.None? ==>
                PendingOn(old(db), key.node) || !RenewalAllowed(old(db), key) || FailedSince(old(|run|), key.node)
    {
      now := 0;
      if PendingOn(db, key.node) || !RenewalAllowed(db, key) {
        return None, now;
      }
      ghost var before := Abs();
      Record(key.node, Requested(key, months), before, Request(key, months));
      Await(key.node);
      assert WorkerOk(db.renewals, key.node, WorkerOf(Abs(), key.node));
      before := Abs();
      snapshot := CustomerNodeRemoteState(key.node);
      now := *;
      if now < 0 {
        snapshot := None;
      }
      var w := if snapshot.Some? then Priced(key, months, snapshot.value, now) else Idle;
      Record(key.node, w, before, ReadBefore(key.node, snapshot.Some?, now));
    }

    /** The debit transaction; `None` when the caller hears of no success. */
    method DebitRenewal(key: Key, months: nat, snapshot: Remote, now: int) returns (p: Option<Local>, refused: bool)
      requires Valid() && WorkerOf(Abs(), key.node) == Priced(key, months, snapshot, now)
      modifies `db, `remote, `workers, `run
      ensures Valid() && old(run) <= run
      ensures p.Some? ==> p.value.key == key && Stands(Started(p.value))
      ensures p.None? ==> WorkerOf(Abs(), key.node).Idle? && (refused ==> key !in db.renewals) && FailedSince(old(|run|), key.node)
    {
      Await(key.node);
      assert WorkerOk(db.renewals, key.node, WorkerOf(Abs(), key.node));
      ghost var before := Abs();
      var tx := DebitTransaction(key, months, snapshot, now);
      var reply := Commit(tx);
      refused := tx.None?;
      DebitIs(before, key.node, Priced(key, months, snapshot, now), reply);
      if !reply.Applied? {
        Record(key.node, Idle, before, DebitStep(key.node, reply));
        return None, refused;
      }
      var enable := TargetEnable(db.nodes[key.node], snapshot.enable);
      p := Some(Local(key, Detail(false, false, false), enable));
      Goes(key.node, Started(p.value), before, DebitStep(key.node, reply));
    }

    method RenewCustomerNode(key: Key, months: nat) returns (outcome: Outcome)
      requires Valid() && WorkerOf(Abs(), key.node).Idle? && months > 0
      modifies `db, `remote, `workers, `run
      ensures Valid() && WorkerOf(Abs(), key.node).Idle? && old(run) <= run
      ensures Ends(outcome, key, months)
      ensures (outcome.Thrown? || outcome.Unresolved?) && key !in old(db).renewals ==> Excused(outcome, key, old(|run|))
      ensures outcome.Refused? && key !in old(db).renewals ==>
                PendingOn(old(db), key.node) || !RenewalAllowed(old(db), key) || FailedSince(old(|run|), key.node)
      ensures outcome.Completed? ==> exists i: nat :: i < |run| && Effects.RenewedAt(start, run, i, key)
      ensures outcome.Refunded? ==> exists i: nat :: i < |run| && Effects.PaidBackAt(start, run, i, key)
    {
      if key in db.renewals {
        outcome := ResumeExistingRenewal(key, months);
        Explained(outcome, key, months);
        return;
      }
      var snapshot, now := Preflight(key, months);
      if snapshot.None? {
        return Refused;
      }
      var p, refused := DebitRenewal(key, months, snapshot.value, now);
      if p.None? {
        return if refused then Refused else Thrown;
      }
      outcome := CompletePendingRenewal(p.value);
      Explained(outcome, key, months);
    }

    /** A renewal answered as done or refunded was so by a step of the run. */
    lemma Explained(outcome: Outcome, key: Key, months: nat)
      requires Valid() && Ends(outcome, key, months)
      ensures outcome.Completed? ==> exists i: nat :: i < |run| && Effects.RenewedAt(start, run, i, key)
      ensures outcome.Refunded? ==> exists i: nat :: i < |run| && Effects.PaidBackAt(start, run, i, key)
    {
      if outcome.Completed? || outcome.Refunded? {
        Effects.EveryClosingHappened(opening, start, run, key);
      }
    }

    /** One renewal of the pass, unless its lock is taken or its node is gone. */
    method Attend(key: Key)
      requires Valid()
      modifies `db, `remote, `workers, `run
      ensures Valid() && old(run) <= run
      ensures Attended(start, run, key, old(|run|))
    {
      ghost var before := run;
      var free := key.node in workers ==> workers[key.node].Idle?;
      if free && key in db.renewals && key.node in db.nodes {
        var outcome := ResumeExistingRenewal(key, db.renewals[key].months);
      }
      assert run[..|before|] == before && Attends(start, run, key, |before|);
    }

    /** The recovery job: goes on with each renewal it listed, unless another pass
        runs. A renewal whose lock is taken, whose node is gone or that throws is
        left to the next pass, and nothing that happened before is undone. */
    method RecoverPendingRenewals(pending: seq<Key>)
      requires Valid()
      modifies this
      ensures Valid() && old(run) <= run && Extends(old(db), db)
      ensures renewalRecoveryRunning == old(renewalRecoveryRunning)
      ensures old(renewalRecoveryRunning) ==> run == old(run)
      ensures !old(renewalRecoveryRunning) ==> forall key <- pending :: Attended(start, run, key, old(|run|))
    {
      ghost var first := run;
      if !renewalRecoveryRunning {
        renewalRecoveryRunning := true;
        for i := 0 to |pending|
          invariant Valid() && first <= run && renewalRecoveryRunning
          invariant forall j :: 0 <= j < i ==> Attended(start, run, pending[j], |first|)
        {
          ghost var before := run;
          Attend(pending[i]);
          forall j | 0 <= j < i
            ensures Attended(start, run, pending[j], |first|)
          {
            AttendedStays(start, before, run, pending[j], |first|);
          }
        }
        renewalRecoveryRunning := false;
      }
      RunExtends(opening, start, first, run[|first|..]);
      assert first + run[|first|..] == run;
    }
  }
}
