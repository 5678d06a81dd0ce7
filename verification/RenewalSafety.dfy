/** What every run of renewals keeps. */
module RenewalSafety {
  import opened Options
  import opened Calendar
  import opened RenewalRows
  import opened RenewalSaga

  // ---- what the panel has shown ----

  /** The panel was last seen, or last verified, to hold the target. */
  ghost predicate Confirming(r: Renewal) {
    && r.events != []
    && match r.events[|r.events| - 1]
       case Saw(state, enable) => RemoteMatches(state, r.target, enable)
       case Sent(state, confirmed) => confirmed && RemoteMatches(state, r.target, state.enable)
       case Undone(_, _) => false
  }

  /** The panel was last seen to hold the snapshot. */
  ghost predicate SeenAtSnapshot(r: Renewal) {
    && r.events != []
    && r.events[|r.events| - 1].Saw?
    && RemoteMatchesSnapshot(r.events[|r.events| - 1].state, r.snapshot)
  }

  ghost predicate NeverSent(r: Renewal) {
    forall e <- r.events :: !e.Sent?
  }

  ghost predicate Evidence(r: Renewal) {
    && (!r.detail.writeStarted ==> NeverSent(r))
    && (r.status == Success ==> Confirming(r))
    && (r.detail.refunded ==> !r.detail.writeStarted || SeenAtSnapshot(r))
  }

  // ---- rows ----

  /** The four states of a renewal and their entries in the ledger. */
  ghost predicate RenewalOk(ledger: seq<Entry>, key: Key, r: Renewal) {
    && r.months >= 1 && r.snapshot.expiry >= 0
    && r.target >= r.snapshot.expiry + 28 * DAY_MS
    && (r.status == Failed ==> r.detail.refunded != r.detail.reconciliation)
    && (r.status != Failed ==> !r.detail.refunded && !r.detail.reconciliation)
    && Count(ledger, DebitOf(key)) == 1
    && Count(ledger, RefundOf(key)) == (if r.detail.refunded then 1 else 0)
    && Evidence(r)
  }

  /** An entry that names a renewal is a debit or refund of exactly its amount. */
  ghost predicate EntryNames(renewals: map<Key, Renewal>, e: Entry) {
    e.source.DebitOf? || e.source.RefundOf? ==>
      && e.source.key in renewals && e.customer == e.source.key.customer
      && (if e.source.DebitOf? then e.amount + renewals[e.source.key].amount == 0
          else e.amount == renewals[e.source.key].amount)
  }

  ghost predicate RowsOk(ledger: seq<Entry>, renewals: map<Key, Renewal>) {
    && (forall k <- renewals :: RenewalOk(ledger, k, renewals[k]))
    && (forall e <- ledger :: EntryNames(renewals, e))
    && forall k, m ::
         (k in renewals && m in renewals && k.node == m.node
          && renewals[k].status == Pending && renewals[m].status == Pending) ==> k == m
  }

  // ---- workers ----

  ghost predicate NonePending(renewals: map<Key, Renewal>, node: string) {
    forall k <- renewals :: k.node == node ==> renewals[k].status != Pending
  }

  /** The worker's renewal is pending, and its copy of the detail is the stored one. */
  ghost predicate Holds(renewals: map<Key, Renewal>, node: string, p: Local) {
    && p.key in renewals && p.key.node == node
    && renewals[p.key].status == Pending && renewals[p.key].detail == p.detail
  }

  ghost predicate WorkerOk(renewals: map<Key, Renewal>, node: string, w: Worker) {
    match w
    case Idle => true
    case Requested(key, months) => key.node == node && key !in renewals && NonePending(renewals, node) && months >= 1
    case Priced(key, months, snapshot, now) =>
      && key.node == node && key !in renewals && NonePending(renewals, node) && months >= 1
      && snapshot.expiry >= 0 && now >= 0
    case Started(p) => Holds(renewals, node, p)
    case WriteAllowed(p) => Holds(renewals, node, p)
    case Marked(p) => Holds(renewals, node, p) && p.detail.writeStarted
    case Unsure(p) => Holds(renewals, node, p) && p.detail.writeStarted
    case Confirmed(p) => Holds(renewals, node, p) && Confirming(renewals[p.key])
    case LocalFailed(p) => Holds(renewals, node, p) && Confirming(renewals[p.key])
    case RolledBack(p) => Holds(renewals, node, p)
    case Refunding(p) =>
      Holds(renewals, node, p) && (!p.detail.writeStarted || SeenAtSnapshot(renewals[p.key]))
    case Reconciling(p) => Holds(renewals, node, p)
  }

  ghost predicate WorkersOk(renewals: map<Key, Renewal>, workers: map<string, Worker>) {
    forall n <- workers :: WorkerOk(renewals, n, workers[n])
  }

  ghost predicate RemotesOk(remote: map<string, Remote>) {
    forall n <- remote :: remote[n].expiry >= 0
  }

  ghost predicate Inv(opening: map<string, int>, s: State) {
    && LedgerOk(opening, s.db)
    && RowsOk(s.db.ledger, s.db.renewals)
    && WorkersOk(s.db.renewals, s.workers)
    && RemotesOk(s.remote)
  }

  // ---- updating one renewal and its worker ----

  /** A step of a node's worker on its own pending renewal leaves every other
      renewal and worker alone. */
  lemma UpdateRows(ledger: seq<Entry>, renewals: map<Key, Renewal>, workers: map<string, Worker>,
                   node: string, key: Key, r: Renewal, w: Worker)
    requires RowsOk(ledger, renewals) && WorkersOk(renewals, workers)
    requires key in renewals && key.node == node && renewals[key].status == Pending
    requires r.amount == renewals[key].amount && RenewalOk(ledger, key, r)
    requires WorkerOk(renewals[key := r], node, w)
    ensures RowsOk(ledger, renewals[key := r])
    ensures WorkersOk(renewals[key := r], workers[node := w])
  {
    var after := renewals[key := r];
    forall e | e in ledger
      ensures EntryNames(after, e)
    {
      assert EntryNames(renewals, e);
    }
    forall n | n in workers && n != node
      ensures WorkerOk(after, n, workers[n])
    {
      assert WorkerOk(renewals, n, workers[n]);
      OtherNode(renewals, key, r, n, workers[n]);
    }
  }

  lemma OtherNode(renewals: map<Key, Renewal>, key: Key, r: Renewal, node: string, w: Worker)
    requires WorkerOk(renewals, node, w) && key.node != node
    ensures WorkerOk(renewals[key := r], node, w)
  {
    var after := renewals[key := r];
    assert NonePending(renewals, node) ==> NonePending(after, node);
    if !w.Idle? && !w.Requested? && !w.Priced? {
      assert after[w.p.key] == renewals[w.p.key];
    }
  }

  lemma MoveWorker(renewals: map<Key, Renewal>, workers: map<string, Worker>, node: string, w: Worker)
    requires WorkersOk(renewals, workers) && WorkerOk(renewals, node, w)
    ensures WorkersOk(renewals, workers[node := w])
  {
  }

  /** An event the worker records keeps its renewal's row sound. */
  lemma ObservedOk(ledger: seq<Entry>, key: Key, r: Renewal, e: Event)
    requires RenewalOk(ledger, key, r) && r.status == Pending
    requires e.Sent? ==> r.detail.writeStarted
    ensures RenewalOk(ledger, key, r.(events := r.events + [e]))
  {
  }

  // ---- each kind of step keeps the invariant ----

  lemma OwnUpdateKeepsInv(opening: map<string, int>, s: State, node: string, key: Key, r: Renewal, w: Worker)
    requires Inv(opening, s)
    requires key in s.db.renewals && key.node == node && s.db.renewals[key].status == Pending
    requires r.amount == s.db.renewals[key].amount && RenewalOk(s.db.ledger, key, r)
    requires WorkerOk(s.db.renewals[key := r], node, w)
    ensures Inv(opening, Goto(s.(db := WithRenewal(s.db, key, r)), node, w))
  {
    UpdateRows(s.db.ledger, s.db.renewals, s.workers, node, key, r, w);
    RowsKeepLedger(opening, s.db, WithRenewal(s.db, key, r));
  }

  lemma RowsKeepLedger(opening: map<string, int>, db: Db, after: Db)
    requires LedgerOk(opening, db) && after.ledger == db.ledger
    requires forall c <- after.customers :: c in db.customers && after.customers[c].balance == db.customers[c].balance
    ensures LedgerOk(opening, after)
  {
    forall i | 0 <= i < |after.ledger|
      ensures EntryOk(opening, after.ledger, i)
    {
      assert EntryOk(opening, db.ledger, i);
    }
  }

  lemma MoveKeepsInv(opening: map<string, int>, s: State, node: string, w: Worker)
    requires Inv(opening, s) && WorkerOk(s.db.renewals, node, w)
    ensures Inv(opening, Goto(s, node, w))
  {
    MoveWorker(s.db.renewals, s.workers, node, w);
  }

  /** What the worker read is recorded, and it goes on where that leads. */
  lemma SawKeepsInv(opening: map<string, int>, s: State, node: string, p: Local, w: Worker)
    requires Inv(opening, s) && Holds(s.db.renewals, node, p) && node in s.remote
    requires
      var r := s.db.renewals[p.key];
      WorkerOk(s.db.renewals[p.key := r.(events := r.events + [Saw(s.remote[node], p.enable)])], node, w)
    ensures Inv(opening, Goto(Observed(s, p.key, Saw(s.remote[node], p.enable)), node, w))
  {
    var r := s.db.renewals[p.key];
    var seen := Saw(s.remote[node], p.enable);
    ObservedOk(s.db.ledger, p.key, r, seen);
    OwnUpdateKeepsInv(opening, s, node, p.key, r.(events := r.events + [seen]), w);
  }

  lemma ReadStateLeads(s: State, node: string, p: Local, noted: bool, w: Worker)
    requires Holds(s.db.renewals, node, p) && node in s.remote && Evidence(s.db.renewals[p.key])
    requires w == DoReadState(s, node, p, true, noted).workers[node]
    ensures DoReadState(s, node, p, true, noted) == Goto(Observed(s, p.key, Saw(s.remote[node], p.enable)), node, w)
    ensures
      var r := s.db.renewals[p.key];
      WorkerOk(s.db.renewals[p.key := r.(events := r.events + [Saw(s.remote[node], p.enable)])], node, w)
  {
  }

  lemma ReadUnsureLeads(s: State, node: string, p: Local, noted: bool, w: Worker)
    requires Holds(s.db.renewals, node, p) && node in s.remote
    requires w == DoReadUnsure(s, node, p, true, noted).workers[node]
    ensures DoReadUnsure(s, node, p, true, noted) == Goto(Observed(s, p.key, Saw(s.remote[node], p.enable)), node, w)
    ensures
      var r := s.db.renewals[p.key];
      WorkerOk(s.db.renewals[p.key := r.(events := r.events + [Saw(s.remote[node], p.enable)])], node, w)
  {
  }

  lemma ReadStateKeepsInv(opening: map<string, int>, s: State, node: string, p: Local, ok: bool, noted: bool)
    requires Inv(opening, s) && Holds(s.db.renewals, node, p)
    ensures Inv(opening, DoReadState(s, node, p, ok, noted))
  {
    if !ok || node !in s.remote {
      NoteKeepsInv(opening, s, node, p, noted);
    } else {
      var w := DoReadState(s, node, p, ok, noted).workers[node];
      ReadStateLeads(s, node, p, noted, w);
      SawKeepsInv(opening, s, node, p, w);
    }
  }

  lemma NoteKeepsInv(opening: map<string, int>, s: State, node: string, p: Local, noted: bool)
    requires Inv(opening, s) && Holds(s.db.renewals, node, p)
    ensures Inv(opening, Goto(if noted then s.(db := NoteTx(s.db, p.key, p.detail)) else s, node, Idle))
  {
    if noted {
      OwnUpdateKeepsInv(opening, s, node, p.key, s.db.renewals[p.key].(detail := p.detail), Idle);
    } else {
      MoveKeepsInv(opening, s, node, Idle);
    }
  }

  lemma MarkStartedKeepsInv(opening: map<string, int>, s: State, node: string, p: Local, reply: Reply)
    requires Inv(opening, s) && Holds(s.db.renewals, node, p)
    ensures Inv(opening, DoMarkStarted(s, node, p, reply))
  {
    var r := s.db.renewals[p.key];
    var marked := r.(detail := p.detail.(writeStarted := true));
    var w := DoMarkStarted(s, node, p, reply).workers[node];
    if reply.NotApplied? {
      MoveKeepsInv(opening, s, node, w);
    } else {
      OwnUpdateKeepsInv(opening, s, node, p.key, marked, w);
    }
  }

  lemma WriteTargetKeepsInv(opening: map<string, int>, s: State, node: string, p: Local, reply: Reply)
    requires Inv(opening, s) && Holds(s.db.renewals, node, p) && p.detail.writeStarted
    requires s.db.renewals[p.key].target >= 0
    ensures Inv(opening, DoWriteTarget(s, node, p, reply))
  {
    var r := s.db.renewals[p.key];
    var state := TargetState(s, p);
    WholeSecondsMatch(r.target, p.enable);
    var e := Sent(state, node in s.remote && reply.Applied?);
    ObservedOk(s.db.ledger, p.key, r, e);
    var after := DoWriteTarget(s, node, p, reply);
    OwnUpdateKeepsInv(opening, s.(remote := after.remote), node, p.key, r.(events := r.events + [e]), after.workers[node]);
  }

  lemma WriteSnapshotLeads(s: State, node: string, p: Local, reply: Reply, e: Event, remote: map<string, Remote>)
    requires Holds(s.db.renewals, node, p)
    requires e == Undone(SnapshotState(s, p), reply.Applied? && node in s.remote)
    requires remote == DoWriteSnapshot(s, node, p, reply).remote
    ensures DoWriteSnapshot(s, node, p, reply) == Goto(Observed(s.(remote := remote), p.key, e), node, RolledBack(p))
    ensures RemotesOk(s.remote) && s.db.renewals[p.key].snapshot.expiry >= 0 ==> RemotesOk(remote)
    ensures
      var r := s.db.renewals[p.key];
      WorkerOk(s.db.renewals[p.key := r.(events := r.events + [e])], node, RolledBack(p))
  {
  }

  lemma WriteSnapshotKeepsInv(opening: map<string, int>, s: State, node: string, p: Local, reply: Reply)
    requires Inv(opening, s) && Holds(s.db.renewals, node, p)
    ensures Inv(opening, DoWriteSnapshot(s, node, p, reply))
  {
    var r := s.db.renewals[p.key];
    var e := Undone(SnapshotState(s, p), reply.Applied? && node in s.remote);
    var remote := DoWriteSnapshot(s, node, p, reply).remote;
    assert RenewalOk(s.db.ledger, p.key, r);
    ObservedOk(s.db.ledger, p.key, r, e);
    WriteSnapshotLeads(s, node, p, reply, e, remote);
    OwnUpdateKeepsInv(opening, s.(remote := remote), node, p.key, r.(events := r.events + [e]), RolledBack(p));
  }

  lemma FinalizeKeepsInv(opening: map<string, int>, s: State, node: string, p: Local, reply: Reply, verified: bool)
    requires Inv(opening, s) && Holds(s.db.renewals, node, p) && Confirming(s.db.renewals[p.key])
    ensures Inv(opening, DoFinalize(s, node, p, reply, verified))
  {
    var r := s.db.renewals[p.key];
    var w := DoFinalize(s, node, p, reply, verified).workers[node];
    var tx := FinalizeTx(s.db, p.key);
    if tx.Some? && !reply.NotApplied? {
      OwnUpdateKeepsInv(opening, s, node, p.key, r.(status := Success), Idle);
      var closed := Goto(s.(db := WithRenewal(s.db, p.key, r.(status := Success))), node, Idle);
      RowsKeepLedger(opening, closed.db, tx.value);
    } else {
      MoveKeepsInv(opening, s, node, w);
    }
  }

  lemma ReadRollbackKeepsInv(opening: map<string, int>, s: State, node: string, p: Local, ok: bool)
    requires Inv(opening, s) && Holds(s.db.renewals, node, p)
    ensures Inv(opening, DoReadRollback(s, node, p, ok))
  {
    var r := s.db.renewals[p.key];
    var w := DoReadRollback(s, node, p, ok).workers[node];
    if !ok || node !in s.remote {
      MoveKeepsInv(opening, s, node, w);
    } else {
      var seen := Saw(s.remote[node], p.enable);
      ObservedOk(s.db.ledger, p.key, r, seen);
      OwnUpdateKeepsInv(opening, s, node, p.key, r.(events := r.events + [seen]), w);
    }
  }

  lemma ReadUnsureKeepsInv(opening: map<string, int>, s: State, node: string, p: Local, ok: bool, noted: bool)
    requires Inv(opening, s) && Holds(s.db.renewals, node, p)
    ensures Inv(opening, DoReadUnsure(s, node, p, ok, noted))
  {
    if !ok || node !in s.remote {
      NoteKeepsInv(opening, s, node, p, noted);
    } else {
      var w := DoReadUnsure(s, node, p, ok, noted).workers[node];
      ReadUnsureLeads(s, node, p, noted, w);
      SawKeepsInv(opening, s, node, p, w);
    }
  }

  lemma ReconcileKeepsInv(opening: map<string, int>, s: State, node: string, p: Local, reply: Reply)
    requires Inv(opening, s) && Holds(s.db.renewals, node, p)
    ensures Inv(opening, DoReconcile(s, node, p, reply))
  {
    var r := s.db.renewals[p.key];
    if ReconcileTx(s.db, p.key, p.detail).Some? && !reply.NotApplied? {
      OwnUpdateKeepsInv(opening, s, node, p.key, r.(status := Failed, detail := p.detail.(reconciliation := true)), Idle);
    } else {
      MoveKeepsInv(opening, s, node, Idle);
    }
  }

  // ---- posting entries ----

  /** A new entry leaves the counts of every other renewal alone. */
  lemma PostKeepsOthers(ledger: seq<Entry>, e: Entry, key: Key, r: Renewal)
    requires RenewalOk(ledger, key, r) && e.source != DebitOf(key) && e.source != RefundOf(key)
    ensures RenewalOk(ledger + [e], key, r)
  {
    assert (ledger + [e])[..|ledger|] == ledger;
  }

  lemma RefundKeepsInv(opening: map<string, int>, s: State, node: string, p: Local, reply: Reply, fallback: Reply)
    requires Inv(opening, s) && WorkerOk(s.db.renewals, node, Refunding(p))
    ensures Inv(opening, DoRefund(s, node, p, reply, fallback))
  {
    var tx := RefundTx(s.db, p.key, p.detail);
    if tx.None? || reply.NotApplied? {
      ReconcileKeepsInv(opening, s, node, p, fallback);
    } else {
      var r := s.db.renewals[p.key];
      var refunded := r.(status := Failed, detail := p.detail.(refunded := true));
      RefundKeepsRows(s.db, p.key, refunded);
      PostKeepsLedger(opening, s.db, p.key.customer, RefundOf(p.key), r.amount);
      var posted := Post(s.db, p.key.customer, RefundOf(p.key), r.amount);
      RowsKeepLedger(opening, posted, tx.value);
      RefundKeepsWorkers(s.db.renewals, s.workers, node, p.key, refunded);
    }
  }

  lemma RefundKeepsRows(db: Db, key: Key, refunded: Renewal)
    requires RowsOk(db.ledger, db.renewals) && key in db.renewals && key.customer in db.customers
    requires db.renewals[key].status == Pending
    requires !db.renewals[key].detail.writeStarted || SeenAtSnapshot(db.renewals[key])
    requires refunded == db.renewals[key].(status := Failed, detail := db.renewals[key].detail.(refunded := true))
    ensures RowsOk(Post(db, key.customer, RefundOf(key), refunded.amount).ledger, db.renewals[key := refunded])
  {
    var after := Post(db, key.customer, RefundOf(key), refunded.amount).ledger;
    var e := after[|db.ledger|];
    assert after[..|db.ledger|] == db.ledger;
    forall k | k in db.renewals && k != key
      ensures RenewalOk(after, k, db.renewals[k])
    {
      PostKeepsOthers(db.ledger, e, k, db.renewals[k]);
    }
    forall x | x in after
      ensures EntryNames(db.renewals[key := refunded], x)
    {
      assert x == e || (x in db.ledger && EntryNames(db.renewals, x));
    }
  }

  lemma RefundKeepsWorkers(renewals: map<Key, Renewal>, workers: map<string, Worker>, node: string, key: Key, r: Renewal)
    requires WorkersOk(renewals, workers) && key in renewals && key.node == node
    ensures WorkersOk(renewals[key := r], workers[node := Idle])
  {
    forall n | n in workers && n != node
      ensures WorkerOk(renewals[key := r], n, workers[n])
    {
      OtherNode(renewals, key, r, n, workers[n]);
    }
  }

  lemma DebitKeepsInv(opening: map<string, int>, s: State, node: string, w: Worker, reply: Reply)
    requires Inv(opening, s) && w.Priced? && WorkerOk(s.db.renewals, node, w)
    ensures Inv(opening, DoDebit(s, node, w, reply))
  {
    var tx := DebitTx(s.db, w.request, w.months, w.snapshot, w.now, s.offset);
    if tx.Some? && !reply.NotApplied? {
      DebitTxKeepsRows(opening, s.db, w, s.offset);
      var r := tx.value.renewals[w.request];
      var next := DoDebit(s, node, w, reply).workers[node];
      DebitKeepsWorkers(s.db.renewals, s.workers, node, w.request, r, next);
    } else {
      MoveKeepsInv(opening, s, node, Idle);
    }
  }

  lemma DebitTxKeepsRows(opening: map<string, int>, db: Db, w: Worker, offset: int)
    requires LedgerOk(opening, db) && RowsOk(db.ledger, db.renewals)
    requires w.Priced? && WorkerOk(db.renewals, w.request.node, w)
    requires DebitTx(db, w.request, w.months, w.snapshot, w.now, offset).Some?
    ensures
      var after := DebitTx(db, w.request, w.months, w.snapshot, w.now, offset).value;
      LedgerOk(opening, after) && RowsOk(after.ledger, after.renewals)
  {
    var node := db.nodes[w.request.node];
    var r := NewRenewal(node, |db.ledger|, w.months, w.snapshot, w.now, offset);
    TargetIsLater(w.now, node.expireAt, w.snapshot, w.months, offset);
    NoEntryYet(db.ledger, db.renewals, w.request);
    DebitedKeepsRows(db, w.request, r);
    DebitedKeepsLedger(opening, db, w.request, r);
  }

  lemma DebitedKeepsLedger(opening: map<string, int>, db: Db, key: Key, r: Renewal)
    requires LedgerOk(opening, db)
    requires key.customer in db.customers && db.customers[key.customer].balance >= r.amount
    ensures LedgerOk(opening, Debited(db, key, r))
  {
    var charge: int := r.amount;
    PostKeepsLedger(opening, db, key.customer, DebitOf(key), -charge);
    RowsKeepLedger(opening, Post(db, key.customer, DebitOf(key), -charge), Debited(db, key, r));
  }

  /** A renewal that does not exist yet has no entries. */
  lemma {:induction false} NoEntryYet(ledger: seq<Entry>, renewals: map<Key, Renewal>, key: Key)
    requires forall e <- ledger :: EntryNames(renewals, e)
    requires key !in renewals
    ensures Count(ledger, DebitOf(key)) == 0 && Count(ledger, RefundOf(key)) == 0
  {
    if ledger != [] {
      var last := ledger[|ledger| - 1];
      assert last in ledger && EntryNames(renewals, last);
      NoEntryYet(ledger[..|ledger| - 1], renewals, key);
    }
  }

  lemma DebitedKeepsRows(db: Db, key: Key, r: Renewal)
    requires RowsOk(db.ledger, db.renewals) && key !in db.renewals && key.customer in db.customers
    requires NonePending(db.renewals, key.node)
    requires Count(db.ledger, DebitOf(key)) == 0 && Count(db.ledger, RefundOf(key)) == 0
    requires r.months >= 1 && r.snapshot.expiry >= 0 && r.target >= r.snapshot.expiry + 28 * DAY_MS
    requires r.status == Pending && r.detail == Detail(false, false, false) && r.events == []
    ensures RowsOk(Debited(db, key, r).ledger, Debited(db, key, r).renewals)
  {
    var after := Debited(db, key, r).ledger;
    var e := after[|db.ledger|];
    assert after == db.ledger + [e] && e.source == DebitOf(key) && e.customer == key.customer && e.amount + r.amount == 0;
    DebitKeepsRows(db.ledger, db.renewals, key, r, e);
  }

  lemma DebitKeepsRows(ledger: seq<Entry>, renewals: map<Key, Renewal>, key: Key, r: Renewal, e: Entry)
    requires RowsOk(ledger, renewals) && key !in renewals && NonePending(renewals, key.node)
    requires Count(ledger, DebitOf(key)) == 0 && Count(ledger, RefundOf(key)) == 0
    requires r.months >= 1 && r.snapshot.expiry >= 0 && r.target >= r.snapshot.expiry + 28 * DAY_MS
    requires r.status == Pending && r.detail == Detail(false, false, false) && r.events == []
    requires e.source == DebitOf(key) && e.customer == key.customer && e.amount + r.amount == 0
    ensures RowsOk(ledger + [e], renewals[key := r])
  {
    NewRowOk(ledger, key, r, e);
    forall k | k in renewals
      ensures RenewalOk(ledger + [e], k, renewals[k])
    {
      PostKeepsOthers(ledger, e, k, renewals[k]);
    }
    forall x | x in ledger + [e]
      ensures EntryNames(renewals[key := r], x)
    {
      assert x == e || (x in ledger && EntryNames(renewals, x));
    }
  }

  lemma NewRowOk(ledger: seq<Entry>, key: Key, r: Renewal, e: Entry)
    requires Count(ledger, DebitOf(key)) == 0 && Count(ledger, RefundOf(key)) == 0 && e.source == DebitOf(key)
    requires r.months >= 1 && r.snapshot.expiry >= 0 && r.target >= r.snapshot.expiry + 28 * DAY_MS
    requires r.status == Pending && r.detail == Detail(false, false, false) && r.events == []
    ensures RenewalOk(ledger + [e], key, r)
  {
    assert (ledger + [e])[..|ledger|] == ledger;
  }

  lemma DebitKeepsWorkers(renewals: map<Key, Renewal>, workers: map<string, Worker>, node: string, key: Key, r: Renewal, w: Worker)
    requires WorkersOk(renewals, workers) && key.node == node
    requires WorkerOk(renewals[key := r], node, w)
    ensures WorkersOk(renewals[key := r], workers[node := w])
  {
    forall n | n in workers && n != node
      ensures WorkerOk(renewals[key := r], n, workers[n])
    {
      OtherNode(renewals, key, r, n, workers[n]);
    }
  }

  // ---- every step, every run ----

  lemma WorkerStepKeepsInv(opening: map<string, int>, s: State, node: string, a: Action)
    requires Inv(opening, s)
    ensures Inv(opening, WorkerStep(s, node, a))
  {
    var w := WorkerOf(s, node);
    assert WorkerOk(s.db.renewals, node, w);
    if a.Crash? {
      MoveKeepsInv(opening, s, node, Idle);
    } else if w.Idle? || w.Requested? || w.Priced? {
      FirstStepKeepsInv(opening, s, node, a);
    } else if w.Started? || w.WriteAllowed? || w.Marked? || w.Unsure? {
      OpenStepKeepsInv(opening, s, node, a);
    } else if w.Confirmed? || w.LocalFailed? || w.RolledBack? {
      CommitStepKeepsInv(opening, s, node, a);
    } else {
      ClosingStepKeepsInv(opening, s, node, a);
    }
  }

  lemma FirstStepKeepsInv(opening: map<string, int>, s: State, node: string, a: Action)
    requires Inv(opening, s) && WorkerOk(s.db.renewals, node, WorkerOf(s, node)) && !a.Crash?
    requires WorkerOf(s, node).Idle? || WorkerOf(s, node).Requested? || WorkerOf(s, node).Priced?
    ensures Inv(opening, WorkerStep(s, node, a))
  {
    var w := WorkerOf(s, node);
    if w.Requested? && a.ReadBefore? {
      MoveKeepsInv(opening, s, node, DoReadBefore(s, node, w, a.ok, a.now).workers[node]);
    } else if w.Priced? && a.DebitStep? {
      DebitKeepsInv(opening, s, node, w, a.reply);
    }
  }

  lemma OpenStepKeepsInv(opening: map<string, int>, s: State, node: string, a: Action)
    requires Inv(opening, s) && WorkerOk(s.db.renewals, node, WorkerOf(s, node)) && !a.Crash?
    requires
      var w := WorkerOf(s, node);
      w.Started? || w.WriteAllowed? || w.Marked? || w.Unsure?
    ensures Inv(opening, WorkerStep(s, node, a))
  {
    match WorkerOf(s, node)
    case Started(p) => if a.ReadState? { ReadStateKeepsInv(opening, s, node, p, a.ok, a.noted); }
    case WriteAllowed(p) => if a.MarkStarted? { MarkStartedKeepsInv(opening, s, node, p, a.reply); }
    case Marked(p) =>
      if a.WriteTarget? {
        assert RenewalOk(s.db.ledger, p.key, s.db.renewals[p.key]);
        WriteTargetKeepsInv(opening, s, node, p, a.reply);
      }
    case Unsure(p) => if a.ReadUnsure? { ReadUnsureKeepsInv(opening, s, node, p, a.ok, a.noted); }
  }

  lemma CommitStepKeepsInv(opening: map<string, int>, s: State, node: string, a: Action)
    requires Inv(opening, s) && WorkerOk(s.db.renewals, node, WorkerOf(s, node)) && !a.Crash?
    requires
      var w := WorkerOf(s, node);
      w.Confirmed? || w.LocalFailed? || w.RolledBack?
    ensures Inv(opening, WorkerStep(s, node, a))
  {
    match WorkerOf(s, node)
    case Confirmed(p) => if a.Finalize? { FinalizeKeepsInv(opening, s, node, p, a.reply, a.verified); }
    case LocalFailed(p) => if a.WriteSnapshot? { WriteSnapshotKeepsInv(opening, s, node, p, a.reply); }
    case RolledBack(p) => if a.ReadRollback? { ReadRollbackKeepsInv(opening, s, node, p, a.ok); }
  }

  lemma ClosingStepKeepsInv(opening: map<string, int>, s: State, node: string, a: Action)
    requires Inv(opening, s) && WorkerOk(s.db.renewals, node, WorkerOf(s, node)) && !a.Crash?
    requires WorkerOf(s, node).Refunding? || WorkerOf(s, node).Reconciling?
    ensures Inv(opening, WorkerStep(s, node, a))
  {
    match WorkerOf(s, node)
    case Refunding(p) => if a.RefundStep? { RefundKeepsInv(opening, s, node, p, a.reply, a.fallback); }
    case Reconciling(p) => if a.Reconcile? { ReconcileKeepsInv(opening, s, node, p, a.reply); }
  }

  lemma RequestKeepsInv(opening: map<string, int>, s: State, key: Key, months: nat)
    requires Inv(opening, s)
    ensures Inv(opening, DoRequest(s, key, months)) && Inv(opening, DoResume(s, key, months))
  {
    if key in s.db.renewals {
      if DoResume(s, key, months) != s {
        MoveKeepsInv(opening, s, key.node, DoResume(s, key, months).workers[key.node]);
      }
    } else if DoRequest(s, key, months) != s {
      MoveKeepsInv(opening, s, key.node, Requested(key, months));
    }
  }

  /** Balance operations that are no part of a renewal keep the invariant. */
  lemma PostKeepsInv(opening: map<string, int>, s: State, customer: string, source: Source, amount: int)
    requires Inv(opening, s) && !source.DebitOf? && !source.RefundOf?
    requires customer in s.db.customers && s.db.customers[customer].balance + amount >= 0
    ensures Inv(opening, s.(db := Post(s.db, customer, source, amount)))
  {
    PostKeepsLedger(opening, s.db, customer, source, amount);
    var ledger := Post(s.db, customer, source, amount).ledger;
    forall k | k in s.db.renewals
      ensures RenewalOk(ledger, k, s.db.renewals[k])
    {
      PostKeepsOthers(s.db.ledger, ledger[|s.db.ledger|], k, s.db.renewals[k]);
    }
  }

  lemma OtherStepKeepsInv(opening: map<string, int>, s: State, a: Action)
    requires Inv(opening, s)
    ensures Inv(opening, OtherStep(s, a))
  {
    var after := OtherStep(s, a);
    if a.MoveMoney? && after != s {
      PostKeepsInv(opening, s, a.customer, ByAdmin, a.amount);
    } else {
      RowsKeepLedger(opening, s.db, after.db);
    }
  }

  lemma StepKeepsInv(opening: map<string, int>, s: State, a: Action)
    requires Inv(opening, s)
    ensures Inv(opening, Apply(s, a))
  {
    if a.Request? || a.Resume? {
      RequestKeepsInv(opening, s, a.key, a.months);
    } else if ByOthers(a) {
      OtherStepKeepsInv(opening, s, a);
    } else {
      WorkerStepKeepsInv(opening, s, a.node, a);
    }
  }

  /** Before the first renewal: opening balances, no entries, nobody at work. */
  ghost predicate Init(opening: map<string, int>, s: State) {
    && s.db.ledger == [] && s.db.renewals == map[] && s.workers == map[]
    && (forall c <- s.db.customers :: 0 <= s.db.customers[c].balance == Opening(opening, c))
    && RemotesOk(s.remote)
  }

  lemma {:induction false} EveryRunKeepsInv(opening: map<string, int>, start: State, actions: seq<Action>)
    requires Init(opening, start)
    ensures Inv(opening, Run(start, actions))
  {
    if actions != [] {
      EveryRunKeepsInv(opening, start, actions[..|actions| - 1]);
      StepKeepsInv(opening, Run(start, actions[..|actions| - 1]), actions[|actions| - 1]);
    }
  }

  // ---- what has happened stays ----

  /** Entries stay, renewals keep their terms, and closed renewals do not change. */
  ghost predicate Extends(before: Db, after: Db) {
    && before.ledger <= after.ledger
    && forall k <- before.renewals ::
         && k in after.renewals
         && SameTerms(before.renewals[k], after.renewals[k])
         && (before.renewals[k].status != Pending ==> after.renewals[k] == before.renewals[k])
  }

  predicate SameTerms(r: Renewal, later: Renewal) {
    && later.months == r.months && later.amount == r.amount && later.target == r.target
    && later.snapshot == r.snapshot && later.debitRow == r.debitRow && r.events <= later.events
    && (r.detail.writeStarted ==> later.detail.writeStarted)
  }

  lemma OwnUpdateExtends(db: Db, key: Key, r: Renewal)
    requires key in db.renewals && db.renewals[key].status == Pending && SameTerms(db.renewals[key], r)
    ensures Extends(db, WithRenewal(db, key, r)) && Extends(db, db)
  {
  }

  lemma RefundExtends(s: State, node: string, p: Local, reply: Reply, fallback: Reply)
    requires Holds(s.db.renewals, node, p)
    ensures Extends(s.db, DoRefund(s, node, p, reply, fallback).db)
  {
    var tx := RefundTx(s.db, p.key, p.detail);
    if tx.Some? {
      assert tx.value.ledger[..|s.db.ledger|] == s.db.ledger;
    }
  }

  lemma DebitExtends(s: State, node: string, w: Worker, reply: Reply)
    requires w.Priced?
    ensures Extends(s.db, DoDebit(s, node, w, reply).db)
  {
    var tx := DebitTx(s.db, w.request, w.months, w.snapshot, w.now, s.offset);
    if tx.Some? {
      assert tx.value.ledger[..|s.db.ledger|] == s.db.ledger;
    }
  }

  lemma OtherStepExtends(s: State, a: Action)
    ensures Extends(s.db, OtherStep(s, a).db)
  {
    if a.MoveMoney? && OtherStep(s, a) != s {
      assert OtherStep(s, a).db.ledger[..|s.db.ledger|] == s.db.ledger;
    }
  }

  lemma StepExtends(opening: map<string, int>, s: State, a: Action)
    requires Inv(opening, s)
    ensures Extends(s.db, Apply(s, a).db)
  {
    if a.Request? || a.Resume? {
      assert Apply(s, a).db == s.db;
    } else if ByOthers(a) {
      OtherStepExtends(s, a);
    } else {
      assert WorkerOk(s.db.renewals, a.node, WorkerOf(s, a.node));
      WorkerStepExtends(s, a.node, a);
    }
  }

  lemma WorkerStepExtends(s: State, node: string, a: Action)
    requires WorkerOk(s.db.renewals, node, WorkerOf(s, node))
    ensures Extends(s.db, WorkerStep(s, node, a).db)
  {
    var w := WorkerOf(s, node);
    if w.Idle? || w.Requested? || w.Priced? {
      FirstStepExtends(s, node, a);
    } else if w.Started? || w.WriteAllowed? || w.Marked? || w.Unsure? {
      OpenStepExtends(s, node, a);
    } else {
      ClosingStepExtends(s, node, a);
    }
  }

  lemma FirstStepExtends(s: State, node: string, a: Action)
    requires WorkerOf(s, node).Idle? || WorkerOf(s, node).Requested? || WorkerOf(s, node).Priced?
    ensures Extends(s.db, WorkerStep(s, node, a).db)
  {
    var w := WorkerOf(s, node);
    if w.Priced? && a.DebitStep? {
      DebitExtends(s, node, w, a.reply);
    } else {
      assert WorkerStep(s, node, a).db == s.db;
    }
  }

  lemma OpenStepExtends(s: State, node: string, a: Action)
    requires WorkerOk(s.db.renewals, node, WorkerOf(s, node))
    requires
      var w := WorkerOf(s, node);
      w.Started? || w.WriteAllowed? || w.Marked? || w.Unsure?
    ensures Extends(s.db, WorkerStep(s, node, a).db)
  {
    match WorkerOf(s, node)
    case Started(p) => if a.ReadState? { ReadExtends(s, node, p, a.ok, a.noted); }
    case WriteAllowed(p) => if a.MarkStarted? { MarkExtends(s, node, p, a.reply); }
    case Marked(p) => if a.WriteTarget? { WriteExtends(s, node, p, a.reply); }
    case Unsure(p) => if a.ReadUnsure? { ReadExtends(s, node, p, a.ok, a.noted); }
  }

  lemma ClosingStepExtends(s: State, node: string, a: Action)
    requires WorkerOk(s.db.renewals, node, WorkerOf(s, node))
    requires
      var w := WorkerOf(s, node);
      w.Confirmed? || w.LocalFailed? || w.RolledBack? || w.Refunding? || w.Reconciling?
    ensures Extends(s.db, WorkerStep(s, node, a).db)
  {
    match WorkerOf(s, node)
    case Confirmed(p) => if a.Finalize? { CloseExtends(s, node, p, a.reply, a.verified); }
    case LocalFailed(p) => if a.WriteSnapshot? { WriteExtends(s, node, p, a.reply); }
    case RolledBack(p) => if a.ReadRollback? { ReadExtends(s, node, p, a.ok, false); }
    case Refunding(p) => if a.RefundStep? { RefundExtends(s, node, p, a.reply, a.fallback); }
    case Reconciling(p) => if a.Reconcile? { CloseExtends(s, node, p, a.reply, false); }
  }

  lemma ReadExtends(s: State, node: string, p: Local, ok: bool, noted: bool)
    requires Holds(s.db.renewals, node, p)
    ensures Extends(s.db, DoReadState(s, node, p, ok, noted).db)
    ensures Extends(s.db, DoReadUnsure(s, node, p, ok, noted).db)
    ensures Extends(s.db, DoReadRollback(s, node, p, ok).db)
  {
    var r := s.db.renewals[p.key];
    OwnUpdateExtends(s.db, p.key, r.(detail := p.detail));
    if node in s.remote {
      OwnUpdateExtends(s.db, p.key, r.(events := r.events + [Saw(s.remote[node], p.enable)]));
    }
  }

  lemma MarkExtends(s: State, node: string, p: Local, reply: Reply)
    requires Holds(s.db.renewals, node, p)
    ensures Extends(s.db, DoMarkStarted(s, node, p, reply).db)
  {
    OwnUpdateExtends(s.db, p.key, s.db.renewals[p.key].(detail := p.detail.(writeStarted := true)));
  }

  lemma WriteExtends(s: State, node: string, p: Local, reply: Reply)
    requires Holds(s.db.renewals, node, p)
    ensures Extends(s.db, DoWriteTarget(s, node, p, reply).db)
    ensures Extends(s.db, DoWriteSnapshot(s, node, p, reply).db)
  {
    var r := s.db.renewals[p.key];
    var sure := reply.Applied? && node in s.remote;
    OwnUpdateExtends(s.db, p.key, r.(events := r.events + [Sent(TargetState(s, p), sure)]));
    OwnUpdateExtends(s.db, p.key, r.(events := r.events + [Undone(SnapshotState(s, p), sure)]));
  }

  lemma CloseExtends(s: State, node: string, p: Local, reply: Reply, verified: bool)
    requires Holds(s.db.renewals, node, p)
    ensures Extends(s.db, DoFinalize(s, node, p, reply, verified).db)
    ensures Extends(s.db, DoReconcile(s, node, p, reply).db)
  {
    var r := s.db.renewals[p.key];
    OwnUpdateExtends(s.db, p.key, r.(status := Success));
    OwnUpdateExtends(s.db, p.key, r.(status := Failed, detail := p.detail.(reconciliation := true)));
  }

  lemma {:induction false} RunExtends(opening: map<string, int>, start: State, actions: seq<Action>, more: seq<Action>)
    requires Init(opening, start)
    ensures Extends(Run(start, actions).db, Run(start, actions + more).db)
  {
    if more == [] {
      assert actions + more == actions;
    } else {
      var most := more[..|more| - 1];
      RunExtends(opening, start, actions, most);
      assert (actions + more)[..|actions + more| - 1] == actions + most;
      EveryRunKeepsInv(opening, start, actions + most);
      StepExtends(opening, Run(start, actions + most), more[|more| - 1]);
    }
  }

  // ---- the money of a renewal ----

  /** What the entries of a renewal add up to. */
  function Net(ledger: seq<Entry>, key: Key): int {
    if ledger == [] then 0
    else
      var e := ledger[|ledger| - 1];
      Net(ledger[..|ledger| - 1], key) + if e.source == DebitOf(key) || e.source == RefundOf(key) then e.amount else 0
  }

  lemma {:induction false} NetOfCounts(ledger: seq<Entry>, renewals: map<Key, Renewal>, key: Key)
    requires key in renewals && forall e <- ledger :: EntryNames(renewals, e)
    ensures Net(ledger, key) == (Count(ledger, RefundOf(key)) - Count(ledger, DebitOf(key))) * renewals[key].amount
  {
    if ledger != [] {
      var e := ledger[|ledger| - 1];
      assert e in ledger && EntryNames(renewals, e);
      var most := ledger[..|ledger| - 1];
      NetOfCounts(most, renewals, key);
      var step := (if e.source == RefundOf(key) then 1 else 0) - (if e.source == DebitOf(key) then 1 else 0);
      Distribute(Count(most, RefundOf(key)) - Count(most, DebitOf(key)), step, renewals[key].amount);
    }
  }

  lemma Distribute(k: int, step: int, amount: int)
    ensures (k + step) * amount == k * amount + step * amount
  {
  }

  /** In every run a renewal was debited once, and is pending, done, refunded in
      full, or waiting for reconciliation; the last three are for good. */
  lemma FourStates(opening: map<string, int>, start: State, actions: seq<Action>, more: seq<Action>, key: Key)
    requires Init(opening, start)
    requires key in Run(start, actions).db.renewals
    ensures
      var db := Run(start, actions).db;
      var r := db.renewals[key];
      && Count(db.ledger, DebitOf(key)) == 1
      && Count(db.ledger, RefundOf(key)) == (if r.detail.refunded then 1 else 0)
      && Net(db.ledger, key) == (if r.detail.refunded then 0 else 0 - r.amount)
      && (r.detail.refunded || r.detail.reconciliation <==> r.status == Failed)
      && !(r.detail.refunded && r.detail.reconciliation)
    ensures
      var db := Run(start, actions).db;
      var later := Run(start, actions + more).db;
      && key in later.renewals
      && (db.renewals[key].status != Pending ==>
            later.renewals[key] == db.renewals[key] && Net(later.ledger, key) == Net(db.ledger, key))
  {
    EveryRunKeepsInv(opening, start, actions);
    EveryRunKeepsInv(opening, start, actions + more);
    RunExtends(opening, start, actions, more);
    Accounted(opening, Run(start, actions), key);
    Accounted(opening, Run(start, actions + more), key);
  }

  /** A renewal's debits and refunds, by its state. */
  lemma Accounted(opening: map<string, int>, s: State, key: Key)
    requires Inv(opening, s) && key in s.db.renewals
    ensures
      var r := s.db.renewals[key];
      && Count(s.db.ledger, DebitOf(key)) == 1
      && Count(s.db.ledger, RefundOf(key)) == (if r.detail.refunded then 1 else 0)
      && Net(s.db.ledger, key) == (if r.detail.refunded then 0 else 0 - r.amount)
      && (r.detail.refunded || r.detail.reconciliation <==> r.status == Failed)
      && !(r.detail.refunded && r.detail.reconciliation)
  {
    assert RenewalOk(s.db.ledger, key, s.db.renewals[key]);
    NetOfCounts(s.db.ledger, s.db.renewals, key);
  }

  /** In every run balances are never negative, are explained by the entries, and
      the entries of a customer form a chain. */
  lemma LedgerExplainsBalances(opening: map<string, int>, start: State, actions: seq<Action>, customer: string)
    requires Init(opening, start)
    ensures
      var db := Run(start, actions).db;
      && (customer in db.customers ==>
            0 <= db.customers[customer].balance == Opening(opening, customer) + Sum(db.ledger, customer))
      && forall i, j :: (0 <= i < j < |db.ledger| && db.ledger[i].customer == customer == db.ledger[j].customer
                         && (forall m :: i < m < j ==> db.ledger[m].customer != customer))
           ==> db.ledger[i].after == db.ledger[j].before
  {
    EveryRunKeepsInv(opening, start, actions);
    var ledger := Run(start, actions).db.ledger;
    forall i, j | 0 <= i < j < |ledger| && ledger[i].customer == customer == ledger[j].customer
                  && (forall m :: i < m < j ==> ledger[m].customer != customer)
      ensures ledger[i].after == ledger[j].before
    {
      EntriesChain(opening, ledger, i, j);
    }
  }

  lemma EntriesChain(opening: map<string, int>, ledger: seq<Entry>, i: nat, j: nat)
    requires i < j < |ledger| && EntryOk(opening, ledger, i) && EntryOk(opening, ledger, j)
    requires ledger[j].customer == ledger[i].customer
    requires forall m :: i < m < j ==> ledger[m].customer != ledger[i].customer
    ensures ledger[i].after == ledger[j].before
  {
    assert ledger[..i + 1][..i] == ledger[..i];
    SumSkips(ledger, ledger[i].customer, i + 1, j);
  }

  lemma {:induction false} SumSkips(ledger: seq<Entry>, customer: string, i: nat, j: nat)
    requires i <= j <= |ledger| && forall m :: i <= m < j ==> ledger[m].customer != customer
    ensures Sum(ledger[..j], customer) == Sum(ledger[..i], customer)
    decreases j
  {
    if i < j {
      assert ledger[..j][..j - 1] == ledger[..j - 1];
      SumSkips(ledger, customer, i, j - 1);
    }
  }

  /** A success was confirmed on the panel, by a state that is not the one before
      the renewal; a refund means that the write was never announced and the target
      never sent, or that the panel was last seen back at the snapshot. */
  lemma RemoteAgreement(opening: map<string, int>, start: State, actions: seq<Action>, key: Key)
    requires Init(opening, start)
    requires key in Run(start, actions).db.renewals
    ensures
      var r := Run(start, actions).db.renewals[key];
      && (r.status == Success ==>
            && Confirming(r)
            && !RemoteMatchesSnapshot(r.events[|r.events| - 1].state, r.snapshot))
      && (r.detail.refunded ==> (NeverSent(r) && !r.detail.writeStarted) || SeenAtSnapshot(r))
    ensures
      var r := Run(start, actions).db.renewals[key];
      && (r.status == Success ==>
            && r.events != []
            && var e := r.events[|r.events| - 1];
            && (e.Saw? || (e.Sent? && e.confirmed)) && r.target - 1000 <= e.state.expiry <= r.target + 1000
            && (e.Saw? ==> e.state.enable == e.enable)
            && e.state.expiry > r.snapshot.expiry + 1000)
      && (r.detail.refunded && r.detail.writeStarted ==>
            && r.events != []
            && var e := r.events[|r.events| - 1];
            && e.Saw? && r.snapshot.expiry - 1000 <= e.state.expiry <= r.snapshot.expiry + 1000
            && e.state.enable == r.snapshot.enable)
  {
    EveryRunKeepsInv(opening, start, actions);
    var db := Run(start, actions).db;
    assert RenewalOk(db.ledger, key, db.renewals[key]);
  }
}
