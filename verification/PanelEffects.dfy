/** What a renewal writes to a panel, what it notes about the panel, and how a
    recovery pass decides. */
module PanelEffects {
  import opened Options
  import opened Calendar
  import opened RenewalRows
  import opened RenewalSaga
  import opened RenewalSafety
  import opened RenewalProgress
  import Effects = RenewalEffects

  // ---- writes ----

  /** The expiry written to a panel: S-UI keeps whole seconds. */
  function Written(s: State, node: string, expiry: int): int {
    if node in s.sui then expiry / 1000 * 1000 else expiry
  }

  /** A worker past its marks writes its target with the flag it wants, one whose
      commit failed writes the snapshot back. */
  ghost predicate OwnWrite(s: State, node: string, state: Remote) {
    var w := WorkerOf(s, node);
    && (w.Marked? || w.LocalFailed?) && Holds(s.db.renewals, node, w.p)
    && var r := s.db.renewals[w.p.key];
    if w.Marked? then r.detail.writeStarted && state == Remote(Written(s, node, r.target), w.p.enable)
    else state == Remote(if r.snapshot.expiry > 0 then Written(s, node, r.snapshot.expiry) else 0, r.snapshot.enable)
  }

  /** A panel changes by somebody else's edit, or by a renewal's own write to its node. */
  lemma PanelWrites(opening: map<string, int>, s: State, a: Action)
    requires Inv(opening, s)
    ensures Apply(s, a).remote != s.remote ==>
      a.EditRemote?
      || ((a.WriteTarget? || a.WriteSnapshot?) && a.node in s.remote
          && exists state :: OwnWrite(s, a.node, state) && Apply(s, a).remote == s.remote[a.node := state])
  {
    if a.Request? || a.Resume? || ByOthers(a) {
      OthersRemote(s, a);
    } else {
      OnlyWritesReachPanel(s, a.node, a);
      assert WorkerOk(s.db.renewals, a.node, WorkerOf(s, a.node));
      if a.WriteTarget? && WorkerOf(s, a.node).Marked? {
        TargetWrite(s, a.node, WorkerOf(s, a.node).p, a.reply);
      } else if a.WriteSnapshot? && WorkerOf(s, a.node).LocalFailed? {
        SnapshotWrite(s, a.node, WorkerOf(s, a.node).p, a.reply);
      }
    }
  }

  lemma OthersRemote(s: State, a: Action)
    ensures (a.Request? || a.Resume? || ByOthers(a)) && !a.EditRemote? ==> Apply(s, a).remote == s.remote
  {
  }

  lemma OnlyWritesReachPanel(s: State, node: string, a: Action)
    ensures
      WorkerStep(s, node, a).remote != s.remote ==>
        (a.WriteTarget? && WorkerOf(s, node).Marked?) || (a.WriteSnapshot? && WorkerOf(s, node).LocalFailed?)
  {
  }

  lemma TargetWrite(s: State, node: string, p: Local, reply: Reply)
    requires WorkerOf(s, node) == Marked(p) && WorkerOk(s.db.renewals, node, Marked(p))
    ensures
      var after := Apply(s, WriteTarget(node, reply)).remote;
      after == s.remote || (node in s.remote && exists state :: OwnWrite(s, node, state) && after == s.remote[node := state])
  {
    WriteTargetIs(s, node, p, reply);
    assert OwnWrite(s, node, Remote(Written(s, node, s.db.renewals[p.key].target), p.enable));
  }

  lemma SnapshotWrite(s: State, node: string, p: Local, reply: Reply)
    requires WorkerOf(s, node) == LocalFailed(p) && WorkerOk(s.db.renewals, node, LocalFailed(p))
    ensures
      var after := Apply(s, WriteSnapshot(node, reply)).remote;
      after == s.remote || (node in s.remote && exists state :: OwnWrite(s, node, state) && after == s.remote[node := state])
  {
    WriteSnapshotIs(s, node, p, reply);
    var r := s.db.renewals[p.key];
    assert OwnWrite(s, node, Remote(if r.snapshot.expiry > 0 then Written(s, node, r.snapshot.expiry) else 0, r.snapshot.enable));
  }

  // ---- notes ----

  /** A note about the panel is true at the step that makes it: what was seen was
      there before the step, and what was confirmed as written is there after it. */
  predicate True(before: map<string, Remote>, after: map<string, Remote>, node: string, e: Event) {
    match e
    case Saw(state, _) => node in before && before[node] == state
    case Sent(state, confirmed) => confirmed ==> node in after && after[node] == state
    case Undone(state, confirmed) => confirmed ==> node in after && after[node] == state
  }

  ghost predicate Noted(s: State, t: State, key: Key, e: Event) {
    && key in t.db.renewals && key in s.db.renewals
    && t.db.renewals[key].events == s.db.renewals[key].events + [e]
  }

  ghost predicate NotesNothing(s: State, t: State, key: Key) {
    key in s.db.renewals && key in t.db.renewals ==> t.db.renewals[key].events == s.db.renewals[key].events
  }

  ghost predicate NotesTruly(s: State, t: State, key: Key) {
    NotesNothing(s, t, key) || exists e :: Noted(s, t, key, e) && True(s.remote, t.remote, key.node, e)
  }

  /** Every step adds at most one note to a renewal, and it is true. */
  lemma NotesAreTrue(opening: map<string, int>, s: State, a: Action, key: Key)
    requires Inv(opening, s)
    ensures NotesTruly(s, Apply(s, a), key)
  {
    if a.Request? || a.Resume? || ByOthers(a) {
      OthersNotes(s, a);
    } else {
      assert WorkerOk(s.db.renewals, a.node, WorkerOf(s, a.node));
      WorkerNotes(s, a, WorkerOf(s, a.node), key);
    }
  }

  lemma OthersNotes(s: State, a: Action)
    requires a.Request? || a.Resume? || ByOthers(a)
    ensures Apply(s, a).db.renewals == s.db.renewals
  {
  }

  lemma WorkerNotes(s: State, a: Action, w: Worker, key: Key)
    requires !a.Request? && !a.Resume? && !ByOthers(a) && WorkerOf(s, a.node) == w && WorkerOk(s.db.renewals, a.node, w)
    ensures NotesTruly(s, Apply(s, a), key)
  {
    if (w.Started? && a.ReadState?) || (w.Unsure? && a.ReadUnsure?) || (w.RolledBack? && a.ReadRollback?) {
      ReadNotes(s, a.node, w, a, key);
    } else if w.Marked? && a.WriteTarget? {
      WriteTargetIs(s, a.node, w.p, a.reply);
      WriteNotes(s, a.node, w.p, a.reply, key);
    } else if w.LocalFailed? && a.WriteSnapshot? {
      WriteSnapshotIs(s, a.node, w.p, a.reply);
      UndoNotes(s, a.node, w.p, a.reply, key);
    } else {
      OthersNoteNothing(s, a.node, a, key);
    }
  }

  lemma ReadNotes(s: State, node: string, w: Worker, a: Action, key: Key)
    requires WorkerOf(s, node) == w && WorkerOk(s.db.renewals, node, w)
    requires (w.Started? && a.ReadState?) || (w.Unsure? && a.ReadUnsure?) || (w.RolledBack? && a.ReadRollback?)
    requires a.node == node
    ensures NotesTruly(s, Apply(s, a), key)
  {
    var p := w.p;
    if w.Started? {
      ReadStateIs(s, node, p, a.ok, a.noted);
    } else if w.Unsure? {
      ReadUnsureIs(s, node, p, a.ok, a.noted);
    } else {
      ReadRollbackIs(s, node, p, a.ok);
    }
    if a.ok && node in s.remote && key == p.key {
      assert Noted(s, Apply(s, a), key, Saw(s.remote[node], p.enable));
    }
  }

  lemma WriteNotes(s: State, node: string, p: Local, reply: Reply, key: Key)
    requires Holds(s.db.renewals, node, p)
    ensures NotesTruly(s, DoWriteTarget(s, node, p, reply), key)
  {
    if key == p.key {
      assert Noted(s, DoWriteTarget(s, node, p, reply), key, Sent(TargetState(s, p), reply.Applied? && node in s.remote));
    }
  }

  lemma UndoNotes(s: State, node: string, p: Local, reply: Reply, key: Key)
    requires Holds(s.db.renewals, node, p)
    ensures NotesTruly(s, DoWriteSnapshot(s, node, p, reply), key)
  {
    if key == p.key {
      assert Noted(s, DoWriteSnapshot(s, node, p, reply), key, Undone(SnapshotState(s, p), reply.Applied? && node in s.remote));
    }
  }

  lemma OthersNoteNothing(s: State, node: string, a: Action, key: Key)
    requires
      var w := WorkerOf(s, node);
      && !(w.Started? && a.ReadState?) && !(w.Unsure? && a.ReadUnsure?) && !(w.RolledBack? && a.ReadRollback?)
      && !(w.Marked? && a.WriteTarget?) && !(w.LocalFailed? && a.WriteSnapshot?)
    requires WorkerOk(s.db.renewals, node, WorkerOf(s, node))
    ensures NotesNothing(s, WorkerStep(s, node, a), key)
  {
  }

  // ---- the verdict of a recovery pass ----

  predicate Near(x: int, y: int) {
    x - 1000 <= y <= x + 1000
  }

  predicate Shows(state: Remote, expiry: int, enable: bool) {
    Near(state.expiry, expiry) && state.enable == enable
  }

  /** The flag a resumed renewal wants: on when its node had expired, else as found. */
  predicate Wanted(node: Node, r: Renewal) {
    (!node.active && node.reason == Expired) || r.snapshot.enable
  }

  datatype Verdict = Renews | Refunds | SetsAside

  /** What a pass decides from what the panel shows and how its one write ends. */
  function PassVerdict(s: State, key: Key, reply: Reply): Verdict
    requires Recoverable(s, key)
  {
    var r, state := s.db.renewals[key], s.remote[key.node];
    if Shows(state, r.target, Wanted(s.db.nodes[key.node], r)) then Renews
    else if Shows(state, r.snapshot.expiry, r.snapshot.enable) && !reply.NotApplied? then Renews
    else if !Shows(state, r.snapshot.expiry, r.snapshot.enable) && r.detail.writeStarted then SetsAside
    else if key.customer in s.db.customers then Refunds
    else SetsAside
  }

  /** The worker of a node goes on alone, with reads and commits that succeed. */
  function Alone(s: State, node: string, reply: Reply, steps: nat): State
    decreases steps
  {
    if steps == 0 || WorkerOf(s, node).Idle? then s
    else Alone(Apply(s, CalmAction(node, WorkerOf(s, node), reply)), node, reply, steps - 1)
  }

  /** How a pass leaves the rows and the panel. */
  ghost predicate Concluded(s: State, t: State, key: Key, verdict: Verdict, wanted: bool) {
    && key in s.db.renewals && key in t.db.renewals && key.node in s.remote && key.node in t.remote
    && var r, after := s.db.renewals[key], t.db.renewals[key];
    && WorkerOf(t, key.node).Idle? && SameTerms(r, after)
    && match verdict
       case Renews =>
         && after.status == Success && Shows(t.remote[key.node], r.target, wanted)
         && key.node in t.db.nodes && t.db.nodes[key.node].expireAt == Some(r.target)
         && t.db.nodes[key.node].active && t.db.nodes[key.node].reason == NoReason
         && t.db.customers == s.db.customers
       case Refunds =>
         && after.detail.refunded && t.remote == s.remote && t.db.nodes == s.db.nodes
         && key.customer in s.db.customers && key.customer in t.db.customers
         && t.db.customers[key.customer].balance == s.db.customers[key.customer].balance + r.amount
       case SetsAside =>
         && after.detail.reconciliation && t.remote == s.remote && t.db.nodes == s.db.nodes
         && t.db.customers == s.db.customers
  }

  /** A worker with its pending renewal, the complete records and the client. */
  ghost predicate Has(s: State, node: string, p: Local) {
    && Holds(s.db.renewals, node, p) && Complete(s.db, p.key) && node in s.remote
    && s.db.renewals[p.key].target >= s.db.renewals[p.key].snapshot.expiry + 28 * DAY_MS
  }

  // ---- the last step ----

  lemma Finishes(s: State, node: string, p: Local, reply: Reply, steps: nat)
    requires Has(s, node, p) && WorkerOf(s, node) == Confirmed(p) && steps > 0
    requires Shows(s.remote[node], s.db.renewals[p.key].target, p.enable)
    ensures Concluded(s, Alone(s, node, reply, steps), p.key, Renews, p.enable)
  {
    FinalizeIs(s, node, p, Applied, true);
  }

  lemma GivesBack(s: State, node: string, p: Local, reply: Reply, steps: nat)
    requires Has(s, node, p) && WorkerOf(s, node) == Refunding(p) && steps > 0
    ensures Concluded(s, Alone(s, node, reply, steps), p.key,
                      if p.key.customer in s.db.customers then Refunds else SetsAside, p.enable)
  {
    RefundStepIs(s, node, p, Applied, Applied);
  }

  lemma LeavesToPerson(s: State, node: string, p: Local, reply: Reply, steps: nat)
    requires Has(s, node, p) && WorkerOf(s, node) == Reconciling(p) && steps > 0
    ensures Concluded(s, Alone(s, node, reply, steps), p.key, SetsAside, p.enable)
  {
    ReconcileIs(s, node, p, Applied);
  }

  // ---- the steps before ----

  /** Nothing but the notes and the flag of the renewal has changed in the rows. */
  ghost predicate Onward(s: State, m: State, key: Key) {
    && m.db.customers == s.db.customers && m.db.nodes == s.db.nodes
    && key in s.db.renewals && key in m.db.renewals && SameTerms(s.db.renewals[key], m.db.renewals[key])
    && key.node in s.remote && key.node in m.remote
  }

  lemma ConcludedBefore(s: State, m: State, t: State, key: Key, verdict: Verdict, wanted: bool)
    requires Onward(s, m, key) && Concluded(m, t, key, verdict, wanted)
    requires verdict.Renews? || m.remote == s.remote
    ensures Concluded(s, t, key, verdict, wanted)
  {
  }

  lemma FirstRead(s: State, node: string, p: Local)
    requires Has(s, node, p) && WorkerOf(s, node) == Started(p)
    ensures
      var m, r := Apply(s, ReadState(node, true, true)), s.db.renewals[p.key];
      && Onward(s, m, p.key) && m.remote == s.remote && Has(m, node, p)
      && WorkerOf(m, node) ==
           if Shows(s.remote[node], r.target, p.enable) then Confirmed(p)
           else if Shows(s.remote[node], r.snapshot.expiry, r.snapshot.enable) then WriteAllowed(p)
           else if !r.detail.writeStarted then Refunding(p)
           else Reconciling(p)
  {
    ReadStateIs(s, node, p, true, true);
  }

  lemma Marks(s: State, node: string, p: Local)
    requires Has(s, node, p) && WorkerOf(s, node) == WriteAllowed(p)
    ensures
      var m, q := Apply(s, MarkStarted(node, Applied)), p.(detail := p.detail.(writeStarted := true));
      Onward(s, m, p.key) && m.remote == s.remote && Has(m, node, q) && WorkerOf(m, node) == Marked(q)
  {
    MarkStartedIs(s, node, p, Applied);
  }

  lemma Writes(s: State, node: string, p: Local, reply: Reply)
    requires Has(s, node, p) && WorkerOf(s, node) == Marked(p)
    ensures
      var m := Apply(s, WriteTarget(node, reply));
      && Onward(s, m, p.key) && Has(m, node, p)
      && WorkerOf(m, node) == (if reply.Applied? then Confirmed(p) else Unsure(p))
      && if reply.NotApplied? then m.remote == s.remote else Shows(m.remote[node], s.db.renewals[p.key].target, p.enable)
  {
    WriteTargetIs(s, node, p, reply);
  }

  lemma SecondRead(s: State, node: string, p: Local)
    requires Has(s, node, p) && WorkerOf(s, node) == Unsure(p)
    ensures
      var m, r := Apply(s, ReadUnsure(node, true, true)), s.db.renewals[p.key];
      && Onward(s, m, p.key) && m.remote == s.remote && Has(m, node, p)
      && WorkerOf(m, node) ==
           if Shows(s.remote[node], r.target, p.enable) then Confirmed(p)
           else if Shows(s.remote[node], r.snapshot.expiry, r.snapshot.enable) then Refunding(p)
           else Reconciling(p)
  {
    ReadUnsureIs(s, node, p, true, true);
  }

  // ---- the pass ----

  function AfterUnsure(s: State, p: Local, reply: Reply): Verdict {
    if !reply.NotApplied? then Renews else if p.key.customer in s.db.customers then Refunds else SetsAside
  }

  lemma FromUnsure(s: State, node: string, p: Local, reply: Reply)
    requires Has(s, node, p) && WorkerOf(s, node) == Unsure(p)
    requires
      var r := s.db.renewals[p.key];
      if reply.NotApplied? then Shows(s.remote[node], r.snapshot.expiry, r.snapshot.enable)
      else Shows(s.remote[node], r.target, p.enable)
    ensures Concluded(s, Alone(s, node, reply, 2), p.key, AfterUnsure(s, p, reply), p.enable)
  {
    var m := Apply(s, ReadUnsure(node, true, true));
    SecondRead(s, node, p);
    if reply.NotApplied? {
      GivesBack(m, node, p, reply, 1);
    } else {
      Finishes(m, node, p, reply, 1);
    }
    ConcludedBefore(s, m, Alone(m, node, reply, 1), p.key, AfterUnsure(s, p, reply), p.enable);
  }

  lemma FromMarked(s: State, node: string, p: Local, reply: Reply)
    requires Has(s, node, p) && WorkerOf(s, node) == Marked(p)
    requires Shows(s.remote[node], s.db.renewals[p.key].snapshot.expiry, s.db.renewals[p.key].snapshot.enable)
    ensures Concluded(s, Alone(s, node, reply, 3), p.key, AfterUnsure(s, p, reply), p.enable)
  {
    var m := Apply(s, WriteTarget(node, reply));
    Writes(s, node, p, reply);
    if reply.Applied? {
      Finishes(m, node, p, reply, 2);
    } else {
      FromUnsure(m, node, p, reply);
    }
    ConcludedBefore(s, m, Alone(m, node, reply, 2), p.key, AfterUnsure(s, p, reply), p.enable);
  }

  lemma FromWriteAllowed(s: State, node: string, p: Local, reply: Reply)
    requires Has(s, node, p) && WorkerOf(s, node) == WriteAllowed(p)
    requires Shows(s.remote[node], s.db.renewals[p.key].snapshot.expiry, s.db.renewals[p.key].snapshot.enable)
    ensures Concluded(s, Alone(s, node, reply, 4), p.key, AfterUnsure(s, p, reply), p.enable)
  {
    var m, q := Apply(s, MarkStarted(node, Applied)), p.(detail := p.detail.(writeStarted := true));
    Marks(s, node, p);
    FromMarked(m, node, q, reply);
    ConcludedBefore(s, m, Alone(m, node, reply, 3), p.key, AfterUnsure(s, p, reply), p.enable);
  }

  lemma FromStarted(s: State, node: string, p: Local, reply: Reply)
    requires Has(s, node, p) && WorkerOf(s, node) == Started(p)
    ensures
      var r, state := s.db.renewals[p.key], s.remote[node];
      Concluded(s, Alone(s, node, reply, 5), p.key,
        if Shows(state, r.target, p.enable) then Renews
        else if Shows(state, r.snapshot.expiry, r.snapshot.enable) then AfterUnsure(s, p, reply)
        else if !r.detail.writeStarted && p.key.customer in s.db.customers then Refunds
        else SetsAside, p.enable)
  {
    var r, state := s.db.renewals[p.key], s.remote[node];
    var m := Apply(s, ReadState(node, true, true));
    FirstRead(s, node, p);
    if Shows(state, r.target, p.enable) {
      Finishes(m, node, p, reply, 4);
      ConcludedBefore(s, m, Alone(m, node, reply, 4), p.key, Renews, p.enable);
    } else if Shows(state, r.snapshot.expiry, r.snapshot.enable) {
      FromWriteAllowed(m, node, p, reply);
      ConcludedBefore(s, m, Alone(m, node, reply, 4), p.key, AfterUnsure(s, p, reply), p.enable);
    } else if !r.detail.writeStarted {
      GivesBack(m, node, p, reply, 4);
      ConcludedBefore(s, m, Alone(m, node, reply, 4), p.key, if p.key.customer in s.db.customers then Refunds else SetsAside, p.enable);
    } else {
      LeavesToPerson(m, node, p, reply, 4);
      ConcludedBefore(s, m, Alone(m, node, reply, 4), p.key, SetsAside, p.enable);
    }
  }

  /** From every reachable pending renewal with complete records and a free lock, a
      pass whose reads and commits succeed renews when the panel shows the target,
      or shows the snapshot and takes the write; it refunds when the panel refused
      the write, or shows neither while none was announced; else a person decides. */
  lemma RecoveryVerdict(opening: map<string, int>, start: State, actions: seq<Action>, key: Key, reply: Reply)
    requires Init(opening, start) && Recoverable(Run(start, actions), key)
    ensures
      var s := Run(start, actions);
      Concluded(s, Alone(Resumed(s, key), key.node, reply, 5), key, PassVerdict(s, key, reply),
                Wanted(s.db.nodes[key.node], s.db.renewals[key]))
  {
    var s := Run(start, actions);
    EveryRunKeepsInv(opening, start, actions);
    assert RenewalOk(s.db.ledger, key, s.db.renewals[key]);
    var m, wanted := Resumed(s, key), Wanted(s.db.nodes[key.node], s.db.renewals[key]);
    var p := Local(key, s.db.renewals[key].detail, wanted);
    assert WorkerOf(m, key.node) == Started(p);
    FromStarted(m, key.node, p, reply);
    ConcludedBefore(s, m, Alone(m, key.node, reply, 5), key, PassVerdict(s, key, reply), wanted);
  }

  // ---- a whole purchase ----

  /** The request, the first read and the debit. */
  function Ordered(s: State, key: Key, months: nat, now: int): State {
    Apply(Apply(Apply(s, Request(key, months)), ReadBefore(key.node, true, now)), DebitStep(key.node, Applied))
  }

  lemma OrderReads(s: State, key: Key, months: nat, now: int)
    requires Effects.Chargeable(s.db, key, months) && !PendingOn(s.db, key.node)
    requires WorkerOf(s, key.node).Idle? && key.node in s.remote && months > 0 && now >= 0
    ensures
      var read := Apply(Apply(s, Request(key, months)), ReadBefore(key.node, true, now));
      && read.db == s.db && read.remote == s.remote && read.offset == s.offset
      && WorkerOf(read, key.node) == Priced(key, months, s.remote[key.node], now)
  {
  }

  lemma OrderStarts(opening: map<string, int>, s: State, key: Key, months: nat, now: int)
    requires Inv(opening, s) && Effects.Chargeable(s.db, key, months) && !PendingOn(s.db, key.node)
    requires WorkerOf(s, key.node).Idle? && key.node in s.remote && months > 0 && now >= 0
    ensures
      var m := Ordered(s, key, months, now);
      && m.remote == s.remote && WorkerOf(m, key.node).Started? && WorkerOf(m, key.node).p.key == key
      && Has(m, key.node, WorkerOf(m, key.node).p)
      && Effects.Charged(s.db, m.db, key, months, s.remote[key.node], now, s.offset)
  {
    var read := Apply(Apply(s, Request(key, months)), ReadBefore(key.node, true, now));
    var w := Priced(key, months, s.remote[key.node], now);
    OrderReads(s, key, months, now);
    DebitIs(read, key.node, w, Applied);
    Effects.DebitTxCharges(s.db, key, months, s.remote[key.node], now, s.offset);
    TargetIsLater(now, s.db.nodes[key.node].expireAt, s.remote[key.node], months, s.offset);
  }

  /** A customer who may renew, can pay and is alone at the node gets the months when
      the panel takes the write, and the money back when it does not. */
  lemma PurchaseConcludes(opening: map<string, int>, start: State, actions: seq<Action>, key: Key, months: nat, now: int, reply: Reply)
    requires Init(opening, start)
    requires
      var s := Run(start, actions);
      && Effects.Chargeable(s.db, key, months) && !PendingOn(s.db, key.node)
      && WorkerOf(s, key.node).Idle? && key.node in s.remote && months > 0 && now >= 0
    ensures
      var s := Run(start, actions);
      var t := Alone(Ordered(s, key, months, now), key.node, reply, 5);
      && key in t.db.renewals && key.customer in t.db.customers && key.node in t.db.nodes && key.node in t.remote
      && var r := t.db.renewals[key];
      && r.months == months && r.amount == months * s.db.nodes[key.node].price
      && (if reply.NotApplied? then
            && r.detail.refunded && t.remote == s.remote && t.db.nodes == s.db.nodes
            && t.db.customers[key.customer].balance == s.db.customers[key.customer].balance
          else
            && r.status == Success && Near(t.remote[key.node].expiry, r.target)
            && t.db.nodes[key.node].active && t.db.nodes[key.node].expireAt == Some(r.target)
            && t.db.customers[key.customer].balance == s.db.customers[key.customer].balance - r.amount)
  {
    var s := Run(start, actions);
    EveryRunKeepsInv(opening, start, actions);
    OrderStarts(opening, s, key, months, now);
    var m := Ordered(s, key, months, now);
    FromStarted(m, key.node, WorkerOf(m, key.node).p, reply);
  }
}
