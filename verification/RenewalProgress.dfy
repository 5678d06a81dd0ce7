/** One pass of the recovery job settles a renewal, when its reads and its local
    commits succeed. */
module RenewalProgress {
  import opened Options
  import opened Calendar
  import opened RenewalRows
  import opened RenewalSaga
  import opened RenewalSafety

  /** The next step of a worker when reads and commits succeed; only the write to
      the panel ends as `reply` says. */
  function CalmAction(node: string, w: Worker, reply: Reply): Action {
    match w
    case Started(_) => ReadState(node, true, true)
    case WriteAllowed(_) => MarkStarted(node, Applied)
    case Marked(_) => WriteTarget(node, reply)
    case Unsure(_) => ReadUnsure(node, true, true)
    case Confirmed(_) => Finalize(node, Applied, true)
    case Refunding(_) => RefundStep(node, Applied, Applied)
    case Reconciling(_) => Reconcile(node, Applied)
    case _ => Crash(node)
  }

  /** How many steps a worker has left at most. */
  function StepsLeft(w: Worker): nat {
    match w
    case Started(_) => 5
    case WriteAllowed(_) => 4
    case Marked(_) => 3
    case Unsure(_) => 2
    case _ => 1
  }

  /** The worker has its renewal's complete records and its client at hand. */
  ghost predicate Ready(s: State, node: string, key: Key) {
    var w := WorkerOf(s, node);
    && Complete(s.db, key) && key.node == node && node in s.remote
    && !w.Idle? && !w.Requested? && !w.Priced? && !w.LocalFailed? && !w.RolledBack?
    && w.p.key == key
  }

  ghost predicate Settled(db: Db, key: Key) {
    key in db.renewals && db.renewals[key].status != Pending
  }

  /** The worker is done with a settled renewal, or has at most `steps` to go. */
  ghost predicate Within(opening: map<string, int>, s: State, node: string, key: Key, steps: int) {
    && Inv(opening, s) && steps >= 0
    && if WorkerOf(s, node).Idle? then Settled(s.db, key)
       else Ready(s, node, key) && StepsLeft(WorkerOf(s, node)) <= steps
  }

  lemma CalmStep(s: State, node: string, key: Key, reply: Reply)
    requires Ready(s, node, key) && WorkerOk(s.db.renewals, node, WorkerOf(s, node))
    ensures Nearer(s, node, key, reply)
  {
    var w := WorkerOf(s, node);
    if w.Started? || w.Unsure? {
      CalmRead(s, node, key, reply);
    } else if w.WriteAllowed? || w.Marked? {
      CalmWrite(s, node, key, reply);
    } else {
      CalmCommit(s, node, key, reply);
    }
  }

  /** The step leaves the worker idle over a settled renewal, or closer to that. */
  ghost predicate Nearer(s: State, node: string, key: Key, reply: Reply) {
    var w := WorkerOf(s, node);
    var after := Apply(s, CalmAction(node, w, reply));
    if WorkerOf(after, node).Idle? then Settled(after.db, key)
    else Ready(after, node, key) && StepsLeft(WorkerOf(after, node)) < StepsLeft(w)
  }

  lemma CalmRead(s: State, node: string, key: Key, reply: Reply)
    requires Ready(s, node, key) && WorkerOk(s.db.renewals, node, WorkerOf(s, node))
    requires WorkerOf(s, node).Started? || WorkerOf(s, node).Unsure?
    ensures Nearer(s, node, key, reply)
  {
    if WorkerOf(s, node).Started? {
      CalmFirstRead(s, node, key, reply);
    } else {
      CalmReadAgain(s, node, key, reply);
    }
  }

  lemma CalmFirstRead(s: State, node: string, key: Key, reply: Reply)
    requires Ready(s, node, key) && WorkerOk(s.db.renewals, node, WorkerOf(s, node)) && WorkerOf(s, node).Started?
    ensures Nearer(s, node, key, reply)
  {
    var p := WorkerOf(s, node).p;
    ReadStateIs(s, node, p, true, true);
    var after := DoReadState(s, node, p, true, true);
    assert after.db == Observe(s.db, key, Saw(s.remote[node], p.enable));
    assert Complete(after.db, key);
  }

  lemma CalmReadAgain(s: State, node: string, key: Key, reply: Reply)
    requires Ready(s, node, key) && WorkerOk(s.db.renewals, node, WorkerOf(s, node)) && WorkerOf(s, node).Unsure?
    ensures Nearer(s, node, key, reply)
  {
    var p := WorkerOf(s, node).p;
    ReadUnsureIs(s, node, p, true, true);
    var after := DoReadUnsure(s, node, p, true, true);
    assert after.db == Observe(s.db, key, Saw(s.remote[node], p.enable));
    assert Complete(after.db, key);
  }

  lemma CalmWrite(s: State, node: string, key: Key, reply: Reply)
    requires Ready(s, node, key) && WorkerOk(s.db.renewals, node, WorkerOf(s, node))
    requires WorkerOf(s, node).WriteAllowed? || WorkerOf(s, node).Marked?
    ensures Nearer(s, node, key, reply)
  {
    var p := WorkerOf(s, node).p;
    if WorkerOf(s, node).WriteAllowed? {
      MarkStartedIs(s, node, p, Applied);
    } else {
      WriteTargetIs(s, node, p, reply);
    }
  }

  lemma CalmCommit(s: State, node: string, key: Key, reply: Reply)
    requires Ready(s, node, key) && WorkerOk(s.db.renewals, node, WorkerOf(s, node))
    requires WorkerOf(s, node).Confirmed? || WorkerOf(s, node).Refunding? || WorkerOf(s, node).Reconciling?
    ensures Nearer(s, node, key, reply)
  {
    match WorkerOf(s, node)
    case Confirmed(p) => FinalizeIs(s, node, p, Applied, true);
    case Refunding(p) => RefundStepIs(s, node, p, Applied, Applied);
    case Reconciling(p) => ReconcileIs(s, node, p, Applied);
  }

  // ---- a pass among the steps of everybody else ----

  /** The pass goes on with its next step, or somebody else acts and leaves the
      renewal's records and its client in place. */
  ghost predicate PassStep(s: State, node: string, key: Key, a: Action) {
    var w := WorkerOf(s, node);
    if Own(node, a) then !w.Idle? && exists reply :: a == CalmAction(node, w, reply)
    else w.Idle? || (Complete(Apply(s, a).db, key) && node in Apply(s, a).remote)
  }

  ghost predicate PassRun(s: State, node: string, key: Key, actions: seq<Action>) {
    actions != [] ==>
      && PassRun(s, node, key, actions[..|actions| - 1])
      && PassStep(Run(s, actions[..|actions| - 1]), node, key, actions[|actions| - 1])
  }

  function OwnSteps(node: string, actions: seq<Action>): nat {
    if actions == [] then 0
    else OwnSteps(node, actions[..|actions| - 1]) + if Own(node, actions[|actions| - 1]) then 1 else 0
  }

  lemma PassStepIsNearer(opening: map<string, int>, s: State, node: string, key: Key, a: Action, steps: int)
    requires Within(opening, s, node, key, steps) && PassStep(s, node, key, a)
    ensures Within(opening, Apply(s, a), node, key, if Own(node, a) then steps - 1 else steps)
  {
    StepKeepsInv(opening, s, a);
    if Own(node, a) {
      var reply :| a == CalmAction(node, WorkerOf(s, node), reply);
      assert WorkerOk(s.db.renewals, node, WorkerOf(s, node));
      CalmStep(s, node, key, reply);
    } else {
      NotOwn(s, node, a);
      StepExtends(opening, s, a);
    }
  }

  lemma {:induction false} PassRunIsNearer(opening: map<string, int>, s: State, node: string, key: Key, actions: seq<Action>)
    requires Within(opening, s, node, key, 5) && PassRun(s, node, key, actions)
    ensures Within(opening, Run(s, actions), node, key, 5 - OwnSteps(node, actions))
  {
    if actions != [] {
      var most := actions[..|actions| - 1];
      PassRunIsNearer(opening, s, node, key, most);
      PassStepIsNearer(opening, Run(s, most), node, key, actions[|actions| - 1], 5 - OwnSteps(node, most));
    }
  }

  /** After `taken` of its steps the pass is over with the renewal closed, or ready
      for its next step; it takes no more than five. */
  ghost predicate PassOutcome(s: State, node: string, key: Key, taken: nat) {
    && taken <= 5
    && (taken == 5 ==> WorkerOf(s, node).Idle?)
    && if WorkerOf(s, node).Idle? then Settled(s.db, key) else Ready(s, node, key)
  }

  /** A pending renewal with complete records, its client and its lock. */
  predicate Recoverable(s: State, key: Key) {
    && Complete(s.db, key) && s.db.renewals[key].status == Pending
    && WorkerOf(s, key.node).Idle? && key.node in s.remote
  }

  function Resumed(s: State, key: Key): State
    requires key in s.db.renewals
  {
    Apply(s, Resume(key, s.db.renewals[key].months))
  }

  /** Recovery progress: from every reachable state with the node's lock free, a
      pass over a pending renewal with complete records takes at most five steps of
      its own, whatever happens in between; until then it is ready for its next
      step, and it ends with the renewal done, refunded or up for reconciliation,
      however the write to the panel ends. */
  lemma RecoveryProgress(opening: map<string, int>, start: State, actions: seq<Action>, key: Key, pass: seq<Action>)
    requires Init(opening, start) && Recoverable(Run(start, actions), key)
    requires PassRun(Resumed(Run(start, actions), key), key.node, key, pass)
    ensures PassOutcome(Run(Resumed(Run(start, actions), key), pass), key.node, key, OwnSteps(key.node, pass))
  {
    EveryRunKeepsInv(opening, start, actions);
    ResumedIsReady(opening, Run(start, actions), key);
    PassSettles(opening, Resumed(Run(start, actions), key), key.node, key, pass);
  }

  lemma PassSettles(opening: map<string, int>, s: State, node: string, key: Key, pass: seq<Action>)
    requires Within(opening, s, node, key, 5) && PassRun(s, node, key, pass)
    ensures PassOutcome(Run(s, pass), node, key, OwnSteps(node, pass))
  {
    PassRunIsNearer(opening, s, node, key, pass);
    WithinIsOutcome(opening, Run(s, pass), node, key, OwnSteps(node, pass));
  }

  lemma WithinIsOutcome(opening: map<string, int>, s: State, node: string, key: Key, taken: nat)
    requires Within(opening, s, node, key, 5 - taken)
    ensures PassOutcome(s, node, key, taken)
  {
  }

  lemma ResumedIsReady(opening: map<string, int>, s: State, key: Key)
    requires Inv(opening, s) && Recoverable(s, key)
    ensures Within(opening, Resumed(s, key), key.node, key, 5)
  {
    StepKeepsInv(opening, s, Resume(key, s.db.renewals[key].months));
  }
}
