/** How far the freeze of pending clients reaches: which steps open it, and that no
    others do. */
module FreezeLimits {
  import opened Options
  import opened Coordination

  // ---- runs of fresh steps ----

  /** Steps that hold the locks they rely on lead from one state to another. */
  ghost predicate Leads(s: State, steps: seq<Step>, after: State) {
    FreshRun(s, steps) && Run(s, steps) == after
  }

  lemma NoSteps(s: State)
    ensures Leads(s, [], s)
  {
  }

  lemma {:induction false} Continue(s: State, first: seq<Step>, rest: seq<Step>)
    ensures Run(s, first + rest) == Run(Run(s, first), rest)
    ensures FreshRun(s, first + rest) <==> FreshRun(s, first) && FreshRun(Run(s, first), rest)
    decreases |rest|
  {
    if rest == [] {
      assert first + rest == first;
    } else {
      var most := rest[..|rest| - 1];
      assert (first + rest)[..|first + rest| - 1] == first + most;
      Continue(s, first, most);
    }
  }

  lemma OneStep(s: State, a: Step)
    ensures Run(s, [a]) == Apply(s, a) && (FreshRun(s, [a]) <==> Fresh(s, a))
  {
    assert [a][..0] == [];
    assert Run(s, []) == s;
  }

  lemma StepFirst(s: State, a: Step, rest: seq<Step>, after: State)
    requires Fresh(s, a) && Leads(Apply(s, a), rest, after)
    ensures Leads(s, [a] + rest, after)
  {
    OneStep(s, a);
    Continue(s, [a], rest);
  }

  lemma Chain(s: State, first: seq<Step>, mid: State, rest: seq<Step>, after: State)
    requires Leads(s, first, mid) && Leads(mid, rest, after)
    ensures Leads(s, first + rest, after)
  {
    Continue(s, first, rest);
  }

  // ---- a task without company ----

  /** A task that nobody stands in the way of, from its first read to its end. */
  function Alone(s: State, u: Tid, task: Task): State {
    DoEnd(DoEnter(Locked(s, u, task), u), u)
  }

  function Locked(s: State, u: Tid, task: Task): State {
    DoAcquire(DoAcquire(DoBegin(s, u, task, true), u), u)
  }

  ghost predicate Idle(s: State, u: Tid) {
    u !in s.threads && forall l <- s.locks :: s.locks[l] != u
  }

  lemma BindAlone(s: State, u: Tid, node: string, client: string)
    requires Idle(s, u) && Service(client) !in s.locks
    requires node !in s.binding && Unknown(s, u, node) && !Occupied(s, client, node)
    ensures Alone(s, u, Bind(node, client)) == s.(binding := s.binding[node := client])
    ensures Fresh(Locked(s, u, Bind(node, client)), Enter(u))
  {
    BindLocks(s, u, node, client);
    var locked := Locked(s, u, Bind(node, client));
    BindChecks(s, locked, u, node, client);
    var entered := DoEnter(locked, u);
    EndRestores(s, entered, u);
  }

  lemma BindLocks(s: State, u: Tid, node: string, client: string)
    requires Idle(s, u) && Service(client) !in s.locks
    ensures Locked(s, u, Bind(node, client)) ==
            s.(locks := s.locks[Service(client) := u], threads := s.threads[u := Thread(Bind(node, client), Locking([], ""))])
  {
    var begun := DoBegin(s, u, Bind(node, client), true);
    assert begun.threads[u].phase.wanted == [Service(client)];
    assert [Service(client)][1..] == [];
    var locked := DoAcquire(begun, u);
    assert locked.threads == s.threads[u := Thread(Bind(node, client), Locking([], ""))];
    assert DoAcquire(locked, u) == locked;
  }

  lemma BindChecks(s: State, locked: State, u: Tid, node: string, client: string)
    requires node !in s.binding && Unknown(s, u, node) && !Occupied(s, client, node)
    requires locked == s.(locks := s.locks[Service(client) := u], threads := s.threads[u := Thread(Bind(node, client), Locking([], ""))])
    ensures
      DoEnter(locked, u) == locked.(binding := s.binding[node := client],
                                    threads := s.threads[u := Thread(Bind(node, client), Armed({client}))])
  {
    assert Unknown(locked, u, node);
    assert Checked(locked, u) == Some(Armed({client}));
    assert locked.threads[u := Thread(Bind(node, client), Armed({client}))]
        == s.threads[u := Thread(Bind(node, client), Armed({client}))];
  }

  /** A task that ends leaves the locks and threads as they were without it. */
  lemma EndRestores(s: State, entered: State, u: Tid)
    requires Idle(s, u) && u in entered.threads && entered.threads == s.threads[u := entered.threads[u]]
    requires forall l :: l in entered.locks && entered.locks[l] != u <==> l in s.locks
    requires forall l <- s.locks :: l in entered.locks && entered.locks[l] == s.locks[l]
    ensures DoEnd(entered, u).threads == s.threads && DoEnd(entered, u).locks == s.locks
  {
  }

  lemma RenewalAlone(s: State, u: Tid, node: string)
    requires Idle(s, u) && node in s.binding
    requires Service(s.binding[node]) !in s.locks && Customer(node) !in s.locks
    ensures Alone(s, u, Renewal(node)) == s.(pending := s.pending + {node})
    ensures Fresh(Locked(s, u, Renewal(node)), Enter(u))
  {
    var begun := DoBegin(s, u, Renewal(node), true);
    assert begun.threads[u].phase.wanted == [Service(s.binding[node]), Customer(node)];
    var first := DoAcquire(begun, u);
    assert first.threads[u].phase.wanted == [Customer(node)];
    var locked := DoAcquire(first, u);
    assert locked.threads[u].phase.wanted == [];
    assert Checked(locked, u) == Some(Renewing);
    var entered := DoEnter(locked, u);
    assert entered.locks == s.locks[Service(s.binding[node]) := u][Customer(node) := u];
    assert entered.threads == s.threads[u := entered.threads[u]];
    EndRestores(s, entered, u);
  }

  /** The steps of such a task. */
  function AloneSteps(u: Tid, task: Task): seq<Step> {
    [Begin(u, task, true)] + ([Acquire(u)] + ([Acquire(u)] + ([Enter(u)] + ([End(u)] + []))))
  }

  lemma AloneLeads(s: State, u: Tid, task: Task)
    requires Fresh(Locked(s, u, task), Enter(u))
    ensures Leads(s, AloneSteps(u, task), Alone(s, u, task))
  {
    var after := Alone(s, u, task);
    var begun := DoBegin(s, u, task, true);
    NoSteps(after);
    StepFirst(DoEnter(Locked(s, u, task), u), End(u), [], after);
    StepFirst(Locked(s, u, task), Enter(u), [End(u)] + [], after);
    StepFirst(DoAcquire(begun, u), Acquire(u), [Enter(u)] + ([End(u)] + []), after);
    StepFirst(begun, Acquire(u), [Acquire(u)] + ([Enter(u)] + ([End(u)] + [])), after);
    StepFirst(s, Begin(u, task, true), [Acquire(u)] + ([Acquire(u)] + ([Enter(u)] + ([End(u)] + []))), after);
  }

  // ---- a rebind without the lock of the client it leaves ----

  /** A customer node and a task nobody has heard of. */
  ghost predicate Unheard(s: State, u: Tid, node: string) {
    && Idle(s, u) && node !in s.binding && Unknown(s, u, node) && Customer(node) !in s.locks
  }

  /** Whenever a rebind has left a client whose lock it does not hold, a new binding
      of that client and the debit of a renewal on it can both complete, and the
      write with which a failing rebind restores the client then hits the renewal. */
  lemma StaleRebindThreat(s: State, t: Tid, u: Tid, client: string, node: string, value: int)
    requires t in s.threads && s.threads[t].phase.Armed? && client in s.threads[t].phase.clients
    requires Service(client) !in s.locks && !Occupied(s, client, node) && Unheard(s, u, node)
    ensures
      var after := Run(s, AloneSteps(u, Bind(node, client)) + AloneSteps(u, Renewal(node)));
      && FreshRun(s, AloneSteps(u, Bind(node, client)) + AloneSteps(u, Renewal(node)))
      && Violates(after, Write(t, client, value))
  {
    var bound := s.(binding := s.binding[node := client]);
    BindAlone(s, u, node, client);
    AloneLeads(s, u, Bind(node, client));
    RenewalAlone(bound, u, node);
    AloneLeads(bound, u, Renewal(node));
    var renewed := bound.(pending := bound.pending + {node});
    Chain(s, AloneSteps(u, Bind(node, client)), bound, AloneSteps(u, Renewal(node)), renewed);
    assert node in renewed.pending && PendingAt(renewed, client);
  }

  /** What everybody else does after the rebind has entered: whoever has the lock of
      the client ends, and the client is bound and renewed for a new customer. */
  function OpeningSteps(s: State, t: Tid, to: string, u: Tid, client: string, node: string): seq<Step> {
    [Move(t, to)]
    + (FreeingSteps(s, client) + (AloneSteps(u, Bind(node, client)) + AloneSteps(u, Renewal(node))))
  }

  function FreeingSteps(s: State, client: string): seq<Step> {
    if Service(client) in s.locks then [End(s.locks[Service(client)])] else []
  }

  /** A rebind that passes its checks without the lock of the client it finds can be
      brought to write a client with a pending renewal. */
  lemma StaleRebindOpens(s: State, t: Tid, u: Tid, n: string, to: string, node: string, value: int)
    requires Inv(s) && AtChecks(s, t) && s.threads[t].task == Rebind(n, to) && Checked(s, t).Some?
    requires !Held(s, t, Service(s.binding[n])) && Unheard(s, u, node)
    ensures
      var more := OpeningSteps(s, t, to, u, s.binding[n], node);
      && FreshRun(DoEnter(s, t), more)
      && Violates(Run(DoEnter(s, t), more), Write(t, s.binding[n], value))
  {
    var client, entered := s.binding[n], DoEnter(s, t);
    var moved := DoMove(entered, t, to);
    LeavesClient(s, t, n, to);
    MovedOpens(s, moved, t, u, client, node, value);
    var rest := OpeningSteps(s, t, to, u, client, node)[1..];
    assert OpeningSteps(s, t, to, u, client, node) == [Move(t, to)] + rest;
    StepFirst(entered, Move(t, to), rest, Run(moved, rest));
  }

  /** The same from where the rebind has moved away. */
  lemma MovedOpens(s: State, moved: State, t: Tid, u: Tid, client: string, node: string, value: int)
    requires t in s.threads && !Held(s, t, Service(client)) && Unheard(s, u, node)
    requires moved.locks == s.locks && moved.threads.Keys == s.threads.Keys && moved.pending == s.pending
    requires moved.threads[t].phase.Armed? && client in moved.threads[t].phase.clients
    requires forall x <- moved.threads :: moved.threads[x].task == s.threads[x].task
    requires node !in moved.binding && !Occupied(moved, client, node)
    ensures
      var rest := FreeingSteps(s, client) + (AloneSteps(u, Bind(node, client)) + AloneSteps(u, Renewal(node)));
      FreshRun(moved, rest) && Violates(Run(moved, rest), Write(t, client, value))
  {
    var rest := AloneSteps(u, Bind(node, client)) + AloneSteps(u, Renewal(node));
    if Service(client) in s.locks {
      var v := s.locks[Service(client)];
      var freed := DoEnd(moved, v);
      FreedFor(s, moved, t, v, u, client, node);
      StaleRebindThreat(freed, t, u, client, node, value);
      StepFirst(moved, End(v), rest, Run(freed, rest));
    } else {
      StaleRebindThreat(moved, t, u, client, node, value);
      assert [] + rest == rest;
    }
  }

  lemma LeavesClient(s: State, t: Tid, n: string, to: string)
    requires Inv(s) && AtChecks(s, t) && s.threads[t].task == Rebind(n, to) && Checked(s, t).Some?
    requires !Held(s, t, Service(s.binding[n]))
    ensures
      var client, moved := s.binding[n], DoMove(DoEnter(s, t), t, to);
      && moved == s.(binding := s.binding[n := to], threads := s.threads[t := s.threads[t].(phase := Armed({client, to}))])
      && client != to && forall node :: !Occupied(moved, client, node)
  {
    assert ThreadOk(s, t, s.threads[t]);
  }

  lemma FreedFor(s: State, moved: State, t: Tid, v: Tid, u: Tid, client: string, node: string)
    requires t in s.threads && v != t && Service(client) in s.locks && s.locks[Service(client)] == v
    requires moved.locks == s.locks && moved.threads.Keys == s.threads.Keys && t in moved.threads
    requires moved.threads[t].phase.Armed? && client in moved.threads[t].phase.clients
    requires forall x <- moved.threads :: moved.threads[x].task == s.threads[x].task
    requires moved.pending == s.pending && node !in moved.binding && !Occupied(moved, client, node)
    requires Unheard(s, u, node)
    ensures
      var freed := DoEnd(moved, v);
      && t in freed.threads && freed.threads[t] == moved.threads[t]
      && Service(client) !in freed.locks && !Occupied(freed, client, node) && Unheard(freed, u, node)
  {
  }

  // ---- there is always somebody new ----

  lemma {:induction false} LongerThan(names: set<string>) returns (n: nat)
    ensures forall x <- names :: |x| < n
    decreases |names|
  {
    n := 0;
    if names != {} {
      var x :| x in names;
      var m := LongerThan(names - {x});
      n := if |x| < m then m else |x| + 1;
      assert forall y <- names :: y == x || y in names - {x};
    }
  }

  lemma {:induction false} GreaterThan(ids: set<nat>) returns (n: nat)
    ensures forall x <- ids :: x < n
    decreases |ids|
  {
    n := 0;
    if ids != {} {
      var x :| x in ids;
      var m := GreaterThan(ids - {x});
      n := if x < m then m else x + 1;
      assert forall y <- ids :: y == x || y in ids - {x};
    }
  }

  lemma SomebodyNew(s: State) returns (u: Tid, node: string)
    ensures Unheard(s, u, node)
  {
    var workedOn := set v | v in s.threads && !s.threads[v].task.Save? :: s.threads[v].task.node;
    var locked := set l | l in s.locks && l.Customer? :: l.id;
    var n := LongerThan(s.binding.Keys + s.pending + workedOn + locked);
    node := seq(n, _ => 'n');
    var holders := set l | l in s.locks :: s.locks[l];
    u := GreaterThan(s.threads.Keys + holders);
    assert node !in s.binding.Keys + s.pending + workedOn + locked;
    assert u !in s.threads.Keys + holders;
    forall l | l in s.locks
      ensures s.locks[l] != u
    {
      assert s.locks[l] in holders;
    }
    forall v | v in s.threads
      ensures !About(s.threads[v].task, node)
    {
      assert s.threads[v].task.Save? || s.threads[v].task.node in workedOn;
    }
    assert forall l <- s.locks :: l.Customer? ==> l.id in locked;
    assert Customer(node).id == node;
  }

  // ---- exactly the harmless steps keep clients frozen ----

  /** Steps that hold the locks they rely on can lead to a write of a client with a
      pending renewal. */
  ghost predicate Opens(s: State) {
    exists more, w :: FreshRun(s, more) && Violates(Run(s, more), w)
  }

  lemma KeptIsShut(s: State)
    requires Inv(s)
    ensures !Opens(s)
  {
    forall more, w | FreshRun(s, more)
      ensures !Violates(Run(s, more), w)
    {
      FreshRunIsHarmless(s, more);
      HarmlessRunKeepsInv(s, more);
      NoThreat(Run(s, more), w);
    }
  }

  /** A step is harmful exactly when it makes such a write possible: a debit for a
      client somebody has passed the checks for, at once; a rebind without the lock
      of the client it finds, after a binding and a renewal. */
  lemma HarmOpens(s: State, a: Step)
    requires Inv(s)
    ensures !Harmless(s, a) <==> Opens(Apply(s, a))
  {
    if Harmless(s, a) {
      StepKeepsInv(s, a);
      KeptIsShut(Apply(s, a));
    } else if s.threads[a.t].task.Renewal? {
      DebitOpens(s, a.t, s.threads[a.t].task.node);
    } else {
      var task := s.threads[a.t].task;
      var u, node := SomebodyNew(s);
      StaleRebindOpens(s, a.t, u, task.node, task.to, node, 0);
    }
  }

  lemma DebitOpens(s: State, t: Tid, node: string)
    requires Inv(s) && AtChecks(s, t) && s.threads[t].task == Renewal(node) && node in s.binding
    requires SomeoneArmed(s, s.binding[node])
    ensures Opens(DoEnter(s, t))
  {
    DebitThreatens(s, t, node);
    var next := DoEnter(s, t);
    var w :| Violates(next, w);
    NoSteps(next);
    assert FreshRun(next, []) && Violates(Run(next, []), w);
  }

  /** At no point of the run can such a write be brought about. */
  ghost predicate NeverOpen(start: State, steps: seq<Step>) {
    && !Opens(Run(start, steps))
    && (steps != [] ==> NeverOpen(start, steps[..|steps| - 1]))
  }

  /** Along a run clients stay frozen while a renewal is pending exactly when all
      its steps are harmless. */
  lemma {:induction false} FrozenRun(start: State, steps: seq<Step>)
    requires Init(start)
    ensures HarmlessRun(start, steps) <==> NeverOpen(start, steps)
  {
    if steps == [] {
      KeptIsShut(start);
    } else {
      var most := steps[..|steps| - 1];
      FrozenRun(start, most);
      if HarmlessRun(start, most) {
        HarmlessRunKeepsInv(start, most);
        HarmOpens(Run(start, most), steps[|steps| - 1]);
      }
    }
  }
}
