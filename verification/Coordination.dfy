/** Everybody who writes the clients of the panels, under the locks they take: while
    a renewal of a customer node is pending, only renewals write its client.

    A service node stands for its one shared client. Every task first reads the
    binding of its customer node without a lock, then takes its locks one by one,
    checks again, and only then writes. */
module Coordination {
  import opened Options

  datatype Lock = Service(id: string) | Customer(id: string)

  datatype Task =
    | Renewal(node: string)                  // a renewal, or the recovery of one
    | Disable(node: string)                  // the expiry and the traffic job
    | Rebind(node: string, to: string)       // an edit of a binding, to the same or another service node
    | Unbind(node: string)
    | Bind(node: string, to: string)
    | Save(client: string)                   // a client edited through the panel page

  datatype Phase =
    | Locking(wanted: seq<Lock>, seen: string)    // `seen`: the binding read before locking
    | Armed(clients: set<string>)                 // checks passed; may write these clients
    | Renewing                                    // may write the client of its node

  datatype Thread = Thread(task: Task, phase: Phase)

  type Tid = nat

  datatype State = State(
    binding: map<string, string>, pending: set<string>, remote: map<string, int>,
    locks: map<Lock, Tid>, threads: map<Tid, Thread>)

  datatype Step =
    | Begin(t: Tid, task: Task, bindingFirst: bool)
    | Acquire(t: Tid)
    | Enter(t: Tid)
    | Write(t: Tid, client: string, value: int)
    | Move(t: Tid, to: string)
    | Settle(t: Tid)
    | End(t: Tid)

  predicate Held(s: State, t: Tid, l: Lock) {
    l in s.locks && s.locks[l] == t
  }

  predicate Free(s: State, t: Tid, l: Lock) {
    l !in s.locks || s.locks[l] == t
  }

  predicate Occupied(s: State, client: string, except: string) {
    exists n <- s.binding :: n != except && s.binding[n] == client
  }

  predicate PendingAt(s: State, client: string) {
    exists n <- s.pending :: n in s.binding && s.binding[n] == client
  }

  // ---- the steps ----

  /** The locks of a task in the order it takes them, from its unlocked read. */
  function Wanted(task: Task, seen: string, bindingFirst: bool): seq<Lock> {
    match task
    case Rebind(n, to) =>
      (if to == seen then [Service(seen)]
       else if bindingFirst then [Service(seen), Service(to)] else [Service(to), Service(seen)]) + [Customer(n)]
    case Bind(_, to) => [Service(to)]
    case Save(x) => [Service(x)]
    case _ => [Service(seen), Customer(task.node)]
  }

  function DoBegin(s: State, t: Tid, task: Task, bindingFirst: bool): State {
    if t in s.threads then s
    else if task.Bind? || task.Save? then
      s.(threads := s.threads[t := Thread(task, Locking(Wanted(task, "", bindingFirst), ""))])
    else if task.node !in s.binding then s
    else
      var seen := s.binding[task.node];
      s.(threads := s.threads[t := Thread(task, Locking(Wanted(task, seen, bindingFirst), seen))])
  }

  function DoAcquire(s: State, t: Tid): State {
    if t !in s.threads || !s.threads[t].phase.Locking? || s.threads[t].phase.wanted == [] then s
    else
      var th := s.threads[t];
      var l := th.phase.wanted[0];
      if !Free(s, t, l) then s
      else s.(locks := s.locks[l := t], threads := s.threads[t := th.(phase := th.phase.(wanted := th.phase.wanted[1..]))])
  }

  /** What a task finds when it checks again under its locks: where it goes on, or
      `None` where it gives up. */
  function Checked(s: State, t: Tid): Option<Phase>
    requires t in s.threads && s.threads[t].phase.Locking?
  {
    var th := s.threads[t];
    match th.task
    case Renewal(n) => if n in s.binding then Some(Renewing) else None
    case Disable(n) =>
      if n in s.binding && s.binding[n] == th.phase.seen && n !in s.pending then Some(Armed({s.binding[n]})) else None
    case Rebind(n, to) =>
      if n in s.binding && n !in s.pending && (s.binding[n] == to || !Occupied(s, to, n))
      then Some(Armed({s.binding[n], to})) else None
    case Unbind(n) =>
      if n in s.binding && n !in s.pending then Some(Armed({s.binding[n]})) else None
    case Bind(n, to) =>
      if n !in s.binding && !Occupied(s, to, n) && Unknown(s, t, n) then Some(Armed({to})) else None
    case Save(x) => if !PendingAt(s, x) then Some(Armed({x})) else None
  }

  predicate About(task: Task, node: string) {
    !task.Save? && task.node == node
  }

  /** The row a bind creates has a new id, which no other task can know yet. */
  predicate Unknown(s: State, t: Tid, node: string) {
    node !in s.pending && forall u <- s.threads :: u != t ==> !About(s.threads[u].task, node)
  }

  predicate AtChecks(s: State, t: Tid) {
    t in s.threads && s.threads[t].phase.Locking? && s.threads[t].phase.wanted == []
  }

  function DoEnter(s: State, t: Tid): State {
    if !AtChecks(s, t) then s
    else
      var th := s.threads[t];
      var phase := Checked(s, t);
      if phase.None? then DoEnd(s, t)
      else
        var next := s.(threads := s.threads[t := th.(phase := phase.value)]);
        match th.task
        case Renewal(n) => next.(pending := s.pending + {n})
        case Bind(n, to) => next.(binding := s.binding[n := to])
        case _ => next
  }

  /** A write locks the client's service node for itself when the task does not
      hold that lock already. */
  predicate MayWrite(s: State, t: Tid, client: string) {
    && t in s.threads && Free(s, t, Service(client))
    && match s.threads[t].phase
       case Armed(clients) => client in clients
       case Renewing => s.threads[t].task.Renewal? && s.threads[t].task.node in s.binding
                        && client == s.binding[s.threads[t].task.node]
       case Locking(_, _) => false
  }

  function DoWrite(s: State, t: Tid, client: string, value: int): State {
    if MayWrite(s, t, client) then s.(remote := s.remote[client := value]) else s
  }

  /** Changes of the binding by a task that passed its checks: a rebind goes to its
      target and may come back, an unbind and a failed bind delete the row. */
  function DoMove(s: State, t: Tid, to: string): State {
    if t !in s.threads || !s.threads[t].phase.Armed? || s.threads[t].phase.clients == {} then s
    else
      var th := s.threads[t];
      match th.task
      case Rebind(n, _) =>
        if to in th.phase.clients && n in s.binding then s.(binding := s.binding[n := to]) else s
      case Unbind(n) => Gone(s, t, n)
      case Bind(n, _) => Gone(s, t, n)
      case _ => s
  }

  function Gone(s: State, t: Tid, node: string): State
    requires t in s.threads
  {
    s.(binding := s.binding - {node}, threads := s.threads[t := s.threads[t].(phase := Armed({}))])
  }

  function DoSettle(s: State, t: Tid): State {
    if t in s.threads && s.threads[t].phase.Renewing? && s.threads[t].task.Renewal?
    then s.(pending := s.pending - {s.threads[t].task.node}) else s
  }

  /** The task returns, throws or dies: its locks go. */
  function DoEnd(s: State, t: Tid): State {
    s.(threads := s.threads - {t}, locks := map l | l in s.locks && s.locks[l] != t :: s.locks[l])
  }

  function Apply(s: State, a: Step): State {
    match a
    case Begin(t, task, bindingFirst) => DoBegin(s, t, task, bindingFirst)
    case Acquire(t) => DoAcquire(s, t)
    case Enter(t) => DoEnter(s, t)
    case Write(t, client, value) => DoWrite(s, t, client, value)
    case Move(t, to) => DoMove(s, t, to)
    case Settle(t) => DoSettle(s, t)
    case End(t) => DoEnd(s, t)
  }

  function Run(s: State, steps: seq<Step>): State {
    if steps == [] then s else Apply(Run(s, steps[..|steps| - 1]), steps[|steps| - 1])
  }

  // ---- what is kept ----

  /** A client is frozen for a task while somebody's renewal on it is pending. */
  ghost predicate Violates(s: State, a: Step) {
    && a.Write? && MayWrite(s, a.t, a.client)
    && PendingAt(s, a.client) && !s.threads[a.t].phase.Renewing?
  }

  /** A new renewal, or a rebind, that holds the lock of the binding it finds. */
  predicate Fresh(s: State, a: Step) {
    a.Enter? && AtChecks(s, a.t) ==>
      match s.threads[a.t].task
      case Renewal(n) => n in s.binding && n !in s.pending ==> Held(s, a.t, Service(s.binding[n]))
      case Rebind(n, _) => n in s.binding ==> Held(s, a.t, Service(s.binding[n]))
      case _ => true
  }

  /** Somebody other than a renewal has passed the checks for a client. */
  ghost predicate SomeoneArmed(s: State, client: string) {
    exists u <- s.threads :: s.threads[u].phase.Armed? && client in s.threads[u].phase.clients
  }

  /** A debit for a client nobody has passed the checks for, or a rebind that holds
      the lock of the client it may come back to. */
  ghost predicate Harmless(s: State, a: Step) {
    a.Enter? && AtChecks(s, a.t) && Checked(s, a.t).Some? ==>
      match s.threads[a.t].task
      case Renewal(n) => !SomeoneArmed(s, s.binding[n])
      case Rebind(n, _) => Held(s, a.t, Service(s.binding[n]))
      case _ => true
  }

  ghost predicate OneOccupant(binding: map<string, string>) {
    forall m, n :: m in binding && n in binding && binding[m] == binding[n] ==> m == n
  }

  ghost predicate OnlyOccupant(binding: map<string, string>, client: string, node: string) {
    forall n <- binding :: binding[n] == client ==> n == node
  }

  /** The locks a task has or still wants before its checks. */
  ghost predicate Covers(s: State, t: Tid, wanted: seq<Lock>, l: Lock) {
    Held(s, t, l) || l in wanted
  }

  ghost predicate LockingOk(s: State, t: Tid, task: Task, wanted: seq<Lock>) {
    match task
    case Rebind(n, to) => Covers(s, t, wanted, Service(to)) && Covers(s, t, wanted, Customer(n))
    case Bind(_, to) => Covers(s, t, wanted, Service(to))
    case Save(x) => Covers(s, t, wanted, Service(x))
    case _ => Covers(s, t, wanted, Customer(task.node))
  }

  /** Nobody else works on a row that is being created. */
  ghost predicate Outside(s: State, t: Tid, node: string, client: string) {
    forall u <- s.threads :: u != t && About(s.threads[u].task, node) && !s.threads[u].task.Bind? ==>
      s.threads[u].phase.Locking? && Service(client) in s.threads[u].phase.wanted
  }

  /** What a task that passed its checks can rely on until it ends. */
  ghost predicate ArmedOk(s: State, t: Tid, task: Task, clients: set<string>) {
    match task
    case Renewal(n) => false
    case Disable(n) => Held(s, t, Customer(n)) && n in s.binding && n !in s.pending && clients == {s.binding[n]}
    case Rebind(n, to) =>
      && Held(s, t, Customer(n)) && n in s.binding && n !in s.pending && s.binding[n] in clients
      && forall x <- clients :: Held(s, t, Service(x)) && OnlyOccupant(s.binding, x, n)
    case Unbind(n) =>
      Held(s, t, Customer(n)) && n !in s.pending && (clients == {} || (n in s.binding && clients == {s.binding[n]}))
    case Bind(n, to) =>
      && Held(s, t, Service(to))
      && (clients == {}
          || (clients == {to} && n in s.binding && s.binding[n] == to && n !in s.pending
              && OnlyOccupant(s.binding, to, n) && Outside(s, t, n, to)))
    case Save(x) => Held(s, t, Service(x)) && clients == {x} && !PendingAt(s, x)
  }

  ghost predicate ThreadOk(s: State, t: Tid, th: Thread) {
    match th.phase
    case Locking(wanted, _) => LockingOk(s, t, th.task, wanted)
    case Armed(clients) => ArmedOk(s, t, th.task, clients)
    case Renewing => th.task.Renewal? && Held(s, t, Customer(th.task.node))
  }

  ghost predicate Inv(s: State) {
    && OneOccupant(s.binding)
    && s.pending <= s.binding.Keys
    && forall t <- s.threads :: ThreadOk(s, t, s.threads[t])
  }

  lemma BeginKeepsInv(s: State, t: Tid, task: Task, bindingFirst: bool)
    requires Inv(s)
    ensures Inv(DoBegin(s, t, task, bindingFirst))
  {
    var next := DoBegin(s, t, task, bindingFirst);
    if next != s {
      NewThreadOk(s, t, task, bindingFirst);
      forall u | u in s.threads
        ensures u in next.threads && ThreadOk(next, u, next.threads[u])
      {
        BeginKeepsOthers(s, t, task, bindingFirst, u);
      }
    }
  }

  lemma NewThreadOk(s: State, t: Tid, task: Task, bindingFirst: bool)
    requires DoBegin(s, t, task, bindingFirst) != s
    ensures
      var next := DoBegin(s, t, task, bindingFirst);
      t in next.threads && ThreadOk(next, t, next.threads[t])
  {
  }

  lemma BeginKeepsOthers(s: State, t: Tid, task: Task, bindingFirst: bool, u: Tid)
    requires Inv(s) && u in s.threads && DoBegin(s, t, task, bindingFirst) != s
    ensures
      var next := DoBegin(s, t, task, bindingFirst);
      u in next.threads && ThreadOk(next, u, next.threads[u])
  {
    assert ThreadOk(s, u, s.threads[u]);
  }

  lemma AcquireKeepsInv(s: State, t: Tid)
    requires Inv(s)
    ensures Inv(DoAcquire(s, t))
  {
    var next := DoAcquire(s, t);
    if next != s {
      var wanted := s.threads[t].phase.wanted;
      assert wanted == [wanted[0]] + wanted[1..];
      forall u | u in next.threads
        ensures ThreadOk(next, u, next.threads[u])
      {
        assert ThreadOk(s, u, s.threads[u]);
        assert forall l :: Held(s, u, l) ==> Held(next, u, l);
      }
    }
  }

  lemma EndKeepsInv(s: State, t: Tid)
    requires Inv(s)
    ensures Inv(DoEnd(s, t))
  {
    var next := DoEnd(s, t);
    forall u | u in next.threads
      ensures ThreadOk(next, u, next.threads[u])
    {
      assert ThreadOk(s, u, s.threads[u]);
      assert forall l :: Held(s, u, l) ==> Held(next, u, l);
    }
  }

  lemma SettleKeepsInv(s: State, t: Tid)
    requires Inv(s)
    ensures Inv(DoSettle(s, t))
  {
    var next := DoSettle(s, t);
    forall u | u in next.threads
      ensures ThreadOk(next, u, next.threads[u])
    {
      assert ThreadOk(s, u, s.threads[u]);
    }
  }

  /** No task other than a renewal may write a client with a pending renewal. */
  lemma NoThreat(s: State, a: Step)
    requires Inv(s)
    ensures !Violates(s, a)
  {
    if a.Write? && a.t in s.threads {
      assert ThreadOk(s, a.t, s.threads[a.t]);
    }
  }

  lemma RebindKeepsInv(s: State, t: Tid, to: string)
    requires Inv(s) && t in s.threads && s.threads[t].task.Rebind?
    ensures Inv(DoMove(s, t, to))
  {
    var next := DoMove(s, t, to);
    if next != s {
      assert ThreadOk(s, t, s.threads[t]);
      forall u | u in next.threads
        ensures ThreadOk(next, u, next.threads[u])
      {
        assert ThreadOk(s, u, s.threads[u]);
      }
    }
  }

  lemma RemovalKeepsInv(s: State, t: Tid, to: string)
    requires Inv(s) && t in s.threads && !s.threads[t].task.Rebind?
    ensures Inv(DoMove(s, t, to))
  {
    var next := DoMove(s, t, to);
    if next != s {
      assert ThreadOk(s, t, s.threads[t]);
      forall u | u in next.threads
        ensures ThreadOk(next, u, next.threads[u])
      {
        assert ThreadOk(s, u, s.threads[u]);
        assert forall l :: Held(s, u, l) <==> Held(next, u, l);
      }
    }
  }

  lemma EnterKeepsInv(s: State, t: Tid)
    requires Inv(s) && Harmless(s, Enter(t))
    ensures Inv(DoEnter(s, t))
  {
    if AtChecks(s, t) {
      assert ThreadOk(s, t, s.threads[t]);
      if Checked(s, t).None? {
        EndKeepsInv(s, t);
      } else {
        EnterIsOk(s, t);
        EnterKeepsRows(s, t);
        forall u | u in s.threads && u != t
          ensures ThreadOk(DoEnter(s, t), u, DoEnter(s, t).threads[u])
        {
          EnterKeepsOthers(s, t, u);
        }
      }
    }
  }

  lemma EnterKeepsRows(s: State, t: Tid)
    requires Inv(s) && AtChecks(s, t) && Checked(s, t).Some?
    ensures OneOccupant(DoEnter(s, t).binding) && DoEnter(s, t).pending <= DoEnter(s, t).binding.Keys
    ensures DoEnter(s, t).threads.Keys == s.threads.Keys
  {
  }

  lemma EnterKeepsOthers(s: State, t: Tid, u: Tid)
    requires Inv(s) && Harmless(s, Enter(t)) && AtChecks(s, t) && Checked(s, t).Some?
    requires u in s.threads && u != t
    ensures u in DoEnter(s, t).threads && ThreadOk(DoEnter(s, t), u, DoEnter(s, t).threads[u])
  {
    match s.threads[t].task
    case Renewal(n) => DebitKeepsOthers(s, t, u, n);
    case Bind(n, to) => BindKeepsOthers(s, t, u, n, to);
    case _ => CheckKeepsOthers(s, t, u);
  }

  lemma DebitKeepsOthers(s: State, t: Tid, u: Tid, node: string)
    requires Inv(s) && AtChecks(s, t) && s.threads[t].task == Renewal(node) && node in s.binding
    requires !SomeoneArmed(s, s.binding[node]) && u in s.threads && u != t
    ensures u in DoEnter(s, t).threads && ThreadOk(DoEnter(s, t), u, DoEnter(s, t).threads[u])
  {
    assert ThreadOk(s, t, s.threads[t]) && ThreadOk(s, u, s.threads[u]);
    assert s.threads[u].phase.Armed? ==> s.binding[node] !in s.threads[u].phase.clients;
  }

  lemma BindKeepsOthers(s: State, t: Tid, u: Tid, node: string, to: string)
    requires Inv(s) && AtChecks(s, t) && s.threads[t].task == Bind(node, to) && Checked(s, t).Some?
    requires u in s.threads && u != t
    ensures u in DoEnter(s, t).threads && ThreadOk(DoEnter(s, t), u, DoEnter(s, t).threads[u])
  {
    assert ThreadOk(s, t, s.threads[t]) && ThreadOk(s, u, s.threads[u]);
  }

  /** Checks that change no row leave what the others rely on. */
  lemma CheckKeepsOthers(s: State, t: Tid, u: Tid)
    requires Inv(s) && AtChecks(s, t) && Checked(s, t).Some?
    requires !s.threads[t].task.Renewal? && !s.threads[t].task.Bind? && u in s.threads && u != t
    ensures u in DoEnter(s, t).threads && ThreadOk(DoEnter(s, t), u, DoEnter(s, t).threads[u])
  {
    assert ThreadOk(s, u, s.threads[u]);
    var next := DoEnter(s, t);
    assert next.binding == s.binding && next.pending == s.pending && next.locks == s.locks;
  }

  /** A task that passes its checks has what it relies on from then on. */
  lemma EnterIsOk(s: State, t: Tid)
    requires Inv(s) && Harmless(s, Enter(t)) && AtChecks(s, t) && Checked(s, t).Some?
    ensures ThreadOk(DoEnter(s, t), t, DoEnter(s, t).threads[t])
  {
    assert ThreadOk(s, t, s.threads[t]);
  }

  lemma StepKeepsInv(s: State, a: Step)
    requires Inv(s) && Harmless(s, a)
    ensures Inv(Apply(s, a))
  {
    match a
    case Begin(t, task, bindingFirst) => BeginKeepsInv(s, t, task, bindingFirst);
    case Acquire(t) => AcquireKeepsInv(s, t);
    case Enter(t) => EnterKeepsInv(s, t);
    case Write(_, _, _) => WriteKeepsInv(s, a);
    case Move(t, to) =>
      if t in s.threads {
        if s.threads[t].task.Rebind? { RebindKeepsInv(s, t, to); } else { RemovalKeepsInv(s, t, to); }
      }
    case Settle(t) => SettleKeepsInv(s, t);
    case End(t) => EndKeepsInv(s, t);
  }

  lemma WriteKeepsInv(s: State, a: Step)
    requires Inv(s) && a.Write?
    ensures Inv(Apply(s, a))
  {
    forall u | u in s.threads
      ensures ThreadOk(Apply(s, a), u, s.threads[u])
    {
      assert ThreadOk(s, u, s.threads[u]);
    }
  }

  /** Nobody at work, one customer node per client, and renewals that may be left
      pending from before. */
  ghost predicate Init(s: State) {
    s.threads == map[] && s.locks == map[] && OneOccupant(s.binding) && s.pending <= s.binding.Keys
  }

  ghost predicate HarmlessRun(start: State, steps: seq<Step>) {
    steps != [] ==>
      && HarmlessRun(start, steps[..|steps| - 1])
      && Harmless(Run(start, steps[..|steps| - 1]), steps[|steps| - 1])
  }

  lemma {:induction false} HarmlessRunKeepsInv(start: State, steps: seq<Step>)
    requires Inv(start) && HarmlessRun(start, steps)
    ensures Inv(Run(start, steps))
  {
    if steps != [] {
      HarmlessRunKeepsInv(start, steps[..|steps| - 1]);
      StepKeepsInv(Run(start, steps[..|steps| - 1]), steps[|steps| - 1]);
    }
  }

  /** Freeze while pending: in every run of harmless steps, no step but a renewal's
      own changes a client with a pending renewal. */
  lemma FrozenWhilePending(start: State, steps: seq<Step>, a: Step, client: string)
    requires Init(start) && HarmlessRun(start, steps)
    ensures
      var s := Run(start, steps);
      PendingAt(s, client) && a.Write? && a.t in s.threads && !s.threads[a.t].phase.Renewing?
      ==> (client in Apply(s, a).remote <==> client in s.remote)
          && (client in s.remote ==> Apply(s, a).remote[client] == s.remote[client])
  {
    HarmlessRunKeepsInv(start, steps);
    NoThreat(Run(start, steps), a);
  }

  // ---- the locks the jobs check for are enough ----

  /** Whoever passed the checks for a client holds its service node, or is the only
      one at work on the customer node bound there. */
  lemma ArmedHolds(s: State, u: Tid, client: string)
    requires Inv(s) && u in s.threads && s.threads[u].phase.Armed? && client in s.threads[u].phase.clients
    ensures Held(s, u, Service(client)) || exists n <- s.binding :: s.binding[n] == client && Held(s, u, Customer(n))
    ensures !PendingAt(s, client)
  {
    assert ThreadOk(s, u, s.threads[u]);
  }

  /** A renewal or rebind that holds the lock of the binding it finds is harmless. */
  lemma FreshIsHarmless(s: State, a: Step)
    requires Inv(s) && Fresh(s, a)
    ensures Harmless(s, a)
  {
    if a.Enter? && AtChecks(s, a.t) && Checked(s, a.t).Some? && s.threads[a.t].task.Renewal? {
      var node := s.threads[a.t].task.node;
      var client := s.binding[node];
      assert ThreadOk(s, a.t, s.threads[a.t]);
      if SomeoneArmed(s, client) {
        var u :| u in s.threads && s.threads[u].phase.Armed? && client in s.threads[u].phase.clients;
        ArmedHolds(s, u, client);
        assert node in s.pending ==> PendingAt(s, client);
        assert false;
      }
    }
  }

  ghost predicate FreshRun(start: State, steps: seq<Step>) {
    steps != [] ==>
      && FreshRun(start, steps[..|steps| - 1])
      && Fresh(Run(start, steps[..|steps| - 1]), steps[|steps| - 1])
  }

  lemma {:induction false} FreshRunIsHarmless(start: State, steps: seq<Step>)
    requires Inv(start) && FreshRun(start, steps)
    ensures HarmlessRun(start, steps)
  {
    if steps != [] {
      FreshRunIsHarmless(start, steps[..|steps| - 1]);
      HarmlessRunKeepsInv(start, steps[..|steps| - 1]);
      FreshIsHarmless(Run(start, steps[..|steps| - 1]), steps[|steps| - 1]);
    }
  }

  // ---- exactly when a debit is dangerous ----

  /** The debit of a renewal, whatever it locked, opens a pending client to a write
      of somebody else exactly when a task that is free to lock that client had
      already passed its checks for it. */
  lemma DebitThreatens(s: State, t: Tid, node: string)
    requires Inv(s) && AtChecks(s, t) && s.threads[t].task == Renewal(node) && node in s.binding
    ensures (exists a :: Violates(DoEnter(s, t), a)) <==> SomeoneFree(s, s.binding[node])
    ensures SomeoneFree(s, s.binding[node]) <==> SomeoneArmed(s, s.binding[node])
  {
    var next, x := DoEnter(s, t), s.binding[node];
    assert ThreadOk(s, t, s.threads[t]);
    assert node in next.pending && PendingAt(next, x);
    if SomeoneArmed(s, x) {
      var u :| u in s.threads && s.threads[u].phase.Armed? && x in s.threads[u].phase.clients;
      ArmedHolds(s, u, x);
      assert Held(s, u, Service(x));
      assert next.threads[u] == s.threads[u];
      assert Violates(next, Write(u, x, 0));
    }
    if a :| Violates(next, a) {
      var u, y := a.t, a.client;
      assert u != t && s.threads[u] == next.threads[u] && s.threads[u].phase.Armed? && y in s.threads[u].phase.clients;
      ArmedHolds(s, u, y);
      var m :| m in next.pending && m in next.binding && next.binding[m] == y;
      assert m != node ==> m in s.pending && PendingAt(s, y);
      assert y == x;
    }
  }

  /** Somebody other than a renewal has passed the checks for a client and is free
      to lock it for a write. */
  ghost predicate SomeoneFree(s: State, client: string) {
    exists u <- s.threads ::
      s.threads[u].phase.Armed? && client in s.threads[u].phase.clients && Free(s, u, Service(client))
  }
}
