/** Every task does its work when it is alone. */
module TaskRuns {
  import opened Options
  import opened Coordination

  /** Nobody is at work. */
  predicate Quiet(s: State) {
    s.threads == map[] && s.locks == map[]
  }

  /** The task begins, takes its locks and passes its checks, undisturbed. */
  function Armed(s: State, t: Tid, task: Task, locks: nat): State {
    Apply(Locked(s, t, task, locks), Enter(t))
  }

  function Locked(s: State, t: Tid, task: Task, locks: nat): State {
    if locks == 0 then Apply(s, Begin(t, task, true)) else Apply(Locked(s, t, task, locks - 1), Acquire(t))
  }

  function LocksOf(s: State, task: Task): nat {
    match task
    case Bind(_, _) => 1
    case Save(_) => 1
    case Rebind(n, to) => if n in s.binding && s.binding[n] == to then 2 else 3
    case _ => 2
  }

  /** What the task asks of the rows. */
  predicate MayStart(s: State, task: Task) {
    match task
    case Renewal(n) => n in s.binding
    case Disable(n) => n in s.binding && n !in s.pending
    case Rebind(n, to) => n in s.binding && n !in s.pending && (s.binding[n] == to || forall m <- s.binding :: s.binding[m] != to)
    case Unbind(n) => n in s.binding && n !in s.pending
    case Bind(n, to) => n !in s.binding && n !in s.pending && forall m <- s.binding :: s.binding[m] != to
    case Save(x) => forall n <- s.pending :: n in s.binding ==> s.binding[n] != x
  }

  /** The clients the task may then write, and the rows it begins with. */
  ghost predicate Ready(s: State, m: State, t: Tid, task: Task) {
    && (forall client :: MayWrite(m, t, client) <==> client in Clients(s, task))
    && m.remote == s.remote
    && m.binding == (if task.Bind? then s.binding[task.node := task.to] else s.binding)
    && m.pending == (if task.Renewal? then s.pending + {task.node} else s.pending)
    && m.threads.Keys == {t}
  }

  function Clients(s: State, task: Task): set<string> {
    match task
    case Bind(_, to) => {to}
    case Save(x) => {x}
    case Rebind(n, to) => if n in s.binding then {s.binding[n], to} else {to}
    case _ => if task.node in s.binding then {s.binding[task.node]} else {}
  }

  /** A task that cannot do its work gives up and leaves everything as it was. */
  ghost predicate GaveUp(s: State, m: State) {
    m.threads == map[] && m.locks == map[] && m.remote == s.remote && m.binding == s.binding && m.pending == s.pending
  }

  ghost predicate Arms(s: State, t: Tid, task: Task) {
    var m := Armed(s, t, task, LocksOf(s, task));
    if MayStart(s, task) then Ready(s, m, t, task) else GaveUp(s, m)
  }

  /** One task at work, with some locks taken and some still wanted. */
  function At(s: State, t: Tid, task: Task, wanted: seq<Lock>, seen: string, locks: map<Lock, Tid>): State {
    s.(threads := map[t := Thread(task, Locking(wanted, seen))], locks := locks)
  }

  lemma BeginIs(s: State, t: Tid, task: Task)
    requires Quiet(s) && (!task.Bind? && !task.Save? ==> task.node in s.binding)
    ensures
      var seen := if task.Bind? || task.Save? then "" else s.binding[task.node];
      Apply(s, Begin(t, task, true)) == At(s, t, task, Wanted(task, seen, true), seen, map[])
  {
    assert s.threads[t := Thread(task, Locking([], ""))] == map[t := Thread(task, Locking([], ""))];
  }

  lemma AcquireIs(s: State, t: Tid, task: Task, wanted: seq<Lock>, rest: seq<Lock>, seen: string, locks: map<Lock, Tid>)
    requires wanted != [] && wanted[1..] == rest && forall l <- locks :: locks[l] == t
    ensures Apply(At(s, t, task, wanted, seen, locks), Acquire(t)) == At(s, t, task, rest, seen, locks[wanted[0] := t])
  {
    var th := Thread(task, Locking(wanted, seen));
    var after := Thread(task, Locking(rest, seen));
    assert map[t := th][t := after] == map[t := after];
  }

  /** The state in which a task with all its locks passes its checks. */
  lemma EnterIs(s: State, t: Tid, task: Task, seen: string, locks: map<Lock, Tid>)
    requires Quiet(s) && forall l <- locks :: locks[l] == t
    requires task.Bind? || task.Save? || (task.node in s.binding && s.binding[task.node] == seen)
    ensures
      var m := Apply(At(s, t, task, [], seen, locks), Enter(t));
      if MayStart(s, task) then Ready(s, m, t, task) else GaveUp(s, m)
  {
    var before := At(s, t, task, [], seen, locks);
    assert AtChecks(before, t);
    ChecksAre(s, t, task, seen, locks);
    if Checked(before, t).None? {
      assert before.threads - {t} == map[];
      assert (map l | l in locks && locks[l] != t :: locks[l]) == map[];
    }
  }

  /** The checks pass just when the task may start. */
  lemma ChecksAre(s: State, t: Tid, task: Task, seen: string, locks: map<Lock, Tid>)
    requires Quiet(s)
    requires task.Bind? || task.Save? || (task.node in s.binding && s.binding[task.node] == seen)
    ensures
      var phase := Checked(At(s, t, task, [], seen, locks), t);
      if MayStart(s, task) then phase == Some(if task.Renewal? then Renewing else Phase.Armed(Clients(s, task))) else phase.None?
  {
  }

  lemma OneLock(s: State, t: Tid, task: Task, x: string)
    requires Quiet(s) && (task == Save(x) || (task.Bind? && task.to == x))
    ensures Arms(s, t, task)
  {
    BeginIs(s, t, task);
    AcquireIs(s, t, task, [Service(x)], [], "", map[]);
    assert Locked(s, t, task, 1) == Apply(Locked(s, t, task, 0), Acquire(t));
    EnterIs(s, t, task, "", map[Service(x) := t]);
  }

  lemma NotBound(s: State, t: Tid, task: Task, locks: nat)
    requires Quiet(s) && (task.Renewal? || task.Disable? || task.Unbind? || task.Rebind?) && task.node !in s.binding
    ensures Locked(s, t, task, locks) == s
  {
    if locks > 0 {
      NotBound(s, t, task, locks - 1);
    }
  }

  /** Two locks: the service node that was read, and the customer node. */
  lemma TwoLocks(s: State, t: Tid, task: Task, seen: string)
    requires Quiet(s) && (task.Renewal? || task.Disable? || task.Unbind? || (task.Rebind? && task.to == seen))
    requires task.node in s.binding && s.binding[task.node] == seen
    ensures Arms(s, t, task)
  {
    var a, b := Service(seen), Customer(task.node);
    BeginIs(s, t, task);
    assert Wanted(task, seen, true) == [a, b];
    AcquireIs(s, t, task, [a, b], [b], seen, map[]);
    AcquireIs(s, t, task, [b], [], seen, map[a := t]);
    assert Locked(s, t, task, 1) == Apply(Locked(s, t, task, 0), Acquire(t));
    assert Locked(s, t, task, 2) == Apply(Locked(s, t, task, 1), Acquire(t));
    EnterIs(s, t, task, seen, map[a := t, b := t]);
  }

  lemma ThreeLocks(s: State, t: Tid, n: string, to: string)
    requires Quiet(s) && n in s.binding && s.binding[n] != to
    ensures Arms(s, t, Rebind(n, to))
  {
    var task, seen := Rebind(n, to), s.binding[n];
    var a, b, c := Service(seen), Service(to), Customer(n);
    BeginIs(s, t, task);
    assert Wanted(task, seen, true) == [a, b, c];
    AcquireIs(s, t, task, [a, b, c], [b, c], seen, map[]);
    AcquireIs(s, t, task, [b, c], [c], seen, map[a := t]);
    AcquireIs(s, t, task, [c], [], seen, map[a := t, b := t]);
    assert Locked(s, t, task, 1) == Apply(Locked(s, t, task, 0), Acquire(t));
    assert Locked(s, t, task, 2) == Apply(Locked(s, t, task, 1), Acquire(t));
    assert Locked(s, t, task, 3) == Apply(Locked(s, t, task, 2), Acquire(t));
    EnterIs(s, t, task, seen, map[a := t, b := t, c := t]);
  }

  /** From every state in which nobody is at work, a task takes its locks and may then
      write exactly its clients, if and only if the rows allow what it is for; else it
      gives up and changes nothing. */
  lemma EveryTaskArms(s: State, t: Tid, task: Task)
    requires Quiet(s)
    ensures Arms(s, t, task)
  {
    if task.Bind? {
      OneLock(s, t, task, task.to);
    } else if task.Save? {
      OneLock(s, t, task, task.client);
    } else if task.node !in s.binding {
      NotBound(s, t, task, LocksOf(s, task));
    } else if task.Rebind? && s.binding[task.node] != task.to {
      ThreeLocks(s, t, task.node, task.to);
    } else {
      TwoLocks(s, t, task, s.binding[task.node]);
    }
  }

  /** A write that is allowed happens; a rebind moves the binding to a client it may
      write, an unbind and a failed bind delete it, a renewal is settled, and a task
      that ends gives its locks back. */
  lemma WorkIsDone(s: State, t: Tid, client: string, value: int)
    requires t in s.threads
    ensures MayWrite(s, t, client) ==> Apply(s, Write(t, client, value)) == s.(remote := s.remote[client := value])
    ensures !MayWrite(s, t, client) ==> Apply(s, Write(t, client, value)) == s
    ensures
      var th := s.threads[t];
      var moved := Apply(s, Move(t, client)).binding;
      th.phase.Armed? && th.phase.clients != {} ==>
        && (th.task.Rebind? && th.task.node in s.binding && client in th.phase.clients ==> moved == s.binding[th.task.node := client])
        && (th.task.Unbind? || th.task.Bind? ==> moved == s.binding - {th.task.node})
        && (!th.task.Rebind? && !th.task.Unbind? && !th.task.Bind? ==> moved == s.binding)
    ensures s.threads[t].phase.Renewing? && s.threads[t].task.Renewal? ==>
              Apply(s, Settle(t)).pending == s.pending - {s.threads[t].task.node}
    ensures
      var ended := Apply(s, End(t));
      && t !in ended.threads && ended.remote == s.remote && ended.binding == s.binding && ended.pending == s.pending
      && forall l <- ended.locks :: l in s.locks && ended.locks[l] == s.locks[l] != t
  {
  }
}
