/** Runs in which a task goes on with the lock of a binding that has changed since,
    and a client with a pending renewal is written by somebody else. */
module StaleLocks {
  import opened Options
  import opened Coordination
  import opened FreezeLimits

  /** A run visits the states its steps lead to. */
  lemma {:induction false} Trace(steps: seq<Step>, state: nat -> State)
    requires forall i :: 0 <= i < |steps| ==> Apply(state(i), steps[i]) == state(i + 1)
    ensures Run(state(0), steps) == state(|steps|)
  {
    if steps != [] {
      Trace(steps[..|steps| - 1], state);
    }
  }

  const REMOTE: map<string, int> := map["a" := 1, "b" := 2, "d" := 3]

  const BEFORE := map["c" := "a"]
  const AFTER := map["c" := "b"]

  // ---- a renewal with the lock of an old binding ----

  function Waiting(): Thread {
    Thread(Renewal("c"), Locking([Service("a"), Customer("c")], "a"))
  }

  function Mover(phase: Phase): Thread {
    Thread(Rebind("c", "b"), phase)
  }

  const MOVER_LOCKS: map<Lock, Tid> := map[Service("a") := 2, Service("b") := 2, Customer("c") := 2]

  function Saver(phase: Phase): Thread {
    Thread(Save("b"), phase)
  }

  const START := State(BEFORE, {}, REMOTE, map[], map[])

  /** The renewal reads the binding and waits while the node is moved to another
      service node; then a save of that node's client passes its checks, and only
      then does the renewal debit. */
  function StaleStep(i: nat): Step {
    if i == 0 then Begin(1, Renewal("c"), true)
    else if i == 1 then Begin(2, Rebind("c", "b"), true)
    else if i < 5 then Acquire(2)
    else if i == 5 then Enter(2)
    else if i == 6 then Move(2, "b")
    else if i == 7 then End(2)
    else if i == 8 then Begin(3, Save("b"), true)
    else if i == 9 then Acquire(3)
    else if i == 10 then Enter(3)
    else if i < 13 then Acquire(1)
    else Enter(1)
  }

  function StaleState(i: nat): State {
    if i == 0 then START
    else if i == 1 then State(BEFORE, {}, REMOTE, map[], map[1 := Waiting()])
    else if i == 2 then
      State(BEFORE, {}, REMOTE, map[],
            map[1 := Waiting(), 2 := Mover(Locking([Service("a"), Service("b"), Customer("c")], "a"))])
    else if i == 3 then
      State(BEFORE, {}, REMOTE, map[Service("a") := 2],
            map[1 := Waiting(), 2 := Mover(Locking([Service("b"), Customer("c")], "a"))])
    else if i == 4 then
      State(BEFORE, {}, REMOTE, map[Service("a") := 2, Service("b") := 2],
            map[1 := Waiting(), 2 := Mover(Locking([Customer("c")], "a"))])
    else if i == 5 then State(BEFORE, {}, REMOTE, MOVER_LOCKS, map[1 := Waiting(), 2 := Mover(Locking([], "a"))])
    else if i == 6 then State(BEFORE, {}, REMOTE, MOVER_LOCKS, map[1 := Waiting(), 2 := Mover(Armed({"a", "b"}))])
    else if i == 7 then State(AFTER, {}, REMOTE, MOVER_LOCKS, map[1 := Waiting(), 2 := Mover(Armed({"a", "b"}))])
    else if i == 8 then State(AFTER, {}, REMOTE, map[], map[1 := Waiting()])
    else if i == 9 then
      State(AFTER, {}, REMOTE, map[], map[1 := Waiting(), 3 := Saver(Locking([Service("b")], ""))])
    else if i == 10 then
      State(AFTER, {}, REMOTE, map[Service("b") := 3], map[1 := Waiting(), 3 := Saver(Locking([], ""))])
    else if i == 11 then
      State(AFTER, {}, REMOTE, map[Service("b") := 3], map[1 := Waiting(), 3 := Saver(Armed({"b"}))])
    else if i == 12 then
      State(AFTER, {}, REMOTE, map[Service("b") := 3, Service("a") := 1],
            map[1 := Thread(Renewal("c"), Locking([Customer("c")], "a")), 3 := Saver(Armed({"b"}))])
    else if i == 13 then
      State(AFTER, {}, REMOTE, map[Service("b") := 3, Service("a") := 1, Customer("c") := 1],
            map[1 := Thread(Renewal("c"), Locking([], "a")), 3 := Saver(Armed({"b"}))])
    else
      State(AFTER, {"c"}, REMOTE, map[Service("b") := 3, Service("a") := 1, Customer("c") := 1],
            map[1 := Thread(Renewal("c"), Renewing), 3 := Saver(Armed({"b"}))])
  }

  ghost predicate Leads(i: nat) {
    Apply(StaleState(i), StaleStep(i)) == StaleState(i + 1)
  }

  lemma RenewalBegins()
    ensures Leads(0)
  {
    assert StaleState(0).threads[1 := Waiting()] == StaleState(1).threads;
  }

  lemma MoverBegins()
    ensures Leads(1)
  {
    var a, b, c := Service("a"), Service("b"), Customer("c");
    assert Wanted(Rebind("c", "b"), "a", true) == [a, b, c];
    assert StaleState(1).threads[2 := Mover(Locking([a, b, c], "a"))] == StaleState(2).threads;
  }

  /** A task takes the next lock it wants. */
  lemma AcquireIs(s: State, t: Tid, l: Lock, rest: seq<Lock>, after: Thread)
    requires t in s.threads && s.threads[t].phase.Locking? && s.threads[t].phase.wanted == [l] + rest
    requires l !in s.locks
    requires after == s.threads[t].(phase := s.threads[t].phase.(wanted := rest))
    ensures Apply(s, Acquire(t)) == s.(locks := s.locks[l := t], threads := s.threads[t := after])
  {
    assert ([l] + rest)[1..] == rest;
  }

  /** The same between two given states. */
  lemma Locks(s: State, t: Tid, l: Lock, next: State)
    requires t in s.threads && t in next.threads && l !in s.locks
    requires s.threads[t].phase.Locking? && next.threads[t].phase.Locking?
    requires s.threads[t].phase.wanted == [l] + next.threads[t].phase.wanted
    requires next.threads[t] == s.threads[t].(phase := s.threads[t].phase.(wanted := next.threads[t].phase.wanted))
    requires s.binding == next.binding && s.pending == next.pending && s.remote == next.remote
    requires next.locks == s.locks[l := t] && next.threads == s.threads[t := next.threads[t]]
    ensures Apply(s, Acquire(t)) == next
  {
    AcquireIs(s, t, l, next.threads[t].phase.wanted, next.threads[t]);
  }

  lemma MoverLocksFirst()
    ensures Leads(2)
  {
    assert map[1 := Waiting(), 2 := Mover(Locking([Service("a"), Service("b"), Customer("c")], "a"))]
        [2 := Mover(Locking([Service("b"), Customer("c")], "a"))] == StaleState(3).threads;
    Locks(StaleState(2), 2, Service("a"), StaleState(3));
  }

  lemma MoverLocksSecond()
    ensures Leads(3)
  {
    assert map[1 := Waiting(), 2 := Mover(Locking([Service("b"), Customer("c")], "a"))]
        [2 := Mover(Locking([Customer("c")], "a"))] == StaleState(4).threads;
    Locks(StaleState(3), 2, Service("b"), StaleState(4));
  }

  lemma MoverLocksThird()
    ensures Leads(4)
  {
    assert map[1 := Waiting(), 2 := Mover(Locking([Customer("c")], "a"))][2 := Mover(Locking([], "a"))] == StaleState(5).threads;
    Locks(StaleState(4), 2, Customer("c"), StaleState(5));
  }

  lemma MoverEnters()
    ensures Leads(5)
  {
    var s := StaleState(5);
    assert Checked(s, 2) == Some(Armed({"a", "b"}));
    assert s.threads[2 := Mover(Armed({"a", "b"}))] == StaleState(6).threads;
  }

  lemma MoverMoves()
    ensures Leads(6)
  {
    assert StaleState(6).binding["c" := "b"] == AFTER;
  }

  lemma MoverEnds()
    ensures Leads(7)
  {
    var s := StaleState(7);
    assert s.threads - {2} == StaleState(8).threads;
    assert (map l | l in s.locks && s.locks[l] != 2 :: s.locks[l]) == map[];
  }

  lemma SaverLocks(i: nat)
    requires 8 <= i < 10
    ensures Leads(i)
  {
    assert [Service("b")][1..] == [];
    var s, next := Apply(StaleState(i), StaleStep(i)), StaleState(i + 1);
    assert s.locks == next.locks;
    assert s.threads == next.threads;
  }

  lemma SaverEnters()
    ensures Leads(10)
  {
    var s := StaleState(10);
    assert !PendingAt(s, "b");
    assert Checked(s, 3) == Some(Armed({"b"}));
    assert s.threads[3 := Saver(Armed({"b"}))] == StaleState(11).threads;
  }

  lemma RenewalLocks(i: nat)
    requires 11 <= i < 13
    ensures Leads(i)
  {
    var s, next := StaleState(i), StaleState(i + 1);
    var l := s.threads[1].phase.wanted[0];
    AcquireIs(s, 1, l, next.threads[1].phase.wanted, next.threads[1]);
    assert s.locks[l := 1] == next.locks;
    assert s.threads[1 := next.threads[1]] == next.threads;
  }

  lemma RenewalDebits()
    ensures Leads(13)
  {
    var s := StaleState(13);
    assert Checked(s, 1) == Some(Renewing);
    assert s.threads[1 := Thread(Renewal("c"), Renewing)] == StaleState(14).threads;
  }

  /** After the stale debit the save writes the pending client. */
  lemma StaleRenewalIsWritten()
    ensures Init(START)
    ensures
      var s := Run(START, seq(14, i requires 0 <= i => StaleStep(i)));
      PendingAt(s, "b") && Violates(s, Write(3, "b", 7)) && s.remote == REMOTE
  {
    var steps := seq(14, i requires 0 <= i => StaleStep(i));
    forall i | 0 <= i < 14
      ensures Apply(StaleState(i), steps[i]) == StaleState(i + 1)
    {
      StaleLeads(i);
    }
    Trace(steps, StaleState);
    assert "c" in StaleState(14).pending;
  }

  lemma StaleLeads(i: nat)
    requires i < 14
    ensures Leads(i)
  {
    if i == 0 { RenewalBegins(); }
    else if i == 1 { MoverBegins(); }
    else if i == 2 { MoverLocksFirst(); }
    else if i == 3 { MoverLocksSecond(); }
    else if i == 4 { MoverLocksThird(); }
    else if i == 5 { MoverEnters(); }
    else if i == 6 { MoverMoves(); }
    else if i == 7 { MoverEnds(); }
    else if i < 10 { SaverLocks(i); }
    else if i == 10 { SaverEnters(); }
    else if i < 13 { RenewalLocks(i); }
    else { RenewalDebits(); }
  }

  // ---- a rebind with the lock of an old binding ----

  function Stale(phase: Phase): Thread {
    Thread(Rebind("c", "b"), phase)
  }

  function Other(phase: Phase): Thread {
    Thread(Rebind("c", "d"), phase)
  }

  /** A rebind reads the binding and waits while another one moves the node away;
      then it takes its locks. */
  function RebindStep(i: nat): Step {
    if i == 0 then Begin(1, Rebind("c", "b"), true)
    else if i == 1 then Begin(2, Rebind("c", "d"), true)
    else if i < 5 then Acquire(2)
    else if i == 5 then Enter(2)
    else if i == 6 then Move(2, "d")
    else if i == 7 then End(2)
    else Acquire(1)
  }

  const OTHER_LOCKS: map<Lock, Tid> := map[Service("a") := 2, Service("d") := 2, Customer("c") := 2]
  const STALE_LOCKS: map<Lock, Tid> := map[Service("a") := 1, Service("b") := 1, Customer("c") := 1]
  const MOVED := map["c" := "d"]

  function RebindState(i: nat): State {
    var a, b, c, d := Service("a"), Service("b"), Customer("c"), Service("d");
    var waiting := Stale(Locking([a, b, c], "a"));
    if i == 0 then START
    else if i == 1 then State(BEFORE, {}, REMOTE, map[], map[1 := waiting])
    else if i == 2 then State(BEFORE, {}, REMOTE, map[], map[1 := waiting, 2 := Other(Locking([a, d, c], "a"))])
    else if i == 3 then State(BEFORE, {}, REMOTE, map[a := 2], map[1 := waiting, 2 := Other(Locking([d, c], "a"))])
    else if i == 4 then State(BEFORE, {}, REMOTE, map[a := 2, d := 2], map[1 := waiting, 2 := Other(Locking([c], "a"))])
    else if i == 5 then State(BEFORE, {}, REMOTE, OTHER_LOCKS, map[1 := waiting, 2 := Other(Locking([], "a"))])
    else if i == 6 then State(BEFORE, {}, REMOTE, OTHER_LOCKS, map[1 := waiting, 2 := Other(Armed({"a", "d"}))])
    else if i == 7 then State(MOVED, {}, REMOTE, OTHER_LOCKS, map[1 := waiting, 2 := Other(Armed({"a", "d"}))])
    else if i == 8 then State(MOVED, {}, REMOTE, map[], map[1 := waiting])
    else if i == 9 then State(MOVED, {}, REMOTE, map[a := 1], map[1 := Stale(Locking([b, c], "a"))])
    else if i == 10 then State(MOVED, {}, REMOTE, map[a := 1, b := 1], map[1 := Stale(Locking([c], "a"))])
    else State(MOVED, {}, REMOTE, STALE_LOCKS, map[1 := Stale(Locking([], "a"))])
  }

  ghost predicate RebindLeads(i: nat) {
    Apply(RebindState(i), RebindStep(i)) == RebindState(i + 1)
  }

  lemma RebindsBegin(i: nat)
    requires i < 2
    ensures RebindLeads(i)
  {
    var s, next := RebindState(i), RebindState(i + 1);
    var t := i + 1;
    assert Wanted(RebindStep(i).task, "a", true) == next.threads[t].phase.wanted;
    assert s.threads[t := next.threads[t]] == next.threads;
  }

  lemma OtherLocksFirst()
    ensures RebindLeads(2)
  {
    var s, next := RebindState(2), RebindState(3);
    assert s.threads[2 := next.threads[2]] == next.threads;
    assert s.locks[Service("a") := 2] == next.locks;
    Locks(s, 2, Service("a"), next);
  }

  lemma OtherLocksSecond()
    ensures RebindLeads(3)
  {
    var s, next := RebindState(3), RebindState(4);
    assert s.threads[2 := next.threads[2]] == next.threads;
    assert s.locks[Service("d") := 2] == next.locks;
    Locks(s, 2, Service("d"), next);
  }

  lemma OtherLocksThird()
    ensures RebindLeads(4)
  {
    var s, next := RebindState(4), RebindState(5);
    assert s.threads[2 := next.threads[2]] == next.threads;
    assert s.locks[Customer("c") := 2] == next.locks;
    Locks(s, 2, Customer("c"), next);
  }

  lemma StaleLocksFirst()
    ensures RebindLeads(8)
  {
    var s, next := RebindState(8), RebindState(9);
    assert s.threads[1 := next.threads[1]] == next.threads;
    assert s.locks[Service("a") := 1] == next.locks;
    Locks(s, 1, Service("a"), next);
  }

  lemma StaleLocksSecond()
    ensures RebindLeads(9)
  {
    var s, next := RebindState(9), RebindState(10);
    assert s.threads[1 := next.threads[1]] == next.threads;
    assert s.locks[Service("b") := 1] == next.locks;
    Locks(s, 1, Service("b"), next);
  }

  lemma StaleLocksThird()
    ensures RebindLeads(10)
  {
    var s, next := RebindState(10), RebindState(11);
    assert s.threads[1 := next.threads[1]] == next.threads;
    assert s.locks[Customer("c") := 1] == next.locks;
    Locks(s, 1, Customer("c"), next);
  }

  lemma OtherEnters()
    ensures RebindLeads(5)
  {
    var s := RebindState(5);
    assert Checked(s, 2) == Some(Armed({"a", "d"}));
    assert s.threads[2 := Other(Armed({"a", "d"}))] == RebindState(6).threads;
  }

  lemma OtherMoves()
    ensures RebindLeads(6)
  {
    assert RebindState(6).binding["c" := "d"] == MOVED;
  }

  lemma OtherEnds()
    ensures RebindLeads(7)
  {
    var s := RebindState(7);
    assert s.threads - {2} == RebindState(8).threads;
    assert (map l | l in s.locks && s.locks[l] != 2 :: s.locks[l]) == map[];
  }

  lemma RebindArrives()
    ensures Run(START, seq(11, i requires 0 <= i => RebindStep(i))) == RebindState(11)
  {
    var steps := seq(11, i requires 0 <= i => RebindStep(i));
    forall i | 0 <= i < 11
      ensures Apply(RebindState(i), steps[i]) == RebindState(i + 1)
    {
      RebindLeadsOn(i);
    }
    Trace(steps, RebindState);
  }

  lemma RebindLeadsOn(i: nat)
    requires i < 11
    ensures RebindLeads(i)
  {
    if i < 2 { RebindsBegin(i); }
    else if i == 2 { OtherLocksFirst(); }
    else if i == 3 { OtherLocksSecond(); }
    else if i == 4 { OtherLocksThird(); }
    else if i == 5 { OtherEnters(); }
    else if i == 6 { OtherMoves(); }
    else if i == 7 { OtherEnds(); }
    else if i == 8 { StaleLocksFirst(); }
    else if i == 9 { StaleLocksSecond(); }
    else { StaleLocksThird(); }
  }

  lemma RebindIsStale()
    ensures
      var s := RebindState(11);
      && Inv(s) && AtChecks(s, 1) && Checked(s, 1).Some? && !Held(s, 1, Service("d"))
      && Unheard(s, 3, "e") && Service("d") !in s.locks
  {
    var s := RebindState(11);
    assert ThreadOk(s, 1, s.threads[1]);
    assert Checked(s, 1) == Some(Armed({"d", "b"}));
    assert |"e"| == 1 && "e"[0] != "c"[0];
  }

  /** The stale rebind enters and moves the node away, the client it left is bound
      to a new customer node, and that node's renewal debits and ends with its
      remote call still to be made up for. */
  function RebindRest(): seq<Step> {
    [Move(1, "b")] + (AloneSteps(3, Bind("e", "d")) + AloneSteps(3, Renewal("e")))
  }

  function RebindRun(): seq<Step> {
    seq(11, i requires 0 <= i => RebindStep(i)) + ([Enter(1)] + RebindRest())
  }

  lemma RebindRestOpens()
    ensures Violates(Run(DoEnter(RebindState(11), 1), RebindRest()), Write(1, "d", 7))
  {
    RebindIsStale();
    var s := RebindState(11);
    StaleRebindOpens(s, 1, 3, "c", "b", "e", 7);
    var rest := AloneSteps(3, Bind("e", "d")) + AloneSteps(3, Renewal("e"));
    assert FreeingSteps(s, "d") + rest == rest;
  }

  /** After it the write with which the rebind takes its change back hits the client
      of a pending renewal. */
  lemma StaleRebindIsWritten()
    ensures Init(START)
    ensures Violates(Run(START, RebindRun()), Write(1, "d", 7))
  {
    RebindArrives();
    RebindRestOpens();
    EnterThen(RebindState(11), 1, RebindRest());
    Continue(START, seq(11, i requires 0 <= i => RebindStep(i)), [Enter(1)] + RebindRest());
  }

  lemma EnterThen(s: State, t: Tid, rest: seq<Step>)
    ensures Run(s, [Enter(t)] + rest) == Run(DoEnter(s, t), rest)
  {
    Continue(s, [Enter(t)], rest);
    OneStep(s, Enter(t));
  }
}
