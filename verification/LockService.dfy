/** Named database locks around operations: re-entrant for the same flow of calls,
    taken in sorted order when several are asked for at once, and given back on
    every way out. */
module LockService {
  import opened LockNames

  /** What a caller runs under its locks, down to the calls it nests. */
  datatype Operation =
    | Work(id: nat)
    | Throw
    | Then(first: Operation, second: Operation)
    | WithLock(key: Key, body: Operation)
    | WithLocks(keys: seq<Key>, body: Operation)

  datatype Outcome = Done | Refused | Threw

  datatype Event =
    | Ran(id: nat, held: set<string>)
    | Asked(wait: Wait, granted: bool)

  function Names(keys: seq<Key>): set<string> {
    set i | 0 <= i < |keys| :: Name(keys[i])
  }

  // ---- what an operation may do ----

  /** The event runs a piece of work of the operation with every lock around it held. */
  predicate Guarded(op: Operation, above: set<string>, e: Event)
    decreases op
  {
    match op
    case Work(id) => e.Ran? && e.id == id && above <= e.held
    case Throw => false
    case Then(first, second) => Guarded(first, above, e) || Guarded(second, above, e)
    case WithLock(key, body) => Guarded(body, above + {Name(key)}, e)
    case WithLocks(keys, body) => Guarded(body, above + Names(keys), e)
  }

  /** The operation reaches a throw when it gets every lock it asks for. */
  predicate Throws(op: Operation) {
    match op
    case Work(_) => false
    case Throw => true
    case Then(first, second) => Throws(first) || Throws(second)
    case WithLock(_, body) => Throws(body)
    case WithLocks(_, body) => Throws(body)
  }

  /** The work of an operation that gets every lock it asks for, up to a throw. */
  function Works(op: Operation): seq<nat> {
    match op
    case Work(id) => [id]
    case Throw => []
    case Then(first, second) => Works(first) + if Throws(first) then [] else Works(second)
    case WithLock(_, body) => Works(body)
    case WithLocks(_, body) => Works(body)
  }

  /** The work that was run. */
  function Ids(events: seq<Event>): seq<nat> {
    if events == [] then []
    else
      var e := events[|events| - 1];
      Ids(events[..|events| - 1]) + if e.Ran? then [e.id] else []
  }

  /** The requests that were made. */
  function Waits(events: seq<Event>): seq<Wait> {
    if events == [] then []
    else
      var e := events[|events| - 1];
      Waits(events[..|events| - 1]) + if e.Asked? then [e.wait] else []
  }

  lemma {:induction false} Append(a: seq<Event>, b: seq<Event>)
    ensures Ids(a + b) == Ids(a) + Ids(b)
    ensures Waits(a + b) == Waits(a) + Waits(b)
  {
    if b == [] {
      assert a + b == a;
    } else {
      assert (a + b)[..|a + b| - 1] == a + b[..|b| - 1];
      Append(a, b[..|b| - 1]);
    }
  }

  /** Every lock the operation asks for comes after all those it holds by then. */
  predicate Ordered(op: Operation, above: set<string>)
    decreases op
  {
    match op
    case Work(_) => true
    case Throw => true
    case Then(first, second) => Ordered(first, above) && Ordered(second, above)
    case WithLock(key, body) =>
      && (Name(key) !in above ==> forall h <- above :: Less(h, Name(key)))
      && Ordered(body, above + {Name(key)})
    case WithLocks(keys, body) =>
      && (forall n <- Names(keys) - above, h <- above :: Less(h, n))
      && (forall m <- Names(keys) - above, n <- Names(keys) - above :: Rank(m) == Rank(n))
      && Ordered(body, above + Names(keys))
  }

  predicate Sorted(names: seq<string>) {
    forall i, j :: 0 <= i < j < |names| ==> LexLess(names[i], names[j])
  }

  lemma InsertSorted(names: seq<string>, i: nat, name: string)
    requires Sorted(names) && i <= |names|
    requires i < |names| ==> LexLess(name, names[i])
    requires i > 0 ==> LexLess(names[i - 1], name)
    ensures Sorted(names[..i] + [name] + names[i..])
  {
    var next := names[..i] + [name] + names[i..];
    forall j, k | 0 <= j < k < |next|
      ensures LexLess(next[j], next[k])
    {
      if j < i - 1 && k == i {
        LexTransitive(names[j], names[i - 1], name);
      } else if j == i && k > i + 1 {
        LexTransitive(name, names[i], names[k - 1]);
      }
    }
  }

  function Elements(names: seq<string>): set<string> {
    set n | n in names
  }

  lemma HeadStays(names: seq<string>, name: string, rest: seq<string>)
    requires names != [] && Sorted(names) && LexLess(names[0], name)
    requires Sorted(rest) && Elements(rest) == Elements(names[1..]) + {name}
    ensures Sorted([names[0]] + rest) && Elements([names[0]] + rest) == Elements(names) + {name}
  {
    var r := [names[0]] + rest;
    forall i, j | 0 <= i < j < |r|
      ensures LexLess(r[i], r[j])
    {
      if i == 0 {
        assert r[j] == rest[j - 1] && r[j] in Elements(rest);
      }
    }
    assert names == [names[0]] + names[1..];
    assert Elements(r) == {names[0]} + Elements(rest);
    assert Elements(names) == {names[0]} + Elements(names[1..]);
  }

  lemma {:induction false} Inserted(names: seq<string>, name: string) returns (r: seq<string>)
    requires Sorted(names) && name !in names
    ensures Sorted(r) && Elements(r) == Elements(names) + {name}
  {
    if names == [] {
      r := [name];
    } else if LexLess(name, names[0]) {
      InsertSorted(names, 0, name);
      r := [name] + names;
      assert r == names[..0] + [name] + names[0..];
    } else {
      LexTotal(names[0], name);
      assert names == [names[0]] + names[1..];
      var rest := Inserted(names[1..], name);
      HeadStays(names, name, rest);
      r := [names[0]] + rest;
    }
  }

  lemma {:induction false} Arranged(names: set<string>) returns (r: seq<string>)
    ensures Sorted(r) && Elements(r) == names
    decreases |names|
  {
    r := [];
    if names != {} {
      var n :| n in names;
      r := Arranged(names - {n});
      assert n !in Elements(r);
      r := Inserted(r, n);
    }
  }

  /** The names of a set in sorted order. */
  ghost function InOrderOf(names: set<string>): seq<string> {
    if r :| Sorted(r) && Elements(r) == names then r else []
  }

  lemma InOrderOfIs(names: set<string>)
    ensures Sorted(InOrderOf(names)) && Elements(InOrderOf(names)) == names
  {
    var r := Arranged(names);
  }

  lemma {:induction false} SortedUnique(a: seq<string>, b: seq<string>)
    requires Sorted(a) && Sorted(b) && Elements(a) == Elements(b)
    ensures a == b
  {
    assert a != [] ==> a[0] in Elements(a);
    assert b != [] ==> b[0] in Elements(b);
    if a != [] {
      SameHead(a, b);
      TailElements(a);
      TailElements(b);
      SortedUnique(a[1..], b[1..]);
      assert a == [a[0]] + a[1..] && b == [b[0]] + b[1..];
    }
  }

  lemma SameHead(a: seq<string>, b: seq<string>)
    requires Sorted(a) && Sorted(b) && Elements(a) == Elements(b) && a != [] && b != []
    ensures a[0] == b[0]
  {
    assert a[0] in Elements(b) && b[0] in Elements(a);
    LexTotal(a[0], b[0]);
  }

  lemma TailElements(a: seq<string>)
    requires Sorted(a) && a != []
    ensures Elements(a[1..]) == Elements(a) - {a[0]}
  {
    LexTotal(a[0], a[0]);
    assert a == [a[0]] + a[1..];
  }

  // ---- what an operation asks for ----

  /** The requests for several names, one after the other. */
  function Requests(names: seq<string>, above: set<string>): seq<Wait> {
    seq(|names|, i requires 0 <= i < |names| => Wait(above + Elements(names[..i]), names[i]))
  }

  /** All requests of an operation that gets every lock it asks for, up to a throw,
      with what it holds at each. */
  ghost function Plan(op: Operation, above: set<string>): seq<Wait>
    decreases op
  {
    match op
    case Work(_) => []
    case Throw => []
    case Then(first, second) => Plan(first, above) + if Throws(first) then [] else Plan(second, above)
    case WithLock(key, body) =>
      (if Name(key) in above then [] else [Wait(above, Name(key))]) + Plan(body, above + {Name(key)})
    case WithLocks(keys, body) => Requests(InOrderOf(Names(keys) - above), above) + Plan(body, above + Names(keys))
  }

  /** What a run of an operation may have done: work only under all its locks, and
      no requests but those of its plan. */
  ghost predicate Conforms(op: Operation, above: set<string>, events: seq<Event>) {
    forall e <- events ::
      && (e.Ran? ==> Guarded(op, above, e))
      && (e.Asked? ==> e.wait in Plan(op, above))
  }

  predicate AllGranted(events: seq<Event>) {
    forall e <- events :: e.Asked? ==> e.granted
  }

  /** The run ended with a request that was not granted. */
  predicate EndsRefused(events: seq<Event>) {
    && events != []
    && var last := |events| - 1;
    && events[last].Asked? && !events[last].granted && AllGranted(events[..last])
  }

  /** The answer of a run and its events: when every request was granted, all work
      up to a throw was run, all requests were made and only a throw stops it; else
      it was refused, right at the request that was not granted. */
  ghost predicate Follows(op: Operation, above: set<string>, outcome: Outcome, events: seq<Event>) {
    if AllGranted(events) then
      && Ids(events) == Works(op) && Waits(events) == Plan(op, above)
      && outcome == if Throws(op) then Threw else Done
    else
      && Ids(events) <= Works(op) && Waits(events) <= Plan(op, above)
      && outcome == Refused && EndsRefused(events)
  }

  /** An operation that asks for nothing new is never refused. */
  lemma NothingAsked(op: Operation, above: set<string>, outcome: Outcome, events: seq<Event>)
    ensures Follows(op, above, outcome, events) && Plan(op, above) == [] ==>
              outcome == (if Throws(op) then Threw else Done) && Ids(events) == Works(op)
  {
    if Follows(op, above, outcome, events) && EndsRefused(events) {
      RefusedAsked(events);
    }
  }

  lemma RefusedAsked(events: seq<Event>)
    requires EndsRefused(events)
    ensures Waits(events) != []
  {
    assert Waits(events)[|Waits(events)| - 1] == events[|events| - 1].wait;
  }

  /** All events are requests, made in this order, and granted but perhaps the last. */
  ghost predicate AskedFor(events: seq<Event>, waits: seq<Wait>) {
    && |events| <= |waits|
    && forall i :: 0 <= i < |events| ==>
         events[i].Asked? && events[i].wait == waits[i] && (i < |events| - 1 ==> events[i].granted)
  }

  lemma {:induction false} AskedHasWaits(events: seq<Event>, waits: seq<Wait>)
    requires AskedFor(events, waits)
    ensures Ids(events) == [] && Waits(events) == waits[..|events|]
  {
    if events != [] {
      var most := events[..|events| - 1];
      AskedHasWaits(most, waits);
      assert waits[..|events|] == waits[..|most|] + [waits[|most|]];
    }
  }

  lemma NamesStep(keys: seq<Key>, k: nat)
    requires k < |keys|
    ensures Names(keys[..k + 1]) == Names(keys[..k]) + {Name(keys[k])}
  {
    forall n
      ensures n in Names(keys[..k + 1]) <==> n in Names(keys[..k]) || n == Name(keys[k])
    {
      InNames(keys, k + 1, n);
      InNames(keys, k, n);
    }
  }

  lemma InNames(keys: seq<Key>, k: nat, n: string)
    requires k <= |keys|
    ensures n in Names(keys[..k]) <==> exists i :: 0 <= i < k && Name(keys[i]) == n
  {
    if n in Names(keys[..k]) {
      var i :| 0 <= i < k && Name(keys[..k][i]) == n;
      assert keys[..k][i] == keys[i];
    }
    if i :| 0 <= i < k && Name(keys[i]) == n {
      assert keys[..k][i] == keys[i];
    }
  }

  method Insert(names: seq<string>, name: string) returns (next: seq<string>)
    requires Sorted(names) && name !in names
    ensures Sorted(next) && Elements(next) == Elements(names) + {name}
  {
    var i := 0;
    while i < |names| && LexLess(names[i], name)
      invariant 0 <= i <= |names|
      invariant i > 0 ==> LexLess(names[i - 1], name)
    {
      i := i + 1;
    }
    if i < |names| {
      assert names[i] in names;
      LexTotal(names[i], name);
    }
    InsertSorted(names, i, name);
    assert names == names[..i] + names[i..];
    next := names[..i] + [name] + names[i..];
  }

  /** The names asked for, once each, without those held already, in sorted order. */
  method LockNamesFor(keys: seq<Key>, active: set<string>) returns (names: seq<string>)
    ensures Sorted(names) && Elements(names) == Names(keys) - active
  {
    names := [];
    for k := 0 to |keys|
      invariant Sorted(names) && Elements(names) == Names(keys[..k]) - active
    {
      var name := Name(keys[k]);
      NamesStep(keys, k);
      if name !in active && name !in names {
        names := Insert(names, name);
      } else {
        assert name in Elements(names) || name in active;
      }
    }
    assert keys[..|keys|] == keys;
  }

  // ---- orderly operations ----

  /** The names come after everything held, and are of one class. */
  predicate AfterAll(names: seq<string>, active: set<string>) {
    (forall n <- names, h <- active :: Less(h, n)) && (forall m <- names, n <- names :: Rank(m) == Rank(n))
  }

  lemma RequestsInOrder(names: seq<string>, active: set<string>)
    requires Sorted(names) && AfterAll(names, active)
    ensures forall w <- Requests(names, active) :: InOrder(w)
  {
    forall i | 0 <= i < |names|
      ensures InOrder(Requests(names, active)[i])
    {
      assert names[i] in names;
      forall n | n in Elements(names[..i])
        ensures n in names && LexLess(n, names[i])
      {
        var j :| 0 <= j < i && names[..i][j] == n;
        assert names[j] == n;
      }
    }
  }

  /** The plan of an orderly operation holds only orderly requests. */
  lemma {:induction false} PlanInOrder(op: Operation, above: set<string>)
    requires Ordered(op, above)
    ensures forall w <- Plan(op, above) :: InOrder(w)
    decreases op
  {
    match op
    case Work(_) =>
    case Throw =>
    case Then(first, second) =>
      PlanInOrder(first, above);
      PlanInOrder(second, above);
    case WithLock(key, body) =>
      PlanInOrder(body, above + {Name(key)});
    case WithLocks(keys, body) =>
      var names := InOrderOf(Names(keys) - above);
      InOrderOfIs(Names(keys) - above);
      assert forall n <- names :: n in Elements(names);
      RequestsInOrder(names, above);
      PlanInOrder(body, above + Names(keys));
  }

  class DatabaseLockService {
    var owners: map<string, nat>      // the database's lock table: name and holder
    const me: nat
    ghost var trace: seq<Event>

    constructor (me: nat, owners: map<string, nat>)
      requires forall n <- owners :: owners[n] != me
      ensures this.me == me && this.owners == owners && trace == [] && Mine() == {}
    {
      this.me := me;
      this.owners := owners;
      this.trace := [];
    }

    function Mine(): set<string>
      reads this
    {
      set n | n in owners && owners[n] == me
    }

    /** Other holders come and go. */
    method Meanwhile()
      modifies `owners
      ensures Mine() == old(Mine())
    {
      var next: map<string, nat> := *;
      if (set n | n in next && next[n] == me) == Mine() {
        owners := next;
      }
    }

    /** `GET_LOCK`: waits, and gets the name when it is free before the timeout. */
    method GetLock(name: string) returns (acquired: bool)
      modifies `owners, `trace
      ensures trace == old(trace) + [Asked(Wait(old(Mine()), name), acquired)]
      ensures acquired ==> name !in old(Mine()) && Mine() == old(Mine()) + {name}
      ensures !acquired ==> Mine() == old(Mine())
    {
      ghost var wait := Wait(Mine(), name);
      Meanwhile();
      var inTime: bool := *;
      acquired := inTime && name !in owners;
      if acquired {
        assert name !in Mine();
        owners := owners[name := me];
      }
      trace := trace + [Asked(wait, acquired)];
    }

    method ReleaseLock(name: string)
      modifies `owners
      ensures Mine() == old(Mine()) - {name}
    {
      if name in owners && owners[name] == me {
        owners := owners - {name};
      }
    }

    /** Takes names one after the other; on a refusal those taken so far are given
        back by the caller. */
    method Acquire(names: seq<string>, active: set<string>) returns (acquired: seq<string>)
      requires Sorted(names) && Elements(names) !! active && Mine() == active
      modifies `owners, `trace
      ensures acquired <= names && Mine() == active + Elements(acquired)
      ensures old(trace) <= trace && AskedFor(trace[|old(trace)|..], Requests(names, active))
      ensures
        var asked := trace[|old(trace)|..];
        if acquired == names then |asked| == |names| && AllGranted(asked) else |asked| == |acquired| + 1 && EndsRefused(asked)
    {
      acquired := [];
      for i := 0 to |names|
        invariant acquired == names[..i] && Mine() == active + Elements(acquired)
        invariant old(trace) <= trace && AskedFor(trace[|old(trace)|..], Requests(names, active))
        invariant |trace[|old(trace)|..]| == i && AllGranted(trace[|old(trace)|..])
      {
        ghost var before := trace[|old(trace)|..];
        var got := GetLock(names[i]);
        assert trace[|old(trace)|..] == before + [Asked(Wait(active + Elements(names[..i]), names[i]), got)];
        AsksOneMore(before, Requests(names, active), got);
        if !got {
          return;
        }
        acquired := acquired + [names[i]];
      }
    }

    method Release(acquired: seq<string>, active: set<string>)
      requires Sorted(acquired) && Elements(acquired) !! active && Mine() == active + Elements(acquired)
      modifies `owners
      ensures Mine() == active
    {
      var i := |acquired|;
      while i > 0
        invariant 0 <= i <= |acquired| && Mine() == active + Elements(acquired[..i])
      {
        i := i - 1;
        assert acquired[..i + 1] == acquired[..i] + [acquired[i]];
        LexTotal(acquired[i], acquired[i]);
        assert acquired[i] !in acquired[..i] && acquired[i] in acquired;
        ReleaseLock(acquired[i]);
      }
    }

    /** Takes all the names, or gives back those it got. */
    method AcquireAll(names: seq<string>, active: set<string>) returns (acquired: bool)
      requires Sorted(names) && Elements(names) !! active && Mine() == active
      modifies `owners, `trace
      ensures Mine() == if acquired then active + Elements(names) else active
      ensures old(trace) <= trace && AskedFor(trace[|old(trace)|..], Requests(names, active))
      ensures if acquired then |trace| - |old(trace)| == |names| && AllGranted(trace[|old(trace)|..]) else EndsRefused(trace[|old(trace)|..])
    {
      var taken := Acquire(names, active);
      acquired := |taken| == |names|;
      if !acquired {
        Release(taken, active);
      }
    }

    /** Runs an operation that holds the locks `active`. */
    method Perform(op: Operation, active: set<string>) returns (outcome: Outcome)
      requires active == Mine()
      modifies this
      ensures Mine() == active
      ensures old(trace) <= trace
      ensures Conforms(op, active, trace[|old(trace)|..])
      ensures Follows(op, active, outcome, trace[|old(trace)|..])
      ensures Plan(op, active) == [] ==> !outcome.Refused?
      decreases op, 0
    {
      ghost var before := trace;
      match op {
        case Work(id) =>
          Meanwhile();
          trace := trace + [Ran(id, active)];
          outcome := Done;
          assert trace[|before|..] == [Ran(id, active)];
          RanOnce(id, active);
        case Throw =>
          outcome := Threw;
        case Then(first, second) =>
          outcome := Perform(first, active);
          if outcome.Done? {
            ghost var middle := trace;
            outcome := Perform(second, active);
            assert trace[|before|..] == middle[|before|..] + trace[|middle|..];
            OneAfterOther(first, second, active, outcome, middle[|before|..], trace[|middle|..]);
          } else {
            StopsAtFirst(first, second, active, outcome, trace[|before|..]);
          }
        case WithLock(key, body) =>
          outcome := PerformWithLock(key, body, active);
        case WithLocks(keys, body) =>
          outcome := PerformWithLocks(keys, body, active);
      }
      NothingAsked(op, active, outcome, trace[|before|..]);
    }

    method PerformWithLock(key: Key, body: Operation, active: set<string>) returns (outcome: Outcome)
      requires active == Mine()
      modifies this
      ensures Mine() == active
      ensures old(trace) <= trace
      ensures Conforms(WithLock(key, body), active, trace[|old(trace)|..])
      ensures Follows(WithLock(key, body), active, outcome, trace[|old(trace)|..])
      ensures Plan(WithLock(key, body), active) == [] ==> !outcome.Refused?
      decreases body, 2
    {
      ghost var before := trace;
      var name := Name(key);
      if name in active {
        assert active + {name} == active;
        outcome := Perform(body, active);
        NothingAsked(WithLock(key, body), active, outcome, trace[|before|..]);
        return;
      }
      var acquired := GetLock(name);
      ghost var asked := [Asked(Wait(active, name), acquired)];
      ghost var middle := trace;
      assert middle[|before|..] == asked;
      RequestConforms(key, body, active, acquired);
      if !acquired {
        return Refused;
      }
      outcome := PerformUnder(key, body, active);
      assert trace[|before|..] == asked + trace[|middle|..];
      Joined(WithLock(key, body), body, active, active + {name}, [Wait(active, name)], outcome, asked, trace[|middle|..]);
    }

    /** The operation under the one name asked for, and its release. */
    method PerformUnder(key: Key, body: Operation, active: set<string>) returns (outcome: Outcome)
      requires Name(key) !in active && Mine() == active + {Name(key)}
      modifies this
      ensures Mine() == active
      ensures old(trace) <= trace
      ensures Conforms(WithLock(key, body), active, trace[|old(trace)|..])
      ensures Follows(body, active + {Name(key)}, outcome, trace[|old(trace)|..])
      decreases body, 1
    {
      ghost var before := trace;
      outcome := Perform(body, active + {Name(key)});
      ReleaseLock(Name(key));
      UnderLock(key, body, active, trace[|before|..]);
    }

    method PerformWithLocks(keys: seq<Key>, body: Operation, active: set<string>) returns (outcome: Outcome)
      requires active == Mine()
      modifies this
      ensures Mine() == active
      ensures old(trace) <= trace
      ensures Conforms(WithLocks(keys, body), active, trace[|old(trace)|..])
      ensures Follows(WithLocks(keys, body), active, outcome, trace[|old(trace)|..])
      ensures Plan(WithLocks(keys, body), active) == [] ==> !outcome.Refused?
      decreases body, 3
    {
      ghost var before := trace;
      var names := LockNamesFor(keys, active);
      if names == [] {
        outcome := Perform(body, active);
        assert Elements(names) == {};
        HeldAlready(keys, body, active, outcome, trace[|before|..]);
      } else {
        outcome := PerformAsking(keys, body, active, names);
      }
      NothingAsked(WithLocks(keys, body), active, outcome, trace[|before|..]);
    }

    /** Asks for the names one after the other; the operation runs once all are taken. */
    method PerformAsking(keys: seq<Key>, body: Operation, active: set<string>, names: seq<string>) returns (outcome: Outcome)
      requires active == Mine() && Sorted(names) && Elements(names) == Names(keys) - active
      modifies this
      ensures Mine() == active
      ensures old(trace) <= trace
      ensures Conforms(WithLocks(keys, body), active, trace[|old(trace)|..])
      ensures Follows(WithLocks(keys, body), active, outcome, trace[|old(trace)|..])
      decreases body, 2
    {
      ghost var before := trace;
      var acquired := AcquireAll(names, active);
      ghost var asked := trace[|before|..];
      if !acquired {
        RequestsConform(keys, body, active, names, asked);
        return Refused;
      }
      ghost var middle := trace;
      outcome := PerformHolding(keys, body, active, names);
      assert trace[|before|..] == asked + trace[|middle|..];
      AllAcquired(keys, body, active, names, outcome, asked, trace[|middle|..]);
    }

    /** The operation under all the names asked for, and their release. */
    method PerformHolding(keys: seq<Key>, body: Operation, active: set<string>, acquired: seq<string>)
      returns (outcome: Outcome)
      requires Sorted(acquired) && Elements(acquired) == Names(keys) - active && Mine() == active + Elements(acquired)
      modifies this
      ensures Mine() == active
      ensures old(trace) <= trace
      ensures Conforms(WithLocks(keys, body), active, trace[|old(trace)|..])
      ensures Follows(body, active + Names(keys), outcome, trace[|old(trace)|..])
      decreases body, 1
    {
      ghost var before := trace;
      assert active + Names(keys) == Mine();
      outcome := Perform(body, active + Names(keys));
      Release(acquired, active);
      UnderLocks(keys, body, active, trace[|before|..]);
    }
  }

  /** What the operation under a lock may do is what the call for the lock may do. */
  lemma UnderLock(key: Key, body: Operation, active: set<string>, events: seq<Event>)
    requires Conforms(body, active + {Name(key)}, events)
    ensures Conforms(WithLock(key, body), active, events)
  {
  }

  lemma UnderLocks(keys: seq<Key>, body: Operation, active: set<string>, events: seq<Event>)
    requires Conforms(body, active + Names(keys), events)
    ensures Conforms(WithLocks(keys, body), active, events)
  {
  }

  lemma RanOnce(id: nat, above: set<string>)
    ensures Conforms(Work(id), above, [Ran(id, above)]) && Follows(Work(id), above, Done, [Ran(id, above)])
  {
    assert [Ran(id, above)][..0] == [];
    assert Ids([Ran(id, above)]) == [id] && Waits([Ran(id, above)]) == [];
  }

  lemma AsksOneMore(before: seq<Event>, waits: seq<Wait>, granted: bool)
    requires AskedFor(before, waits) && AllGranted(before) && |before| < |waits|
    ensures
      var after := before + [Asked(waits[|before|], granted)];
      AskedFor(after, waits) && if granted then AllGranted(after) else EndsRefused(after)
  {
    var after := before + [Asked(waits[|before|], granted)];
    assert after[..|before|] == before;
    assert forall i :: 0 <= i < |before| ==> before[i] in before;
  }

  /** A call for names that are all held is its body. */
  lemma HeldAlready(keys: seq<Key>, body: Operation, active: set<string>, outcome: Outcome, events: seq<Event>)
    requires Names(keys) - active == {} && Conforms(body, active, events) && Follows(body, active, outcome, events)
    ensures Conforms(WithLocks(keys, body), active, events) && Follows(WithLocks(keys, body), active, outcome, events)
  {
    NothingLeft(Names(keys), active);
    RequestsConform(keys, body, active, [], []);
    assert Plan(WithLocks(keys, body), active) == Plan(body, active);
  }

  lemma NothingLeft(names: set<string>, active: set<string>)
    requires names - active == {}
    ensures active + names == active
  {
    assert forall n <- names :: n !in active ==> n in names - active;
  }

  lemma GrantedBoth(a: seq<Event>, b: seq<Event>)
    ensures AllGranted(a + b) <==> AllGranted(a) && AllGranted(b)
  {
    assert forall e :: e in a + b <==> e in a || e in b;
  }

  lemma RefusedLater(a: seq<Event>, b: seq<Event>)
    requires AllGranted(a) && EndsRefused(b)
    ensures EndsRefused(a + b) && !AllGranted(a + b)
  {
    var last := |b| - 1;
    assert (a + b)[..|a + b| - 1] == a + b[..last];
    GrantedBoth(a, b[..last]);
    assert (a + b)[|a + b| - 1] == b[last] && b[last] in a + b;
  }

  /** A second operation after a first that is done. */
  lemma OneAfterOther(first: Operation, second: Operation, above: set<string>, outcome: Outcome, a: seq<Event>, b: seq<Event>)
    requires Follows(first, above, Done, a) && Follows(second, above, outcome, b)
    ensures Follows(Then(first, second), above, outcome, a + b)
  {
    Append(a, b);
    GrantedBoth(a, b);
    if !AllGranted(b) {
      RefusedLater(a, b);
    }
  }

  lemma StopsAtFirst(first: Operation, second: Operation, above: set<string>, outcome: Outcome, events: seq<Event>)
    requires Follows(first, above, outcome, events) && !outcome.Done?
    ensures Follows(Then(first, second), above, outcome, events)
  {
  }

  /** The requests of a call, all granted, and the operation under them. */
  lemma Joined(op: Operation, body: Operation, above: set<string>, inner: set<string>, waits: seq<Wait>,
               outcome: Outcome, asked: seq<Event>, rest: seq<Event>)
    requires Throws(op) == Throws(body) && Works(op) == Works(body) && Plan(op, above) == waits + Plan(body, inner)
    requires AskedFor(asked, waits) && |asked| == |waits| && AllGranted(asked)
    requires Conforms(op, above, asked) && Conforms(op, above, rest)
    requires Follows(body, inner, outcome, rest)
    ensures Conforms(op, above, asked + rest) && Follows(op, above, outcome, asked + rest)
  {
    AskedHasWaits(asked, waits);
    assert waits[..|asked|] == waits;
    Append(asked, rest);
    GrantedBoth(asked, rest);
    if !AllGranted(rest) {
      RefusedLater(asked, rest);
    }
    ConformsBoth(op, above, asked, rest);
  }

  lemma ConformsBoth(op: Operation, above: set<string>, a: seq<Event>, b: seq<Event>)
    requires Conforms(op, above, a) && Conforms(op, above, b)
    ensures Conforms(op, above, a + b)
  {
  }

  lemma AllAcquired(keys: seq<Key>, body: Operation, active: set<string>, names: seq<string>, outcome: Outcome,
                    asked: seq<Event>, rest: seq<Event>)
    requires Sorted(names) && Elements(names) == Names(keys) - active
    requires AskedFor(asked, Requests(names, active)) && |asked| == |names| && AllGranted(asked)
    requires Conforms(WithLocks(keys, body), active, rest) && Follows(body, active + Names(keys), outcome, rest)
    ensures Conforms(WithLocks(keys, body), active, asked + rest) && Follows(WithLocks(keys, body), active, outcome, asked + rest)
  {
    RequestsConform(keys, body, active, names, asked);
    Joined(WithLocks(keys, body), body, active, active + Names(keys), Requests(names, active), outcome, asked, rest);
  }

  lemma RequestConforms(key: Key, body: Operation, active: set<string>, granted: bool)
    requires Name(key) !in active
    ensures
      var asked := [Asked(Wait(active, Name(key)), granted)];
      && Conforms(WithLock(key, body), active, asked)
      && (!granted ==> Follows(WithLock(key, body), active, Refused, asked))
  {
    assert Plan(WithLock(key, body), active)[0] == Wait(active, Name(key));
    if !granted {
      RefusedAtOnce(WithLock(key, body), active, Wait(active, Name(key)));
    }
  }

  lemma RefusedAtOnce(op: Operation, above: set<string>, wait: Wait)
    requires Plan(op, above) != [] && Plan(op, above)[0] == wait
    ensures Follows(op, above, Refused, [Asked(wait, false)])
  {
    var asked := [Asked(wait, false)];
    assert asked[..0] == [] && asked[0] in asked;
    assert Ids(asked) == [] && Waits(asked) == [wait];
  }

  lemma RequestsConform(keys: seq<Key>, body: Operation, active: set<string>, names: seq<string>, asked: seq<Event>)
    requires Sorted(names) && Elements(names) == Names(keys) - active && AskedFor(asked, Requests(names, active))
    ensures Conforms(WithLocks(keys, body), active, asked)
    ensures Plan(WithLocks(keys, body), active) == Requests(names, active) + Plan(body, active + Names(keys))
    ensures EndsRefused(asked) ==> Follows(WithLocks(keys, body), active, Refused, asked)
  {
    InOrderOfIs(Names(keys) - active);
    SortedUnique(names, InOrderOf(Names(keys) - active));
    AskedHasWaits(asked, Requests(names, active));
    if EndsRefused(asked) {
      assert asked[|asked| - 1] in asked;
    }
  }

  /** Flows that each run an orderly operation from the start never wait for each
      other in a circle. */
  lemma OrderedRunsNeverCircle(runs: seq<(Operation, seq<Event>)>, waits: seq<Wait>)
    requires waits != [] && |runs| == |waits| && Chain(waits)
    requires forall i :: 0 <= i < |runs| ==>
               Ordered(runs[i].0, {}) && Conforms(runs[i].0, {}, runs[i].1) && (exists granted :: Asked(waits[i], granted) in runs[i].1)
    ensures waits[|waits| - 1].wanted !in waits[0].held
  {
    forall w | w in waits
      ensures InOrder(w)
    {
      var i :| 0 <= i < |waits| && waits[i] == w;
      PlanInOrder(runs[i].0, {});
      assert Conforms(runs[i].0, {}, runs[i].1);
    }
    NoCircle(waits);
  }
}
