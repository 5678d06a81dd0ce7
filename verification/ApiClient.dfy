/** The browser's API client: reads without options share one request per path,
    writes end that sharing, and navigation cancels the reads under way.

    A promise that waits is a request in a phase; each method is one event, and
    between events anything may happen in any order. */
module ApiClient {
  import opened Options

  datatype Kind =
    | Shared      // a read without any options
    | Read        // GET or HEAD with options
    | Write       // any other method

  datatype Phase =
    | Fetching
    | Delaying(after: Result)      // before a retry, after this result
    | Settled

  datatype Request = Request(path: string, kind: Kind, generation: nat, attempt: nat, phase: Phase)

  /** How one fetch ends, as far as the retry loop can tell. */
  datatype Result =
    | Response(status: nat, ok: bool)
    | TimedOut
    | NetworkError
    | CancelledByCaller
    | OtherError

  /** How the delay before a retry ends: in time, by an abort from outside, or by the
      timeout of the attempt, which goes on running after a response. */
  datatype End = InTime | Aborted | OwnTimeout

  datatype Event =
    | Call(path: string, kind: Kind)
    | FetchEnds(id: nat, result: Result)
    | DelayEnds(id: nat, end: End)
    | Cleanup(id: nat)
    | Cancel

  const TRANSIENT := {502, 503, 504}

  predicate SafeRead(kind: Kind) {
    !kind.Write?
  }

  function MaxRetries(kind: Kind): nat {
    if SafeRead(kind) then 2 else 0
  }

  /** Whether the loop goes for another attempt after this result. */
  predicate Retries(r: Request, result: Result) {
    && r.attempt < MaxRetries(r.kind)
    && match result
       case Response(status, _) => status in TRANSIENT
       case TimedOut => SafeRead(r.kind)
       case NetworkError => SafeRead(r.kind)
       case CancelledByCaller => false
       case OtherError => false
  }

  /** What is worth another attempt: a read, up to two times, after a gateway error, a
      timeout or a failure of the network. */
  predicate WorthRetry(r: Request, result: Result) {
    && r.kind != Write && r.attempt < 2
    && (result.TimedOut? || result.NetworkError? || (result.Response? && 502 <= result.status <= 504))
  }

  /** Where a request stands after its delay: it fetches again, is delayed once more
      when the timeout of an answered attempt cuts in, or gives up. A timeout that has
      fired does not fire again. */
  function AfterDelay(r: Request, end: End, generation: nat): Request
    requires r.phase.Delaying?
  {
    if end.OwnTimeout? && r.phase.after.TimedOut? then r
    else if r.generation != generation || r.attempt >= MaxRetries(r.kind) then r.(phase := Settled)
    else if end.InTime? then r.(attempt := r.attempt + 1, phase := Fetching)
    else if end.OwnTimeout? && r.phase.after.Response? then r.(phase := Delaying(TimedOut))
    else r.(phase := Settled)
  }

  /** A fetch that was started, with the generation of that moment. */
  datatype Start = Start(id: nat, generation: nat)

  function Starts(starts: seq<Start>, id: nat): nat {
    if starts == [] then 0
    else Starts(starts[..|starts| - 1], id) + if starts[|starts| - 1].id == id then 1 else 0
  }

  lemma StartsAppend(starts: seq<Start>, s: Start, id: nat)
    ensures Starts(starts + [s], id) == Starts(starts, id) + if s.id == id then 1 else 0
  {
    assert (starts + [s])[..|starts|] == starts;
  }

  /** A later moment: requests keep what they are, fetches are only added, and the
      added ones belong to no earlier generation. */
  ghost predicate Later(g: nat, rs: seq<Request>, ss: seq<Start>, generation: nat, requests: seq<Request>, starts: seq<Start>) {
    && g <= generation && |rs| <= |requests| && ss <= starts
    && (forall i :: 0 <= i < |rs| ==> requests[i].kind == rs[i].kind && requests[i].generation == rs[i].generation)
    && forall i :: |ss| <= i < |starts| ==> starts[i].generation >= g
  }

  lemma LaterTransitive(g0: nat, rs0: seq<Request>, ss0: seq<Start>, g1: nat, rs1: seq<Request>, ss1: seq<Start>,
                        g2: nat, rs2: seq<Request>, ss2: seq<Start>)
    requires Later(g0, rs0, ss0, g1, rs1, ss1) && Later(g1, rs1, ss1, g2, rs2, ss2)
    ensures Later(g0, rs0, ss0, g2, rs2, ss2)
  {
    forall i | |ss0| <= i < |ss2|
      ensures ss2[i].generation >= g0
    {
      if i < |ss1| {
        assert ss2[i] == ss1[i];
      }
    }
  }

  class ApiClient {
    var pendingReads: map<string, nat>
    var activeReadRequests: set<nat>
    var readGeneration: nat
    var requests: seq<Request>         // every request ever made; its index names it
    ghost var starts: seq<Start>
    ghost var writes: nat              // how many requests there were at the last write
    ghost var handled: seq<Event>

    ghost predicate Valid()
      reads this
    {
      && PendingOk() && ActiveOk() && CountsOk()
      && writes <= |requests|
      && (forall r <- requests :: r.generation <= readGeneration && r.attempt <= MaxRetries(r.kind))
    }

    /** A path leads to a request of its own for it, from this generation, begun
        after the last write. */
    ghost predicate PendingOk()
      reads this
    {
      forall path <- pendingReads ::
        && writes <= pendingReads[path] < |requests|
        && requests[pendingReads[path]].path == path && requests[pendingReads[path]].kind.Shared?
        && requests[pendingReads[path]].generation == readGeneration
    }

    /** Only reads of this generation that are not settled can be aborted. */
    ghost predicate ActiveOk()
      reads this
    {
      forall id <- activeReadRequests ::
        && id < |requests| && SafeRead(requests[id].kind)
        && requests[id].generation == readGeneration && !requests[id].phase.Settled?
    }

    ghost predicate CountsOk()
      reads this
    {
      && (forall id :: 0 <= id < |requests| ==> Starts(starts, id) == requests[id].attempt + 1)
      && forall s <- starts ::
           s.id < |requests| && (SafeRead(requests[s.id].kind) ==> s.generation == requests[s.id].generation)
    }

    constructor ()
      ensures Valid() && requests == [] && pendingReads == map[] && readGeneration == 0
    {
      pendingReads, activeReadRequests, readGeneration := map[], {}, 0;
      requests, starts, writes, handled := [], [], 0, [];
    }

    /** The attempt of a request begins its fetch. */
    method StartFetch(id: nat)
      requires id < |requests|
      modifies `activeReadRequests, `starts
      ensures starts == old(starts) + [Start(id, readGeneration)]
      ensures activeReadRequests == old(activeReadRequests) + if SafeRead(requests[id].kind) then {id} else {}
    {
      if SafeRead(requests[id].kind) {
        activeReadRequests := activeReadRequests + {id};
      }
      starts := starts + [Start(id, readGeneration)];
    }

    method BeginRequest(path: string, kind: Kind) returns (id: nat)
      requires Valid()
      modifies `requests, `activeReadRequests, `starts
      ensures Valid() && id == |old(requests)|
      ensures requests == old(requests) + [Request(path, kind, readGeneration, 0, Fetching)]
      ensures starts == old(starts) + [Start(id, readGeneration)]
    {
      id := |requests|;
      requests := requests + [Request(path, kind, readGeneration, 0, Fetching)];
      ghost var before := starts;
      NoStartsYet(before, id);
      StartFetch(id);
      forall i | 0 <= i < |requests|
        ensures Starts(starts, i) == requests[i].attempt + 1
      {
        StartsAppend(before, Start(id, readGeneration), i);
      }
    }

    /** `api`: a shared read joins the request that is pending for its path, and a
        write forgets all of them. */
    method Api(path: string, kind: Kind) returns (id: nat)
      requires Valid()
      modifies `pendingReads, `writes, `requests, `activeReadRequests, `starts
      ensures Valid() && old(requests) <= requests
      ensures id < |requests| && id <= |old(requests)|
      ensures requests[id].path == path && requests[id].kind == kind && requests[id].generation == readGeneration
      ensures writes == if kind.Write? then |old(requests)| else old(writes)
      ensures kind.Shared? ==> writes <= id && path in pendingReads && pendingReads[path] == id
      ensures id < |old(requests)| ==>
                requests == old(requests) && starts == old(starts) && path in old(pendingReads) && old(pendingReads[path]) == id
      ensures id < |old(requests)| <==> kind.Shared? && path in old(pendingReads)
      ensures id == |old(requests)| ==>
                && requests == old(requests) + [Request(path, kind, readGeneration, 0, Fetching)]
                && starts == old(starts) + [Start(id, readGeneration)]
      ensures kind.Write? ==> pendingReads == map[] && id == |old(requests)|
      ensures Later(old(readGeneration), old(requests), old(starts), readGeneration, requests, starts)
    {
      if !kind.Shared? {
        if !SafeRead(kind) {
          pendingReads := map[];
          writes := |requests|;
        }
        id := BeginRequest(path, kind);
        return;
      }
      if path in pendingReads {
        return pendingReads[path];
      }
      id := BeginRequest(path, kind);
      pendingReads := pendingReads[path := id];
    }

    /** A request goes on to another phase of the same attempt. */
    method Advance(id: nat, phase: Phase)
      requires Valid() && id < |requests|
      modifies `activeReadRequests, `requests
      ensures Valid() && requests == old(requests)[id := old(requests)[id].(phase := phase)]
      ensures activeReadRequests == if phase.Settled? then old(activeReadRequests) - {id} else old(activeReadRequests)
    {
      requests := requests[id := requests[id].(phase := phase)];
      if phase.Settled? {
        activeReadRequests := activeReadRequests - {id};
      }
    }

    /** A fetch ends. A result worth a retry waits for its delay, unless the reads of
        its generation were cancelled meanwhile. */
    method FetchEnds(id: nat, result: Result)
      requires Valid() && id < |requests| && requests[id].phase.Fetching?
      modifies `activeReadRequests, `requests
      ensures Valid()
      ensures
        var r := old(requests)[id];
        requests == old(requests)[id := r.(phase :=
          if WorthRetry(r, result) && r.generation == readGeneration then Delaying(result) else Settled)]
      ensures Later(old(readGeneration), old(requests), old(starts), readGeneration, requests, starts)
    {
      var again := Retries(requests[id], result) && requests[id].generation == readGeneration;
      Advance(id, if again then Delaying(result) else Settled);
    }

    /** The delay before a retry ends. */
    method DelayEnds(id: nat, end: End)
      requires Valid() && id < |requests| && requests[id].phase.Delaying?
      modifies `activeReadRequests, `requests, `starts
      ensures Valid()
      ensures requests == old(requests)[id := AfterDelay(old(requests)[id], end, readGeneration)]
      ensures starts == old(starts) + if requests[id].phase.Fetching? then [Start(id, readGeneration)] else []
      ensures Later(old(readGeneration), old(requests), old(starts), readGeneration, requests, starts)
    {
      var r := requests[id];
      if end.OwnTimeout? && r.phase.after.TimedOut? {
        return;
      }
      if r.generation != readGeneration || r.attempt >= MaxRetries(r.kind) {
        Advance(id, Settled);
        return;
      }
      if !end.InTime? {
        Advance(id, if end.OwnTimeout? && r.phase.after.Response? then Delaying(TimedOut) else Settled);
        return;
      }
      requests := requests[id := r.(attempt := r.attempt + 1, phase := Fetching)];
      ghost var before := starts;
      StartFetch(id);
      forall i | 0 <= i < |requests|
        ensures Starts(starts, i) == requests[i].attempt + 1
      {
        StartsAppend(before, Start(id, readGeneration), i);
      }
    }

    /** What runs after a shared read settled: its entry goes, and nobody else's. */
    method Cleanup(id: nat)
      requires Valid() && id < |requests|
      modifies `pendingReads
      ensures Valid()
      ensures forall p <- old(pendingReads) :: old(pendingReads)[p] != id ==> p in pendingReads && pendingReads[p] == old(pendingReads)[p]
      ensures forall p <- pendingReads ::
                pendingReads[p] != id && p in old(pendingReads) && pendingReads[p] == old(pendingReads)[p]
    {
      var path := requests[id].path;
      if path in pendingReads && pendingReads[path] == id {
        pendingReads := pendingReads - {path};
      }
    }

    /** Navigation: no read of before is shared or goes on. */
    method CancelPendingReadRequests()
      requires Valid()
      modifies `pendingReads, `readGeneration, `activeReadRequests
      ensures Valid() && pendingReads == map[] && readGeneration == old(readGeneration) + 1
      ensures Later(old(readGeneration), old(requests), old(starts), readGeneration, requests, starts)
    {
      pendingReads := map[];
      readGeneration := readGeneration + 1;
      activeReadRequests := {};
    }

    /** The request an event is about is in a phase the event fits. */
    predicate Fits(event: Event)
      reads this
    {
      match event
      case FetchEnds(id, _) => id < |requests| && requests[id].phase.Fetching?
      case DelayEnds(id, _) => id < |requests| && requests[id].phase.Delaying?
      case Cleanup(id) => id < |requests|
      case _ => true
    }

    /** What an event makes of the request it is about. */
    function After(r: Request, event: Event): Request
      requires (event.FetchEnds? && r.phase.Fetching?) || (event.DelayEnds? && r.phase.Delaying?)
      reads this
    {
      match event
      case FetchEnds(_, result) =>
        r.(phase := if WorthRetry(r, result) && r.generation == readGeneration then Delaying(result) else Settled)
      case DelayEnds(_, end) => AfterDelay(r, end, readGeneration)
    }

    /** A fetch or a delay ends. */
    method HandleEnd(event: Event)
      requires Valid() && (event.FetchEnds? || event.DelayEnds?) && Fits(event)
      modifies `activeReadRequests, `requests, `starts
      ensures Valid()
      ensures requests == old(requests)[event.id := After(old(requests)[event.id], event)]
      ensures starts == old(starts) + if event.DelayEnds? && requests[event.id].phase.Fetching? then [Start(event.id, readGeneration)] else []
      ensures Later(old(readGeneration), old(requests), old(starts), readGeneration, requests, starts)
    {
      match event {
        case FetchEnds(id, result) => FetchEnds(id, result);
        case DelayEnds(id, end) => DelayEnds(id, end);
      }
    }

    /** One event; one that does not fit the moment does not occur. */
    method Handle(event: Event)
      requires Valid()
      modifies this
      ensures Valid() && writes >= old(writes) && handled == old(handled) + [event]
      ensures Later(old(readGeneration), old(requests), old(starts), readGeneration, requests, starts)
      ensures event.Call? ==>
                if event.kind.Shared? && event.path in old(pendingReads) then requests == old(requests) && starts == old(starts)
                else
                  && requests == old(requests) + [Request(event.path, event.kind, readGeneration, 0, Fetching)]
                  && starts == old(starts) + [Start(|old(requests)|, readGeneration)]
      ensures (event.FetchEnds? || event.DelayEnds?) && old(Fits(event)) ==>
                && requests == old(requests)[event.id := old(After(requests[event.id], event))]
                && starts == old(starts) + if event.DelayEnds? && requests[event.id].phase.Fetching? then [Start(event.id, readGeneration)] else []
      ensures event.Cleanup? || event.Cancel? || !old(Fits(event)) ==> requests == old(requests) && starts == old(starts)
      ensures readGeneration == old(readGeneration) + (if event.Cancel? then 1 else 0) && (event.Cancel? ==> pendingReads == map[])
    {
      if event.Call? {
        var id := Api(event.path, event.kind);
      } else if event.Cancel? {
        CancelPendingReadRequests();
      } else if Fits(event) {
        if event.Cleanup? {
          Cleanup(event.id);
        } else {
          HandleEnd(event);
        }
      }
      handled := handled + [event];
    }

    /** Any events in any order. */
    method Run(events: seq<Event>)
      requires Valid()
      modifies this
      ensures Valid() && writes >= old(writes) && handled == old(handled) + events
      ensures Later(old(readGeneration), old(requests), old(starts), readGeneration, requests, starts)
    {
      for i := 0 to |events|
        invariant Valid() && writes >= old(writes) && handled == old(handled) + events[..i]
        invariant Later(old(readGeneration), old(requests), old(starts), readGeneration, requests, starts)
      {
        ghost var g, rs, ss := readGeneration, requests, starts;
        Handle(events[i]);
        assert events[..i + 1] == events[..i] + [events[i]];
        LaterTransitive(old(readGeneration), old(requests), old(starts), g, rs, ss, readGeneration, requests, starts);
      }
      assert events[..|events|] == events;
    }

    // ---- what it means ----

    /** A request that is no read fetches once, a read at most three times. */
    lemma FetchesAreBounded(id: nat)
      requires Valid() && id < |requests|
      ensures 1 <= Starts(starts, id) <= if SafeRead(requests[id].kind) then 3 else 1
    {
      assert requests[id] in requests;
    }

    /** After a cancellation, a read of before starts no fetch any more. */
    lemma NoFetchAfterCancel(g: nat, rs: seq<Request>, ss: seq<Start>, id: nat)
      requires Valid() && Later(g, rs, ss, readGeneration, requests, starts)
      requires id < |rs| && SafeRead(rs[id].kind) && rs[id].generation < g
      ensures Starts(starts, id) == Starts(ss, id)
    {
      SameStarts(ss, starts, id);
    }
  }

  lemma {:induction false} SameStarts(before: seq<Start>, after: seq<Start>, id: nat)
    requires before <= after && forall i :: |before| <= i < |after| ==> after[i].id != id
    ensures Starts(after, id) == Starts(before, id)
    decreases |after|
  {
    if |before| == |after| {
      assert before == after;
    } else {
      SameStarts(before, after[..|after| - 1], id);
    }
  }

  lemma {:induction false} NoStartsYet(starts: seq<Start>, id: nat)
    requires forall s <- starts :: s.id < id
    ensures Starts(starts, id) == 0
  {
    if starts != [] {
      assert starts[|starts| - 1] in starts;
      assert forall s <- starts[..|starts| - 1] :: s in starts;
      NoStartsYet(starts[..|starts| - 1], id);
    }
  }
}
