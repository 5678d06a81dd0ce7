/** The places that nest locks: which of them keep the order, and which waiting
    circles the others can end up in. */
module LockSites {
  import opened LockNames
  import opened LockService

  // ---- two flows side by side ----

  /** How many of its requests each of two flows has been granted. */
  datatype Progress = Progress(first: nat, second: nat)

  /** A flow goes on when the name it asks for is not held by the other one. */
  function Advance(p: seq<Wait>, q: seq<Wait>, at: Progress, first: bool): Progress {
    if first then
      if at.first < |p| && (at.second < |q| ==> p[at.first].wanted !in q[at.second].held)
      then at.(first := at.first + 1) else at
    else
      if at.second < |q| && (at.first < |p| ==> q[at.second].wanted !in p[at.first].held)
      then at.(second := at.second + 1) else at
  }

  function Interleave(p: seq<Wait>, q: seq<Wait>, turns: seq<bool>): Progress {
    if turns == [] then Progress(0, 0)
    else Advance(p, q, Interleave(p, q, turns[..|turns| - 1]), turns[|turns| - 1])
  }

  /** Each waits for a name the other one holds. */
  predicate InCircle(p: seq<Wait>, q: seq<Wait>, at: Progress) {
    && at.first < |p| && at.second < |q|
    && p[at.first].wanted in q[at.second].held && q[at.second].wanted in p[at.first].held
  }

  /** Two operations, each from its start, can be brought into a waiting circle. */
  ghost predicate CanCircle(a: Operation, b: Operation) {
    exists turns :: InCircle(Plan(a, {}), Plan(b, {}), Interleave(Plan(a, {}), Plan(b, {}), turns))
  }

  lemma OrderlyNeverCircle(a: Operation, b: Operation)
    requires Ordered(a, {}) && Ordered(b, {})
    ensures !CanCircle(a, b)
  {
    var p, q := Plan(a, {}), Plan(b, {});
    PlanInOrder(a, {});
    PlanInOrder(b, {});
    forall turns | InCircle(p, q, Interleave(p, q, turns))
      ensures false
    {
      var at := Interleave(p, q, turns);
      NoCircle([p[at.first], q[at.second]]);
    }
  }

  lemma {:induction false} FirstGoes(p: seq<Wait>, q: seq<Wait>, i: nat)
    requires i <= |p| && (q != [] ==> q[0].held == {})
    ensures Interleave(p, q, seq(i, _ => true)) == Progress(i, 0)
  {
    if i > 0 {
      FirstGoes(p, q, i - 1);
      assert seq(i, _ => true)[..i - 1] == seq(i - 1, _ => true);
    }
  }

  /** The first flow goes to its i-th request, then the second to its j-th. */
  lemma {:induction false} BothGo(p: seq<Wait>, q: seq<Wait>, i: nat, j: nat)
    requires i < |p| && j < |q| && q[0].held == {}
    requires forall k :: 0 <= k < j ==> q[k].wanted !in p[i].held
    ensures Interleave(p, q, seq(i, _ => true) + seq(j, _ => false)) == Progress(i, j)
  {
    var turns := seq(i, _ => true) + seq(j, _ => false);
    if j == 0 {
      FirstGoes(p, q, i);
      assert turns == seq(i, _ => true);
    } else {
      BothGo(p, q, i, j - 1);
      assert turns[..|turns| - 1] == seq(i, _ => true) + seq(j - 1, _ => false);
    }
  }

  /** The second flow holds one name and asks for another; the first holds that one
      and asks for the first. */
  lemma MeetInCircle(a: Operation, b: Operation, i: nat)
    requires i < |Plan(a, {})| && |Plan(b, {})| >= 2 && Plan(b, {})[0].held == {}
    requires Plan(b, {})[0].wanted !in Plan(a, {})[i].held
    requires Plan(a, {})[i].wanted in Plan(b, {})[1].held && Plan(b, {})[1].wanted in Plan(a, {})[i].held
    ensures CanCircle(a, b)
  {
    BothGo(Plan(a, {}), Plan(b, {}), i, 1);
  }

  // ---- the call sites ----

  /** A renewal, or a job: the service node it read, its customer node, and then the
      service node the panel call finds for it. */
  function NodeSite(read: string, node: string, found: string, work: Operation): Operation {
    WithLock(ServiceNode(read), WithLock(CustomerNode(node), WithLock(ServiceNode(found), WithLock(CustomerNode(node), work))))
  }

  lemma NameInjectiveOnClasses(a: Key, b: Key)
    requires !a.Other? && !b.Other? && ClassRank(a) < ClassRank(b)
    ensures Less(Name(a), Name(b)) && !Less(Name(b), Name(a)) && Name(a) != Name(b)
  {
    Ranks(a);
    Ranks(b);
  }

  /** It keeps to the order exactly when the binding still has the locked name. */
  lemma NodeSiteOrdered(read: string, node: string, found: string, id: nat)
    ensures Ordered(NodeSite(read, node, found, Work(id)), {}) <==> Name(ServiceNode(found)) == Name(ServiceNode(read))
  {
    var r, n, f := Name(ServiceNode(read)), Name(CustomerNode(node)), Name(ServiceNode(found));
    NameInjectiveOnClasses(ServiceNode(read), CustomerNode(node));
    NameInjectiveOnClasses(ServiceNode(found), CustomerNode(node));
    var outer := {} + {r} + {n};
    assert n in outer && !Less(n, f);
    var inner := WithLock(CustomerNode(node), Work(id));
    assert Ordered(Work(id), outer + {f} + {n});
    assert Ordered(inner, outer + {f});
    assert f in outer <==> f == r;
    assert Ordered(WithLock(ServiceNode(found), inner), outer) <==> f == r;
    assert Ordered(WithLock(CustomerNode(node), WithLock(ServiceNode(found), inner)), {} + {r}) <==> f == r;
  }

  lemma NodeSitePlan(read: string, node: string, found: string, id: nat)
    ensures
      var r, n, f := Name(ServiceNode(read)), Name(CustomerNode(node)), Name(ServiceNode(found));
      && n != r && n != f
      && Plan(NodeSite(read, node, found, Work(id)), {}) ==
           [Wait({}, r), Wait({r}, n)] + (if f == r then [] else [Wait({r, n}, f)])
  {
    var r, n, f := Name(ServiceNode(read)), Name(CustomerNode(node)), Name(ServiceNode(found));
    NameInjectiveOnClasses(ServiceNode(read), CustomerNode(node));
    NameInjectiveOnClasses(ServiceNode(found), CustomerNode(node));
    var inner := WithLock(CustomerNode(node), Work(id));
    var outer := {r, n};
    assert Plan(inner, outer + {f}) == [];
    assert Plan(WithLock(ServiceNode(found), inner), outer) == if f == r then [] else [Wait(outer, f)];
    assert {} + {r} == {r} && {r} + {n} == outer;
    var middle := WithLock(CustomerNode(node), WithLock(ServiceNode(found), inner));
    assert Plan(middle, {r}) == [Wait({r}, n)] + Plan(WithLock(ServiceNode(found), inner), outer);
  }

  /** With an old binding it can end up in a circle with an orderly renewal or job of
      the same customer node that has read the new one; otherwise with nothing orderly. */
  lemma NodeSiteCircles(read: string, node: string, found: string, id: nat)
    ensures (exists other :: Ordered(other, {}) && CanCircle(NodeSite(read, node, found, Work(id)), other))
            <==> Name(ServiceNode(found)) != Name(ServiceNode(read))
  {
    var site, other := NodeSite(read, node, found, Work(id)), NodeSite(found, node, found, Work(id));
    NodeSiteOrdered(read, node, found, id);
    NodeSiteOrdered(found, node, found, id);
    if Name(ServiceNode(found)) != Name(ServiceNode(read)) {
      NodeSitePlan(read, node, found, id);
      NodeSitePlan(found, node, found, id);
      MeetInCircle(site, other, 2);
    } else {
      forall b | Ordered(b, {})
        ensures !CanCircle(site, b)
      {
        OrderlyNeverCircle(site, b);
      }
    }
  }

  // ---- an edit of a binding ----

  /** One lock after the other, in the order given. */
  function NestLocks(nodes: seq<string>, body: Operation): Operation {
    if nodes == [] then body else WithLock(ServiceNode(nodes[0]), NestLocks(nodes[1..], body))
  }

  /** The service nodes it read and is asked for, by id, its customer node, and then
      the service node it finds the customer node bound to. */
  function UpdateSite(read: string, target: string, node: string, found: string, work: Operation): Operation {
    var nodes := if read == target then [read] else if LexLess(read, target) then [read, target] else [target, read];
    NestLocks(nodes, WithLock(CustomerNode(node), WithLock(ServiceNode(found), work)))
  }

  lemma {:induction false} LexPrefix(prefix: string, a: string, b: string)
    ensures LexLess(prefix + a, prefix + b) <==> LexLess(a, b)
  {
    if prefix == [] {
      assert prefix + a == a && prefix + b == b;
    } else {
      assert (prefix + a)[1..] == prefix[1..] + a && (prefix + b)[1..] == prefix[1..] + b;
      LexPrefix(prefix[1..], a, b);
    }
  }

  lemma {:induction false} LexCut(a: string, b: string, m: nat, n: nat)
    requires m <= |a| && n <= |b| && (m == n || (m < n && m == |a|) || (n < m && n == |b|))
    requires LexLess(a[..m], b[..n])
    ensures LexLess(a, b)
  {
    if m > 0 && a[0] == b[0] {
      assert a[..m][1..] == a[1..][..m - 1] && b[..n][1..] == b[1..][..n - 1];
      LexCut(a[1..], b[1..], m - 1, n - 1);
    }
  }

  lemma CutReflects(a: string, b: string)
    requires LexLess(Cut(a), Cut(b))
    ensures LexLess(a, b)
  {
    assert a == a[..|a|] && b == b[..|b|];
    LexCut(a, b, |Cut(a)|, |Cut(b)|);
  }

  lemma NamesReflect(a: string, b: string)
    requires LexLess(Name(ServiceNode(a)), Name(ServiceNode(b)))
    ensures LexLess(a, b)
  {
    var prefix := Prefix(ServiceNode(a));
    CutReflects(prefix + a, prefix + b);
    LexPrefix(prefix, a, b);
  }

  /** Service nodes in the order of their ids are in the order of their names, or
      share a name. */
  lemma NamesFollowIds(a: string, b: string)
    requires LexLess(a, b)
    ensures Name(ServiceNode(a)) == Name(ServiceNode(b)) || Less(Name(ServiceNode(a)), Name(ServiceNode(b)))
  {
    Ranks(ServiceNode(a));
    Ranks(ServiceNode(b));
    LexTotal(Name(ServiceNode(a)), Name(ServiceNode(b)));
    LexTotal(a, b);
    if LexLess(Name(ServiceNode(b)), Name(ServiceNode(a))) {
      NamesReflect(b, a);
    }
  }

  function PairSite(a: string, b: string, node: string, found: string, id: nat): Operation {
    WithLock(ServiceNode(a), WithLock(ServiceNode(b), WithLock(CustomerNode(node), WithLock(ServiceNode(found), Work(id)))))
  }

  lemma LockedTwice(key: Key, body: Operation, above: set<string>)
    ensures Plan(WithLock(key, WithLock(key, body)), above) == Plan(WithLock(key, body), above)
    ensures Ordered(WithLock(key, WithLock(key, body)), above) <==> Ordered(WithLock(key, body), above)
  {
    assert above + {Name(key)} + {Name(key)} == above + {Name(key)};
    assert Plan(WithLock(key, body), above + {Name(key)}) == Plan(body, above + {Name(key)});
  }

  /** It asks for its two service nodes in the order of their names. */
  lemma UpdatePair(read: string, target: string, node: string, found: string, id: nat) returns (a: string, b: string)
    ensures {a, b} == {read, target}
    ensures Name(ServiceNode(a)) == Name(ServiceNode(b)) || Less(Name(ServiceNode(a)), Name(ServiceNode(b)))
    ensures Plan(UpdateSite(read, target, node, found, Work(id)), {}) == Plan(PairSite(a, b, node, found, id), {})
    ensures Ordered(UpdateSite(read, target, node, found, Work(id)), {}) <==> Ordered(PairSite(a, b, node, found, id), {})
  {
    var rest := WithLock(CustomerNode(node), WithLock(ServiceNode(found), Work(id)));
    LexTotal(read, target);
    if read == target {
      a, b := read, read;
      assert [read][1..] == [];
      assert NestLocks([read], rest) == WithLock(ServiceNode(read), NestLocks([], rest));
      LockedTwice(ServiceNode(read), rest, {});
    } else {
      a, b := if LexLess(read, target) then read else target, if LexLess(read, target) then target else read;
      assert [a, b][1..] == [b] && [b][1..] == [];
      assert NestLocks([b], rest) == WithLock(ServiceNode(b), NestLocks([], rest));
      assert NestLocks([a, b], rest) == PairSite(a, b, node, found, id);
      NamesFollowIds(a, b);
    }
  }

  /** Two service nodes in order, the customer node, and the one found. */
  lemma PairPlan(a: string, b: string, node: string, found: string, id: nat)
    requires Name(ServiceNode(a)) == Name(ServiceNode(b)) || Less(Name(ServiceNode(a)), Name(ServiceNode(b)))
    ensures
      var x, y, n, f := Name(ServiceNode(a)), Name(ServiceNode(b)), Name(CustomerNode(node)), Name(ServiceNode(found));
      && n !in {x, y, f}
      && (Ordered(PairSite(a, b, node, found, id), {}) <==> f in {x, y})
      && Plan(PairSite(a, b, node, found, id), {}) ==
           [Wait({}, x)] + ((if x == y then [] else [Wait({x}, y)])
           + ([Wait({x, y}, n)] + (if f in {x, y} then [] else [Wait({x, y, n}, f)])))
  {
    var x, y, n, f := Name(ServiceNode(a)), Name(ServiceNode(b)), Name(CustomerNode(node)), Name(ServiceNode(found));
    NameInjectiveOnClasses(ServiceNode(a), CustomerNode(node));
    NameInjectiveOnClasses(ServiceNode(b), CustomerNode(node));
    TailPlan(x, y, node, found, id);
    var third := WithLock(CustomerNode(node), WithLock(ServiceNode(found), Work(id)));
    assert {} + {x} == {x} && {x} + {y} == {x, y};
    var second := WithLock(ServiceNode(b), third);
    assert Plan(second, {x}) == (if x == y then [] else [Wait({x}, y)]) + Plan(third, {x, y});
    assert Ordered(second, {x}) <==> f in {x, y};
  }

  lemma TailPlan(x: string, y: string, node: string, found: string, id: nat)
    requires Less(x, Name(CustomerNode(node))) && Less(y, Name(CustomerNode(node)))
    requires Name(CustomerNode(node)) !in {x, y}
    ensures
      var n, f := Name(CustomerNode(node)), Name(ServiceNode(found));
      var site := WithLock(CustomerNode(node), WithLock(ServiceNode(found), Work(id)));
      && n != f && (Ordered(site, {x, y}) <==> f in {x, y})
      && Plan(site, {x, y}) == [Wait({x, y}, n)] + (if f in {x, y} then [] else [Wait({x, y, n}, f)])
  {
    var n, f := Name(CustomerNode(node)), Name(ServiceNode(found));
    NameInjectiveOnClasses(ServiceNode(found), CustomerNode(node));
    var last, outer := WithLock(ServiceNode(found), Work(id)), {x, y, n};
    assert {x, y} + {n} == outer;
    assert n in outer && !Less(n, f);
    assert Plan(last, outer) == if f in {x, y} then [] else [Wait(outer, f)];
    assert Ordered(last, outer) <==> f in {x, y};
  }

  /** The edit of a binding keeps to the order exactly when the customer node is
      still bound to one of the two service nodes locked for. */
  lemma UpdateSiteOrdered(read: string, target: string, node: string, found: string, id: nat)
    ensures Ordered(UpdateSite(read, target, node, found, Work(id)), {})
            <==> Name(ServiceNode(found)) in {Name(ServiceNode(read)), Name(ServiceNode(target))}
  {
    var a, b := UpdatePair(read, target, node, found, id);
    PairPlan(a, b, node, found, id);
    assert read in {a, b} && target in {a, b} && a in {read, target} && b in {read, target};
  }

  /** Otherwise it can end up in a circle with an orderly renewal or job of its
      customer node. */
  lemma UpdateSiteCircles(read: string, target: string, node: string, found: string, id: nat)
    ensures (exists other :: Ordered(other, {}) && CanCircle(UpdateSite(read, target, node, found, Work(id)), other))
            <==> Name(ServiceNode(found)) !in {Name(ServiceNode(read)), Name(ServiceNode(target))}
  {
    var site, other := UpdateSite(read, target, node, found, Work(id)), NodeSite(found, node, found, Work(id));
    UpdateSiteOrdered(read, target, node, found, id);
    NodeSiteOrdered(found, node, found, id);
    if Name(ServiceNode(found)) !in {Name(ServiceNode(read)), Name(ServiceNode(target))} {
      StaleUpdateCircles(read, target, node, found, id);
    } else {
      forall b | Ordered(b, {})
        ensures !CanCircle(site, b)
      {
        OrderlyNeverCircle(site, b);
      }
    }
  }

  lemma StaleUpdateCircles(read: string, target: string, node: string, found: string, id: nat)
    requires Name(ServiceNode(found)) !in {Name(ServiceNode(read)), Name(ServiceNode(target))}
    ensures CanCircle(UpdateSite(read, target, node, found, Work(id)), NodeSite(found, node, found, Work(id)))
  {
    var a, b := UpdatePair(read, target, node, found, id);
    PairPlan(a, b, node, found, id);
    NodeSitePlan(found, node, found, id);
    assert a in {read, target} && b in {read, target};
    var plan := Plan(UpdateSite(read, target, node, found, Work(id)), {});
    MeetInCircle(UpdateSite(read, target, node, found, Work(id)), NodeSite(found, node, found, Work(id)), |plan| - 1);
  }

  function NodeKeys(nodes: seq<string>): seq<Key> {
    seq(|nodes|, i requires 0 <= i < |nodes| => ServiceNode(nodes[i]))
  }

  /** The names of service nodes, and their place after the name of a panel. */
  lemma NodeNames(panel: string, nodes: seq<string>)
    ensures forall n :: n in Names(NodeKeys(nodes)) <==> exists m <- nodes :: n == Name(ServiceNode(m))
    ensures forall n <- Names(NodeKeys(nodes)) :: Less(Name(Panel(panel)), n) && Rank(n) == 1
  {
    var keys := NodeKeys(nodes);
    forall n | n in Names(keys)
      ensures exists m <- nodes :: n == Name(ServiceNode(m))
      ensures Less(Name(Panel(panel)), n) && Rank(n) == 1
    {
      var i :| 0 <= i < |keys| && Name(keys[i]) == n;
      assert nodes[i] in nodes;
      NameInjectiveOnClasses(Panel(panel), keys[i]);
      Ranks(keys[i]);
    }
    forall m | m in nodes
      ensures Name(ServiceNode(m)) in Names(keys)
    {
      var i :| 0 <= i < |nodes| && nodes[i] == m;
      assert keys[i] == ServiceNode(m);
    }
  }

  /** A save on a panel page: the panel, then every service node of it. */
  function SaveSite(panel: string, nodes: seq<string>, id: nat): Operation {
    WithLock(Panel(panel), WithLocks(NodeKeys(nodes), Work(id)))
  }

  lemma SaveSiteOrdered(panel: string, nodes: seq<string>, id: nat)
    ensures Ordered(SaveSite(panel, nodes, id), {})
  {
    NodeNames(panel, nodes);
  }

  /** An edit of one service node's client, which goes through such a save while it
      holds the panel and that service node. */
  function EditSite(panel: string, node: string, nodes: seq<string>, id: nat): Operation {
    WithLock(Panel(panel), WithLock(ServiceNode(node), SaveSite(panel, nodes, id)))
  }

  lemma EditSiteUnfolds(panel: string, node: string, nodes: seq<string>, id: nat)
    ensures
      var p, s := Name(Panel(panel)), Name(ServiceNode(node));
      Ordered(EditSite(panel, node, nodes, id), {}) <==> Ordered(WithLocks(NodeKeys(nodes), Work(id)), {p, s})
  {
    var p, s := Name(Panel(panel)), Name(ServiceNode(node));
    NameInjectiveOnClasses(Panel(panel), ServiceNode(node));
    var locks := WithLocks(NodeKeys(nodes), Work(id));
    assert {} + {p} + {s} == {p, s} && {p, s} + {p} == {p, s};
    assert Ordered(SaveSite(panel, nodes, id), {p, s}) <==> Ordered(locks, {p, s});
    assert Ordered(WithLock(ServiceNode(node), SaveSite(panel, nodes, id)), {} + {p}) <==> Ordered(locks, {p, s});
  }

  /** It keeps to the order exactly when its service node comes first on the panel. */
  lemma EditSiteOrdered(panel: string, node: string, nodes: seq<string>, id: nat)
    ensures Ordered(EditSite(panel, node, nodes, id), {})
            <==> forall m <- nodes :: Name(ServiceNode(m)) == Name(ServiceNode(node))
                                      || Less(Name(ServiceNode(node)), Name(ServiceNode(m)))
  {
    var p, s := Name(Panel(panel)), Name(ServiceNode(node));
    var names := Names(NodeKeys(nodes));
    EditSiteUnfolds(panel, node, nodes, id);
    NodeNames(panel, nodes);
    assert Ordered(Work(id), {p, s} + names);
    assert Ordered(WithLocks(NodeKeys(nodes), Work(id)), {p, s}) <==> forall n <- names :: n == s || Less(s, n) by {
      assert forall n <- names :: n != p by { LessIrreflexive(p); }
    }
  }

  // ---- the circle of an edit ----

  /** A service node of the panel that comes before the one edited. */
  ghost predicate ComesBefore(node: string, nodes: seq<string>) {
    exists m <- nodes :: LexLess(Name(ServiceNode(m)), Name(ServiceNode(node)))
  }

  lemma EditSiteCondition(node: string, nodes: seq<string>)
    ensures ComesBefore(node, nodes) <==>
            !(forall m <- nodes :: Name(ServiceNode(m)) == Name(ServiceNode(node))
                                   || Less(Name(ServiceNode(node)), Name(ServiceNode(m))))
  {
    forall m | m in nodes
      ensures LexLess(Name(ServiceNode(m)), Name(ServiceNode(node))) <==>
              !(Name(ServiceNode(m)) == Name(ServiceNode(node)) || Less(Name(ServiceNode(node)), Name(ServiceNode(m))))
    {
      Ranks(ServiceNode(m));
      Ranks(ServiceNode(node));
      LexTotal(Name(ServiceNode(m)), Name(ServiceNode(node)));
    }
  }

  /** The third request of an edit is for the first service node of the panel, when
      that is not the one it holds. */
  lemma EditSiteRequest(panel: string, node: string, nodes: seq<string>, id: nat) returns (m: string)
    requires ComesBefore(node, nodes)
    ensures m in nodes && LexLess(Name(ServiceNode(m)), Name(ServiceNode(node)))
    ensures
      var p, s, plan := Name(Panel(panel)), Name(ServiceNode(node)), Plan(EditSite(panel, node, nodes, id), {});
      p != s && |plan| > 2 && plan[2] == Wait({p, s}, Name(ServiceNode(m)))
  {
    var p, s := Name(Panel(panel)), Name(ServiceNode(node));
    var names := Names(NodeKeys(nodes)) - {p, s};
    var before := SomeBefore(panel, node, nodes);
    m := FirstName(nodes, names, before, s);
    EditPlan(panel, node, nodes, id);
    FirstRequest(InOrderOf(names), {p, s});
  }

  lemma FirstRequest(names: seq<string>, above: set<string>)
    requires names != []
    ensures |Requests(names, above)| > 0 && Requests(names, above)[0] == Wait(above, names[0])
  {
    assert names[..0] == [] && Elements([]) == {};
    assert above + {} == above;
  }

  lemma SomeBefore(panel: string, node: string, nodes: seq<string>) returns (before: string)
    requires ComesBefore(node, nodes)
    ensures before in nodes && LexLess(Name(ServiceNode(before)), Name(ServiceNode(node)))
    ensures Name(ServiceNode(before)) in Names(NodeKeys(nodes)) - {Name(Panel(panel)), Name(ServiceNode(node))}
  {
    before :| before in nodes && LexLess(Name(ServiceNode(before)), Name(ServiceNode(node)));
    LexTotal(Name(ServiceNode(before)), Name(ServiceNode(node)));
    NameInjectiveOnClasses(Panel(panel), ServiceNode(before));
    NodeNames(panel, nodes);
  }

  lemma FirstName(nodes: seq<string>, names: set<string>, before: string, s: string) returns (m: string)
    requires Name(ServiceNode(before)) in names && LexLess(Name(ServiceNode(before)), s)
    requires names <= Names(NodeKeys(nodes))
    ensures InOrderOf(names) != [] && m in nodes && InOrderOf(names)[0] == Name(ServiceNode(m)) && LexLess(Name(ServiceNode(m)), s)
  {
    var order := InOrderOf(names);
    InOrderOfIs(names);
    assert Name(ServiceNode(before)) in Elements(order);
    var k :| 0 <= k < |order| && order[k] == Name(ServiceNode(before));
    assert order[0] in Elements(order);
    NodeNames("", nodes);
    m :| m in nodes && order[0] == Name(ServiceNode(m));
    if k > 0 {
      LexTransitive(order[0], order[k], s);
    }
  }

  lemma EditPlan(panel: string, node: string, nodes: seq<string>, id: nat)
    ensures
      var p, s := Name(Panel(panel)), Name(ServiceNode(node));
      && p != s
      && Plan(EditSite(panel, node, nodes, id), {}) ==
           [Wait({}, p)] + ([Wait({p}, s)] + Requests(InOrderOf(Names(NodeKeys(nodes)) - {p, s}), {p, s}))
  {
    var p, s := Name(Panel(panel)), Name(ServiceNode(node));
    NameInjectiveOnClasses(Panel(panel), ServiceNode(node));
    var locks := WithLocks(NodeKeys(nodes), Work(id));
    assert {} + {p} == {p} && {p} + {s} == {p, s} && {p, s} + {p} == {p, s};
    assert Plan(locks, {p, s}) == Requests(InOrderOf(Names(NodeKeys(nodes)) - {p, s}), {p, s});
    assert Plan(SaveSite(panel, nodes, id), {p, s}) == Plan(locks, {p, s});
    assert Plan(WithLock(ServiceNode(node), SaveSite(panel, nodes, id)), {p}) == [Wait({p}, s)] + Plan(locks, {p, s});
  }

  /** An edit whose service node does not come first can end up in a circle with an
      orderly edit of a binding between that node and the one that does. */
  lemma EditSiteCircles(panel: string, node: string, nodes: seq<string>, id: nat)
    ensures (exists other :: Ordered(other, {}) && CanCircle(EditSite(panel, node, nodes, id), other)) <==> ComesBefore(node, nodes)
  {
    EditSiteOrdered(panel, node, nodes, id);
    EditSiteCondition(node, nodes);
    if ComesBefore(node, nodes) {
      var m := EditSiteRequest(panel, node, nodes, id);
      EditMeetsUpdate(panel, node, nodes, id, m);
    } else {
      forall b | Ordered(b, {})
        ensures !CanCircle(EditSite(panel, node, nodes, id), b)
      {
        OrderlyNeverCircle(EditSite(panel, node, nodes, id), b);
      }
    }
  }

  lemma EditMeetsUpdate(panel: string, node: string, nodes: seq<string>, id: nat, m: string)
    requires LexLess(Name(ServiceNode(m)), Name(ServiceNode(node)))
    requires
      var p, s, plan := Name(Panel(panel)), Name(ServiceNode(node)), Plan(EditSite(panel, node, nodes, id), {});
      p != s && |plan| > 2 && plan[2] == Wait({p, s}, Name(ServiceNode(m)))
    ensures
      var other := UpdateSite(m, node, "c", node, Work(id));
      Ordered(other, {}) && CanCircle(EditSite(panel, node, nodes, id), other)
  {
    var p, x, s := Name(Panel(panel)), Name(ServiceNode(m)), Name(ServiceNode(node));
    NameInjectiveOnClasses(Panel(panel), ServiceNode(m));
    LexTotal(x, s);
    assert x !in {p, s};
    UpdateSiteOrdered(m, node, "c", node, id);
    EarlierFirst(m, node, id);
    PlansMeet(EditSite(panel, node, nodes, id), UpdateSite(m, node, "c", node, Work(id)), p, s, x);
  }

  /** The first holds two names and asks for a third; the second takes that one first
      and then asks for one of the two. */
  lemma PlansMeet(a: Operation, b: Operation, p: string, s: string, x: string)
    requires |Plan(a, {})| > 2 && Plan(a, {})[2] == Wait({p, s}, x) && x !in {p, s}
    requires |Plan(b, {})| >= 2 && Plan(b, {})[0] == Wait({}, x) && Plan(b, {})[1] == Wait({x}, s)
    ensures CanCircle(a, b)
  {
    MeetInCircle(a, b, 2);
  }

  /** The update locks the node that sorts first before the other. */
  lemma EarlierFirst(m: string, node: string, id: nat)
    requires LexLess(Name(ServiceNode(m)), Name(ServiceNode(node)))
    ensures
      var plan := Plan(UpdateSite(m, node, "c", node, Work(id)), {});
      && |plan| >= 2 && plan[0] == Wait({}, Name(ServiceNode(m)))
      && plan[1] == Wait({Name(ServiceNode(m))}, Name(ServiceNode(node)))
  {
    var x, s := Name(ServiceNode(m)), Name(ServiceNode(node));
    LexTotal(x, s);
    Ranks(ServiceNode(m));
    Ranks(ServiceNode(node));
    var a, b := UpdatePair(m, node, "c", node, id);
    assert a in {m, node} && b in {m, node} && m in {a, b} && node in {a, b};
    PairPlan(a, b, "c", node, id);
    assert a == m && b == node;
  }
}
