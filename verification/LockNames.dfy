/** Lock names and the order in which nested call sites take them. */
module LockNames {
  /** Strings by their first difference, as the default sort compares them. */
  predicate LexLess(a: string, b: string) {
    b != [] && (a == [] || a[0] < b[0] || (a[0] == b[0] && LexLess(a[1..], b[1..])))
  }

  lemma {:induction false} LexTransitive(a: string, b: string, c: string)
    requires LexLess(a, b) && LexLess(b, c)
    ensures LexLess(a, c)
  {
    if a != [] && a[0] == b[0] == c[0] {
      LexTransitive(a[1..], b[1..], c[1..]);
    }
  }

  lemma {:induction false} LexTotal(a: string, b: string)
    ensures !(LexLess(a, b) && LexLess(b, a))
    ensures a != b ==> LexLess(a, b) || LexLess(b, a)
    ensures a == b ==> !LexLess(a, b)
  {
    if a != [] && b != [] && a[0] == b[0] {
      LexTotal(a[1..], b[1..]);
      assert a == [a[0]] + a[1..] && b == [b[0]] + b[1..];
    }
  }

  datatype Key =
    | Panel(id: string)
    | ServiceNode(id: string)
    | XrayConfig(id: string)
    | CustomerNode(id: string)
    | Other(text: string)

  function Prefix(key: Key): (prefix: string)
    requires !key.Other?
    ensures 6 < |prefix| <= 64
  {
    match key
    case Panel(_) => "shiye:panel-operation:"
    case ServiceNode(_) => "shiye:service-node:"
    case XrayConfig(_) => "shiye:xray-config:"
    case CustomerNode(_) => "shiye:customer-node:"
  }

  /** The name the database sees: prefixed, and cut at 64 characters. */
  function Name(key: Key): string {
    Cut(if key.Other? then "shiye:" + key.text else Prefix(key) + key.id)
  }

  function Cut(full: string): string {
    if |full| <= 64 then full else full[..64]
  }

  function Rank(name: string): nat {
    if "shiye:panel-operation:" <= name then 0
    else if "shiye:service-node:" <= name then 1
    else if "shiye:xray-config:" <= name then 2
    else if "shiye:customer-node:" <= name then 3
    else 4
  }

  /** The global order: panels, then service nodes, then configurations, then
      customer nodes, and by name within each. */
  predicate Less(a: string, b: string) {
    Rank(a) < Rank(b) || (Rank(a) == Rank(b) && LexLess(a, b))
  }

  lemma LessTransitive(a: string, b: string, c: string)
    requires Less(a, b) && Less(b, c)
    ensures Less(a, c)
  {
    if Rank(a) == Rank(b) == Rank(c) {
      LexTransitive(a, b, c);
    }
  }

  lemma LessIrreflexive(a: string)
    ensures !Less(a, a)
  {
    LexTotal(a, a);
  }

  function ClassRank(key: Key): nat
    requires !key.Other?
  {
    match key
    case Panel(_) => 0
    case ServiceNode(_) => 1
    case XrayConfig(_) => 2
    case CustomerNode(_) => 3
  }

  lemma RankOf(name: string)
    requires |name| > 6
    ensures name[6] == 'p' && "shiye:panel-operation:" <= name ==> Rank(name) == 0
    ensures name[6] == 's' && "shiye:service-node:" <= name ==> Rank(name) == 1
    ensures name[6] == 'x' && "shiye:xray-config:" <= name ==> Rank(name) == 2
    ensures name[6] == 'c' && "shiye:customer-node:" <= name ==> Rank(name) == 3
  {
    Starts("shiye:panel-operation:", name);
    Starts("shiye:service-node:", name);
    Starts("shiye:xray-config:", name);
    Starts("shiye:customer-node:", name);
  }

  lemma Starts(prefix: string, name: string)
    requires |prefix| > 6 && |name| > 6
    ensures prefix <= name ==> prefix[6] == name[6]
  {
  }

  lemma Ranks(key: Key)
    requires !key.Other?
    ensures Rank(Name(key)) == ClassRank(key)
  {
    var name := Name(key);
    assert Prefix(key) <= name;
    Starts(Prefix(key), name);
    RankOf(name);
  }

  /** The first characters of a text. */
  function Head(s: string, n: nat): string {
    if |s| <= n then s else s[..n]
  }

  /** Two keys share a name exactly when they are of one class and their ids agree as
      far as the database's 64 characters reach. */
  lemma SameName(a: Key, b: Key)
    requires !a.Other? && !b.Other?
    ensures Name(a) == Name(b) <==>
              ClassRank(a) == ClassRank(b) && Head(a.id, 64 - |Prefix(a)|) == Head(b.id, 64 - |Prefix(b)|)
  {
    Ranks(a);
    Ranks(b);
    NameParts(a);
    NameParts(b);
    if Name(a) == Name(b) {
      assert Prefix(a) == Prefix(b);
      assert Name(a)[|Prefix(a)|..] == Name(b)[|Prefix(b)|..];
    }
  }

  lemma NameParts(key: Key)
    requires !key.Other?
    ensures Name(key) == Prefix(key) + Head(key.id, 64 - |Prefix(key)|)
    ensures Name(key)[|Prefix(key)|..] == Head(key.id, 64 - |Prefix(key)|)
  {
  }

  /** So ids of up to 40 characters have names of their own. */
  lemma ShortIdsDiffer(a: Key, b: Key)
    requires !a.Other? && !b.Other? && a != b && |a.id| <= 40 && |b.id| <= 40
    ensures Name(a) != Name(b)
  {
    SameName(a, b);
  }

  // ---- waiting in a circle ----

  /** What a waiting task holds and the name it waits for. */
  datatype Wait = Wait(held: set<string>, wanted: string)

  predicate InOrder(w: Wait) {
    forall h <- w.held :: Less(h, w.wanted)
  }

  /** Each waits for a name the next one holds. */
  predicate Chain(waits: seq<Wait>) {
    forall i :: 0 <= i < |waits| - 1 ==> waits[i].wanted in waits[i + 1].held
  }

  lemma {:induction false} ChainRises(waits: seq<Wait>)
    requires |waits| >= 2 && Chain(waits) && forall w <- waits :: InOrder(w)
    ensures Less(waits[0].wanted, waits[|waits| - 1].wanted)
  {
    var n := |waits| - 1;
    assert waits[n] in waits && InOrder(waits[n]);
    if n >= 2 {
      assert forall w <- waits[..n] :: w in waits;
      ChainRises(waits[..n]);
      LessTransitive(waits[0].wanted, waits[n - 1].wanted, waits[n].wanted);
    }
  }

  /** Tasks that take their locks in order never wait in a circle. */
  lemma NoCircle(waits: seq<Wait>)
    requires waits != [] && Chain(waits) && forall w <- waits :: InOrder(w)
    ensures waits[|waits| - 1].wanted !in waits[0].held
  {
    var last := waits[|waits| - 1];
    assert waits[0] in waits && last in waits;
    if last.wanted in waits[0].held {
      if |waits| >= 2 {
        ChainRises(waits);
        LessTransitive(last.wanted, waits[0].wanted, last.wanted);
      }
      LessIrreflexive(last.wanted);
    }
  }
}
