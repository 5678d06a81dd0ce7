/** Where a new inbound's routing rule is inserted, and what that does to traffic. */
module RouteInsertion {
  import opened Options
  import opened JsonValues
  import opened SuiNetwork

  /** One connection: the inbound it came in on, and whatever else rules look at. */
  datatype Traffic = Traffic(inbound: string, facts: set<string>)

  /** Whether the conditions of a rule other than its inbound list hold. */
  type Conditions = (Json, Traffic) -> bool

  /** `rule.inbound?.length` is truthy: the rule is limited to some inbounds. */
  predicate Limited(rule: Json) {
    match Get(rule, "inbound")
    case Some(Str(s)) => s != ""
    case Some(Arr(items)) => items != []
    case Some(Obj(fields)) => Truthy(Lookup(fields, "length"))
    case _ => false
  }

  function Inbounds(rule: Json): set<string> {
    match Get(rule, "inbound")
    case Some(Str(s)) => {s}
    case Some(Arr(items)) => set item | item in items && item.Str? :: item.s
    case _ => {}
  }

  predicate Inverted(rule: Json) {
    Get(rule, "invert") == Some(Bool(true))
  }

  predicate Matches(rule: Json, t: Traffic, conditions: Conditions) {
    var plain := (Limited(rule) ==> t.inbound in Inbounds(rule)) && conditions(rule, t);
    if Inverted(rule) then !plain else plain
  }

  /** Sniffing, resolving and setting options let the next rule decide. */
  predicate Decides(rule: Json) {
    Get(rule, "action") !in {Some(Str("sniff")), Some(Str("resolve")), Some(Str("route-options"))}
  }

  /** The rule that settles the traffic; `None` leaves it to the default exit. */
  function Decision(rules: seq<Json>, t: Traffic, conditions: Conditions): Option<Json> {
    if rules == [] then None
    else if Decides(rules[0]) && Matches(rules[0], t, conditions) then Some(rules[0])
    else Decision(rules[1..], t, conditions)
  }

  predicate Passes(rule: Json) {
    Get(rule, "action") in {Some(Str("sniff")), Some(Str("resolve")), Some(Str("hijack-dns"))} || Limited(rule)
  }

  /** The position the new rule goes to: before the first rule that handles
      every inbound, apart from sniffing, resolving and DNS hijacking. */
  function InsertAt(rules: seq<Json>): (i: nat)
    ensures i <= |rules|
    ensures forall j :: 0 <= j < i ==> Passes(rules[j])
    ensures i < |rules| ==> !Passes(rules[i])
  {
    if rules == [] || !Passes(rules[0]) then 0 else 1 + InsertAt(rules[1..])
  }

  function NewRule(tag: string, outbound: string): Json {
    Obj([Field("action", Str("route")), Field("inbound", Arr([Str(tag)])), Field("outbound", Str(outbound))])
  }

  /** The rule is for some inbounds only: it names one, or has a list of them. */
  ghost predicate NamesInbounds(rule: Json) {
    exists x :: Get(rule, "inbound") == Some(x)
      && ((x.Str? && x.s != "") || (x.Arr? && x.items != []) || (x.Obj? && Truthy(Get(x, "length"))))
  }

  /** The rule handles every inbound, and does more than sniff, resolve or hijack DNS. */
  ghost predicate ForEveryone(rule: Json) {
    && !NamesInbounds(rule)
    && forall action :: Get(rule, "action") == Some(Str(action)) ==> action != "sniff" && action != "resolve" && action != "hijack-dns"
  }

  /** The position is that of the first rule for everyone, or behind all rules. */
  ghost predicate FirstForEveryone(rules: seq<Json>, i: nat) {
    i <= |rules| && (forall j :: 0 <= j < i ==> !ForEveryone(rules[j])) && (i < |rules| ==> ForEveryone(rules[i]))
  }

  lemma PassesIs(rule: Json)
    ensures Passes(rule) <==> !ForEveryone(rule)
  {
    if Limited(rule) {
      assert Get(rule, "inbound") == Some(Get(rule, "inbound").value);
    }
    if Passes(rule) && !Limited(rule) {
      assert Get(rule, "action") == Some(Str(Get(rule, "action").value.s));
    }
  }

  lemma InsertAtIs(rules: seq<Json>)
    ensures FirstForEveryone(rules, InsertAt(rules))
  {
    forall rule | rule in rules
      ensures Passes(rule) <==> !ForEveryone(rule)
    {
      PassesIs(rule);
    }
  }

  method InsertRoute(rules: seq<Json>, tag: string, outbound: string) returns (after: seq<Json>)
    ensures after == rules[..InsertAt(rules)] + [NewRule(tag, outbound)] + rules[InsertAt(rules)..]
    ensures
      var rule := Obj([Field("action", Str("route")), Field("inbound", Arr([Str(tag)])), Field("outbound", Str(outbound))]);
      exists i: nat :: FirstForEveryone(rules, i) && after == rules[..i] + [rule] + rules[i..]
  {
    InsertAtIs(rules);
    var index := 0;
    while index < |rules| && Passes(rules[index])
      invariant index <= |rules|
      invariant InsertAt(rules) == index + InsertAt(rules[index..])
    {
      assert rules[index..][1..] == rules[index + 1..];
      index := index + 1;
    }
    after := rules[..index] + [NewRule(tag, outbound)] + rules[index..];
  }

  function Inserted(rules: seq<Json>, tag: string, outbound: string): seq<Json> {
    rules[..InsertAt(rules)] + [NewRule(tag, outbound)] + rules[InsertAt(rules)..]
  }

  lemma {:induction false} DecisionOfConcat(a: seq<Json>, b: seq<Json>, t: Traffic, conditions: Conditions)
    ensures Decision(a + b, t, conditions) ==
            if Decision(a, t, conditions).Some? then Decision(a, t, conditions) else Decision(b, t, conditions)
  {
    if a == [] {
      assert a + b == b;
    } else {
      assert (a + b)[1..] == a[1..] + b;
      DecisionOfConcat(a[1..], b, t, conditions);
    }
  }

  lemma NewRuleShape(tag: string, outbound: string)
    ensures
      var rule := NewRule(tag, outbound);
      && Get(rule, "action") == Some(Str("route")) && Get(rule, "outbound") == Some(Str(outbound))
      && !Inverted(rule) && Limited(rule) && Inbounds(rule) == {tag} && Decides(rule)
  {
    var fields := NewRule(tag, outbound).fields;
    assert fields[1..] == [Field("inbound", Arr([Str(tag)])), Field("outbound", Str(outbound))];
    assert fields[1..][1..] == [Field("outbound", Str(outbound))];
    assert fields[1..][1..][1..] == [];
    assert Lookup(fields, "inbound") == Lookup(fields[1..], "inbound") == Some(Arr([Str(tag)]));
    LookupPast(fields, "outbound");
    LookupPast(fields, "invert");
    assert Lookup(fields[1..][1..], "outbound") == Some(Str(outbound));
    assert Lookup(fields[1..][1..], "invert") == Lookup([], "invert");
  }

  lemma LookupPast(fields: seq<Field>, key: string)
    requires |fields| >= 2 && fields[0].key != key && fields[1].key != key
    ensures Lookup(fields, key) == Lookup(fields[1..][1..], key)
  {
  }

  /** Traffic from every other inbound is settled by the same rule as before. */
  lemma OthersKeepTheirDecision(rules: seq<Json>, tag: string, outbound: string, t: Traffic, conditions: Conditions)
    requires t.inbound != tag
    ensures Decision(Inserted(rules, tag, outbound), t, conditions) == Decision(rules, t, conditions)
  {
    var i, rule := InsertAt(rules), NewRule(tag, outbound);
    NewRuleShape(tag, outbound);
    assert rules == rules[..i] + rules[i..];
    DecisionOfConcat(rules[..i], rules[i..], t, conditions);
    DecisionOfConcat(rules[..i], [rule] + rules[i..], t, conditions);
    assert Inserted(rules, tag, outbound) == rules[..i] + ([rule] + rules[i..]);
    assert ([rule] + rules[i..])[1..] == rules[i..];
  }

  /** A DNS hijack for everyone that takes the traffic before the new rule. */
  predicate HijackedBefore(rules: seq<Json>, t: Traffic, conditions: Conditions) {
    exists j :: 0 <= j < InsertAt(rules) &&
      Get(rules[j], "action") == Some(Str("hijack-dns")) && !Limited(rules[j]) && conditions(rules[j], t)
  }

  /** Traffic from the fresh inbound goes to the chosen outbound, unless an
      earlier DNS hijack takes it; and exactly then it does not. */
  lemma FreshInboundIsSteered(rules: seq<Json>, tag: string, outbound: string, t: Traffic, conditions: Conditions)
    requires t.inbound == tag
    requires forall rule <- rules :: tag !in Inbounds(rule)
    requires forall j :: 0 <= j < InsertAt(rules) ==> !Inverted(rules[j])
    requires conditions(NewRule(tag, outbound), t)
    ensures Decision(Inserted(rules, tag, outbound), t, conditions) == Some(NewRule(tag, outbound))
            <==> !HijackedBefore(rules, t, conditions)
    ensures HijackedBefore(rules, t, conditions) ==>
            var d := Decision(Inserted(rules, tag, outbound), t, conditions);
            d.Some? && Get(d.value, "action") == Some(Str("hijack-dns"))
  {
    var i, rule := InsertAt(rules), NewRule(tag, outbound);
    NewRuleShape(tag, outbound);
    DecisionOfConcat(rules[..i], [rule] + rules[i..], t, conditions);
    assert Inserted(rules, tag, outbound) == rules[..i] + ([rule] + rules[i..]);
    DecidedByHijack(rules[..i], tag, t, conditions);
    if j :| 0 <= j < i && Get(rules[j], "action") == Some(Str("hijack-dns")) && !Limited(rules[j]) && conditions(rules[j], t) {
      assert rules[..i][j] == rules[j];
    }
    if j :| 0 <= j < |rules[..i]| && Takes(rules[..i][j], t, conditions) {
      assert rules[j] == rules[..i][j];
    }
  }

  predicate Takes(rule: Json, t: Traffic, conditions: Conditions) {
    Get(rule, "action") == Some(Str("hijack-dns")) && !Limited(rule) && conditions(rule, t)
  }

  /** Among the rules before the insertion point only a DNS hijack can settle
      traffic of an inbound none of them names. */
  lemma {:induction false} DecidedByHijack(rules: seq<Json>, tag: string, t: Traffic, conditions: Conditions)
    requires t.inbound == tag
    requires forall j :: 0 <= j < |rules| ==> Passes(rules[j]) && tag !in Inbounds(rules[j]) && !Inverted(rules[j])
    ensures Decision(rules, t, conditions).Some? <==> exists j :: 0 <= j < |rules| && Takes(rules[j], t, conditions)
    ensures Decision(rules, t, conditions).Some? ==>
            Get(Decision(rules, t, conditions).value, "action") == Some(Str("hijack-dns"))
  {
    if rules != [] {
      DecidedByHijack(rules[1..], tag, t, conditions);
      assert forall j :: 0 < j < |rules| ==> rules[j] == rules[1..][j - 1];
      if j :| 0 <= j < |rules[1..]| && Takes(rules[1..][j], t, conditions) {
        assert rules[j + 1] == rules[1..][j];
      }
    }
  }

  /** On a panel without dangling names no rule mentions an inbound that is not
      there yet. */
  lemma FreshTagIsUnnamed(p: Panel, route: Json, rules: seq<Json>, tag: string)
    requires NetworkOk(p) && tag !in TagSet(p.inbounds) && tag != ""
    requires RouteOf(p.config) == Some(route) && Get(route, "rules") == Some(Arr(rules))
    ensures forall rule <- rules :: tag !in Inbounds(rule)
  {
    forall rule | rule in rules
      ensures tag !in Inbounds(rule)
    {
      if tag in Inbounds(rule) && Get(rule, "inbound").Some? {
        var value := Get(rule, "inbound").value;
        var c := Visit("inbound", value, rule);
        LookupVisited(rule.fields, "inbound", rule);
        InItemVisits(rules, c);
        BelowField(route.fields, "rules", route, c);
        assert RouteCheck(c, TagSet(p.inbounds), p.OutboundTags());
        if value.Arr? {
          NamesMembers(value.items, tag);
        } else {
          NamesMembers([value], tag);
        }
      }
    }
  }

  lemma {:induction false} LookupVisited(fields: seq<Field>, key: string, row: Json)
    requires Lookup(fields, key).Some?
    ensures Visit(key, Lookup(fields, key).value, row) in FieldVisits(fields, row)
  {
    if fields[0].key != key {
      LookupVisited(fields[1..], key, row);
    }
  }

  lemma {:induction false} BelowField(fields: seq<Field>, key: string, row: Json, c: Visit)
    requires Lookup(fields, key).Some? && c in Visits(Lookup(fields, key).value)
    ensures c in FieldVisits(fields, row)
  {
    if fields[0].key != key {
      BelowField(fields[1..], key, row, c);
    }
  }

  /** The same, read off the panel the inbound is created on: nothing is asked of
      its rules except that those before the insertion point are not inverted. */
  lemma SteeringOnPanel(p: Panel, route: Json, rules: seq<Json>, outbound: string, t: Traffic, conditions: Conditions)
    requires NetworkOk(p) && t.inbound !in TagSet(p.inbounds) && t.inbound != ""
    requires RouteOf(p.config) == Some(route) && Get(route, "rules") == Some(Arr(rules))
    requires forall j :: 0 <= j < InsertAt(rules) ==> !Inverted(rules[j])
    requires conditions(NewRule(t.inbound, outbound), t)
    ensures Decision(Inserted(rules, t.inbound, outbound), t, conditions) == Some(NewRule(t.inbound, outbound))
            <==> !HijackedBefore(rules, t, conditions)
  {
    FreshTagIsUnnamed(p, route, rules, t.inbound);
    FreshInboundIsSteered(rules, t.inbound, outbound, t, conditions);
  }

  /** With inversion the claim fails: a rule that rejects everything not from
      "entry" sits before the insertion point and takes the fresh inbound too. */
  lemma InvertedRuleIntercepts(tag: string, outbound: string, t: Traffic, conditions: Conditions)
    requires t.inbound == tag && tag != "entry"
    ensures
      var reject := Obj([Field("action", Str("reject")), Field("inbound", Arr([Str("entry")])), Field("invert", Bool(true))]);
      Decision(Inserted([reject], tag, outbound), t, conditions) == Some(reject)
  {
    var fields := [Field("action", Str("reject")), Field("inbound", Arr([Str("entry")])), Field("invert", Bool(true))];
    var reject := Obj(fields);
    assert fields[1..] == [Field("inbound", Arr([Str("entry")])), Field("invert", Bool(true))];
    assert fields[1..][1..] == [Field("invert", Bool(true))];
    assert Lookup(fields[1..], "inbound") == Some(Arr([Str("entry")]));
    assert Lookup(fields[1..], "invert") == Lookup(fields[1..][1..], "invert");
    assert Passes(reject) && Inverted(reject) && Inbounds(reject) == {"entry"};
    assert InsertAt([reject]) == 1 + InsertAt([reject][1..]);
    assert Inserted([reject], tag, outbound)[0] == reject;
  }
}
