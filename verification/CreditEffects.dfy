/** What the steps that bring in money change in the rows, and from which amounts. */
module CreditEffects {
  import opened Options
  import opened RenewalRows
  import Saga = RenewalSaga
  import Safety = RenewalSafety
  import opened Credits
  import opened CreditSafety

  // ---- amounts ----

  lemma PowersOfTen(n: nat)
    ensures Pow10(0) == 1 && Pow10(1) == 10 && Pow10(2) == 100 && Pow10(n + 3) == 1000 * Pow10(n)
  {
    assert Pow10(1) == 10 * Pow10(0) && Pow10(2) == 10 * Pow10(1);
    assert Pow10(n + 3) == 10 * Pow10(n + 2) && Pow10(n + 2) == 10 * Pow10(n + 1);
  }

  /** No place is spent on a trailing 0. */
  predicate Shortest(d: Decimal) {
    d.places > 0 ==> d.units % 10 != 0
  }

  /** The decimal is exactly this number of cents. */
  predicate IsCents(d: Decimal, cents: int) {
    cents * Pow10(d.places) == 100 * d.units
  }

  /** An amount is accepted exactly when it is a positive whole number of cents up to
      99999999.99, and counts as that. */
  lemma ValidAmountIs(d: Decimal, cents: nat)
    requires Shortest(d)
    ensures ValidAmount(d) == Some(cents) <==> IsCents(d, cents) && 0 < cents <= 9_999_999_999
  {
    if d.places > 2 {
      MorePlaces(d, cents);
    } else {
      PowersOfTen(0);
      assert d.places == 0 || d.places == 1 || d.places == 2;
    }
  }

  lemma MorePlaces(d: Decimal, cents: int)
    requires d.places > 2
    ensures IsCents(d, cents) ==> d.units % 10 == 0
  {
    var p := Pow10(d.places - 3);
    PowersOfTen(d.places - 3);
    Regroup(cents, p);
    EndsInZero(d.units, cents * p);
  }

  lemma Regroup(a: int, p: int)
    ensures a * (1000 * p) == 1000 * (a * p)
  {
  }

  lemma EndsInZero(units: int, q: int)
    ensures 1000 * q == 100 * units ==> units % 10 == 0
  {
  }

  /** The number of cents nearest to the decimal; halves go away from zero. */
  predicate Nearest(d: Decimal, cents: int) {
    if d.places <= 2 then IsCents(d, cents)
    else
      var unit: int := Pow10(d.places - 2);
      var gap := cents * unit - d.units;
      if d.units >= 0 then 0 - unit < 2 * gap <= unit else 0 - unit <= 2 * gap < unit
  }

  lemma MoneyIsNearest(d: Decimal)
    ensures Nearest(d, Money(d))
  {
    if d.places <= 2 {
      PowersOfTen(0);
      assert d.places == 0 || d.places == 1 || d.places == 2;
    } else {
      var unit := Pow10(d.places - 2);
      if d.units >= 0 {
        RoundsHalfUp(d.units, unit);
      } else {
        RoundsHalfUp(0 - d.units, unit);
      }
    }
  }

  /** The quotient to the nearest integer. */
  lemma RoundsHalfUp(x: int, unit: int)
    requires x >= 0 && unit > 0
    ensures
      var q := (2 * x + unit) / (2 * unit);
      0 - unit < 2 * (q * unit - x) <= unit
      && (0 - q) * unit == 0 - q * unit
  {
    var q, r := (2 * x + unit) / (2 * unit), (2 * x + unit) % (2 * unit);
    assert 2 * x + unit == q * (2 * unit) + r;
    assert q * (2 * unit) == 2 * (q * unit);
  }

  lemma NearestIsOne(d: Decimal, a: int, b: int)
    requires Nearest(d, a) && Nearest(d, b)
    ensures a == b
  {
    if d.places <= 2 {
      PowersOfTen(0);
      assert d.places == 0 || d.places == 1 || d.places == 2;
    } else if a < b {
      Apart(a, b - a, Pow10(d.places - 2));
    } else if b < a {
      Apart(b, a - b, Pow10(d.places - 2));
    }
  }

  lemma Apart(a: int, k: int, p: int)
    requires k > 0 && p > 0
    ensures (a + k) * p >= a * p + p
  {
    assert (a + k) * p == a * p + k * p;
    AtLeastOnce(k, p);
  }

  lemma AtLeastOnce(k: int, p: int)
    requires k > 0 && p > 0
    ensures k * p >= p
  {
  }

  // ---- what a credit changes ----

  /** The customer's balance grows by the amount, with one entry; no other balance,
      node or renewal changes, and nothing on a panel. */
  ghost predicate Pays(before: Saga.State, after: Saga.State, customer: string, source: Source, amount: nat) {
    && customer in before.db.customers
    && var db, c := before.db, before.db.customers[customer];
    after == before.(db :=
      Db(db.customers[customer := Customer(c.balance + amount, c.active)], db.nodes, db.renewals,
         db.ledger + [Entry(customer, source, amount, c.balance, c.balance + amount)], db.stored + {|db.ledger|}))
  }

  predicate MayReceive(s: State, customer: string) {
    customer in s.saga.db.customers && s.saga.db.customers[customer].active
  }

  /** A waiting order in time, of an active customer, paid with its amount as far as
      the notification names one. */
  predicate Payable(s: State, order: string, paid: Option<Decimal>, now: int) {
    && order in s.orders
    && var o := s.orders[order];
    && o.status == Waiting && (o.expiresAt.Some? ==> now < o.expiresAt.value)
    && (paid.Some? ==> Nearest(paid.value, o.amount))
    && MayReceive(s, o.customer)
  }

  ghost predicate OrderPaid(s: State, t: State, order: string, now: int) {
    && order in s.orders
    && var o := s.orders[order];
    && Pays(s.saga, t.saga, o.customer, OrderOf(order), o.amount)
    && t == s.(saga := t.saga, orders := s.orders[order := Order(o.customer, o.amount, o.expiresAt, Paid(now))])
  }

  lemma NotifyPays(s: State, order: string, paid: Option<Decimal>, now: int)
    ensures
      var tx := NotifyTx(s, order, paid, now);
      if order in s.orders && s.orders[order].status.Paid? then tx == Some(s)
      else
        && (tx.Some? <==> Payable(s, order, paid, now))
        && (tx.Some? ==> OrderPaid(s, tx.value, order, now))
  {
    if order in s.orders && paid.Some? {
      MoneyIsNearest(paid.value);
      if Nearest(paid.value, s.orders[order].amount) {
        NearestIsOne(paid.value, Money(paid.value), s.orders[order].amount);
      }
    }
  }

  /** An unused, enabled card, and an active customer. */
  predicate Redeemable(s: State, card: string, customer: string) {
    card in s.cards && s.cards[card].usedBy == None && s.cards[card].enabled && MayReceive(s, customer)
  }

  ghost predicate CardRedeemed(s: State, t: State, card: string, customer: string) {
    && card in s.cards
    && var row := s.cards[card];
    && Pays(s.saga, t.saga, customer, CardOf(card), row.amount)
    && t == s.(saga := t.saga, cards := s.cards[card := Card(row.amount, row.batch, Some(customer), row.enabled)])
  }

  lemma RedeemPays(s: State, card: string, customer: string)
    ensures
      var tx := RedeemCardTx(s, card, customer);
      && (tx.Some? <==> Redeemable(s, card, customer))
      && (tx.Some? ==> CardRedeemed(s, tx.value, card, customer))
  {
  }

  /** An activated receipt with an amount, of an active customer. */
  predicate Creditable(s: State, code: string) {
    && code in s.receipts
    && var r := s.receipts[code];
    r.status == Activated && r.amount.Some? && MayReceive(s, r.customer)
  }

  ghost predicate ReceiptCredited(s: State, t: State, code: string) {
    && code in s.receipts && s.receipts[code].amount.Some?
    && var r := s.receipts[code];
    && Pays(s.saga, t.saga, r.customer, ReceiptOf(code), r.amount.value)
    && t == s.(saga := t.saga, receipts := s.receipts[code := Receipt(r.customer, Completed, r.amount)])
  }

  lemma CreditPays(s: State, code: string)
    ensures
      var tx := CreditTx(s, code);
      if code in s.receipts && s.receipts[code].status == Completed then
        tx == if s.receipts[code].customer in s.saga.db.customers then Some(s) else None
      else
        && (tx.Some? <==> Creditable(s, code))
        && (tx.Some? ==> ReceiptCredited(s, tx.value, code))
  {
  }

  // ---- which steps credit ----

  /** An order becomes paid only by a notification it is payable for. */
  lemma OrderStep(s: State, a: Step, order: string)
    ensures
      var t := Apply(s, a);
      (order in t.orders && t.orders[order].status.Paid? && !(order in s.orders && s.orders[order].status.Paid?)) ==>
        && a.Notify? && a.order == order && t.orders[order].status == Paid(a.now)
        && Payable(s, order, a.paid, a.now) && OrderPaid(s, t, order, a.now)
  {
    if a.Notify? {
      NotifyPays(s, a.order, a.paid, a.now);
    } else {
      OthersPayNoOrder(s, a, order);
    }
  }

  lemma OthersPayNoOrder(s: State, a: Step, order: string)
    requires !a.Notify?
    ensures
      var t := Apply(s, a);
      order in t.orders && t.orders[order].status.Paid? ==> order in s.orders && s.orders[order].status.Paid?
  {
  }

  /** A card that is there becomes used only by a redemption it is redeemable for. */
  lemma CardStep(s: State, a: Step, card: string)
    ensures
      var t := Apply(s, a);
      (card in t.cards && t.cards[card].usedBy.Some? && !(card in s.cards && s.cards[card].usedBy.Some?)) ==>
        && a.RedeemCard? && a.card == card && t.cards[card].usedBy == Some(a.customer)
        && Redeemable(s, card, a.customer) && CardRedeemed(s, t, card, a.customer)
  {
    if a.RedeemCard? {
      RedeemPays(s, a.card, a.customer);
    } else {
      OthersUseNoCard(s, a, card);
    }
  }

  lemma OthersUseNoCard(s: State, a: Step, card: string)
    requires !a.RedeemCard?
    ensures
      var t := Apply(s, a);
      card in t.cards && t.cards[card].usedBy.Some? ==> card in s.cards && s.cards[card].usedBy.Some?
  {
  }

  /** A receipt becomes completed only by the credit it is creditable for. */
  lemma ReceiptStep(s: State, a: Step, code: string)
    ensures
      var t := Apply(s, a);
      (code in t.receipts && t.receipts[code].status == Completed && !(code in s.receipts && s.receipts[code].status == Completed)) ==>
        a.Credit? && a.code == code && Creditable(s, code) && ReceiptCredited(s, t, code)
  {
    if a.Credit? {
      CreditPays(s, a.code);
    } else {
      OthersCompleteNothing(s, a, code);
    }
  }

  lemma OthersCompleteNothing(s: State, a: Step, code: string)
    requires !a.Credit?
    ensures
      var t := Apply(s, a);
      code in t.receipts && t.receipts[code].status == Completed ==> code in s.receipts && s.receipts[code].status == Completed
  {
  }

  // ---- over whole runs ----

  ghost predicate PaidAt(start: State, steps: seq<Step>, i: nat, order: string, at: int)
    requires i < |steps|
  {
    && steps[i].Notify? && steps[i].order == order && steps[i].now == at
    && Payable(Run(start, steps[..i]), order, steps[i].paid, at)
    && OrderPaid(Run(start, steps[..i]), Run(start, steps[..i + 1]), order, at)
  }

  ghost predicate RedeemedAt(start: State, steps: seq<Step>, i: nat, card: string, customer: string)
    requires i < |steps|
  {
    && Redeemable(Run(start, steps[..i]), card, customer)
    && CardRedeemed(Run(start, steps[..i]), Run(start, steps[..i + 1]), card, customer)
  }

  ghost predicate CreditedAt(start: State, steps: seq<Step>, i: nat, code: string)
    requires i < |steps|
  {
    && Creditable(Run(start, steps[..i]), code)
    && ReceiptCredited(Run(start, steps[..i]), Run(start, steps[..i + 1]), code)
  }

  lemma SameSteps(start: State, steps: seq<Step>, a: Step, i: nat)
    requires i < |steps|
    ensures (steps + [a])[i] == steps[i]
    ensures Run(start, (steps + [a])[..i]) == Run(start, steps[..i]) && Run(start, (steps + [a])[..i + 1]) == Run(start, steps[..i + 1])
  {
    assert (steps + [a])[..i] == steps[..i] && (steps + [a])[..i + 1] == steps[..i + 1];
  }

  lemma LastStep(start: State, steps: seq<Step>, a: Step)
    ensures (steps + [a])[|steps|] == a && Run(start, (steps + [a])[..|steps|]) == Run(start, steps)
    ensures Run(start, (steps + [a])[..|steps| + 1]) == Apply(Run(start, steps), a) == Run(start, steps + [a])
  {
    assert (steps + [a])[..|steps|] == steps && (steps + [a])[..|steps| + 1] == steps + [a];
  }

  /** Every paid order of a run was payable at the step that paid it, at the time it
      says. */
  lemma {:induction false} EveryPaidOrderWasPaid(start: State, steps: seq<Step>, order: string)
    requires start.orders == map[]
    ensures
      var orders := Run(start, steps).orders;
      order in orders && orders[order].status.Paid? ==>
        exists i: nat :: i < |steps| && PaidAt(start, steps, i, order, orders[order].status.at)
  {
    if steps != [] {
      var most, a := steps[..|steps| - 1], steps[|steps| - 1];
      assert steps == most + [a];
      EveryPaidOrderWasPaid(start, most, order);
      LastStep(start, most, a);
      var before, after := Run(start, most).orders, Run(start, steps).orders;
      OrderStep(Run(start, most), a, order);
      if order in before && before[order].status.Paid? {
        var i: nat :| i < |most| && PaidAt(start, most, i, order, before[order].status.at);
        SameSteps(start, most, a, i);
        PaidStays(Run(start, most), a, order);
        assert PaidAt(start, steps, i, order, after[order].status.at);
      } else if order in after && after[order].status.Paid? {
        assert PaidAt(start, steps, |most|, order, after[order].status.at);
      }
    }
  }

  lemma PaidStays(s: State, a: Step, order: string)
    requires order in s.orders && s.orders[order].status.Paid?
    ensures order in Apply(s, a).orders && Apply(s, a).orders[order] == s.orders[order]
  {
  }

  /** Every used card that is still there was redeemed by a step of the run. */
  lemma {:induction false} EveryUsedCardWasRedeemed(opening: map<string, int>, start: State, steps: seq<Step>, card: string)
    requires Init(opening, start)
    ensures
      var cards := Run(start, steps).cards;
      card in cards && cards[card].usedBy.Some? ==>
        exists i: nat :: i < |steps| && RedeemedAt(start, steps, i, card, cards[card].usedBy.value)
  {
    if steps != [] {
      var most, a := steps[..|steps| - 1], steps[|steps| - 1];
      assert steps == most + [a];
      EveryUsedCardWasRedeemed(opening, start, most, card);
      EveryRunKeepsInv(opening, start, most);
      LastStep(start, most, a);
      var before, after := Run(start, most).cards, Run(start, steps).cards;
      CardStep(Run(start, most), a, card);
      if card in before && before[card].usedBy.Some? {
        var i: nat :| i < |most| && RedeemedAt(start, most, i, card, before[card].usedBy.value);
        SameSteps(start, most, a, i);
        UsedStays(Run(start, most), a, card);
        if card in after {
          assert RedeemedAt(start, steps, i, card, after[card].usedBy.value);
        }
      } else if card in after && after[card].usedBy.Some? {
        assert RedeemedAt(start, steps, |most|, card, after[card].usedBy.value);
      }
    }
  }

  lemma UsedStays(s: State, a: Step, card: string)
    requires card in s.cards && s.cards[card].usedBy.Some? && card in s.issued
    ensures card in Apply(s, a).cards ==> Apply(s, a).cards[card] == s.cards[card]
  {
  }

  /** Every completed receipt of a run was credited by one of its steps. */
  lemma {:induction false} EveryCompletedReceiptWasCredited(opening: map<string, int>, start: State, steps: seq<Step>, code: string)
    requires Init(opening, start)
    ensures
      var receipts := Run(start, steps).receipts;
      code in receipts && receipts[code].status == Completed ==>
        exists i: nat :: i < |steps| && CreditedAt(start, steps, i, code)
  {
    if steps != [] {
      var most, a := steps[..|steps| - 1], steps[|steps| - 1];
      assert steps == most + [a];
      EveryCompletedReceiptWasCredited(opening, start, most, code);
      LastStep(start, most, a);
      ReceiptStep(Run(start, most), a, code);
      var before, after := Run(start, most).receipts, Run(start, steps).receipts;
      if code in before && before[code].status == Completed {
        var i: nat :| i < |most| && CreditedAt(start, most, i, code);
        SameSteps(start, most, a, i);
        assert CreditedAt(start, steps, i, code);
      } else if code in after && after[code].status == Completed {
        assert CreditedAt(start, steps, |most|, code);
      }
    }
  }

  // ---- where the amount of a receipt comes from ----

  /** The external system confirmed a card with money of this amount, or an
      administrator entered it. */
  predicate Names(a: Step, code: string, cents: nat) {
    || (a.Activate? && a.code == code && a.answer.Confirmed? && a.answer.money && ValidAmount(a.answer.amount) == Some(cents))
    || (a.Resolve? && a.code == code && ValidAmount(a.amount) == Some(cents))
  }

  ghost predicate Sourced(steps: seq<Step>, s: State, code: string) {
    && (code in s.receipts && s.receipts[code].amount.Some? ==>
          exists a <- steps :: Names(a, code, s.receipts[code].amount.value))
    && (code in s.stages && s.stages[code].Answered? ==>
          exists a <- steps :: a.Activate? && a.code == code && a.answer == s.stages[code].answer)
  }

  lemma SourcedStep(steps: seq<Step>, s: State, a: Step, code: string)
    requires Sourced(steps, s, code)
    ensures Sourced(steps + [a], Apply(s, a), code)
  {
    assert forall x <- steps :: x in steps + [a];
    assert a in steps + [a];
    if a.StoreAnswer? || a.Resolve? || a.StartRedeem? || a.Activate? || a.Credit? || a.CardCrash? {
      ReceiptStepSourced(steps, s, a, code);
    } else {
      OthersKeepReceipts(s, a);
    }
  }

  lemma OthersKeepReceipts(s: State, a: Step)
    requires !a.StartRedeem? && !a.Activate? && !a.StoreAnswer? && !a.Resolve? && !a.CardCrash? && !a.Credit?
    ensures Apply(s, a).receipts == s.receipts && Apply(s, a).stages == s.stages
  {
  }

  lemma ReceiptStepSourced(steps: seq<Step>, s: State, a: Step, code: string)
    requires a.StartRedeem? || a.Activate? || a.StoreAnswer? || a.Resolve? || a.CardCrash? || a.Credit?
    requires Sourced(steps, s, code) && (forall x <- steps :: x in steps + [a]) && a in steps + [a]
    ensures Sourced(steps + [a], Apply(s, a), code)
  {
    if a.StoreAnswer? {
      StoreSourced(steps, s, a, code);
    } else if a.Activate? {
      ActivateSourced(steps, s, a, code);
    }
  }

  lemma StoreSourced(steps: seq<Step>, s: State, a: Step, code: string)
    requires a.StoreAnswer? && Sourced(steps, s, code) && (forall x <- steps :: x in steps + [a]) && a in steps + [a]
    ensures Sourced(steps + [a], Apply(s, a), code)
  {
    if a.code == code && code in s.stages && s.stages[code].Answered? {
      var x :| x in steps && x.Activate? && x.code == code && x.answer == s.stages[code].answer;
      assert x in steps + [a];
    }
  }

  lemma ActivateSourced(steps: seq<Step>, s: State, a: Step, code: string)
    requires a.Activate? && Sourced(steps, s, code) && (forall x <- steps :: x in steps + [a]) && a in steps + [a]
    ensures Sourced(steps + [a], Apply(s, a), code)
  {
  }

  /** The amount of a receipt is one that was confirmed or entered for its card. */
  lemma {:induction false} AmountsWereNamed(opening: map<string, int>, start: State, steps: seq<Step>, code: string)
    requires Init(opening, start)
    ensures Sourced(steps, Run(start, steps), code)
  {
    if steps != [] {
      var most, a := steps[..|steps| - 1], steps[|steps| - 1];
      assert steps == most + [a];
      AmountsWereNamed(opening, start, most, code);
      SourcedStep(most, Run(start, most), a, code);
    }
  }

  /** The answer of the external system decides the receipt: money of a valid amount
      activates it, a definite refusal declines it, and anything else leaves it open. */
  lemma AnswersDecide(s: State, code: string)
    requires code in s.stages && s.stages[code].Answered? && code in s.receipts
    ensures
      var answer, r := s.stages[code].answer, Apply(s, StoreAnswer(code, Saga.Applied)).receipts[code];
      && r.customer == s.receipts[code].customer
      && (r.status == Activated <==> answer.Confirmed? && answer.money && ValidAmount(answer.amount).Some?)
      && (r.status == Activated ==> r.amount == ValidAmount(answer.amount))
      && (r.status == Declined <==> answer.Refusal? && answer.code !in {0, -1} && !(500 <= answer.code <= 599))
      && (r.status != Activated && r.status != Declined ==> r.status == Uncertain)
  {
  }
}
