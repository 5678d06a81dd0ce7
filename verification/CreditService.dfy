/** The services that credit balances, over mutable rows. Each method stays a run of
    the machine in `Credits`, with everybody else acting at its awaits. */
module CreditService {
  import opened Options
  import opened RenewalRows
  import Saga = RenewalSaga
  import opened Credits
  import Safety = CreditSafety
  import Effects = CreditEffects

  datatype Outcome = Credited | Replayed | Refused | Thrown

  datatype Mode = Add | Subtract | Set

  /** The balance an adjustment asks for. */
  function Asked(mode: Mode, before: int, amount: nat): int {
    match mode
    case Add => before + amount
    case Subtract => before - amount
    case Set => amount
  }

  lemma RunStep(start: State, steps: seq<Step>, a: Step)
    ensures Run(start, steps + [a]) == Apply(Run(start, steps), a)
  {
    assert (steps + [a])[..|steps|] == steps;
  }

  /** A step of whoever holds the lock of a card, or an attempt to get it. */
  predicate Own(code: string, a: Step) {
    match a
    case StartRedeem(c, _, _) => c == code
    case Activate(c, _, _) => c == code
    case StoreAnswer(c, _) => c == code
    case Credit(c, _) => c == code
    case Resolve(c, _, _) => c == code
    case CardCrash(c) => c == code
    case _ => false
  }

  /** What others leave alone of a card whose lock they do not hold. */
  predicate SameCard(s: State, after: State, code: string) {
    && (code in s.receipts <==> code in after.receipts)
    && (code in s.receipts ==> after.receipts[code] == s.receipts[code])
    && (code in s.stages <==> code in after.stages)
    && (code in s.stages ==> after.stages[code] == s.stages[code])
  }

  lemma OthersKeepCard(s: State, a: Step, code: string)
    requires !Own(code, a)
    ensures SameCard(s, Apply(s, a), code)
  {
    if OnReceipt(a) {
      OtherReceiptsKeepCard(s, a, code);
    } else {
      NoReceiptKeepsCard(s, a, code);
    }
  }

  predicate OnReceipt(a: Step) {
    a.StartRedeem? || a.Activate? || a.StoreAnswer? || a.Credit? || a.Resolve? || a.CardCrash?
  }

  lemma OtherReceiptsKeepCard(s: State, a: Step, code: string)
    requires OnReceipt(a) && a.code != code
    ensures SameCard(s, Apply(s, a), code)
  {
  }

  lemma NoReceiptKeepsCard(s: State, a: Step, code: string)
    requires !OnReceipt(a)
    ensures SameCard(s, Apply(s, a), code)
  {
  }

  /** A write whose answer did not arrive or which did not happen. */
  predicate FailedWrite(a: Step) {
    (a.StartRedeem? || a.StoreAnswer? || a.Credit? || a.Resolve?) && !a.reply.Applied?
  }

  /** A receipt that was credited, or can be. */
  predicate Ready(s: State, code: string) {
    || Effects.Creditable(s, code)
    || (code in s.receipts && s.receipts[code].status == Completed && s.receipts[code].customer in s.saga.db.customers)
  }

  /** The card can be asked about for this customer, or credited at once. */
  predicate Open(s: State, customer: string, code: string) {
    && Effects.MayReceive(s, customer)
    && (code in s.receipts ==>
          && s.receipts[code].customer == customer
          && (s.receipts[code].status == Declined || s.receipts[code].status == Activated || s.receipts[code].status == Completed))
  }

  /** At some point of the steps the receipt was tried, or could not be credited. */
  ghost predicate Tried(start: State, steps: seq<Step>, code: string, from: nat) {
    exists at: nat :: from <= at <= |steps| && TriedAt(start, steps, code, at)
  }

  ghost predicate TriedAt(start: State, steps: seq<Step>, code: string, at: nat)
    requires at <= |steps|
  {
    var s := Run(start, steps[..at]);
    code !in s.stages && Ready(s, code) ==> at < |steps| && steps[at].Credit? && steps[at].code == code
  }

  lemma TriedStays(start: State, steps: seq<Step>, more: seq<Step>, code: string, from: nat)
    requires steps <= more && Tried(start, steps, code, from)
    ensures Tried(start, more, code, from)
  {
    var at: nat :| from <= at <= |steps| && TriedAt(start, steps, code, at);
    assert more[..at] == steps[..at];
    assert TriedAt(start, more, code, at);
  }

  class CreditService {
    var s: State
    ghost const opening: map<string, int>
    ghost const start: State
    ghost var run: seq<Step>

    ghost predicate Valid()
      reads this
    {
      Safety.Init(opening, start) && s == Run(start, run)
    }

    constructor (saga: Saga.State, ghost opening: map<string, int>)
      requires Safety.Safety.Init(opening, saga)
      ensures Valid() && run == [] && s.saga == saga
    {
      this.s := State(saga, map[], map[], {}, [], map[], {}, map[]);
      this.opening := opening;
      this.start := State(saga, map[], map[], {}, [], map[], {}, map[]);
      this.run := [];
    }

    /** A write of the card's holder has failed since the run had `from` steps. */
    ghost predicate FailedSince(from: nat, code: string)
      reads this
    {
      exists i :: from <= i < |run| && Own(code, run[i]) && FailedWrite(run[i])
    }

    method Record(next: State, ghost a: Step)
      requires Valid() && next == Apply(s, a)
      modifies this
      ensures Valid() && s == next && run == old(run) + [a]
    {
      RunStep(start, run, a);
      s := next;
      run := run + [a];
    }

    /** An await of the holder of a card's lock. */
    method Await(code: string)
      requires Valid()
      modifies this
      ensures Valid() && old(run) <= run && SameCard(old(s), s, code)
    {
      var others: seq<Step> := *;
      for i := 0 to |others|
        invariant Valid() && old(run) <= run && SameCard(old(s), s, code)
      {
        if !Own(code, others[i]) {
          OthersKeepCard(s, others[i], code);
          Record(Apply(s, others[i]), others[i]);
        }
      }
    }

    // ---- transactions, row by row ----

    method CreditTransaction(code: string) returns (tx: Option<State>)
      ensures tx == CreditTx(s, code)
      ensures tx.Some? && s.receipts[code].status != Completed ==> Effects.ReceiptCredited(s, tx.value, code)
    {
      Effects.CreditPays(s, code);
      if code !in s.receipts {
        return None;
      }
      var receipt := s.receipts[code];
      if receipt.status != Activated && receipt.status != Completed {
        return None;
      }
      var db := s.saga.db;
      if receipt.customer !in db.customers {
        return None;
      }
      var customer := db.customers[receipt.customer];
      if receipt.status == Completed {
        return Some(s);
      }
      if !customer.active || receipt.amount.None? {
        return None;
      }
      var amount := receipt.amount.value;
      var updated := customer.(balance := customer.balance + amount);
      db := db.(customers := db.customers[receipt.customer := updated]);
      var log := Entry(receipt.customer, ReceiptOf(code), amount, customer.balance, updated.balance);
      db := db.(stored := db.stored + {|db.ledger|}, ledger := db.ledger + [log]);
      tx := Some(s.(saga := s.saga.(db := db), receipts := s.receipts[code := receipt.(status := Completed)]));
    }

    method RedeemLocalCardTransaction(card: string, customer: string) returns (tx: Option<State>)
      ensures tx == RedeemCardTx(s, card, customer)
      ensures tx.Some? <==> Effects.Redeemable(s, card, customer)
      ensures tx.Some? ==> Effects.CardRedeemed(s, tx.value, card, customer)
    {
      Effects.RedeemPays(s, card, customer);
      if card !in s.cards {
        return None;
      }
      var row := s.cards[card];
      if row.usedBy.Some? || !row.enabled {
        return None;
      }
      var db := s.saga.db;
      if customer !in db.customers || !db.customers[customer].active {
        return None;
      }
      var cards := s.cards[card := row.(usedBy := Some(customer))];
      var before := db.customers[customer].balance;
      db := db.(customers := db.customers[customer := db.customers[customer].(balance := before + row.amount)]);
      var log := Entry(customer, CardOf(card), row.amount, before, db.customers[customer].balance);
      db := db.(stored := db.stored + {|db.ledger|}, ledger := db.ledger + [log]);
      tx := Some(s.(saga := s.saga.(db := db), cards := cards));
    }

    /** Closing an expired order is part of the transaction that then throws. */
    method CompleteRechargeOrderTransaction(order: string, paid: Option<Decimal>, now: int) returns (tx: Option<State>)
      ensures tx == NotifyTx(s, order, paid, now)
      ensures !(order in s.orders && s.orders[order].status.Paid?) ==>
                && (tx.Some? <==> Effects.Payable(s, order, paid, now))
                && (tx.Some? ==> Effects.OrderPaid(s, tx.value, order, now))
    {
      Effects.NotifyPays(s, order, paid, now);
      if order !in s.orders {
        return None;
      }
      var rows := s;
      var o := rows.orders[order];
      if o.status.Paid? {
        return Some(rows);
      }
      if !o.status.Waiting? {
        return None;
      }
      if PastDue(o, now) {
        rows := rows.(orders := rows.orders[order := o.(status := Closed)]);
        return None;
      }
      if paid.Some? && Money(paid.value) != o.amount {
        return None;
      }
      var db := rows.saga.db;
      if o.customer !in db.customers || !db.customers[o.customer].active {
        return None;
      }
      rows := rows.(orders := rows.orders[order := o.(status := Paid(now))]);
      var balance := db.customers[o.customer].balance + o.amount;
      db := db.(customers := db.customers[o.customer := db.customers[o.customer].(balance := balance)]);
      var log := Entry(o.customer, OrderOf(order), o.amount, balance - o.amount, balance);
      db := db.(stored := db.stored + {|db.ledger|}, ledger := db.ledger + [log]);
      tx := Some(rows.(saga := rows.saga.(db := db)));
    }

    // ---- entry points ----

    /** An administrator adds, subtracts or sets; the balance never goes below 0. */
    method AdjustBalance(customer: string, mode: Mode, amount: nat) returns (ok: bool)
      requires Valid()
      modifies this
      ensures Valid() && old(run) <= run
      ensures
        var customers := old(s.saga.db.customers);
        && (ok <==> customer in customers && Asked(mode, customers[customer].balance, amount) >= 0)
        && (if ok then
              var before := customers[customer].balance;
              var after := Asked(mode, before, amount);
              && s.saga.db.customers == customers[customer := customers[customer].(balance := after)]
              && s.saga.db.ledger == old(s.saga.db.ledger) + [Entry(customer, ByAdmin, after - before, before, after)]
            else s == old(s))
    {
      if customer !in s.saga.db.customers {
        return false;
      }
      var before := s.saga.db.customers[customer].balance;
      var after := match mode case Set => amount case Subtract => before - amount case Add => before + amount;
      if after < 0 {
        return false;
      }
      MoveMoney(customer, before, after);
      return true;
    }

    method MoveMoney(customer: string, before: int, after: int)
      requires Valid() && customer in s.saga.db.customers && s.saga.db.customers[customer].balance == before && after >= 0
      modifies this
      ensures Valid() && old(run) <= run
      ensures s.saga.db.customers ==
              old(s.saga.db.customers)[customer := old(s.saga.db.customers[customer]).(balance := after)]
      ensures s.saga.db.ledger == old(s.saga.db.ledger) + [Entry(customer, ByAdmin, after - before, before, after)]
    {
      var db := s.saga.db;
      var log := Entry(customer, ByAdmin, after - before, before, after);
      db := db.(customers := db.customers[customer := db.customers[customer].(balance := after)],
                stored := db.stored + {|db.ledger|}, ledger := db.ledger + [log]);
      assert db == Post(s.saga.db, customer, ByAdmin, after - before);
      Record(s.(saga := s.saga.(db := db)), Renewals(Saga.MoveMoney(customer, after - before)));
    }

    method CreditReceipt(code: string) returns (outcome: Outcome)
      requires Valid() && code !in s.stages
      modifies this
      ensures Valid() && old(run) <= run && code !in s.stages
      ensures outcome == Credited || outcome == Replayed ==> code in s.receipts && s.receipts[code].status == Completed
      ensures code in old(s.receipts) ==> code in s.receipts && s.receipts[code].customer == old(s.receipts[code].customer)
      ensures outcome == Credited ==> exists e <- s.saga.db.ledger :: e.source == ReceiptOf(code)
      ensures outcome == Refused ==> !Ready(s, code)
      ensures outcome == Thrown ==> FailedSince(old(|run|), code)
      ensures Tried(start, run, code, old(|run|))
    {
      Await(code);
      Effects.CreditPays(s, code);
      ghost var before := run;
      var tx := CreditTransaction(code);
      if tx.None? {
        assert run[..|before|] == before && TriedAt(start, run, code, |before|);
        return Refused;
      }
      var reply: Saga.Reply := *;
      var isNew := s.receipts[code].status != Completed;
      Record(if reply.NotApplied? then s else tx.value, Credit(code, reply));
      assert run[..|before|] == before && run[|before|] == Credit(code, reply) && TriedAt(start, run, code, |before|);
      if !reply.Applied? {
        return Thrown;
      }
      if isNew {
        assert s.saga.db.ledger[|s.saga.db.ledger| - 1].source == ReceiptOf(code);
      }
      outcome := if isNew then Credited else Replayed;
    }

    /** Redeems a card of the external system: asks at most once, and credits only
        what was stored as activated first. */
    method Redeem(customer: string, code: string) returns (outcome: Outcome)
      requires Valid() && code !in s.stages
      modifies this
      ensures Valid() && old(run) <= run && code !in s.stages
      ensures outcome == Credited || outcome == Replayed ==>
                code in s.receipts && s.receipts[code].status == Completed && s.receipts[code].customer == customer
      ensures outcome == Refused ==> !Open(s, customer, code) || !Ready(s, code)
      ensures outcome == Thrown ==>
                FailedSince(old(|run|), code)
                || (code in s.receipts && (s.receipts[code].status == Uncertain || s.receipts[code].status == Declined))
    {
      Await(code);
      if !Active(s.saga.db, customer) {
        return Refused;
      }
      if code in s.receipts && s.receipts[code].customer != customer {
        return Refused;
      }
      if code in s.receipts && (s.receipts[code].status == Completed || s.receipts[code].status == Activated) {
        outcome := CreditReceipt(code);
        return;
      }
      if code in s.receipts && s.receipts[code].status != Declined {
        return Refused;
      }
      var reply: Saga.Reply := *;
      Record(DoStartRedeem(s, code, customer, reply), StartRedeem(code, customer, reply));
      if !reply.Applied? {
        return Thrown;
      }
      var stored := AskAndStore(customer, code);
      if !stored {
        return Thrown;
      }
      outcome := CreditReceipt(code);
    }

    /** One call of the external system, and its answer written to the receipt. */
    method AskAndStore(customer: string, code: string) returns (activated: bool)
      requires Valid() && code in s.stages && s.stages[code] == Calling
      requires code in s.receipts && s.receipts[code].customer == customer
      modifies this
      ensures Valid() && old(run) <= run && code !in s.stages
      ensures code in s.receipts && s.receipts[code].customer == customer
      ensures activated ==> s.receipts[code].status == Activated && s.receipts[code].amount.Some?
      ensures !activated ==>
                FailedSince(old(|run|), code) || s.receipts[code].status == Uncertain || s.receipts[code].status == Declined
    {
      Await(code);
      var answer: Answer, applied: bool := *, *;
      if answer.Confirmed? && code in s.consumed {
        answer := Silence;
      }
      Record(DoActivate(s, code, answer, applied), Activate(code, answer, applied));
      Await(code);
      var reply: Saga.Reply := *;
      Record(DoStoreAnswer(s, code, reply), StoreAnswer(code, reply));
      activated := reply.Applied? && s.receipts[code].status == Activated;
    }

    /** An administrator settles a receipt whose activation stayed open. */
    method ResolveReceipt(code: string, amount: Decimal) returns (outcome: Outcome)
      requires Valid() && code !in s.stages
      modifies this
      ensures Valid() && old(run) <= run && code !in s.stages
      ensures outcome == Credited || outcome == Replayed ==> code in s.receipts && s.receipts[code].status == Completed
      ensures outcome == Refused ==>
                || !Ready(s, code)
                || code !in old(s.receipts) || old(s.receipts[code].status) == Declined || ValidAmount(amount).None?
      ensures outcome == Thrown ==> FailedSince(old(|run|), code)
    {
      Await(code);
      if code !in s.receipts {
        return Refused;
      }
      if s.receipts[code].status != Completed && s.receipts[code].status != Activated {
        if s.receipts[code].status == Declined || ValidAmount(amount).None? {
          return Refused;
        }
        var reply: Saga.Reply := *;
        Record(DoResolve(s, code, amount, reply), Resolve(code, amount, reply));
        if !reply.Applied? {
          return Thrown;
        }
      }
      outcome := CreditReceipt(code);
    }

    /** The recovery job tries each receipt it listed and leaves what fails. */
    method RecoverCredits(pending: seq<string>)
      requires Valid()
      modifies this
      ensures Valid() && old(run) <= run
      ensures forall code <- pending :: Tried(start, run, code, old(|run|))
    {
      ghost var first := run;
      for i := 0 to |pending|
        invariant Valid() && first <= run
        invariant forall j :: 0 <= j < i ==> Tried(start, run, pending[j], |first|)
      {
        ghost var before := run;
        TryCredit(pending[i]);
        forall j | 0 <= j < i
          ensures Tried(start, run, pending[j], |first|)
        {
          TriedStays(start, before, run, pending[j], |first|);
        }
      }
    }

    method TryCredit(code: string)
      requires Valid()
      modifies this
      ensures Valid() && old(run) <= run
      ensures Tried(start, run, code, old(|run|))
    {
      if code !in s.stages {
        var outcome := CreditReceipt(code);
      } else {
        assert run[..|run|] == run && TriedAt(start, run, code, |run|);
      }
    }
  }
}
