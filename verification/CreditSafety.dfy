/** What every run of renewals, cards and orders keeps. */
module CreditSafety {
  import opened Options
  import opened RenewalRows
  import Saga = RenewalSaga
  import Safety = RenewalSafety
  import opened Credits

  // ---- entries ----

  predicate IsCredit(source: Source) {
    source.ReceiptOf? || source.CardOf? || source.OrderOf?
  }

  /** An entry for a card or an order stands for a row that is used up by it, with
      the row's amount and customer. */
  ghost predicate Backed(s: State, e: Entry) {
    match e.source
    case ReceiptOf(code) =>
      && code in s.receipts && s.receipts[code].status == Completed
      && s.receipts[code].amount == Some(e.amount) && s.receipts[code].customer == e.customer
    case CardOf(card) =>
      && card in s.issued
      && (card in s.cards ==> s.cards[card].usedBy == Some(e.customer) && s.cards[card].amount == e.amount)
    case OrderOf(order) =>
      && order in s.orders && s.orders[order].status.Paid?
      && s.orders[order].amount == e.amount && s.orders[order].customer == e.customer
      && !PastDue(s.orders[order], s.orders[order].status.at)
    case _ => true
  }

  ghost predicate LedgerBacked(s: State) {
    forall e <- s.saga.db.ledger :: Backed(s, e)
  }

  ghost predicate OnceEach(s: State) {
    && (forall c <- s.receipts :: s.receipts[c].status == Completed ==> Count(s.saga.db.ledger, ReceiptOf(c)) == 1)
    && (forall c <- s.cards :: s.cards[c].usedBy.Some? ==> Count(s.saga.db.ledger, CardOf(c)) == 1)
    && (forall o <- s.orders :: s.orders[o].status.Paid? ==> Count(s.saga.db.ledger, OrderOf(o)) == 1)
    && forall source :: IsCredit(source) ==> Count(s.saga.db.ledger, source) <= 1
  }

  ghost predicate RowsOk(s: State) {
    && (forall c <- s.cards :: c in s.issued)
    && (forall c <- s.receipts ::
          (s.receipts[c].status == Activated || s.receipts[c].status == Completed) ==>
            s.receipts[c].amount.Some? && s.receipts[c].amount.value > 0)
  }

  // ---- activations ----

  /** Every activation of the card so far was refused for sure. */
  ghost predicate Clean(calls: seq<Call>, code: string) {
    forall c <- calls :: c.code == code ==> Definite(c.answer)
  }

  ghost predicate CodeOk(s: State, code: string) {
    && (code !in s.receipts || s.receipts[code].status == Declined ==> Clean(s.calls, code) && code !in s.stages)
    && (code in s.stages ==>
          && s.receipts[code].status == Processing
          && match s.stages[code]
             case Calling => Clean(s.calls, code)
             case Answered(answer) => Definite(answer) ==> Clean(s.calls, code))
  }

  ghost predicate CallsOk(s: State) {
    && s.stages.Keys <= s.receipts.Keys
    && forall code :: CodeOk(s, code)
  }

  /** An activation is repeated only after a refusal that says for sure that the
      card was not taken. */
  ghost predicate OnlyAfterRefusal(calls: seq<Call>) {
    forall i, j :: 0 <= i < j < |calls| && calls[i].code == calls[j].code ==> Definite(calls[i].answer)
  }

  ghost predicate Inv(opening: map<string, int>, s: State) {
    && Safety.Inv(opening, s.saga)
    && LedgerBacked(s) && OnceEach(s) && RowsOk(s) && CallsOk(s) && OnlyAfterRefusal(s.calls)
  }

  // ---- posting a credit ----

  lemma {:induction false} CountZero(ledger: seq<Entry>, source: Source)
    requires forall e <- ledger :: e.source != source
    ensures Count(ledger, source) == 0
  {
    if ledger != [] {
      assert ledger[|ledger| - 1] in ledger;
      assert forall e <- ledger[..|ledger| - 1] :: e in ledger;
      CountZero(ledger[..|ledger| - 1], source);
    }
  }

  /** The row behind a source is not used up yet. */
  ghost predicate Unused(s: State, source: Source) {
    match source
    case ReceiptOf(code) => code !in s.receipts || s.receipts[code].status != Completed
    case CardOf(card) => card !in s.issued || (card in s.cards && s.cards[card].usedBy.None?)
    case OrderOf(order) => order !in s.orders || !s.orders[order].status.Paid?
    case _ => false
  }

  lemma UnusedHasNoEntry(s: State, source: Source)
    requires LedgerBacked(s) && Unused(s, source)
    ensures forall e <- s.saga.db.ledger :: e.source != source
    ensures Count(s.saga.db.ledger, source) == 0
  {
    forall e | e in s.saga.db.ledger
      ensures e.source != source
    {
      assert Backed(s, e);
    }
    CountZero(s.saga.db.ledger, source);
  }

  lemma PostedCounts(db: Db, customer: string, source: Source, amount: int)
    requires customer in db.customers
    ensures forall other :: Count(Post(db, customer, source, amount).ledger, other)
                            == Count(db.ledger, other) + if other == source then 1 else 0
  {
    forall other {
      PostCounts(db, customer, source, amount, other);
    }
  }

  lemma CreditKeepsLedger(s: State, code: string)
    requires LedgerBacked(s) && OnceEach(s)
    requires code in s.receipts && s.receipts[code].amount.Some? && s.receipts[code].customer in s.saga.db.customers
    requires s.receipts[code].status == Activated
    ensures LedgerBacked(AfterCredit(s, code)) && OnceEach(AfterCredit(s, code))
  {
    var r := s.receipts[code];
    var after := AfterCredit(s, code);
    UnusedHasNoEntry(s, ReceiptOf(code));
    PostedCounts(s.saga.db, r.customer, ReceiptOf(code), r.amount.value);
    forall e | e in after.saga.db.ledger
      ensures Backed(after, e)
    {
      assert e in s.saga.db.ledger ==> Backed(s, e);
    }
  }

  lemma AfterCreditKeepsInv(opening: map<string, int>, s: State, code: string)
    requires Inv(opening, s) && Unlocked(s, code)
    requires code in s.receipts && s.receipts[code].amount.Some? && s.receipts[code].customer in s.saga.db.customers
    requires s.receipts[code].status == Activated
    ensures Inv(opening, AfterCredit(s, code))
  {
    CreditKeepsLedger(s, code);
    Safety.PostKeepsInv(opening, s.saga, s.receipts[code].customer, ReceiptOf(code), s.receipts[code].amount.value);
    CompletionKeepsCalls(s, AfterCredit(s, code), code);
  }

  lemma CreditKeepsInv(opening: map<string, int>, s: State, code: string)
    requires Inv(opening, s) && Unlocked(s, code)
    ensures CreditTx(s, code).Some? ==> Inv(opening, CreditTx(s, code).value)
  {
    if CreditTx(s, code).Some? && s.receipts[code].status != Completed {
      assert CreditTx(s, code).value == AfterCredit(s, code);
      AfterCreditKeepsInv(opening, s, code);
    }
  }

  lemma CompletionKeepsCalls(s: State, after: State, code: string)
    requires CallsOk(s) && Unlocked(s, code) && code in s.receipts && s.receipts[code].status == Activated
    requires after.calls == s.calls && after.stages == s.stages
    requires after.receipts == s.receipts[code := s.receipts[code].(status := Completed)]
    ensures CallsOk(after)
  {
    forall c
      ensures CodeOk(after, c)
    {
      assert CodeOk(s, c);
    }
  }

  /** Steps that leave receipts, activations and locks alone. */
  lemma SameCalls(s: State, after: State)
    requires CallsOk(s) && OnlyAfterRefusal(s.calls)
    requires after.calls == s.calls && after.stages == s.stages && after.receipts == s.receipts
    ensures CallsOk(after) && OnlyAfterRefusal(after.calls)
  {
    assert forall c :: CodeOk(s, c) ==> CodeOk(after, c);
  }

  lemma RedeemCardKeepsInv(opening: map<string, int>, s: State, card: string, customer: string)
    requires Inv(opening, s)
    ensures RedeemCardTx(s, card, customer).Some? ==> Inv(opening, RedeemCardTx(s, card, customer).value)
  {
    var tx := RedeemCardTx(s, card, customer);
    if tx.Some? {
      UnusedHasNoEntry(s, CardOf(card));
      Safety.PostKeepsInv(opening, s.saga, customer, CardOf(card), s.cards[card].amount);
      RedeemCardKeepsOnce(s, card, customer);
      RedeemCardKeepsBacked(s, card, customer);
      SameCalls(s, tx.value);
    }
  }

  lemma RedeemCardKeepsOnce(s: State, card: string, customer: string)
    requires OnceEach(s) && RedeemCardTx(s, card, customer).Some? && Count(s.saga.db.ledger, CardOf(card)) == 0
    ensures OnceEach(RedeemCardTx(s, card, customer).value)
  {
    PostedCounts(s.saga.db, customer, CardOf(card), s.cards[card].amount);
  }

  lemma RedeemCardKeepsBacked(s: State, card: string, customer: string)
    requires LedgerBacked(s) && RowsOk(s) && RedeemCardTx(s, card, customer).Some?
    ensures LedgerBacked(RedeemCardTx(s, card, customer).value)
  {
    var after := RedeemCardTx(s, card, customer).value;
    forall e | e in after.saga.db.ledger
      ensures Backed(after, e)
    {
      assert e in s.saga.db.ledger ==> Backed(s, e);
    }
  }

  lemma NotifyKeepsInv(opening: map<string, int>, s: State, order: string, paid: Option<Decimal>, now: int)
    requires Inv(opening, s)
    ensures NotifyTx(s, order, paid, now).Some? ==> Inv(opening, NotifyTx(s, order, paid, now).value)
  {
    var tx := NotifyTx(s, order, paid, now);
    if tx.Some? && !s.orders[order].status.Paid? {
      var o := s.orders[order];
      UnusedHasNoEntry(s, OrderOf(order));
      Safety.PostKeepsInv(opening, s.saga, o.customer, OrderOf(order), o.amount);
      NotifyKeepsOnce(s, order, paid, now);
      NotifyKeepsBacked(s, order, paid, now);
      SameCalls(s, tx.value);
    }
  }

  lemma NotifyKeepsOnce(s: State, order: string, paid: Option<Decimal>, now: int)
    requires OnceEach(s) && NotifyTx(s, order, paid, now).Some? && !s.orders[order].status.Paid?
    requires Count(s.saga.db.ledger, OrderOf(order)) == 0
    ensures OnceEach(NotifyTx(s, order, paid, now).value)
  {
    var o, after := s.orders[order], NotifyTx(s, order, paid, now).value;
    PostedCounts(s.saga.db, o.customer, OrderOf(order), o.amount);
    OncePosted(s, after, order);
  }

  /** One more entry for an order that had none leaves every source counted once. */
  lemma OncePosted(s: State, after: State, order: string)
    requires OnceEach(s) && Count(s.saga.db.ledger, OrderOf(order)) == 0
    requires after.receipts == s.receipts && after.cards == s.cards
    requires forall o <- after.orders :: o != order ==> o in s.orders && after.orders[o] == s.orders[o]
    requires forall source :: Count(after.saga.db.ledger, source) == Count(s.saga.db.ledger, source) + if source == OrderOf(order) then 1 else 0
    ensures OnceEach(after)
  {
  }

  lemma NotifyKeepsBacked(s: State, order: string, paid: Option<Decimal>, now: int)
    requires LedgerBacked(s) && NotifyTx(s, order, paid, now).Some? && Unused(s, OrderOf(order))
    ensures LedgerBacked(NotifyTx(s, order, paid, now).value)
  {
    var after := NotifyTx(s, order, paid, now).value;
    forall e | e in after.saga.db.ledger
      ensures Backed(after, e)
    {
      assert e in s.saga.db.ledger ==> Backed(s, e);
    }
  }

  // ---- renewals beside credits ----

  /** At most one entry is new, and it is none for a card or an order. */
  ghost predicate PostsNoCredit(before: Db, after: Db) {
    after.ledger == before.ledger
    || exists e: Entry :: !IsCredit(e.source) && after.ledger == before.ledger + [e]
  }

  lemma TxPostsNoCredit(db: Db, customer: string, source: Source, amount: int)
    requires customer in db.customers && !IsCredit(source)
    ensures PostsNoCredit(db, Post(db, customer, source, amount))
  {
    var c := db.customers[customer];
    var e := Entry(customer, source, amount, c.balance, c.balance + amount);
    assert Post(db, customer, source, amount).ledger == db.ledger + [e];
  }

  lemma RenewalPostsNoCredit(s: Saga.State, a: Saga.Action)
    ensures PostsNoCredit(s.db, Saga.Apply(s, a).db)
  {
    if a.Request? || a.Resume? {
      assert Saga.Apply(s, a).db == s.db;
    } else if Saga.ByOthers(a) {
      if a.MoveMoney? && a.customer in s.db.customers {
        TxPostsNoCredit(s.db, a.customer, ByAdmin, a.amount);
      }
    } else {
      WorkerPostsNoCredit(s, a.node, a);
    }
  }

  lemma WorkerPostsNoCredit(s: Saga.State, node: string, a: Saga.Action)
    ensures PostsNoCredit(s.db, Saga.WorkerStep(s, node, a).db)
  {
    var w := Saga.WorkerOf(s, node);
    if w.Priced? && a.DebitStep? {
      DebitPostsNoCredit(s, node, w, a.reply);
    } else if w.Refunding? && a.RefundStep? && w.p.key in s.db.renewals {
      RefundPostsNoCredit(s, node, w.p, a.reply, a.fallback);
    } else {
      assert Saga.WorkerStep(s, node, a).db.ledger == s.db.ledger;
    }
  }

  lemma DebitPostsNoCredit(s: Saga.State, node: string, w: Saga.Worker, reply: Saga.Reply)
    requires w.Priced?
    ensures PostsNoCredit(s.db, Saga.DoDebit(s, node, w, reply).db)
  {
    var tx := DebitTx(s.db, w.request, w.months, w.snapshot, w.now, s.offset);
    if tx.Some? {
      var charge: int := tx.value.renewals[w.request].amount;
      TxPostsNoCredit(s.db, w.request.customer, DebitOf(w.request), -charge);
    }
  }

  lemma RefundPostsNoCredit(s: Saga.State, node: string, p: Saga.Local, reply: Saga.Reply, fallback: Saga.Reply)
    requires p.key in s.db.renewals
    ensures PostsNoCredit(s.db, Saga.DoRefund(s, node, p, reply, fallback).db)
  {
    var tx := RefundTx(s.db, p.key, p.detail);
    if tx.Some? && s.db.renewals[p.key].status == Pending {
      TxPostsNoCredit(s.db, p.key.customer, RefundOf(p.key), s.db.renewals[p.key].amount);
    }
  }

  lemma RenewalsKeepInv(opening: map<string, int>, s: State, a: Saga.Action)
    requires Inv(opening, s)
    ensures Inv(opening, Apply(s, Renewals(a)))
  {
    Safety.StepKeepsInv(opening, s.saga, a);
    RenewalPostsNoCredit(s.saga, a);
    var after := Apply(s, Renewals(a));
    NoCreditKeepsCounts(s.saga.db, after.saga.db);
    forall e | e in after.saga.db.ledger
      ensures Backed(after, e)
    {
      assert e in s.saga.db.ledger ==> Backed(s, e);
    }
    SameCalls(s, after);
  }

  lemma NoCreditKeepsCounts(before: Db, after: Db)
    requires PostsNoCredit(before, after)
    ensures forall source :: IsCredit(source) ==> Count(after.ledger, source) == Count(before.ledger, source)
  {
    if after.ledger != before.ledger {
      assert after.ledger[..|before.ledger|] == before.ledger;
    }
  }

  // ---- the other steps ----

  /** Another state of a receipt that is not completed touches no entry. */
  lemma ReceiptKeepsLedger(s: State, code: string, row: Receipt, stages: map<string, Stage>)
    requires LedgerBacked(s) && OnceEach(s) && Unused(s, ReceiptOf(code)) && row.status != Completed
    ensures LedgerBacked(s.(receipts := s.receipts[code := row], stages := stages))
    ensures OnceEach(s.(receipts := s.receipts[code := row], stages := stages))
  {
    UnusedHasNoEntry(s, ReceiptOf(code));
    var after := s.(receipts := s.receipts[code := row], stages := stages);
    forall e | e in after.saga.db.ledger
      ensures Backed(after, e)
    {
      assert Backed(s, e);
    }
  }

  /** The codes other than the one at hand keep their place. */
  lemma OtherCodesOk(s: State, after: State, code: string)
    requires CallsOk(s) && after.calls == s.calls && CodeOk(after, code)
    requires after.stages.Keys <= after.receipts.Keys
    requires forall c :: c != code ==> (c in after.receipts <==> c in s.receipts) && (c in after.stages <==> c in s.stages)
    requires forall c <- s.receipts :: c != code ==> after.receipts[c] == s.receipts[c]
    requires forall c <- s.stages :: c != code ==> after.stages[c] == s.stages[c]
    ensures CallsOk(after)
  {
    forall c
      ensures CodeOk(after, c)
    {
      assert CodeOk(s, c);
    }
  }

  lemma StartKeepsInv(opening: map<string, int>, s: State, code: string, customer: string, reply: Saga.Reply)
    requires Inv(opening, s) && Unlocked(s, code)
    ensures Inv(opening, DoStartRedeem(s, code, customer, reply))
  {
    var after := DoStartRedeem(s, code, customer, reply);
    assert CodeOk(s, code);
    if after != s {
      ReceiptStarts(opening, s, code, after.receipts[code], after.stages);
    }
  }

  /** A new or declined receipt is tried: its call comes next, or its worker is gone. */
  lemma ReceiptStarts(opening: map<string, int>, s: State, code: string, row: Receipt, stages: map<string, Stage>)
    requires Inv(opening, s) && row.status == Processing && code !in s.stages
    requires code !in s.receipts || s.receipts[code].status == Declined
    requires stages == s.stages || stages == s.stages[code := Calling]
    ensures Inv(opening, s.(receipts := s.receipts[code := row], stages := stages))
  {
    var after := s.(receipts := s.receipts[code := row], stages := stages);
    assert CodeOk(s, code);
    ReceiptKeepsLedger(s, code, row, stages);
    OtherCodesOk(s, after, code);
  }

  lemma StoreKeepsInv(opening: map<string, int>, s: State, code: string, reply: Saga.Reply)
    requires Inv(opening, s)
    ensures Inv(opening, DoStoreAnswer(s, code, reply))
  {
    var after := DoStoreAnswer(s, code, reply);
    assert CodeOk(s, code);
    if after != s {
      ReceiptKeepsLedger(s, code, after.receipts[code], after.stages);
      assert reply.NotApplied? ==> after.receipts == s.receipts[code := after.receipts[code]];
      OtherCodesOk(s, after, code);
    }
  }

  lemma ResolveKeepsInv(opening: map<string, int>, s: State, code: string, amount: Decimal, reply: Saga.Reply)
    requires Inv(opening, s)
    ensures Inv(opening, DoResolve(s, code, amount, reply))
  {
    var after := DoResolve(s, code, amount, reply);
    assert CodeOk(s, code);
    if after != s {
      ReceiptKeepsLedger(s, code, after.receipts[code], after.stages);
      OtherCodesOk(s, after, code);
    }
  }

  lemma CrashKeepsInv(opening: map<string, int>, s: State, code: string)
    requires Inv(opening, s)
    ensures Inv(opening, Apply(s, CardCrash(code)))
  {
    var after := Apply(s, CardCrash(code));
    assert CodeOk(s, code);
    OtherCodesOk(s, after, code);
    forall e | e in after.saga.db.ledger
      ensures Backed(after, e)
    {
      assert Backed(s, e);
    }
  }

  lemma ActivateKeepsInv(opening: map<string, int>, s: State, code: string, answer: Answer, applied: bool)
    requires Inv(opening, s)
    ensures Inv(opening, DoActivate(s, code, answer, applied))
  {
    var after := DoActivate(s, code, answer, applied);
    assert CodeOk(s, code);
    forall e | e in after.saga.db.ledger
      ensures Backed(after, e)
    {
      assert Backed(s, e);
    }
    forall c
      ensures CodeOk(after, c)
    {
      assert CodeOk(s, c);
    }
    if after != s {
      assert forall i :: 0 <= i < |s.calls| && s.calls[i].code == code ==> s.calls[i] in s.calls;
    }
  }

  /** Cards come new and unused, and go. */
  lemma CardsKeepInv(opening: map<string, int>, s: State, cards: map<string, Card>, issued: set<string>)
    requires Inv(opening, s) && s.issued <= issued
    requires forall c <- cards ::
               c in issued && (if c in s.cards then cards[c] == s.cards[c] else c !in s.issued && cards[c].usedBy.None?)
    ensures Inv(opening, s.(cards := cards, issued := issued))
  {
    var after := s.(cards := cards, issued := issued);
    forall e | e in after.saga.db.ledger
      ensures Backed(after, e)
    {
      assert Backed(s, e);
    }
    assert forall c :: CodeOk(s, c) ==> CodeOk(after, c);
  }

  /** An order that is not paid comes or changes. */
  lemma OrderKeepsInv(opening: map<string, int>, s: State, order: string, row: Order)
    requires Inv(opening, s) && Unused(s, OrderOf(order)) && !row.status.Paid?
    ensures Inv(opening, s.(orders := s.orders[order := row]))
  {
    var after := s.(orders := s.orders[order := row]);
    UnusedHasNoEntry(s, OrderOf(order));
    forall e | e in after.saga.db.ledger
      ensures Backed(after, e)
    {
      assert Backed(s, e);
    }
    assert forall c :: CodeOk(s, c) ==> CodeOk(after, c);
  }

  lemma StepKeepsInv(opening: map<string, int>, s: State, a: Step)
    requires Inv(opening, s)
    ensures Inv(opening, Apply(s, a))
  {
    match a
    case StartRedeem(code, customer, reply) => if Unlocked(s, code) { StartKeepsInv(opening, s, code, customer, reply); }
    case Activate(code, answer, applied) => ActivateKeepsInv(opening, s, code, answer, applied);
    case StoreAnswer(code, reply) => StoreKeepsInv(opening, s, code, reply);
    case Credit(code, _) => if Unlocked(s, code) { CreditKeepsInv(opening, s, code); }
    case Resolve(code, amount, reply) => ResolveKeepsInv(opening, s, code, amount, reply);
    case CardCrash(code) => CrashKeepsInv(opening, s, code);
    case _ => NoReceiptStepKeepsInv(opening, s, a);
  }

  lemma NoReceiptStepKeepsInv(opening: map<string, int>, s: State, a: Step)
    requires Inv(opening, s)
    requires !a.StartRedeem? && !a.Activate? && !a.StoreAnswer? && !a.Resolve? && !a.CardCrash? && !a.Credit?
    ensures Inv(opening, Apply(s, a))
  {
    if a.Renewals? {
      RenewalsKeepInv(opening, s, a.a);
    } else if a.CreateOrder? || a.Notify? || a.CloseExpired? {
      OrderStepKeepsInv(opening, s, a);
    } else {
      CardStepKeepsInv(opening, s, a);
    }
  }

  lemma CardStepKeepsInv(opening: map<string, int>, s: State, a: Step)
    requires Inv(opening, s)
    requires a.IssueCard? || a.RedeemCard? || a.DeleteCard? || a.DeleteBatch? || a.DeleteUsed?
    ensures Inv(opening, Apply(s, a))
  {
    match a
    case IssueCard(_, _) => CardsKeepInv(opening, s, Apply(s, a).cards, Apply(s, a).issued);
    case RedeemCard(card, customer, _) => RedeemCardKeepsInv(opening, s, card, customer);
    case DeleteCard(_) => CardsKeepInv(opening, s, Apply(s, a).cards, s.issued);
    case DeleteBatch(_) => CardsKeepInv(opening, s, Apply(s, a).cards, s.issued);
    case DeleteUsed => CardsKeepInv(opening, s, Apply(s, a).cards, s.issued);
  }

  lemma OrderStepKeepsInv(opening: map<string, int>, s: State, a: Step)
    requires Inv(opening, s)
    requires a.CreateOrder? || a.Notify? || a.CloseExpired?
    ensures Inv(opening, Apply(s, a))
  {
    match a
    case CreateOrder(order, customer, total, expiresAt) =>
      if order !in s.orders { OrderKeepsInv(opening, s, order, Order(customer, total, expiresAt, Waiting)); }
    case Notify(order, paid, now, _) => NotifyKeepsInv(opening, s, order, paid, now);
    case CloseExpired(order, now) =>
      if Apply(s, a) != s { OrderKeepsInv(opening, s, order, s.orders[order].(status := Closed)); }
  }

  ghost predicate Init(opening: map<string, int>, s: State) {
    && Safety.Init(opening, s.saga)
    && s.receipts == map[] && s.stages == map[] && s.calls == []
    && s.cards == map[] && s.issued == {} && s.orders == map[]
  }

  lemma {:induction false} EveryRunKeepsInv(opening: map<string, int>, start: State, steps: seq<Step>)
    requires Init(opening, start)
    ensures Inv(opening, Run(start, steps))
  {
    if steps != [] {
      EveryRunKeepsInv(opening, start, steps[..|steps| - 1]);
      StepKeepsInv(opening, Run(start, steps[..|steps| - 1]), steps[|steps| - 1]);
    }
  }

  // ---- what it means ----

  /** Ledger: however renewals, cards, orders and adjustments interleave, balances
      stay non-negative and are the opening balance plus the customer's entries. */
  lemma BalancesExplained(opening: map<string, int>, start: State, steps: seq<Step>, customer: string)
    requires Init(opening, start)
    requires customer in Run(start, steps).saga.db.customers
    ensures
      var db := Run(start, steps).saga.db;
      0 <= db.customers[customer].balance == Opening(opening, customer) + Sum(db.ledger, customer)
    ensures forall e <- Run(start, steps).saga.db.ledger :: e.after - e.before == e.amount
  {
    EveryRunKeepsInv(opening, start, steps);
    var db := Run(start, steps).saga.db;
    forall e | e in db.ledger
      ensures e.after - e.before == e.amount
    {
      var i :| 0 <= i < |db.ledger| && db.ledger[i] == e;
      assert EntryOk(opening, db.ledger, i);
    }
  }

  /** External cards: a receipt is credited at most once, a completed one exactly
      once with its stored amount to its customer, and no other has an entry. */
  lemma ReceiptsCreditedOnce(opening: map<string, int>, start: State, steps: seq<Step>, code: string)
    requires Init(opening, start)
    ensures
      var s := Run(start, steps);
      && Count(s.saga.db.ledger, ReceiptOf(code))
         == (if code in s.receipts && s.receipts[code].status == Completed then 1 else 0)
      && forall e <- s.saga.db.ledger :: e.source == ReceiptOf(code) ==>
           code in s.receipts && s.receipts[code].amount == Some(e.amount) && s.receipts[code].customer == e.customer
  {
    EveryRunKeepsInv(opening, start, steps);
    var s := Run(start, steps);
    if code !in s.receipts || s.receipts[code].status != Completed {
      UnusedHasNoEntry(s, ReceiptOf(code));
    }
    forall e | e in s.saga.db.ledger && e.source == ReceiptOf(code)
      ensures code in s.receipts && s.receipts[code].amount == Some(e.amount) && s.receipts[code].customer == e.customer
    {
      assert Backed(s, e);
    }
  }

  /** Recharge orders: one credit of the order's amount when it was paid, before it
      expired, and none otherwise; local cards: at most one credit, of the card's
      amount to whoever used it. */
  lemma OrdersAndCardsCreditedOnce(opening: map<string, int>, start: State, steps: seq<Step>, id: string)
    requires Init(opening, start)
    ensures
      var s := Run(start, steps);
      && Count(s.saga.db.ledger, OrderOf(id)) == (if id in s.orders && s.orders[id].status.Paid? then 1 else 0)
      && Count(s.saga.db.ledger, CardOf(id)) <= 1
      && (id in s.cards ==> Count(s.saga.db.ledger, CardOf(id)) == (if s.cards[id].usedBy.Some? then 1 else 0))
      && forall e <- s.saga.db.ledger :: Backed(s, e)
    ensures
      var s := Run(start, steps);
      forall e <- s.saga.db.ledger ::
        && (e.source == OrderOf(id) ==>
              && id in s.orders && s.orders[id].amount == e.amount && s.orders[id].customer == e.customer && s.orders[id].status.Paid?
              && (s.orders[id].expiresAt.Some? ==> s.orders[id].status.at < s.orders[id].expiresAt.value))
        && (e.source == CardOf(id) && id in s.cards ==> s.cards[id].usedBy == Some(e.customer) && s.cards[id].amount == e.amount)
  {
    EveryRunKeepsInv(opening, start, steps);
    var s := Run(start, steps);
    if id !in s.orders || !s.orders[id].status.Paid? {
      UnusedHasNoEntry(s, OrderOf(id));
    }
    if id in s.cards && s.cards[id].usedBy.None? {
      UnusedHasNoEntry(s, CardOf(id));
    }
    forall e | e in s.saga.db.ledger
      ensures Backed(s, e)
    {
    }
  }

  /** The external system is asked again about a card only after it refused it for
      sure. */
  lemma ActivatedOnlyAfterRefusal(opening: map<string, int>, start: State, steps: seq<Step>)
    requires Init(opening, start)
    ensures OnlyAfterRefusal(Run(start, steps).calls)
    ensures
      var calls := Run(start, steps).calls;
      forall i, j :: 0 <= i < j < |calls| && calls[i].code == calls[j].code ==>
        calls[i].answer.Refusal? && calls[i].answer.code !in {0, -1} && !(500 <= calls[i].answer.code <= 599)
  {
    EveryRunKeepsInv(opening, start, steps);
    var calls := Run(start, steps).calls;
    assert forall i :: 0 <= i < |calls| && Definite(calls[i].answer) ==>
      calls[i].answer.Refusal? && calls[i].answer.code !in {0, -1} && !(500 <= calls[i].answer.code <= 599);
  }

  /** Once a receipt is activated, its customer and amount stay, and it can only
      become completed. */
  predicate Settled(r: Receipt) {
    r.status == Activated || r.status == Completed
  }

  predicate KeepsAmount(r: Receipt, later: Receipt) {
    && Settled(later) && later.amount == r.amount && later.customer == r.customer
    && (r.status == Completed ==> later.status == Completed)
  }

  lemma StepKeepsAmount(s: State, a: Step, code: string)
    requires CodeOk(s, code) && code in s.receipts && Settled(s.receipts[code])
    ensures code in Apply(s, a).receipts && KeepsAmount(s.receipts[code], Apply(s, a).receipts[code])
  {
    if a.StartRedeem? || a.Activate? || a.StoreAnswer? || a.Resolve? || a.CardCrash? {
      ReceiptStepKeepsAmount(s, a, code);
    } else if a.Credit? {
      CreditKeepsAmount(s, a.code, a.reply, code);
    } else {
      OtherStepKeepsReceipts(s, a);
    }
  }

  lemma OtherStepKeepsReceipts(s: State, a: Step)
    requires !a.StartRedeem? && !a.Activate? && !a.StoreAnswer? && !a.Resolve? && !a.CardCrash? && !a.Credit?
    ensures Apply(s, a).receipts == s.receipts
  {
  }

  lemma CreditKeepsAmount(s: State, credited: string, reply: Saga.Reply, code: string)
    requires code in s.receipts && Settled(s.receipts[code])
    ensures
      var after := Apply(s, Credit(credited, reply)).receipts;
      code in after && KeepsAmount(s.receipts[code], after[code])
  {
  }

  lemma ReceiptStepKeepsAmount(s: State, a: Step, code: string)
    requires CodeOk(s, code) && code in s.receipts && Settled(s.receipts[code])
    requires a.StartRedeem? || a.Activate? || a.StoreAnswer? || a.Resolve? || a.CardCrash?
    ensures code in Apply(s, a).receipts && Apply(s, a).receipts[code] == s.receipts[code]
  {
  }

  lemma {:induction false} AmountsAreFinal(opening: map<string, int>, start: State, steps: seq<Step>, more: seq<Step>, code: string)
    requires Init(opening, start)
    requires code in Run(start, steps).receipts && Settled(Run(start, steps).receipts[code])
    ensures
      var later := Run(start, steps + more).receipts;
      code in later && KeepsAmount(Run(start, steps).receipts[code], later[code])
  {
    if more == [] {
      assert steps + more == steps;
    } else {
      var most := more[..|more| - 1];
      AmountsAreFinal(opening, start, steps, most, code);
      assert (steps + more)[..|steps + more| - 1] == steps + most;
      EveryRunKeepsInv(opening, start, steps + most);
      assert CodeOk(Run(start, steps + most), code);
      StepKeepsAmount(Run(start, steps + most), more[|more| - 1], code);
    }
  }

  /** A notification for an order past its time changes nothing: not even the
      order's status, although the answer says it was closed. */
  lemma ExpiredOrderStaysOpen(s: State, order: string, paid: Option<Decimal>, now: int, reply: Saga.Reply)
    requires order in s.orders && s.orders[order].status.Waiting? && PastDue(s.orders[order], now)
    ensures Apply(s, Notify(order, paid, now, reply)) == s
    ensures Apply(s, CloseExpired(order, now)).orders[order].status == Closed
  {
  }
}
