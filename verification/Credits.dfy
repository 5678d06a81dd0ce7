/** Money that comes in: cards of the external system, cards of the local pool and
    recharge orders, beside the renewals and on the same balances and ledger. */
module Credits {
  import opened Options
  import opened RenewalRows
  import Saga = RenewalSaga

  // ---- amounts ----

  /** A decimal number with exactly `places` digits after the point, the last of
      them not 0. */
  datatype Decimal = Decimal(units: int, places: nat)

  const MAX_CENTS := 9_999_999_999

  /** The amount in cents, when it is positive, no more than 99999999.99 and has at
      most two places. */
  function ValidAmount(d: Decimal): (cents: Option<nat>)
    ensures cents.Some? ==> 0 < cents.value <= MAX_CENTS
  {
    if d.places > 2 then None
    else
      var cents := if d.places == 0 then d.units * 100 else if d.places == 1 then d.units * 10 else d.units;
      if 0 < cents <= MAX_CENTS then Some(cents) else None
  }

  // ---- rows ----

  datatype ReceiptStatus = Processing | Uncertain | Declined | Activated | Completed

  datatype Receipt = Receipt(customer: string, status: ReceiptStatus, amount: Option<nat>)

  datatype Card = Card(amount: nat, batch: string, usedBy: Option<string>, enabled: bool)

  datatype OrderStatus = Waiting | Paid(at: int) | Closed

  datatype Order = Order(customer: string, amount: nat, expiresAt: Option<int>, status: OrderStatus)

  /** What the external system answers to one activation. */
  datatype Answer =
    | Confirmed(money: bool, amount: Decimal)
    | Refusal(code: int)
    | Silence

  datatype Call = Call(code: string, answer: Answer)

  /** Where the holder of a card's lock stands. */
  datatype Stage = Calling | Answered(answer: Answer)

  datatype State = State(
    saga: Saga.State, receipts: map<string, Receipt>, stages: map<string, Stage>,
    consumed: set<string>, calls: seq<Call>,
    cards: map<string, Card>, issued: set<string>, orders: map<string, Order>)

  datatype Step =
    | Renewals(a: Saga.Action)
    | StartRedeem(code: string, customer: string, reply: Saga.Reply)
    | Activate(code: string, answer: Answer, applied: bool)
    | StoreAnswer(code: string, reply: Saga.Reply)
    | Credit(code: string, reply: Saga.Reply)
    | Resolve(code: string, amount: Decimal, reply: Saga.Reply)
    | CardCrash(code: string)
    | IssueCard(card: string, row: Card)
    | RedeemCard(card: string, customer: string, reply: Saga.Reply)
    | DeleteCard(card: string)
    | DeleteBatch(batch: string)
    | DeleteUsed
    | CreateOrder(order: string, customer: string, total: nat, expiresAt: Option<int>)
    | Notify(order: string, paid: Option<Decimal>, now: int, reply: Saga.Reply)
    | CloseExpired(order: string, now: int)

  // ---- transactions ----

  function Active(db: Db, customer: string): bool {
    customer in db.customers && db.customers[customer].active
  }

  /** The rows after a receipt was credited. */
  function AfterCredit(s: State, code: string): State
    requires code in s.receipts && s.receipts[code].amount.Some? && s.receipts[code].customer in s.saga.db.customers
  {
    var r := s.receipts[code];
    s.(saga := s.saga.(db := Post(s.saga.db, r.customer, ReceiptOf(code), r.amount.value)),
       receipts := s.receipts[code := r.(status := Completed)])
  }

  function CreditTx(s: State, code: string): Option<State> {
    if code !in s.receipts || (s.receipts[code].status != Activated && s.receipts[code].status != Completed) then None
    else
      var r := s.receipts[code];
      if r.customer !in s.saga.db.customers then None
      else if r.status == Completed then Some(s)
      else if !s.saga.db.customers[r.customer].active || r.amount.None? then None
      else Some(AfterCredit(s, code))
  }

  function RedeemCardTx(s: State, card: string, customer: string): Option<State> {
    if card !in s.cards || s.cards[card].usedBy.Some? || !s.cards[card].enabled || !Active(s.saga.db, customer) then None
    else
      var row := s.cards[card];
      Some(s.(saga := s.saga.(db := Post(s.saga.db, customer, CardOf(card), row.amount)),
              cards := s.cards[card := row.(usedBy := Some(customer))]))
  }

  predicate PastDue(order: Order, now: int) {
    order.expiresAt.Some? && order.expiresAt.value <= now
  }

  /** `money`: rounded to two places, half away from zero. */
  function Money(d: Decimal): int {
    if d.places <= 2 then d.units * Pow10(2 - d.places)
    else
      var unit := Pow10(d.places - 2);
      if d.units >= 0 then (2 * d.units + unit) / (2 * unit) else -((-2 * d.units + unit) / (2 * unit))
  }

  function Pow10(n: nat): (p: nat)
    ensures p > 0
  {
    if n == 0 then 1 else 10 * Pow10(n - 1)
  }

  /** Nothing stays of a notification that throws, its own closing of an expired
      order included. */
  function NotifyTx(s: State, order: string, paid: Option<Decimal>, now: int): Option<State> {
    if order !in s.orders then None
    else
      var o := s.orders[order];
      if o.status.Paid? then Some(s)
      else if !o.status.Waiting? || PastDue(o, now) then None
      else if paid.Some? && Money(paid.value) != o.amount then None
      else if !Active(s.saga.db, o.customer) then None
      else
        Some(s.(saga := s.saga.(db := Post(s.saga.db, o.customer, OrderOf(order), o.amount)),
                orders := s.orders[order := o.(status := Paid(now))]))
  }

  // ---- steps ----

  function Committed(s: State, tx: Option<State>, reply: Saga.Reply): State {
    if tx.None? || reply.NotApplied? then s else tx.value
  }

  predicate Unlocked(s: State, code: string) {
    code !in s.stages
  }

  /** A refusal that says for sure that the card was not taken. */
  predicate Definite(answer: Answer) {
    answer.Refusal? && answer.code != 0 && answer.code != -1 && !(500 <= answer.code <= 599)
  }

  function DoStartRedeem(s: State, code: string, customer: string, reply: Saga.Reply): State {
    if !Active(s.saga.db, customer) then s
    else if code in s.receipts && (s.receipts[code].customer != customer || s.receipts[code].status != Declined) then s
    else if reply.NotApplied? then s
    else
      var row := if code in s.receipts then s.receipts[code].(status := Processing) else Receipt(customer, Processing, None);
      var stored := s.(receipts := s.receipts[code := row]);
      if reply.Lost? then stored else stored.(stages := s.stages[code := Calling])
  }

  /** One call of the external system: a confirmation takes an unused card, a
      definite refusal takes none, and otherwise only `applied` tells. */
  function DoActivate(s: State, code: string, answer: Answer, applied: bool): State {
    if code !in s.stages || s.stages[code] != Calling then s
    else if answer.Confirmed? && code in s.consumed then s
    else
      var taken := answer.Confirmed? || (applied && !Definite(answer));
      s.(consumed := if taken then s.consumed + {code} else s.consumed,
         calls := s.calls + [Call(code, answer)],
         stages := s.stages[code := Answered(answer)])
  }

  function StatusFor(answer: Answer): (ReceiptStatus, Option<nat>) {
    match answer
    case Confirmed(money, amount) =>
      if money && ValidAmount(amount).Some? then (Activated, ValidAmount(amount)) else (Uncertain, None)
    case _ => (if Definite(answer) then Declined else Uncertain, None)
  }

  function DoStoreAnswer(s: State, code: string, reply: Saga.Reply): State {
    if code !in s.stages || !s.stages[code].Answered? || code !in s.receipts then s
    else
      var (status, amount) := StatusFor(s.stages[code].answer);
      var r := s.receipts[code];
      var row := r.(status := status, amount := if amount.Some? then amount else r.amount);
      var done := s.(stages := s.stages - {code});
      if reply.NotApplied? then done else done.(receipts := s.receipts[code := row])
  }

  function DoResolve(s: State, code: string, amount: Decimal, reply: Saga.Reply): State {
    if code !in s.receipts || !Unlocked(s, code) then s
    else
      var r := s.receipts[code];
      if (r.status != Uncertain && r.status != Processing) || ValidAmount(amount).None? || reply.NotApplied? then s
      else s.(receipts := s.receipts[code := r.(status := Activated, amount := ValidAmount(amount))])
  }

  function DoDeleteBatch(s: State, batch: string): State {
    if exists c <- s.cards :: s.cards[c].batch == batch && s.cards[c].usedBy.Some? then s
    else s.(cards := map c | c in s.cards && s.cards[c].batch != batch :: s.cards[c])
  }

  function Apply(s: State, a: Step): State {
    match a
    case Renewals(x) => s.(saga := Saga.Apply(s.saga, x))
    case StartRedeem(code, customer, reply) =>
      if Unlocked(s, code) then DoStartRedeem(s, code, customer, reply) else s
    case Activate(code, answer, applied) => DoActivate(s, code, answer, applied)
    case StoreAnswer(code, reply) => DoStoreAnswer(s, code, reply)
    case Credit(code, reply) => if Unlocked(s, code) then Committed(s, CreditTx(s, code), reply) else s
    case Resolve(code, amount, reply) => DoResolve(s, code, amount, reply)
    case CardCrash(code) => s.(stages := s.stages - {code})
    case IssueCard(card, row) =>
      if card in s.issued || row.usedBy.Some? then s
      else s.(cards := s.cards[card := row], issued := s.issued + {card})
    case RedeemCard(card, customer, reply) => Committed(s, RedeemCardTx(s, card, customer), reply)
    case DeleteCard(card) =>
      if card in s.cards && s.cards[card].usedBy.None? then s.(cards := s.cards - {card}) else s
    case DeleteBatch(batch) => DoDeleteBatch(s, batch)
    case DeleteUsed => s.(cards := map c | c in s.cards && s.cards[c].usedBy.None? :: s.cards[c])
    case CreateOrder(order, customer, total, expiresAt) =>
      if order in s.orders then s
      else s.(orders := s.orders[order := Order(customer, total, expiresAt, Waiting)])
    case Notify(order, paid, now, reply) => Committed(s, NotifyTx(s, order, paid, now), reply)
    case CloseExpired(order, now) =>
      if order in s.orders && s.orders[order].status.Waiting? && PastDue(s.orders[order], now)
      then s.(orders := s.orders[order := s.orders[order].(status := Closed)]) else s
  }

  function Run(s: State, steps: seq<Step>): State {
    if steps == [] then s else Apply(Run(s, steps[..|steps| - 1]), steps[|steps| - 1])
  }
}
