/** The rows a renewal touches and the local transactions on them.

    Money is counted in the smallest unit. The ledger keeps every balance entry
    ever written; `stored` says which of them are still in the balance log table. */
module RenewalRows {
  import opened Options
  import opened Calendar

  datatype Key = Key(customer: string, node: string, request: string)

  datatype Customer = Customer(balance: int, active: bool)

  datatype Reason = NoReason | Expired | TrafficExceeded | Admin

  datatype Node = Node(customer: string, active: bool, reason: Reason, expireAt: Option<int>, serviceEnabled: bool, price: nat)

  datatype Status = Pending | Success | Failed

  datatype Detail = Detail(writeStarted: bool, refunded: bool, reconciliation: bool)

  /** What the workers of a renewal saw on the panel, and what they sent to it. */
  datatype Event =
    | Saw(state: Remote, enable: bool)        // read back, while `enable` was the wanted flag
    | Sent(state: Remote, confirmed: bool)    // a write of the target, verified by the panel client or not
    | Undone(state: Remote, confirmed: bool)  // a write of the snapshot after the local commit failed

  datatype Renewal = Renewal(
    months: nat, amount: nat, status: Status, target: int, snapshot: Remote,
    debitRow: nat, detail: Detail, events: seq<Event>)

  /** What a balance entry was written for. */
  datatype Source =
    | DebitOf(key: Key)
    | RefundOf(key: Key)
    | ReceiptOf(code: string)     // a card of the external system
    | CardOf(card: string)        // a card of the local pool
    | OrderOf(order: string)      // a recharge order
    | ByAdmin

  datatype Entry = Entry(customer: string, source: Source, amount: int, before: int, after: int)

  datatype Db = Db(
    customers: map<string, Customer>, nodes: map<string, Node>, renewals: map<Key, Renewal>,
    ledger: seq<Entry>, stored: set<nat>)

  // ---- checks and computed values ----

  predicate RenewalAllowed(db: Db, key: Key) {
    && key.node in db.nodes && db.nodes[key.node].customer == key.customer && key.customer in db.customers
    && var node := db.nodes[key.node];
    && db.customers[key.customer].active
    && node.serviceEnabled
    && node.reason != Admin && node.reason != TrafficExceeded
    && (!node.active ==> node.reason == Expired)
  }

  function TargetEnable(node: Node, remoteEnable: bool): bool {
    if !node.active && node.reason == Expired then true else remoteEnable
  }

  predicate PendingOn(db: Db, node: string) {
    exists k <- db.renewals :: k.node == node && db.renewals[k].status == Pending
  }

  function WithRenewal(db: Db, key: Key, r: Renewal): Db {
    db.(renewals := db.renewals[key := r])
  }

  /** Moves money and writes the balance entry beside it. */
  function Post(db: Db, customer: string, source: Source, amount: int): Db
    requires customer in db.customers
  {
    var c := db.customers[customer];
    db.(customers := db.customers[customer := c.(balance := c.balance + amount)],
        ledger := db.ledger + [Entry(customer, source, amount, c.balance, c.balance + amount)],
        stored := db.stored + {|db.ledger|})
  }

  // ---- transactions: the rows after a commit, or `None` where they throw ----

  function DebitTx(db: Db, key: Key, months: nat, snapshot: Remote, now: int, offset: int): Option<Db> {
    if !RenewalAllowed(db, key) || key in db.renewals then None
    else
      var r := NewRenewal(db.nodes[key.node], |db.ledger|, months, snapshot, now, offset);
      if db.customers[key.customer].balance < r.amount then None else Some(Debited(db, key, r))
  }

  function NewRenewal(node: Node, row: nat, months: nat, snapshot: Remote, now: int, offset: int): Renewal {
    Renewal(months, node.price * months, Pending, RenewalTarget(now, node.expireAt, snapshot, months, offset),
            snapshot, row, Detail(false, false, false), [])
  }

  function Debited(db: Db, key: Key, r: Renewal): Db
    requires key.customer in db.customers
  {
    var charge: int := r.amount;
    WithRenewal(Post(db, key.customer, DebitOf(key), -charge), key, r)
  }

  function FinalizeTx(db: Db, key: Key): Option<Db>
    requires key in db.renewals
  {
    var r := db.renewals[key];
    if r.status != Pending || key.node !in db.nodes || r.debitRow !in db.stored then None
    else
      var node := db.nodes[key.node];
      var renewed := node.(expireAt := Some(r.target), active := true, reason := NoReason);
      Some(WithRenewal(db, key, r.(status := Success)).(nodes := db.nodes[key.node := renewed]))
  }

  /** `detail` is the worker's own copy, which the transaction writes back. */
  function RefundTx(db: Db, key: Key, detail: Detail): Option<Db>
    requires key in db.renewals
  {
    var r := db.renewals[key];
    if r.status != Pending then Some(db)
    else if key.customer !in db.customers || r.debitRow !in db.stored then None
    else
      Some(WithRenewal(Post(db, key.customer, RefundOf(key), r.amount), key,
                       r.(status := Failed, detail := detail.(refunded := true))))
  }

  function ReconcileTx(db: Db, key: Key, detail: Detail): Option<Db>
    requires key in db.renewals
  {
    var r := db.renewals[key];
    if r.status != Pending then Some(db)
    else if r.debitRow !in db.stored then None
    else Some(WithRenewal(db, key, r.(status := Failed, detail := detail.(reconciliation := true))))
  }

  function NoteTx(db: Db, key: Key, detail: Detail): Db
    requires key in db.renewals
  {
    var r := db.renewals[key];
    if r.status != Pending then db else WithRenewal(db, key, r.(detail := detail))
  }

  function MarkStartedTx(db: Db, key: Key, detail: Detail): Option<Db>
    requires key in db.renewals
  {
    var r := db.renewals[key];
    if r.status != Pending then None
    else Some(WithRenewal(db, key, r.(detail := detail.(writeStarted := true))))
  }

  function Observe(db: Db, key: Key, e: Event): Db
    requires key in db.renewals
  {
    WithRenewal(db, key, db.renewals[key].(events := db.renewals[key].events + [e]))
  }

  // ---- the ledger ----

  function Sum(ledger: seq<Entry>, customer: string): int {
    if ledger == [] then 0
    else
      var e := ledger[|ledger| - 1];
      Sum(ledger[..|ledger| - 1], customer) + if e.customer == customer then e.amount else 0
  }

  function Count(ledger: seq<Entry>, source: Source): nat {
    if ledger == [] then 0
    else
      var e := ledger[|ledger| - 1];
      Count(ledger[..|ledger| - 1], source) + if e.source == source then 1 else 0
  }

  function Opening(opening: map<string, int>, customer: string): int {
    if customer in opening then opening[customer] else 0
  }

  /** Every balance is the opening balance plus the customer's entries, and every
      entry starts where the one before it ended. */
  ghost predicate LedgerOk(opening: map<string, int>, db: Db) {
    && (forall c <- db.customers :: 0 <= db.customers[c].balance == Opening(opening, c) + Sum(db.ledger, c))
    && forall i :: 0 <= i < |db.ledger| ==> EntryOk(opening, db.ledger, i)
  }

  ghost predicate EntryOk(opening: map<string, int>, ledger: seq<Entry>, i: nat)
    requires i < |ledger|
  {
    && ledger[i].before == Opening(opening, ledger[i].customer) + Sum(ledger[..i], ledger[i].customer)
    && ledger[i].after == ledger[i].before + ledger[i].amount
  }

  lemma PostKeepsLedger(opening: map<string, int>, db: Db, customer: string, source: Source, amount: int)
    requires LedgerOk(opening, db) && customer in db.customers
    requires db.customers[customer].balance + amount >= 0
    ensures LedgerOk(opening, Post(db, customer, source, amount))
  {
    var after := Post(db, customer, source, amount);
    assert after.ledger[..|db.ledger|] == db.ledger;
    forall i | 0 <= i < |after.ledger|
      ensures EntryOk(opening, after.ledger, i)
    {
      if i < |db.ledger| {
        assert EntryOk(opening, db.ledger, i);
        assert after.ledger[..i] == db.ledger[..i];
      }
    }
  }

  lemma PostCounts(db: Db, customer: string, source: Source, amount: int, of: Source)
    requires customer in db.customers
    ensures Count(Post(db, customer, source, amount).ledger, of) == Count(db.ledger, of) + if source == of then 1 else 0
  {
    assert Post(db, customer, source, amount).ledger[..|db.ledger|] == db.ledger;
  }
}
