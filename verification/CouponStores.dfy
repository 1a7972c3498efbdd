// The two stores of the coupon trade protocol, and the scripts and transactions that are atomic in one of them.
module CouponStores {
  import opened Wrappers
  import Decimal

  const CLAIM_MIN_IDLE_MS := 30000
  const CLAIM_BATCH := 10
  const CLAIM_SCAN_WINDOW := 100
  const OWN_PENDING_SCAN_LIMIT := 50
  const MAX_DELIVERIES := 5
  const PAY_TIMEOUT_MS := 15 * 60 * 1000
  const SCAN_BATCH := 50

  // One entry of stream.orders.
  datatype Entry = Entry(id: int, user: int, voucher: int)

  // One entry of the consumer group's pending list.
  datatype Pending = Pending(owner: int, deliveries: nat, lastDelivery: int)

  // Keys of the Redis maps: buyers and orderIds are keyed by (voucher, user), processing holds (user, order id).
  // The stream is the list of its entries in id order; delivered is the group's last-delivered position.
  datatype Redis = Redis(
    stock: map<int, int>,
    begin: map<int, int>,
    end: map<int, int>,
    buyers: set<(int, int)>,
    orderIds: map<(int, int), int>,
    processing: set<(int, int)>,
    accept: map<int, int>,
    stream: seq<Entry>,
    delivered: nat,
    pel: map<nat, Pending>,
    done: set<string>)

  datatype Status = Unpaid | Paid | Used | Cancelled

  datatype Order = Order(user: int, voucher: int, status: Status, created: int)

  datatype OutboxRow = OutboxRow(order: int, voucher: int, eventKey: string, done: bool)

  datatype Audit = Audit(shop: int, voucher: int, operator: int)

  datatype Reason = MaxDeliveries | VoucherMissing | Fault

  datatype DeadLetter = DeadLetter(pos: nat, entry: Entry, reason: Reason)

  // Rows of the outbox and of the dead letters are identified by their position (auto-increment ids).
  datatype Db = Db(
    stock: map<int, int>,
    window: map<int, (int, int)>,
    shopOf: map<int, int>,
    orders: map<int, Order>,
    outbox: seq<OutboxRow>,
    audits: map<int, Audit>,
    dead: seq<DeadLetter>)

  function EventKey(order: int): string {
    "cancel:" + Decimal.Text(order)
  }

  // Event keys are injective in the order id.
  lemma EventKeyInjective(a: int, b: int)
    requires EventKey(a) == EventKey(b)
    ensures a == b
  {
    assert EventKey(a)[7..] == Decimal.Text(a);
    assert EventKey(b)[7..] == Decimal.Text(b);
    Decimal.TextInjective(a, b);
  }

  // ---- seckill.lua ----

  function SeckillCode(r: Redis, v: int, u: int, now: int): int {
    if v !in r.begin || v !in r.end || now < r.begin[v] || now > r.end[v] then 3
    else if v !in r.stock || r.stock[v] <= 0 then 1
    else if (v, u) in r.buyers then 2
    else 0
  }

  function SeckillLua(r: Redis, v: int, u: int, id: int, now: int): Redis {
    if SeckillCode(r, v, u, now) != 0 then r
    else r.(stock := r.stock[v := r.stock[v] - 1],
            buyers := r.buyers + {(v, u)},
            orderIds := r.orderIds[(v, u) := id],
            processing := r.processing + {(u, id)},
            accept := r.accept[id := u],
            stream := r.stream + [Entry(id, u, v)])
  }

  // ---- stock_release.lua ----

  function StockReleaseLua(r: Redis, row: OutboxRow): Redis {
    if row.eventKey in r.done then r
    else r.(done := r.done + {row.eventKey},
            stock := r.stock[row.voucher := (if row.voucher in r.stock then r.stock[row.voucher] else 0) + 1])
  }

  // ---- createVoucherOrder: the deduct + insert transaction ----

  predicate HasRowFor(db: Db, e: Entry) {
    e.id in db.orders
    || exists o :: o in db.orders && db.orders[o].user == e.user && db.orders[o].voucher == e.voucher
  }

  datatype CommitResult = Inserted | DuplicateKey | OutOfStock

  function InsertResult(db: Db, e: Entry): CommitResult {
    if e.voucher !in db.stock || db.stock[e.voucher] <= 0 then OutOfStock
    else if HasRowFor(db, e) then DuplicateKey
    else Inserted
  }

  function InsertOrder(db: Db, e: Entry, now: int): Db {
    if !InsertResult(db, e).Inserted? then db
    else db.(stock := db.stock[e.voucher := db.stock[e.voucher] - 1],
             orders := db.orders[e.id := Order(e.user, e.voucher, Unpaid, now)])
  }

  // ---- cancelUnpaidOrder: status flip + stock return + outbox row ----

  predicate CancelWins(db: Db, o: int) {
    o in db.orders && db.orders[o].status == Unpaid && db.orders[o].voucher in db.stock
  }

  function CancelUnpaid(db: Db, o: int): Db {
    if !CancelWins(db, o) then db
    else
      var row := db.orders[o];
      db.(orders := db.orders[o := row.(status := Cancelled)],
          stock := db.stock[row.voucher := db.stock[row.voucher] + 1],
          outbox := db.outbox + [OutboxRow(o, row.voucher, EventKey(o), false)])
  }

  // ---- conditional status updates ----

  function PayUnpaid(db: Db, o: int): Db {
    if o in db.orders && db.orders[o].status == Unpaid
    then db.(orders := db.orders[o := db.orders[o].(status := Paid)])
    else db
  }

  predicate RedeemWins(db: Db, o: int) {
    o in db.orders && db.orders[o].status == Paid
  }

  // Flip PAID to USED and insert the audit row; uk_order_id keeps an existing audit row.
  function RedeemPaid(db: Db, o: int, shop: int, operator: int): Db {
    if !RedeemWins(db, o) then db
    else db.(orders := db.orders[o := db.orders[o].(status := Used)],
             audits := if o in db.audits then db.audits
                       else db.audits[o := Audit(shop, db.orders[o].voucher, operator)])
  }

  function MarkOutboxDone(db: Db, i: nat): Db
    requires i < |db.outbox|
  {
    db.(outbox := db.outbox[i := db.outbox[i].(done := true)])
  }

  // The first `limit` PENDING rows in id order.
  function PendingRows(rows: seq<OutboxRow>, from: nat, limit: nat): (r: seq<nat>)
    requires from <= |rows|
    ensures forall k :: 0 <= k < |r| ==> from <= r[k] < |rows| && !rows[r[k]].done
    decreases |rows| - from
  {
    if from == |rows| || limit == 0 then []
    else if rows[from].done then PendingRows(rows, from + 1, limit)
    else [from] + PendingRows(rows, from + 1, limit - 1)
  }

  // ---- the consumer group's pending list ----

  // XPENDING: the first `limit` pending ids in id order, of one consumer when `owner` is given.
  function XPending(pel: map<nat, Pending>, owner: Option<int>, from: nat, end: nat, limit: nat): (r: seq<nat>)
    requires from <= end
    ensures forall k :: 0 <= k < |r| ==> from <= r[k] < end && Listed(pel, owner, r[k])
    decreases end - from
  {
    if from == end || limit == 0 then []
    else if Listed(pel, owner, from) then [from] + XPending(pel, owner, from + 1, end, limit - 1)
    else XPending(pel, owner, from + 1, end, limit)
  }

  predicate Listed(pel: map<nat, Pending>, owner: Option<int>, p: nat) {
    p in pel && (owner.None? || pel[p].owner == owner.value)
  }

  // The selection loop of claimIdleFromOthers.
  function SelectIdle(pel: map<nat, Pending>, window: seq<nat>, self: int, now: int, limit: nat): (r: seq<nat>)
    ensures forall k :: 0 <= k < |r| ==> r[k] in window
  {
    if window == [] || limit == 0 then []
    else if IdleElsewhere(pel, window[0], self, now)
    then [window[0]] + SelectIdle(pel, window[1..], self, now, limit - 1)
    else SelectIdle(pel, window[1..], self, now, limit)
  }

  predicate IdleElsewhere(pel: map<nat, Pending>, p: nat, self: int, now: int) {
    p in pel && pel[p].owner != self && now - pel[p].lastDelivery >= CLAIM_MIN_IDLE_MS
  }

  // XCLAIM ... min-idle: which of the ids are still pending and idle.
  predicate Claimable(pel: map<nat, Pending>, ids: seq<nat>, p: nat, now: int) {
    p in ids && p in pel && now - pel[p].lastDelivery >= CLAIM_MIN_IDLE_MS
  }

  function XClaim(pel: map<nat, Pending>, ids: seq<nat>, self: int, now: int): map<nat, Pending> {
    map p | p in pel :: if Claimable(pel, ids, p, now) then Pending(self, pel[p].deliveries + 1, now) else pel[p]
  }

  function Claimed(pel: map<nat, Pending>, ids: seq<nat>, now: int): (r: seq<nat>)
    ensures forall k :: 0 <= k < |r| ==> r[k] in ids && r[k] in pel
  {
    if ids == [] then []
    else if ids[0] in pel && now - pel[ids[0]].lastDelivery >= CLAIM_MIN_IDLE_MS
    then [ids[0]] + Claimed(pel, ids[1..], now)
    else Claimed(pel, ids[1..], now)
  }
}
