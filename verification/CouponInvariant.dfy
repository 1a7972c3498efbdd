// What holds in every reachable state of the coupon trade protocol,
// and what one step can do to what another thread knows.
module CouponInvariant {
  import opened CouponStores
  import opened CouponSteps

  // ---- vocabulary ----

  ghost predicate DeadFor(dead: seq<DeadLetter>, id: int) {
    exists i :: 0 <= i < |dead| && dead[i].entry.id == id
  }

  // The order id has reached MySQL: as an order row or as a dead letter.
  ghost predicate Settled(orders: map<int, Order>, dead: seq<DeadLetter>, id: int) {
    id in orders || DeadFor(dead, id)
  }

  ghost predicate IsAccepted(orderIds: map<(int, int), int>, e: Entry) {
    (e.voucher, e.user) in orderIds && orderIds[(e.voucher, e.user)] == e.id
  }

  ghost predicate Reaches(a: Status, b: Status) {
    a == b || a == Unpaid || (a == Paid && b == Used)
  }

  ghost predicate HasOutboxRow(outbox: seq<OutboxRow>, o: int) {
    exists i :: 0 <= i < |outbox| && outbox[i].order == o
  }

  ghost predicate HasStatus(orders: map<int, Order>, o: int, status: Status) {
    o in orders && orders[o].status == status
  }

  // ---- the sets the stock ledgers count ----

  ghost function BuyersOf(orderIds: map<(int, int), int>, v: int): set<(int, int)> {
    set k | k in orderIds && k.0 == v
  }

  ghost function OrdersOf(orders: map<int, Order>, v: int): set<int> {
    set o | o in orders && orders[o].voucher == v
  }

  ghost function CancelledOf(orders: map<int, Order>, v: int): set<int> {
    set o | o in orders && orders[o].voucher == v && orders[o].status == Cancelled
  }

  ghost function ReleasedOf(orders: map<int, Order>, done: set<string>, v: int): set<int> {
    set o | o in orders && orders[o].voucher == v && EventKey(o) in done
  }

  // ---- the invariant, one concern each ----

  ghost predicate IdsInjective(orderIds: map<(int, int), int>) {
    forall j, k :: j in orderIds && k in orderIds && orderIds[j] == orderIds[k] ==> j == k
  }

  // A voucher with a buyer has its stock key, and the key is not negative.
  ghost predicate StockOk(orderIds: map<(int, int), int>, stock: map<int, int>) {
    forall k :: k in orderIds ==> k.0 in stock && stock[k.0] >= 0
  }

  // The stream holds an entry for every accepted purchase, and nothing else.
  ghost predicate StreamOk(stream: seq<Entry>, orderIds: map<(int, int), int>) {
    && (forall e :: e in stream ==> IsAccepted(orderIds, e))
    && (forall k :: k in orderIds ==> Entry(orderIds[k], k.1, k.0) in stream)
  }

  // A purchase of this user was accepted under the id.
  ghost predicate AcceptedFor(orderIds: map<(int, int), int>, user: int, id: int) {
    exists k :: k in orderIds && k.1 == user && orderIds[k] == id
  }

  // Accept keys and hints name only accepted ids, and their buyer.
  ghost predicate OwnerOk(accept: map<int, int>, processing: set<(int, int)>, orderIds: map<(int, int), int>) {
    && (forall id :: id in accept ==> AcceptedFor(orderIds, accept[id], id))
    && (forall p :: p in processing ==> AcceptedFor(orderIds, p.0, p.1))
  }

  // A pending entry was delivered once plus once per claim, and claims of one entry are 30 s apart.
  ghost predicate PelOk(pel: map<nat, Pending>, delivered: nat, claims: seq<nat>, first: seq<int>, now: int) {
    && |claims| == delivered && |first| == delivered
    && (forall p :: 0 <= p < delivered ==> first[p] + CLAIM_MIN_IDLE_MS * claims[p] <= now)
    && forall p :: p in pel ==>
         && p < delivered
         && pel[p].deliveries == 1 + claims[p]
         && first[p] + CLAIM_MIN_IDLE_MS * claims[p] <= pel[p].lastDelivery <= now
  }

  // Every order row is the accepted purchase of its user and voucher, under the accepted id.
  ghost predicate OrdersOk(orders: map<int, Order>, orderIds: map<(int, int), int>) {
    forall o :: o in orders ==> IsAccepted(orderIds, Entry(o, orders[o].user, orders[o].voucher))
  }

  ghost predicate DeadOk(dead: seq<DeadLetter>, stream: seq<Entry>, claims: seq<nat>) {
    forall i :: 0 <= i < |dead| ==>
      && dead[i].pos < |claims| && dead[i].pos < |stream| && stream[dead[i].pos] == dead[i].entry
      && dead[i].reason != VoucherMissing
      && (dead[i].reason == MaxDeliveries ==> claims[dead[i].pos] >= MAX_DELIVERIES - 1)
  }

  // CANCELLED orders and outbox rows are in bijection.
  ghost predicate OutboxOk(outbox: seq<OutboxRow>, orders: map<int, Order>) {
    && (forall i :: 0 <= i < |outbox| ==>
          && HasStatus(orders, outbox[i].order, Cancelled)
          && outbox[i].voucher == orders[outbox[i].order].voucher
          && outbox[i].eventKey == EventKey(outbox[i].order))
    && (forall i, j :: 0 <= i < j < |outbox| ==> outbox[i].order != outbox[j].order)
    && (forall o :: HasStatus(orders, o, Cancelled) ==> HasOutboxRow(outbox, o))
  }

  ghost predicate KeyOfCancelled(orders: map<int, Order>, key: string) {
    exists o :: HasStatus(orders, o, Cancelled) && EventKey(o) == key
  }

  ghost predicate DoneOk(done: set<string>, outbox: seq<OutboxRow>, orders: map<int, Order>) {
    && (forall key :: key in done ==> KeyOfCancelled(orders, key))
    && (forall i :: 0 <= i < |outbox| && outbox[i].done ==> outbox[i].eventKey in done)
  }

  // An audit row exists exactly for the USED orders, and names the voucher's own shop.
  ghost predicate AuditsOk(audits: map<int, Audit>, orders: map<int, Order>, shopOf: map<int, int>) {
    forall o :: (o in audits <==> HasStatus(orders, o, Used))
                && (o in audits && o in orders ==>
                      && audits[o].voucher == orders[o].voucher
                      && orders[o].voucher in shopOf && audits[o].shop == shopOf[orders[o].voucher])
  }

  // A delivered entry leaves the pending list only once its order id is in MySQL.
  ghost predicate CoverOk(r: Redis, orders: map<int, Order>, dead: seq<DeadLetter>) {
    && r.delivered <= |r.stream|
    && forall p: nat :: p < r.delivered ==> p in r.pel || Settled(orders, dead, r.stream[p].id)
  }

  // The accept key and the hint of an order id are removed only once the id is in MySQL.
  ghost predicate HintsOk(accept: map<int, int>, processing: set<(int, int)>, orderIds: map<(int, int), int>,
                          orders: map<int, Order>, dead: seq<DeadLetter>) {
    forall k :: k in orderIds ==>
      (orderIds[k] in accept && (k.1, orderIds[k]) in processing) || Settled(orders, dead, orderIds[k])
  }

  ghost predicate VouchersOk(stock: map<int, int>, db: Db, initial: map<int, int>) {
    && db.stock.Keys == initial.Keys
    && db.window.Keys == initial.Keys
    && db.shopOf.Keys == initial.Keys
    && stock.Keys <= initial.Keys
  }

  // Redis stock = initial stock - accepted buyers + released cancellations.
  ghost predicate RedisLedger(stock: map<int, int>, orderIds: map<(int, int), int>, orders: map<int, Order>,
                              done: set<string>, initial: map<int, int>) {
    forall v :: v in stock && v in initial ==>
      stock[v] == initial[v] - |BuyersOf(orderIds, v)| + |ReleasedOf(orders, done, v)|
  }

  // MySQL stock = initial stock - order rows + cancelled order rows.
  ghost predicate DbLedger(stock: map<int, int>, orders: map<int, Order>, initial: map<int, int>) {
    forall v :: v in stock && v in initial ==>
      stock[v] == initial[v] - |OrdersOf(orders, v)| + |CancelledOf(orders, v)|
  }

  // ---- what threads know ----

  ghost predicate JobsOk(jobs: seq<Job>, claims: seq<nat>) {
    forall k :: 0 <= k < |jobs| ==>
      jobs[k].pos < |claims| && (jobs[k].known.Some? ==> jobs[k].known.value <= 1 + claims[jobs[k].pos])
  }

  ghost predicate SettledAt(s: State, pos: nat) {
    pos < |s.redis.stream| && Settled(s.db.orders, s.db.dead, s.redis.stream[pos].id)
  }

  // The order has been there for more than 15 minutes.
  ghost predicate PaymentOverdue(s: State, o: int) {
    o in s.db.orders && s.now - s.db.orders[o].created > 15 * 60 * 1000
  }

  // Facts about a thread that no step of another thread can undo.
  ghost predicate PcOk(s: State, pc: Pc) {
    match pc
    case PublishStock(v, amount, _, _) => v in s.hist.initial && s.hist.initial[v] == amount
    case PublishBegin(v, _, _) => v in s.hist.initial
    case PublishEnd(v, _) => v in s.hist.initial
    case Accepting(_, _, id, _) => id in s.hist.issued
    case Resolving(v, u) => (v, u) in s.redis.orderIds
    case Working(jobs) => jobs != [] && JobsOk(jobs, s.hist.claims)
    case Claiming(ids) => forall k :: 0 <= k < |ids| ==> ids[k] < |s.hist.claims|
    case Handling(pos, count, jobs) =>
      pos < |s.hist.claims| && count <= 1 + s.hist.claims[pos] && count < MAX_DELIVERIES && JobsOk(jobs, s.hist.claims)
    case Looked(pos, jobs) => pos < |s.hist.claims| && JobsOk(jobs, s.hist.claims)
    case Checked(pos, jobs) => pos < |s.hist.claims| && JobsOk(jobs, s.hist.claims)
    case Applied(pos, jobs) =>
      pos < |s.hist.claims| && pos < |s.redis.stream| && s.redis.stream[pos].id in s.db.orders && JobsOk(jobs, s.hist.claims)
    case Doomed(pos, reason, jobs) =>
      && pos < |s.hist.claims| && reason != VoucherMissing && JobsOk(jobs, s.hist.claims)
      && (reason == MaxDeliveries ==> s.hist.claims[pos] >= MAX_DELIVERIES - 1)
    case Settling(pos, _, jobs) => pos < |s.hist.claims| && SettledAt(s, pos) && JobsOk(jobs, s.hist.claims)
    case Paying(o) => o in s.db.orders
    case PayLost(o) => o in s.db.orders
    case Cancelling(o) => o in s.db.orders
    case CancelLost(o) => o in s.db.orders
    case Closing(batch) => batch != [] && forall k :: 0 <= k < |batch| ==> PaymentOverdue(s, batch[k])
    case Redeeming(o, shop, _, seen) =>
      && seen == Paid && (HasStatus(s.db.orders, o, Paid) || HasStatus(s.db.orders, o, Used))
      && s.db.orders[o].voucher in s.db.shopOf && s.db.shopOf[s.db.orders[o].voucher] == shop
    case RedeemLost(o, seen) => seen == Paid && HasStatus(s.db.orders, o, Used)
    case Releasing(rows) => rows != [] && forall k :: 0 <= k < |rows| ==> rows[k] < |s.db.outbox|
    case Released(rows) =>
      && rows != [] && (forall k :: 0 <= k < |rows| ==> rows[k] < |s.db.outbox|)
      && s.db.outbox[rows[0]].eventKey in s.redis.done
  }

  ghost predicate ThreadsOk(s: State) {
    forall t :: t in s.threads ==> PcOk(s, s.threads[t])
  }

  ghost predicate AtAccept(threads: map<int, Pc>, t: int) { t in threads && threads[t].Accepting? }

  ghost predicate AtPublishStock(threads: map<int, Pc>, t: int) { t in threads && threads[t].PublishStock? }

  // Order ids handed out but not accepted yet are nobody else's.
  ghost predicate FreshIds(threads: map<int, Pc>, orderIds: map<(int, int), int>, issued: set<int>) {
    && (forall k :: k in orderIds ==> orderIds[k] in issued)
    && (forall t, k :: AtAccept(threads, t) && k in orderIds ==> orderIds[k] != threads[t].id)
    && (forall t, w :: AtAccept(threads, t) && AtAccept(threads, w) && threads[t].id == threads[w].id ==> t == w)
  }

  // A voucher is published by one thread, once.
  ghost predicate FreshVouchers(threads: map<int, Pc>, stock: map<int, int>) {
    && (forall t :: AtPublishStock(threads, t) ==> threads[t].voucher !in stock)
    && (forall t, w | AtPublishStock(threads, t) && AtPublishStock(threads, w) && threads[t].voucher == threads[w].voucher
          :: t == w)
  }

  ghost predicate ReplyOk(s: State, y: Reply) {
    match y
    case Accepted(u, v, id) => IsAccepted(s.redis.orderIds, Entry(id, u, v))
    case DuplicateRefused(_, _) => false
    case PayOk(o) => HasStatus(s.db.orders, o, Paid) || HasStatus(s.db.orders, o, Used)
    case CancelOk(o) => HasStatus(s.db.orders, o, Cancelled)
    case RedeemOk(o) => HasStatus(s.db.orders, o, Used)
  }

  ghost predicate RepliesOk(s: State) {
    forall i :: 0 <= i < |s.hist.replies| ==> ReplyOk(s, s.hist.replies[i])
  }

  // ---- the whole invariant ----

  ghost predicate RedisOk(r: Redis, hist: History, now: int) {
    && r.buyers == r.orderIds.Keys
    && IdsInjective(r.orderIds)
    && StockOk(r.orderIds, r.stock)
    && StreamOk(r.stream, r.orderIds)
    && OwnerOk(r.accept, r.processing, r.orderIds)
    && PelOk(r.pel, r.delivered, hist.claims, hist.first, now)
  }

  ghost predicate DbOk(r: Redis, db: Db, hist: History) {
    && OrdersOk(db.orders, r.orderIds)
    && DeadOk(db.dead, r.stream, hist.claims)
    && OutboxOk(db.outbox, db.orders)
    && DoneOk(r.done, db.outbox, db.orders)
    && AuditsOk(db.audits, db.orders, db.shopOf)
  }

  ghost predicate CrossOk(r: Redis, db: Db, hist: History) {
    && CoverOk(r, db.orders, db.dead)
    && HintsOk(r.accept, r.processing, r.orderIds, db.orders, db.dead)
    && VouchersOk(r.stock, db, hist.initial)
    && RedisLedger(r.stock, r.orderIds, db.orders, r.done, hist.initial)
    && DbLedger(db.stock, db.orders, hist.initial)
  }

  ghost predicate StorePart(s: State) {
    && RedisOk(s.redis, s.hist, s.now)
    && DbOk(s.redis, s.db, s.hist)
    && CrossOk(s.redis, s.db, s.hist)
  }

  ghost predicate ThreadPart(s: State) {
    && ThreadsOk(s)
    && RepliesOk(s)
    && FreshIds(s.threads, s.redis.orderIds, s.hist.issued)
    && FreshVouchers(s.threads, s.redis.stock)
  }

  ghost predicate Inv(s: State) {
    StorePart(s) && ThreadPart(s)
  }

  // ---- what only grows ----

  ghost predicate OrdersGrow(a: map<int, Order>, b: map<int, Order>) {
    forall o :: o in a ==> o in b && b[o].user == a[o].user && b[o].voucher == a[o].voucher
                           && b[o].created == a[o].created && Reaches(a[o].status, b[o].status)
  }

  ghost predicate OutboxGrows(a: seq<OutboxRow>, b: seq<OutboxRow>) {
    && |a| <= |b|
    && forall i :: 0 <= i < |a| ==> b[i] == a[i].(done := b[i].done) && (a[i].done ==> b[i].done)
  }

  ghost predicate ClaimsGrow(a: seq<nat>, b: seq<nat>) {
    |a| <= |b| && forall i :: 0 <= i < |a| ==> a[i] <= b[i]
  }

  ghost predicate Extends<K, V>(a: map<K, V>, b: map<K, V>) {
    forall k :: k in a ==> k in b && b[k] == a[k]
  }

  // b may come after a in a run.
  ghost predicate Later(a: State, b: State) {
    && a.redis.stream <= b.redis.stream
    && Extends(a.redis.orderIds, b.redis.orderIds)
    && a.redis.done <= b.redis.done
    && a.redis.delivered <= b.redis.delivered
    && OrdersGrow(a.db.orders, b.db.orders)
    && a.db.dead <= b.db.dead
    && OutboxGrows(a.db.outbox, b.db.outbox)
    && Extends(a.db.shopOf, b.db.shopOf)
    && Extends(a.hist.initial, b.hist.initial)
    && ClaimsGrow(a.hist.claims, b.hist.claims)
    && a.hist.issued <= b.hist.issued
    && a.hist.replies <= b.hist.replies
    && a.now <= b.now
  }

  lemma LaterReflexive(s: State)
    ensures Later(s, s)
  {
  }

  lemma LaterTransitive(a: State, b: State, c: State)
    requires Later(a, b) && Later(b, c)
    ensures Later(a, c)
  {
  }

  lemma SettledStable(a: State, b: State, id: int)
    requires Later(a, b) && Settled(a.db.orders, a.db.dead, id)
    ensures Settled(b.db.orders, b.db.dead, id)
  {
    if id !in a.db.orders {
      var i :| 0 <= i < |a.db.dead| && a.db.dead[i].entry.id == id;
      assert b.db.dead[i] == a.db.dead[i];
    }
  }

  // What a thread knows survives every step of the others.
  lemma PcStable(a: State, b: State, pc: Pc)
    requires Later(a, b) && PcOk(a, pc)
    ensures PcOk(b, pc)
  {
    match pc
    case Settling(pos, _, _) =>
      SettledStable(a, b, a.redis.stream[pos].id);
    case Closing(batch) =>
      forall k | 0 <= k < |batch| ensures PaymentOverdue(b, batch[k]) {
        assert PaymentOverdue(a, batch[k]);
      }
    case _ =>
  }

  lemma ReplyStable(a: State, b: State, y: Reply)
    requires Later(a, b) && ReplyOk(a, y)
    ensures ReplyOk(b, y)
  {
  }

  // A step by thread t leaves the other threads' program counters alone; it remains to check t's own.
  lemma ThreadsStable(a: State, b: State, t: int)
    requires Later(a, b) && ThreadsOk(a)
    requires forall w :: w != t ==> (w in b.threads <==> w in a.threads) && (w in a.threads ==> b.threads[w] == a.threads[w])
    requires t in b.threads ==> PcOk(b, b.threads[t])
    ensures ThreadsOk(b)
  {
    forall w | w in b.threads ensures PcOk(b, b.threads[w]) {
      if w != t {
        PcStable(a, b, a.threads[w]);
      }
    }
  }

  // Replies stay true; it remains to check a new one.
  lemma RepliesStable(a: State, b: State)
    requires Later(a, b) && RepliesOk(a)
    requires |b.hist.replies| <= |a.hist.replies| + 1
    requires |b.hist.replies| == |a.hist.replies| + 1 ==> ReplyOk(b, b.hist.replies[|a.hist.replies|])
    ensures RepliesOk(b)
  {
    forall i | 0 <= i < |b.hist.replies| ensures ReplyOk(b, b.hist.replies[i]) {
      if i < |a.hist.replies| {
        ReplyStable(a, b, a.hist.replies[i]);
      }
    }
  }
}
