// What each write to Redis or MySQL keeps of the invariant, whichever thread performs it.
module CouponStorePart {
  import opened CouponStores
  import opened CouponSteps
  import opened CouponInvariant

  // ---- publication of a voucher ----

  lemma NewVoucherLedgers(a: Db, r: Redis, stock': map<int, int>, initial: map<int, int>, v: int, stock: int)
    requires DbLedger(a.stock, a.orders, initial) && RedisLedger(r.stock, r.orderIds, a.orders, r.done, initial)
    requires OrdersOk(a.orders, r.orderIds) && StockOk(r.orderIds, r.stock)
    requires v !in r.stock && stock' == a.stock[v := stock]
    ensures DbLedger(stock', a.orders, initial[v := stock])
    ensures RedisLedger(r.stock, r.orderIds, a.orders, r.done, initial[v := stock])
  {
    forall o | o in a.orders ensures a.orders[o].voucher != v {
      assert (a.orders[o].voucher, a.orders[o].user) in r.orderIds;
    }
    assert OrdersOf(a.orders, v) == {} && CancelledOf(a.orders, v) == {};
  }

  lemma FirstStock(r: Redis, orders: map<int, Order>, initial: map<int, int>, v: int)
    requires RedisLedger(r.stock, r.orderIds, orders, r.done, initial)
    requires OrdersOk(orders, r.orderIds) && StockOk(r.orderIds, r.stock)
    requires v !in r.stock && v in initial
    ensures RedisLedger(r.stock[v := initial[v]], r.orderIds, orders, r.done, initial)
    ensures StockOk(r.orderIds, r.stock[v := initial[v]])
  {
    forall o | o in orders ensures orders[o].voucher != v {
      assert (orders[o].voucher, orders[o].user) in r.orderIds;
    }
    assert BuyersOf(r.orderIds, v) == {} && ReleasedOf(orders, r.done, v) == {};
  }

  lemma AddVoucherStores(a: State, b: State, v: int, stock: int, begin: int, end: int, shop: int)
    requires StorePart(a) && v !in a.db.stock && b.redis == a.redis && b.now == a.now
    requires b.hist == a.hist.(initial := a.hist.initial[v := stock])
    requires b.db == a.db.(stock := a.db.stock[v := stock], window := a.db.window[v := (begin, end)],
                           shopOf := a.db.shopOf[v := shop])
    ensures StorePart(b) && v !in a.hist.initial && v !in a.redis.stock && v !in a.db.shopOf
  {
    assert v !in a.hist.initial.Keys && v !in a.db.shopOf.Keys;
    NewVoucherLedgers(a.db, a.redis, b.db.stock, a.hist.initial, v, stock);
  }

  lemma PublishStockStores(a: State, b: State, v: int)
    requires StorePart(a) && b.db == a.db && b.hist == a.hist && b.now == a.now
    requires v in a.hist.initial && v !in a.redis.stock
    requires b.redis == a.redis.(stock := a.redis.stock[v := a.hist.initial[v]])
    ensures StorePart(b)
  {
    FirstStock(a.redis, a.db.orders, a.hist.initial, v);
  }

  lemma PublishWindowStores(a: State, b: State)
    requires StorePart(a) && b.db == a.db && b.hist == a.hist && b.now == a.now
    requires b.redis == a.redis.(begin := b.redis.begin, end := b.redis.end)
    ensures StorePart(b)
  {
  }

  // ---- seckill.lua ----

  lemma AcceptLedger(r: Redis, orders: map<int, Order>, initial: map<int, int>, v: int, u: int, id: int)
    requires RedisLedger(r.stock, r.orderIds, orders, r.done, initial)
    requires v in r.stock && (v, u) !in r.orderIds
    ensures RedisLedger(r.stock[v := r.stock[v] - 1], r.orderIds[(v, u) := id], orders, r.done, initial)
  {
    assert BuyersOf(r.orderIds[(v, u) := id], v) == BuyersOf(r.orderIds, v) + {(v, u)};
    forall w | w != v ensures BuyersOf(r.orderIds[(v, u) := id], w) == BuyersOf(r.orderIds, w) {}
  }

  lemma AcceptKeys(r: Redis, v: int, u: int, id: int, now: int)
    requires IdsInjective(r.orderIds) && StockOk(r.orderIds, r.stock) && StreamOk(r.stream, r.orderIds)
    requires r.buyers == r.orderIds.Keys
    requires SeckillCode(r, v, u, now) == 0 && forall k :: k in r.orderIds ==> r.orderIds[k] != id
    ensures var q := SeckillLua(r, v, u, id, now);
            && IdsInjective(q.orderIds) && StockOk(q.orderIds, q.stock) && StreamOk(q.stream, q.orderIds)
            && q.buyers == q.orderIds.Keys
  {
    var q := SeckillLua(r, v, u, id, now);
    assert q.stream[|r.stream|] == Entry(id, u, v);
    forall k | k in q.orderIds ensures Entry(q.orderIds[k], k.1, k.0) in q.stream {
      assert k != (v, u) ==> Entry(r.orderIds[k], k.1, k.0) in r.stream;
    }
  }

  lemma AcceptHints(r: Redis, v: int, u: int, id: int, now: int)
    requires OwnerOk(r.accept, r.processing, r.orderIds) && (v, u) !in r.orderIds
    requires SeckillCode(r, v, u, now) == 0 && forall k :: k in r.orderIds ==> r.orderIds[k] != id
    ensures var q := SeckillLua(r, v, u, id, now); OwnerOk(q.accept, q.processing, q.orderIds)
  {
    var q := SeckillLua(r, v, u, id, now);
    assert (v, u) in q.orderIds && q.orderIds[(v, u)] == id;
    forall user, x | AcceptedFor(r.orderIds, user, x) ensures AcceptedFor(q.orderIds, user, x) {
      var k :| k in r.orderIds && k.1 == user && r.orderIds[k] == x;
      assert k in q.orderIds && q.orderIds[k] == x;
    }
  }

  // A Redis that only gained acceptances keeps what MySQL relies on.
  lemma AcceptRows(r: Redis, db: Db, q: Redis, hist: History)
    requires DbOk(r, db, hist) && CrossOk(r, db, hist)
    requires Extends(r.orderIds, q.orderIds) && r.accept.Keys <= q.accept.Keys && r.processing <= q.processing
    requires r.stream <= q.stream
    requires q.delivered == r.delivered && q.pel == r.pel && q.done == r.done && q.stock.Keys == r.stock.Keys
    requires forall k :: k in q.orderIds && k !in r.orderIds ==>
               q.orderIds[k] in q.accept && (k.1, q.orderIds[k]) in q.processing
    requires RedisLedger(q.stock, q.orderIds, db.orders, q.done, hist.initial)
    ensures DbOk(q, db, hist) && CrossOk(q, db, hist)
  {
  }

  lemma AcceptRedis(r: Redis, hist: History, now: int, v: int, u: int, id: int, clock: int)
    requires RedisOk(r, hist, now)
    requires SeckillCode(r, v, u, clock) == 0 && forall k :: k in r.orderIds ==> r.orderIds[k] != id
    ensures RedisOk(SeckillLua(r, v, u, id, clock), hist, now)
  {
    AcceptKeys(r, v, u, id, clock);
    AcceptHints(r, v, u, id, clock);
  }

  lemma AcceptOthers(r: Redis, db: Db, hist: History, v: int, u: int, id: int, clock: int)
    requires DbOk(r, db, hist) && CrossOk(r, db, hist)
    requires SeckillCode(r, v, u, clock) == 0 && r.buyers == r.orderIds.Keys
    ensures DbOk(SeckillLua(r, v, u, id, clock), db, hist) && CrossOk(SeckillLua(r, v, u, id, clock), db, hist)
  {
    AcceptLedger(r, db.orders, hist.initial, v, u, id);
    AcceptRows(r, db, SeckillLua(r, v, u, id, clock), hist);
  }

  lemma AcceptStores(a: State, b: State, v: int, u: int, id: int, now: int)
    requires StorePart(a) && b.hist == a.hist.(replies := b.hist.replies) && b.now == a.now && b.db == a.db
    requires SeckillCode(a.redis, v, u, now) == 0 && forall k :: k in a.redis.orderIds ==> a.redis.orderIds[k] != id
    requires b.redis == SeckillLua(a.redis, v, u, id, now)
    ensures StorePart(b)
  {
    AcceptRedis(a.redis, a.hist, a.now, v, u, id, now);
    AcceptOthers(a.redis, a.db, a.hist, v, u, id, now);
  }

  // ---- the consumer group ----

  lemma ReadStores(a: State, b: State, t: int)
    requires StorePart(a) && a.redis.delivered < |a.redis.stream| && b.now == a.now && b.db == a.db
    requires b.redis == DoReadStream(a, t).redis && b.hist == DoReadStream(a, t).hist
    ensures StorePart(b)
  {
  }

  lemma ClaimPel(pel: map<nat, Pending>, delivered: nat, claims: seq<nat>, first: seq<int>, now: int, ids: seq<nat>,
                 t: int)
    requires PelOk(pel, delivered, claims, first, now)
    ensures PelOk(XClaim(pel, ids, t, now), delivered, CountClaims(claims, pel, ids, now), first, now)
  {
  }

  lemma ClaimStores(a: State, b: State, ids: seq<nat>, t: int)
    requires StorePart(a) && b.now == a.now && b.db == a.db
    requires b.redis == a.redis.(pel := XClaim(a.redis.pel, ids, t, a.now))
    requires b.hist == a.hist.(claims := CountClaims(a.hist.claims, a.redis.pel, ids, a.now))
    ensures StorePart(b)
  {
    ClaimPel(a.redis.pel, a.redis.delivered, a.hist.claims, a.hist.first, a.now, ids, t);
  }

  lemma AckStores(a: State, b: State, p: nat)
    requires StorePart(a) && b.now == a.now && b.db == a.db && b.hist == a.hist
    requires b.redis == a.redis.(pel := a.redis.pel - {p}) && SettledAt(a, p)
    ensures StorePart(b)
  {
  }

  lemma ReplayStores(a: State, b: State, i: nat)
    requires StorePart(a) && b.now == a.now && b.db == a.db && b.hist == a.hist && i < |a.db.dead|
    requires b.redis == a.redis.(stream := a.redis.stream + [a.db.dead[i].entry])
    ensures StorePart(b)
  {
    assert a.db.dead[i].entry in a.redis.stream;
    forall e | e in b.redis.stream ensures e in a.redis.stream {}
  }

  lemma HintStores(a: State, b: State, p: nat)
    requires StorePart(a) && b.now == a.now && b.db == a.db && b.hist == a.hist && SettledAt(a, p)
    requires b.redis == a.redis.(processing := b.redis.processing, accept := b.redis.accept)
    requires b.redis.accept == a.redis.accept || b.redis.accept == a.redis.accept - {a.redis.stream[p].id}
    requires b.redis.processing == a.redis.processing
             || b.redis.processing == a.redis.processing - {(a.redis.stream[p].user, a.redis.stream[p].id)}
    ensures StorePart(b)
  {
  }

  // ---- createVoucherOrder and isolate ----

  lemma SettledGrows(orders: map<int, Order>, orders': map<int, Order>, dead: seq<DeadLetter>, dead': seq<DeadLetter>,
                     r: Redis)
    requires orders.Keys <= orders'.Keys && dead <= dead'
    requires CoverOk(r, orders, dead) && HintsOk(r.accept, r.processing, r.orderIds, orders, dead)
    ensures CoverOk(r, orders', dead') && HintsOk(r.accept, r.processing, r.orderIds, orders', dead')
  {
    forall id | Settled(orders, dead, id) ensures Settled(orders', dead', id) {
      if id !in orders {
        var i :| 0 <= i < |dead| && dead[i].entry.id == id;
        assert dead'[i] == dead[i];
      }
    }
  }

  // A done key belongs to an order that has a row, so a new order's key cannot be done yet.
  lemma NewKeyNotDone(done: set<string>, outbox: seq<OutboxRow>, orders: map<int, Order>, id: int)
    requires DoneOk(done, outbox, orders) && id !in orders
    ensures EventKey(id) !in done
  {
    if EventKey(id) in done {
      assert KeyOfCancelled(orders, EventKey(id));
      var o :| HasStatus(orders, o, Cancelled) && EventKey(o) == EventKey(id);
      EventKeyInjective(o, id);
    }
  }

  lemma NewOrderSets(orders: map<int, Order>, id: int, row: Order, v: int)
    requires id !in orders && row.status == Unpaid
    ensures CancelledOf(orders[id := row], v) == CancelledOf(orders, v)
    ensures |OrdersOf(orders[id := row], v)| == |OrdersOf(orders, v)| + if v == row.voucher then 1 else 0
  {
    assert OrdersOf(orders[id := row], v) == OrdersOf(orders, v) + if v == row.voucher then {id} else {};
  }

  lemma NewOrderReleases(orders: map<int, Order>, done: set<string>, id: int, row: Order, v: int)
    requires id !in orders && EventKey(id) !in done
    ensures ReleasedOf(orders[id := row], done, v) == ReleasedOf(orders, done, v)
  {
  }

  lemma InsertLedgers(db: Db, e: Entry, now: int, r: Redis, initial: map<int, int>)
    requires DbLedger(db.stock, db.orders, initial) && RedisLedger(r.stock, r.orderIds, db.orders, r.done, initial)
    requires InsertResult(db, e).Inserted? && EventKey(e.id) !in r.done
    ensures var q := InsertOrder(db, e, now);
            DbLedger(q.stock, q.orders, initial) && RedisLedger(r.stock, r.orderIds, q.orders, r.done, initial)
  {
    var q := InsertOrder(db, e, now);
    forall v ensures ReleasedOf(q.orders, r.done, v) == ReleasedOf(db.orders, r.done, v)
                     && CancelledOf(q.orders, v) == CancelledOf(db.orders, v)
                     && |OrdersOf(q.orders, v)| == |OrdersOf(db.orders, v)| + if v == e.voucher then 1 else 0
    {
      NewOrderSets(db.orders, e.id, Order(e.user, e.voucher, Unpaid, now), v);
      NewOrderReleases(db.orders, r.done, e.id, Order(e.user, e.voucher, Unpaid, now), v);
    }
  }

  lemma InsertRows(db: Db, e: Entry, now: int, r: Redis)
    requires OutboxOk(db.outbox, db.orders) && DoneOk(r.done, db.outbox, db.orders)
    requires AuditsOk(db.audits, db.orders, db.shopOf) && OrdersOk(db.orders, r.orderIds)
    requires InsertResult(db, e).Inserted? && IsAccepted(r.orderIds, e)
    ensures var q := InsertOrder(db, e, now);
            && OutboxOk(q.outbox, q.orders) && DoneOk(r.done, q.outbox, q.orders)
            && AuditsOk(q.audits, q.orders, q.shopOf) && OrdersOk(q.orders, r.orderIds)
  {
    var q := InsertOrder(db, e, now);
    forall o, st | st != Unpaid ensures HasStatus(q.orders, o, st) <==> HasStatus(db.orders, o, st) {}
    forall key | KeyOfCancelled(db.orders, key) ensures KeyOfCancelled(q.orders, key) {
      var o :| HasStatus(db.orders, o, Cancelled) && EventKey(o) == key;
      assert HasStatus(q.orders, o, Cancelled);
    }
  }

  lemma InsertStores(a: State, b: State, p: nat)
    requires StorePart(a) && b.now == a.now && b.redis == a.redis && b.hist == a.hist && p < |a.redis.stream|
    requires b.db == InsertOrder(a.db, a.redis.stream[p], a.now)
    ensures StorePart(b)
  {
    var e := a.redis.stream[p];
    assert e in a.redis.stream;
    if InsertResult(a.db, e).Inserted? {
      InsertRows(a.db, e, a.now, a.redis);
      NewKeyNotDone(a.redis.done, a.db.outbox, a.db.orders, e.id);
      InsertLedgers(a.db, e, a.now, a.redis, a.hist.initial);
      SettledGrows(a.db.orders, b.db.orders, a.db.dead, b.db.dead, a.redis);
    }
  }

  lemma IsolateStores(a: State, b: State, letter: DeadLetter)
    requires StorePart(a) && b.now == a.now && b.redis == a.redis && b.hist == a.hist
    requires b.db == a.db.(dead := a.db.dead + [letter])
    requires letter.pos < |a.hist.claims| && letter.pos < |a.redis.stream| && letter.entry == a.redis.stream[letter.pos]
    requires letter.reason != VoucherMissing
    requires letter.reason == MaxDeliveries ==> a.hist.claims[letter.pos] >= MAX_DELIVERIES - 1
    ensures StorePart(b)
  {
    SettledGrows(a.db.orders, b.db.orders, a.db.dead, b.db.dead, a.redis);
  }

  // ---- pay, redeem, cancel ----

  lemma StatusLedgers(db: Db, o: int, st: Status, r: Redis, initial: map<int, int>)
    requires DbLedger(db.stock, db.orders, initial) && RedisLedger(r.stock, r.orderIds, db.orders, r.done, initial)
    requires o in db.orders && db.orders[o].status != Cancelled && st != Cancelled
    ensures var orders := db.orders[o := db.orders[o].(status := st)];
            DbLedger(db.stock, orders, initial) && RedisLedger(r.stock, r.orderIds, orders, r.done, initial)
  {
    var orders := db.orders[o := db.orders[o].(status := st)];
    forall v ensures ReleasedOf(orders, r.done, v) == ReleasedOf(db.orders, r.done, v)
                     && CancelledOf(orders, v) == CancelledOf(db.orders, v)
                     && OrdersOf(orders, v) == OrdersOf(db.orders, v) {}
  }

  lemma StatusRows(orders: map<int, Order>, o: int, st: Status, outbox: seq<OutboxRow>, done: set<string>)
    requires OutboxOk(outbox, orders) && DoneOk(done, outbox, orders)
    requires o in orders && orders[o].status != Cancelled && st != Cancelled
    ensures var orders' := orders[o := orders[o].(status := st)]; OutboxOk(outbox, orders') && DoneOk(done, outbox, orders')
  {
    var orders' := orders[o := orders[o].(status := st)];
    forall p ensures HasStatus(orders', p, Cancelled) <==> HasStatus(orders, p, Cancelled) {}
    forall key | KeyOfCancelled(orders, key) ensures KeyOfCancelled(orders', key) {
      var p :| HasStatus(orders, p, Cancelled) && EventKey(p) == key;
      assert HasStatus(orders', p, Cancelled);
    }
  }

  lemma StatusAudits(audits: map<int, Audit>, orders: map<int, Order>, shopOf: map<int, int>, o: int, st: Status)
    requires AuditsOk(audits, orders, shopOf)
    requires o in orders && orders[o].status != Used && st != Used
    ensures AuditsOk(audits, orders[o := orders[o].(status := st)], shopOf)
  {
    assert !HasStatus(orders, o, Used);
    forall p ensures HasStatus(orders[o := orders[o].(status := st)], p, Used) <==> HasStatus(orders, p, Used) {}
  }

  lemma RedeemAudits(audits: map<int, Audit>, orders: map<int, Order>, shopOf: map<int, int>, o: int, operator: int)
    requires AuditsOk(audits, orders, shopOf)
    requires o in orders && orders[o].status != Used && orders[o].voucher in shopOf
    ensures o !in audits
    ensures AuditsOk(audits[o := Audit(shopOf[orders[o].voucher], orders[o].voucher, operator)],
                     orders[o := orders[o].(status := Used)], shopOf)
  {
    assert !HasStatus(orders, o, Used);
    forall p | p != o ensures HasStatus(orders[o := orders[o].(status := Used)], p, Used) <==> HasStatus(orders, p, Used) {}
  }

  lemma PayStores(a: State, b: State, o: int)
    requires StorePart(a) && b.now == a.now && b.redis == a.redis && b.hist == a.hist.(replies := b.hist.replies)
    requires HasStatus(a.db.orders, o, Unpaid) && b.db == PayUnpaid(a.db, o)
    ensures StorePart(b)
  {
    StatusLedgers(a.db, o, Paid, a.redis, a.hist.initial);
    StatusRows(a.db.orders, o, Paid, a.db.outbox, a.redis.done);
    StatusAudits(a.db.audits, a.db.orders, a.db.shopOf, o, Paid);
    SettledGrows(a.db.orders, b.db.orders, a.db.dead, b.db.dead, a.redis);
  }

  lemma RedeemStores(a: State, b: State, o: int, shop: int, operator: int)
    requires StorePart(a) && b.now == a.now && b.redis == a.redis && b.hist == a.hist.(replies := b.hist.replies)
    requires RedeemWins(a.db, o) && b.db == RedeemPaid(a.db, o, shop, operator)
    requires a.db.orders[o].voucher in a.db.shopOf && a.db.shopOf[a.db.orders[o].voucher] == shop
    ensures StorePart(b)
  {
    StatusLedgers(a.db, o, Used, a.redis, a.hist.initial);
    StatusRows(a.db.orders, o, Used, a.db.outbox, a.redis.done);
    RedeemAudits(a.db.audits, a.db.orders, a.db.shopOf, o, operator);
    SettledGrows(a.db.orders, b.db.orders, a.db.dead, b.db.dead, a.redis);
  }

  lemma CancelLedgers(db: Db, o: int, r: Redis, initial: map<int, int>)
    requires DbLedger(db.stock, db.orders, initial) && RedisLedger(r.stock, r.orderIds, db.orders, r.done, initial)
    requires CancelWins(db, o)
    ensures var q := CancelUnpaid(db, o);
            DbLedger(q.stock, q.orders, initial) && RedisLedger(r.stock, r.orderIds, q.orders, r.done, initial)
  {
    var q := CancelUnpaid(db, o);
    forall v ensures ReleasedOf(q.orders, r.done, v) == ReleasedOf(db.orders, r.done, v)
                     && OrdersOf(q.orders, v) == OrdersOf(db.orders, v)
                     && CancelledOf(q.orders, v) == CancelledOf(db.orders, v) + if v == db.orders[o].voucher then {o} else {} {}
    assert o !in CancelledOf(db.orders, db.orders[o].voucher);
  }

  lemma CancelRows(db: Db, o: int, done: set<string>)
    requires OutboxOk(db.outbox, db.orders) && DoneOk(done, db.outbox, db.orders) && CancelWins(db, o)
    ensures var q := CancelUnpaid(db, o); OutboxOk(q.outbox, q.orders) && DoneOk(done, q.outbox, q.orders)
  {
    var q := CancelUnpaid(db, o);
    forall p ensures HasStatus(q.orders, p, Cancelled) <==> HasStatus(db.orders, p, Cancelled) || p == o {}
    forall i | 0 <= i < |db.outbox| ensures q.outbox[i] == db.outbox[i] && db.outbox[i].order != o {
      assert HasStatus(db.orders, db.outbox[i].order, Cancelled);
    }
    forall p | HasStatus(q.orders, p, Cancelled) ensures HasOutboxRow(q.outbox, p) {
      if p == o {
        assert q.outbox[|db.outbox|].order == o;
      } else {
        var i :| 0 <= i < |db.outbox| && db.outbox[i].order == p;
        assert q.outbox[i].order == p;
      }
    }
    forall key | KeyOfCancelled(db.orders, key) ensures KeyOfCancelled(q.orders, key) {
      var p :| HasStatus(db.orders, p, Cancelled) && EventKey(p) == key;
      assert HasStatus(q.orders, p, Cancelled);
    }
  }

  lemma CancelStores(a: State, b: State, o: int)
    requires StorePart(a) && b.now == a.now && b.redis == a.redis && b.hist == a.hist.(replies := b.hist.replies)
    requires CancelWins(a.db, o) && b.db == CancelUnpaid(a.db, o)
    ensures StorePart(b)
  {
    CancelLedgers(a.db, o, a.redis, a.hist.initial);
    CancelRows(a.db, o, a.redis.done);
    StatusAudits(a.db.audits, a.db.orders, a.db.shopOf, o, Cancelled);
    SettledGrows(a.db.orders, b.db.orders, a.db.dead, b.db.dead, a.redis);
  }

  // ---- stock release ----

  lemma NewKeySets(orders: map<int, Order>, done: set<string>, o: int, v: int)
    requires o in orders && EventKey(o) !in done
    ensures |ReleasedOf(orders, done + {EventKey(o)}, v)|
            == |ReleasedOf(orders, done, v)| + if v == orders[o].voucher then 1 else 0
  {
    forall p | EventKey(p) == EventKey(o) ensures p == o { EventKeyInjective(p, o); }
    assert ReleasedOf(orders, done + {EventKey(o)}, v)
        == ReleasedOf(orders, done, v) + if v == orders[o].voucher then {o} else {};
  }

  lemma ReleaseLedger(r: Redis, row: OutboxRow, orders: map<int, Order>, initial: map<int, int>)
    requires RedisLedger(r.stock, r.orderIds, orders, r.done, initial)
    requires row.order in orders && row.voucher == orders[row.order].voucher && row.eventKey == EventKey(row.order)
    requires row.eventKey !in r.done && row.voucher in r.stock
    ensures var q := StockReleaseLua(r, row); RedisLedger(q.stock, q.orderIds, orders, q.done, initial)
  {
    var q := StockReleaseLua(r, row);
    forall v ensures |ReleasedOf(orders, q.done, v)|
                     == |ReleasedOf(orders, r.done, v)| + if v == row.voucher then 1 else 0
    {
      NewKeySets(orders, r.done, row.order, v);
    }
  }

  // An outbox row names a voucher whose stock key exists, so INCR never creates the key.
  lemma OutboxVoucher(r: Redis, orders: map<int, Order>, outbox: seq<OutboxRow>, i: nat)
    requires OutboxOk(outbox, orders) && OrdersOk(orders, r.orderIds) && StockOk(r.orderIds, r.stock) && i < |outbox|
    ensures outbox[i].voucher in r.stock && KeyOfCancelled(orders, outbox[i].eventKey)
  {
    var o := outbox[i].order;
    assert HasStatus(orders, o, Cancelled);
    assert (orders[o].voucher, orders[o].user) in r.orderIds;
  }

  lemma ReleaseStores(a: State, b: State, i: nat)
    requires StorePart(a) && b.now == a.now && b.db == a.db && b.hist == a.hist && i < |a.db.outbox|
    requires b.redis == StockReleaseLua(a.redis, a.db.outbox[i])
    ensures StorePart(b) && b.redis.stock.Keys == a.redis.stock.Keys
  {
    var row := a.db.outbox[i];
    OutboxVoucher(a.redis, a.db.orders, a.db.outbox, i);
    assert HasStatus(a.db.orders, row.order, Cancelled);
    if row.eventKey !in a.redis.done {
      ReleaseLedger(a.redis, row, a.db.orders, a.hist.initial);
    }
  }

  lemma MarkDoneRows(outbox: seq<OutboxRow>, orders: map<int, Order>, done: set<string>, i: nat)
    requires OutboxOk(outbox, orders) && DoneOk(done, outbox, orders)
    requires i < |outbox| && outbox[i].eventKey in done
    ensures var rows := outbox[i := outbox[i].(done := true)]; OutboxOk(rows, orders) && DoneOk(done, rows, orders)
  {
    var rows := outbox[i := outbox[i].(done := true)];
    forall o | HasOutboxRow(outbox, o) ensures HasOutboxRow(rows, o) {
      var j :| 0 <= j < |outbox| && outbox[j].order == o;
      assert rows[j].order == o;
    }
  }

  lemma MarkDoneStores(a: State, b: State, i: nat)
    requires StorePart(a) && b.now == a.now && b.redis == a.redis && b.hist == a.hist && i < |a.db.outbox|
    requires a.db.outbox[i].eventKey in a.redis.done && b.db == MarkOutboxDone(a.db, i)
    ensures StorePart(b)
  {
    MarkDoneRows(a.db.outbox, a.db.orders, a.redis.done, i);
  }
}
