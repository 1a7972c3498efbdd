// What the coupon trade protocol guarantees in every reachable state.
module CouponTheorems {
  import opened Wrappers
  import opened CouponStores
  import opened CouponSteps
  import opened CouponInvariant
  import opened CouponRuns

  // ---- the stock of the two stores ----

  // Accepted purchases of the voucher without an order row.
  ghost function WaitingBuyers(s: State, v: int): set<(int, int)> {
    set k | k in s.redis.orderIds && k.0 == v && s.redis.orderIds[k] !in s.db.orders
  }

  // Cancelled orders of the voucher that have not been given back to Redis.
  ghost function UnreleasedCancels(s: State, v: int): set<int> {
    set o | o in s.db.orders && s.db.orders[o].voucher == v && s.db.orders[o].status == Cancelled
            && EventKey(o) !in s.redis.done
  }

  ghost function LiveOrders(s: State, v: int): set<int> {
    set o | o in s.db.orders && s.db.orders[o].voucher == v && s.db.orders[o].status != Cancelled
  }

  ghost function Image(a: set<(int, int)>, f: map<(int, int), int>): set<int> { set k | k in a && k in f :: f[k] }

  // A map that is injective on a set keeps its size.
  lemma {:induction false} ImageSize(a: set<(int, int)>, f: map<(int, int), int>)
    requires a <= f.Keys && forall j, k :: j in a && k in a && f[j] == f[k] ==> j == k
    ensures |Image(a, f)| == |a|
    decreases |a|
  {
    if a == {} {
      assert Image(a, f) == {};
    } else {
      var k :| k in a;
      ImageSize(a - {k}, f);
      assert Image(a, f) == Image(a - {k}, f) + {f[k]};
    }
  }

  lemma BuyersWithRows(orderIds: map<(int, int), int>, orders: map<int, Order>, v: int)
    requires IdsInjective(orderIds) && OrdersOk(orders, orderIds)
    ensures |BuyersOf(orderIds, v)|
            == |OrdersOf(orders, v)| + |set k | k in orderIds && k.0 == v && orderIds[k] !in orders|
  {
    var waiting := set k | k in orderIds && k.0 == v && orderIds[k] !in orders;
    var served := BuyersOf(orderIds, v) - waiting;
    forall o | o in OrdersOf(orders, v) ensures o in Image(served, orderIds) {
      var k := (orders[o].voucher, orders[o].user);
      assert k in served && orderIds[k] == o;
    }
    forall k | k in served ensures orderIds[k] in OrdersOf(orders, v) {
      var o := orderIds[k];
      assert IsAccepted(orderIds, Entry(o, orders[o].user, orders[o].voucher));
    }
    assert Image(served, orderIds) == OrdersOf(orders, v);
    ImageSize(served, orderIds);
    assert BuyersOf(orderIds, v) == served + waiting;
  }

  lemma ReleasedAreCancelled(orders: map<int, Order>, outbox: seq<OutboxRow>, done: set<string>, v: int)
    requires DoneOk(done, outbox, orders)
    ensures ReleasedOf(orders, done, v) <= CancelledOf(orders, v)
  {
    forall o | o in ReleasedOf(orders, done, v) ensures o in CancelledOf(orders, v) {
      assert KeyOfCancelled(orders, EventKey(o));
      var p :| HasStatus(orders, p, Cancelled) && EventKey(p) == EventKey(o);
      EventKeyInjective(p, o);
    }
  }

  lemma CancelledSplit(s: State, v: int)
    requires DoneOk(s.redis.done, s.db.outbox, s.db.orders)
    ensures |CancelledOf(s.db.orders, v)| == |ReleasedOf(s.db.orders, s.redis.done, v)| + |UnreleasedCancels(s, v)|
    ensures |OrdersOf(s.db.orders, v)| == |CancelledOf(s.db.orders, v)| + |LiveOrders(s, v)|
  {
    ReleasedAreCancelled(s.db.orders, s.db.outbox, s.redis.done, v);
    assert CancelledOf(s.db.orders, v) == ReleasedOf(s.db.orders, s.redis.done, v) + UnreleasedCancels(s, v);
    assert OrdersOf(s.db.orders, v) == CancelledOf(s.db.orders, v) + LiveOrders(s, v);
  }

  lemma LedgersOf(s: State, v: int)
    requires Inv(s) && v in s.redis.stock
    ensures v in s.db.stock && v in s.hist.initial
    ensures RedisLedger(s.redis.stock, s.redis.orderIds, s.db.orders, s.redis.done, s.hist.initial)
    ensures DbLedger(s.db.stock, s.db.orders, s.hist.initial)
    ensures IdsInjective(s.redis.orderIds) && OrdersOk(s.db.orders, s.redis.orderIds)
    ensures DoneOk(s.redis.done, s.db.outbox, s.db.orders) && StockOk(s.redis.orderIds, s.redis.stock)
  {
    assert v in s.hist.initial.Keys;
    assert v in s.db.stock.Keys;
  }

  lemma GapOf(s: State, v: int)
    requires Inv(s) && v in s.redis.stock
    ensures v in s.db.stock && v in s.hist.initial
    ensures s.db.stock[v] - s.redis.stock[v] == |WaitingBuyers(s, v)| + |UnreleasedCancels(s, v)|
    ensures s.db.stock[v] + |LiveOrders(s, v)| == s.hist.initial[v]
    ensures s.redis.stock[v] + |BuyersOf(s.redis.orderIds, v)| - |ReleasedOf(s.db.orders, s.redis.done, v)| == s.hist.initial[v]
    ensures s.redis.stock[v] >= 0 || (BuyersOf(s.redis.orderIds, v) == {} && s.redis.stock[v] == s.hist.initial[v])
  {
    hide Inv, EventKey;
    LedgersOf(s, v);
    BuyersWithRows(s.redis.orderIds, s.db.orders, v);
    CancelledSplit(s, v);
    ReleasedAreCancelled(s.db.orders, s.db.outbox, s.redis.done, v);
    if BuyersOf(s.redis.orderIds, v) == {} {
      assert OrdersOf(s.db.orders, v) == {};
      assert ReleasedOf(s.db.orders, s.redis.done, v) == {};
    } else {
      var k :| k in BuyersOf(s.redis.orderIds, v);
    }
  }

  // The exact gap between the two stores: MySQL holds more stock than Redis by the accepted purchases that have no row
  // yet plus the cancelled orders not given back yet, so Redis never offers what MySQL does not have.
  lemma CrossStoreGap(s: State, v: int)
    requires Reachable(s) && v in s.redis.stock
    ensures v in s.db.stock && v in s.hist.initial
    ensures s.db.stock[v] - s.redis.stock[v] == |WaitingBuyers(s, v)| + |UnreleasedCancels(s, v)|
    ensures s.db.stock[v] + |LiveOrders(s, v)| == s.hist.initial[v]
    ensures s.redis.stock[v] <= s.db.stock[v]
    ensures s.redis.stock[v] >= 0 || (BuyersOf(s.redis.orderIds, v) == {} && s.redis.stock[v] == s.hist.initial[v])
  {
    hide Inv;
    ReachableInv(s);
    GapOf(s, v);
  }

  // Accept is a sound promise: an accepted purchase without a row still has a unit of MySQL stock.
  lemma AcceptIsSound(s: State, v: int, u: int)
    requires Reachable(s) && (v, u) in s.redis.orderIds && s.redis.orderIds[(v, u)] !in s.db.orders
    ensures v in s.db.stock && s.db.stock[v] >= 1
  {
    hide Inv;
    ReachableInv(s);
    AcceptedHasStock(s, v, u);
    GapOf(s, v);
    assert (v, u) in WaitingBuyers(s, v);
  }

  lemma AcceptedHasStock(s: State, v: int, u: int)
    requires Inv(s) && (v, u) in s.redis.orderIds
    ensures v in s.redis.stock && (v, u) in BuyersOf(s.redis.orderIds, v)
  {
  }

  lemma CheckedEntry(s: State, t: int)
    requires Inv(s) && t in s.threads && s.threads[t].Checked?
    ensures s.threads[t].pos < |s.redis.stream|
    ensures IsAccepted(s.redis.orderIds, s.redis.stream[s.threads[t].pos])
  {
    assert PcOk(s, s.threads[t]);
    var e := s.redis.stream[s.threads[t].pos];
    assert e in s.redis.stream;
  }

  // The "stock insufficient" throw of createVoucherOrder can only hit a consumer that lost the race for its own entry:
  // it is thrown exactly when the stock is gone and the order's row is already there.
  lemma OutOfStockOnlyAfterInsert(s: State, t: int)
    requires Reachable(s) && t in s.threads && s.threads[t].Checked?
    ensures s.threads[t].pos < |s.redis.stream|
    ensures var e := s.redis.stream[s.threads[t].pos];
            InsertResult(s.db, e).OutOfStock?
            <==> e.id in s.db.orders && e.voucher in s.db.stock && s.db.stock[e.voucher] <= 0
  {
    hide Inv;
    ReachableInv(s);
    CheckedEntry(s, t);
    var e := s.redis.stream[s.threads[t].pos];
    AcceptedHasStock(s, e.voucher, e.user);
    GapOf(s, e.voucher);
    if e.id !in s.db.orders {
      AcceptIsSound(s, e.voucher, e.user);
    }
  }

  // ---- nothing is held back ----

  // The steps that begin a call of thread a.t, or happen to it, under the conditions that a caller of the services meets.
  predicate Begins(s: State, a: Action) {
    match a
    case AddVoucher(t, v, _, _, _, _) => t !in s.threads && v !in s.db.stock
    case BeginSeckill(t, v, _, id, clock) =>
      t !in s.threads && id !in s.hist.issued && v in s.db.window && s.db.window[v].0 <= clock <= s.db.window[v].1
    case ReadStream(t) => t !in s.threads && s.redis.delivered < |s.redis.stream|
    case ScanOwn(t) => t !in s.threads
    case ScanIdle(t) => t !in s.threads
    case OutboxScan(t) => t !in s.threads
    case PayRead(t, u, o) => t !in s.threads && o in s.db.orders && s.db.orders[o].user == u
    case CancelRead(t, u, o) => t !in s.threads && o in s.db.orders && s.db.orders[o].user == u
    case RedeemRead(t, o, _, _) => t !in s.threads && o in s.db.orders
    case Replay(_, letter) => letter < |s.db.dead|
    case Crash(_) => true
    case Tick(_, _) => true
    case _ => false
  }

  // An idle thread may begin any call in any state, and the clock, a replay or a crash may come in between at any time.
  lemma CallsCanBegin(s: State, a: Action)
    requires Begins(s, a)
    ensures Enabled(s, a)
  {
  }

  // A thread inside a call always has a next step of its own.
  lemma NobodyIsStuck(s: State, t: int) returns (a: Action)
    requires Reachable(s) && t in s.threads
    ensures a.t == t && !a.Crash? && !a.Tick? && !a.Replay?
    ensures Enabled(s, a)
  {
    hide Inv, Reachable;
    ReachableInv(s);
    ThreadFacts(s, t);
    var pc := s.threads[t];
    if pc.PublishStock? || pc.PublishBegin? || pc.PublishEnd? {
      a := Publish(t);
    } else if pc.Accepting? {
      a := RunSeckillLua(t);
    } else if pc.Resolving? {
      var row := OrderOf(s.db, pc.voucher, pc.user);
      a := ResolveDuplicate(t, row);
    } else if pc.Working? || pc.Claiming? || pc.Handling? || pc.Looked? || pc.Checked? || pc.Applied? || pc.Doomed? {
      a := if pc.Working? then TakeJob(t, true)
           else if pc.Claiming? then ClaimIdle(t)
           else if pc.Handling? then LookupVoucher(t)
           else if pc.Looked? then CheckExisting(t)
           else if pc.Checked? then Commit(t)
           else if pc.Applied? then Unlock(t)
           else Isolate(t);
    } else if pc.Settling? {
      a := if pc.stage.Acking? then Ack(t) else ClearHint(t, true);
    } else {
      a := TradeNext(s, t);
    }
  }

  lemma ThreadFacts(s: State, t: int)
    requires Inv(s) && t in s.threads
    ensures var pc := s.threads[t];
            && (pc.Working? ==> pc.jobs != [])
            && (pc.Handling? || pc.Looked? || pc.Checked? || pc.Doomed? || pc.Settling? ==> pc.pos < |s.redis.stream|)
            && (pc.Closing? ==> pc.batch != [])
            && (pc.Releasing? || pc.Released? ==> pc.rows != [] && pc.rows[0] < |s.db.outbox|)
  {
    assert PcOk(s, s.threads[t]);
  }

  lemma TradeNext(s: State, t: int) returns (a: Action)
    requires t in s.threads
    requires var pc := s.threads[t];
             || pc.Paying? || pc.PayLost? || pc.Cancelling? || pc.CancelLost? || pc.Redeeming? || pc.RedeemLost?
             || (pc.Closing? && pc.batch != [])
             || ((pc.Releasing? || pc.Released?) && pc.rows != [] && pc.rows[0] < |s.db.outbox|)
    ensures a.t == t && IsTrade(a) && Enabled(s, a)
  {
    a := match s.threads[t]
      case Paying(_) => PayUpdate(t)
      case PayLost(_) => PayReread(t)
      case Cancelling(_) => CancelUpdate(t)
      case CancelLost(_) => CancelReread(t)
      case Redeeming(_, _, _, _) => RedeemUpdate(t)
      case RedeemLost(_, _) => RedeemReread(t)
      case Closing(_) => TimeoutCancel(t, true)
      case Releasing(_) => ReleaseStock(t)
      case _ => MarkDone(t);
  }

  lemma OrderOf(db: Db, v: int, u: int) returns (row: Option<int>)
    ensures RowOf(db, v, u, row)
  {
    if o :| o in db.orders && db.orders[o].voucher == v && db.orders[o].user == u {
      row := Some(o);
    } else {
      row := None;
    }
  }
}
