// A concrete run in which createVoucherOrder throws for a purchase that already has its row.
module CouponRace {
  import opened Wrappers
  import opened CouponStores
  import opened CouponSteps
  import opened CouponInvariant
  import opened CouponRuns
  import opened CouponOrders

  const BOUGHT := Entry(9001, 42, 7)

  // One coupon of voucher 7 was published, and user 42 bought it.
  ghost predicate Sold(s: State) {
    && s.threads == map[] && s.db.stock == map[7 := 1] && s.db.orders == map[]
    && s.redis.stream == [BOUGHT] && s.redis.delivered == 0 && s.redis.pel == map[] && s.now == 0
    && s.db.dead == [] && s.redis.stock == map[7 := 0] && s.redis.orderIds == map[(7, 42) := 9001]
    && s.redis.begin == map[7 := 0] && s.redis.end == map[7 := 100] && s.redis.processing == {(42, 9001)}
    && s.db.shopOf == map[7 := 3]
  }

  lemma Step(s: State, a: Action, b: State)
    requires Reachable(s) && Enabled(s, a) && b == Apply(s, a)
    ensures Reachable(b)
  {
    hide Enabled, Apply;
    assert IsRun(s, [a]) && After(s, [a]) == b by {
      assert [a][1..] == [];
      assert IsRun(b, []);
    }
    ReachableRun(s, [a]);
  }

  lemma StartReachable()
    ensures Reachable(Start)
  {
    assert IsRun(Start, []) && After(Start, []) == Start;
  }

  lemma Publishing() returns (s: State)
    ensures Reachable(s) && s.threads == map[] && s.db.stock == map[7 := 1] && s.db.orders == map[]
    ensures s.db.window == map[7 := (0, 100)] && s.redis.stock == map[7 := 1]
    ensures s.redis.begin == map[7 := 0] && s.redis.end == map[7 := 100] && s.redis.buyers == {}
    ensures s.db.dead == [] && s.redis.orderIds == map[] && s.redis.processing == {} && s.db.shopOf == map[7 := 3]
    ensures s.redis.stream == [] && s.redis.delivered == 0 && s.redis.pel == map[] && s.now == 0 && s.hist.issued == {}
  {
    hide Reachable;
    StartReachable();
    var a := DoAddVoucher(Start, 1, 7, 1, 0, 100, 3);
    Step(Start, AddVoucher(1, 7, 1, 0, 100, 3), a);
    var b := DoPublish(a, 1);
    Step(a, Publish(1), b);
    var c := DoPublish(b, 1);
    Step(b, Publish(1), c);
    s := DoPublish(c, 1);
    Step(c, Publish(1), s);
  }

  lemma Selling() returns (s: State)
    ensures Reachable(s) && Sold(s)
  {
    hide Reachable;
    var a := Publishing();
    var b := DoBeginSeckill(a, 1, 7, 42, 9001, 50);
    Step(a, BeginSeckill(1, 7, 42, 9001, 50), b);
    s := DoRunSeckillLua(b, 1);
    Step(b, RunSeckillLua(1), s);
  }

  // Consumer t holds the only record, has checked that there is no row, and is about to commit.
  ghost predicate AboutToInsert(s: State, t: int) {
    && s.db.stock == map[7 := 1] && s.db.orders == map[]
    && s.redis.stream == [BOUGHT] && s.redis.delivered == 1
    && t in s.threads && s.threads[t] == Checked(0, [])
  }

  ghost predicate OthersSame(a: State, b: State, t: int) {
    && b.redis == a.redis && b.db == a.db && b.now == a.now
    && forall w :: w != t ==> (w in b.threads <==> w in a.threads) && (w in a.threads ==> b.threads[w] == a.threads[w])
  }

  lemma Looks(d: State, t: int) returns (s: State)
    requires Reachable(d) && t in d.threads && d.threads[t] == Working([Job(0, None)])
    requires 7 in d.db.stock && d.redis.stream == [BOUGHT]
    requires 0 in d.redis.pel && d.redis.pel[0].deliveries < MAX_DELIVERIES
    ensures Reachable(s) && OthersSame(d, s, t) && t in s.threads && s.threads[t] == Looked(0, [])
  {
    hide Reachable;
    var e := DoTakeJob(d, t, true);
    Step(d, TakeJob(t, true), e);
    s := DoLookupVoucher(e, t);
    Step(e, LookupVoucher(t), s);
  }

  // A consumer that was handed the record gets to the same point, whatever the other consumer is doing.
  lemma Prepares(d: State, t: int) returns (s: State)
    requires Reachable(d) && t in d.threads && d.threads[t] == Working([Job(0, None)])
    requires d.db.stock == map[7 := 1] && d.db.orders == map[] && d.redis.stream == [BOUGHT] && d.redis.delivered == 1
    requires 0 in d.redis.pel && d.redis.pel[0].deliveries < MAX_DELIVERIES
    ensures Reachable(s) && AboutToInsert(s, t) && OthersSame(d, s, t)
  {
    hide Reachable;
    var e := Looks(d, t);
    s := DoCheckExisting(e, t);
    Step(e, CheckExisting(t), s);
  }

  lemma FirstConsumer() returns (s: State)
    ensures Reachable(s) && AboutToInsert(s, 1) && Idle(s, 2)
    ensures s.redis.pel == map[0 := Pending(1, 1, 0)] && s.now == 0
    ensures Idle(s, 3) && Idle(s, 4) && s.db.shopOf == map[7 := 3]
  {
    hide Reachable;
    var a := Selling();
    var b := DoReadStream(a, 1);
    Step(a, ReadStream(1), b);
    s := Prepares(b, 1);
  }

  lemma OnlyRecordIsIdle(s: State)
    requires s.redis.pel == map[0 := Pending(1, 1, 0)] && s.redis.delivered == 1 && s.now == CLAIM_MIN_IDLE_MS
    ensures IdleIds(s, 2) == [0] && Claimed(s.redis.pel, [0], s.now) == [0]
  {
    var window := XPending(s.redis.pel, None, 0, 1, CLAIM_SCAN_WINDOW);
    assert XPending(s.redis.pel, None, 1, 1, CLAIM_SCAN_WINDOW - 1) == [];
    assert window == [0] && window[1..] == [] && [0][1..] == [];
    assert IdleElsewhere(s.redis.pel, 0, 2, s.now);
    assert SelectIdle(s.redis.pel, [], 2, s.now, CLAIM_BATCH - 1) == [];
    assert SelectIdle(s.redis.pel, window, 2, s.now, CLAIM_BATCH) == [0];
  }

  // 30 s later a second consumer claims the same record and gets as far as the first.
  lemma SecondConsumer() returns (s: State)
    ensures Reachable(s) && AboutToInsert(s, 1) && AboutToInsert(s, 2)
  {
    hide Reachable, IdleIds;
    var a := FirstConsumer();
    var b := a.(now := a.now + CLAIM_MIN_IDLE_MS);
    Step(a, Tick(0, CLAIM_MIN_IDLE_MS), b);
    OnlyRecordIsIdle(b);
    var c := DoScanIdle(b, 2);
    Step(b, ScanIdle(2), c);
    var d := SecondClaims(c);
    s := Prepares(d, 2);
  }

  lemma SecondClaims(c: State) returns (d: State)
    requires Reachable(c) && AboutToInsert(c, 1) && 2 in c.threads && c.threads[2] == Claiming([0])
    requires c.redis.pel == map[0 := Pending(1, 1, 0)] && c.now == CLAIM_MIN_IDLE_MS
    requires Claimed(c.redis.pel, [0], c.now) == [0]
    ensures Reachable(d) && AboutToInsert(d, 1) && 2 in d.threads && d.threads[2] == Working([Job(0, None)])
    ensures 0 in d.redis.pel && d.redis.pel[0].deliveries == 2
  {
    hide Reachable;
    d := DoClaimIdle(c, 2);
    Step(c, ClaimIdle(2), d);
  }

  // The throw is reachable: the second consumer inserts the row, and the first then finds the stock gone.
  lemma LostRaceHappens() returns (s: State)
    ensures Reachable(s) && 1 in s.threads && s.threads[1] == Checked(0, []) && s.redis.stream == [BOUGHT]
    ensures InsertResult(s.db, BOUGHT).OutOfStock? && BOUGHT.id in s.db.orders
  {
    hide Reachable;
    var a := SecondConsumer();
    s := DoCommit(a, 2);
    Step(a, Commit(2), s);
  }

  // ---- two redeems of one order ----

  // The only coupon was bought and delivered, and its order has this status.
  ghost predicate Ordered(s: State, status: Status) {
    && s.db.orders == map[9001 := Order(42, 7, status, 0)] && s.db.shopOf == map[7 := 3]
    && Idle(s, 2) && Idle(s, 3) && Idle(s, 4)
  }

  lemma Delivered() returns (s: State)
    ensures Reachable(s) && Ordered(s, Unpaid)
  {
    hide Reachable;
    var a := FirstConsumer();
    s := DoCommit(a, 1);
    Step(a, Commit(1), s);
  }

  lemma Bought() returns (s: State)
    ensures Reachable(s) && Ordered(s, Paid)
  {
    hide Reachable;
    var a := Delivered();
    var b := DoPayRead(a, 2, 9001);
    Step(a, PayRead(2, 42, 9001), b);
    s := DoPayUpdate(b, 2);
    Step(b, PayUpdate(2), s);
  }

  // Two operators of shop 3 have read the order in their transactions.
  lemma BothRead() returns (s: State)
    ensures Reachable(s) && HasStatus(s.db.orders, 9001, Paid)
    ensures 3 in s.threads && s.threads[3] == Redeeming(9001, 3, 5, Paid)
    ensures 4 in s.threads && s.threads[4] == Redeeming(9001, 3, 6, Paid)
  {
    hide Reachable;
    var a := Bought();
    var b := DoRedeemRead(a, 3, 9001, 3, 5);
    Step(a, RedeemRead(3, 9001, 3, 5), b);
    s := DoRedeemRead(b, 4, 9001, 3, 6);
    Step(b, RedeemRead(4, 9001, 3, 6), s);
  }

  // The first one redeems; the second one's update matches no row, its re-read shows the snapshot, and it is told
  // nothing but a failure.
  lemma LostRedeemHappens() returns (s: State)
    ensures Reachable(s) && 4 in s.threads && s.threads[4] == RedeemLost(9001, Paid)
    ensures HasStatus(s.db.orders, 9001, Used) && RedeemOk(9001) in s.hist.replies
    ensures Enabled(s, RedeemReread(4)) && Apply(s, RedeemReread(4)) == Stop(s, 4)
  {
    hide Reachable;
    var a := BothRead();
    var b := DoRedeemUpdate(a, 3);
    Step(a, RedeemUpdate(3), b);
    assert b.hist.replies[|b.hist.replies| - 1] == RedeemOk(9001);
    s := SecondLoses(b);
  }

  lemma SecondLoses(b: State) returns (s: State)
    requires Reachable(b) && HasStatus(b.db.orders, 9001, Used)
    requires 4 in b.threads && b.threads[4] == Redeeming(9001, 3, 6, Paid)
    ensures Reachable(s) && 4 in s.threads && s.threads[4] == RedeemLost(9001, Paid)
    ensures s.db == b.db && s.hist == b.hist
    ensures Enabled(s, RedeemReread(4)) && Apply(s, RedeemReread(4)) == Stop(s, 4)
  {
    hide Reachable;
    s := DoRedeemUpdate(b, 4);
    Step(b, RedeemUpdate(4), s);
  }
}
