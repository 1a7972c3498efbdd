// The coupon trade protocol over whole runs: the invariant always holds, and nothing moves backwards.
module CouponRuns {
  import opened CouponStores
  import opened CouponSteps
  import opened CouponInvariant
  import opened CouponPreservation

  lemma TradeStep(s: State, a: Action)
    requires Inv(s) && Enabled(s, a) && IsTrade(a)
    ensures Inv(Apply(s, a)) && Later(s, Apply(s, a))
  {
    hide StorePart, ThreadPart, Later;
    match a
    case PayRead(t, _, o) => KeepsPayRead(s, t, o);
    case PayUpdate(t) => KeepsPayUpdate(s, t);
    case PayReread(t) => KeepsPayReread(s, t);
    case CancelRead(t, _, o) => KeepsCancelRead(s, t, o);
    case CancelUpdate(t) => KeepsCancelUpdate(s, t);
    case CancelReread(t) => KeepsCancelReread(s, t);
    case TimeoutScan(t, batch) => KeepsTimeoutScan(s, t, batch);
    case TimeoutCancel(t, ok) => KeepsTimeoutCancel(s, t, ok);
    case RedeemRead(t, o, shop, operator) => KeepsRedeemRead(s, t, o, shop, operator);
    case RedeemUpdate(t) => KeepsRedeemUpdate(s, t);
    case RedeemReread(t) => KeepsRedeemReread(s, t);
    case OutboxScan(t) => KeepsOutboxScan(s, t);
    case ReleaseStock(t) => KeepsReleaseStock(s, t);
    case MarkDone(t) => KeepsMarkDone(s, t);
    case SkipRow(t) => KeepsSkipRow(s, t);
  }

  lemma SeckillStep(s: State, a: Action)
    requires Inv(s) && Enabled(s, a) && !IsTrade(a)
    ensures Inv(Apply(s, a)) && Later(s, Apply(s, a))
  {
    hide StorePart, ThreadPart, Later;
    match a
    case AddVoucher(t, v, stock, begin, end, shop) => KeepsAddVoucher(s, t, v, stock, begin, end, shop);
    case Publish(t) => KeepsPublish(s, t);
    case BeginSeckill(t, v, u, id, clock) => KeepsBeginSeckill(s, t, v, u, id, clock);
    case RunSeckillLua(t) => KeepsRunSeckillLua(s, t);
    case ResolveDuplicate(t, row) => KeepsResolveDuplicate(s, t, row);
    case ReadStream(t) => KeepsReadStream(s, t);
    case ScanOwn(t) => KeepsScanOwn(s, t);
    case ScanIdle(t) => KeepsScanIdle(s, t);
    case ClaimIdle(t) => KeepsClaimIdle(s, t);
    case TakeJob(t, looked) => KeepsTakeJob(s, t, looked);
    case LookupVoucher(t) => KeepsLookupVoucher(s, t);
    case Fail(t) => KeepsFail(s, t);
    case Retry(t) => KeepsRetry(s, t);
    case CheckExisting(t) => KeepsCheckExisting(s, t);
    case Commit(t) => KeepsCommit(s, t);
    case Unlock(t) => KeepsUnlock(s, t);
    case Isolate(t) => KeepsIsolate(s, t);
    case ClearHint(t, ok) => KeepsClearHint(s, t, ok);
    case Ack(t) => KeepsAck(s, t);
    case Replay(t, letter) => KeepsReplay(s, t, letter);
    case Crash(t) => Quiet(s, Stop(s, t), t);
    case Tick(_, ms) => KeepsTick(s, ms);
  }

  // Every step of every thread keeps the whole invariant and only moves forward.
  lemma StepKeepsInv(s: State, a: Action)
    requires Inv(s) && Enabled(s, a)
    ensures Inv(Apply(s, a)) && Later(s, Apply(s, a))
  {
    hide Inv, Later;
    if IsTrade(a) { TradeStep(s, a); } else { SeckillStep(s, a); }
  }

  lemma EmptyStores(r: Redis, db: Db, hist: History, now: int)
    requires r.buyers == {} && r.orderIds == map[] && r.stream == [] && r.pel == map[] && r.delivered == 0
    requires r.accept == map[] && r.processing == {}
    requires r.stock == map[] && r.done == {} && hist.claims == [] && hist.first == [] && hist.initial == map[]
    requires db.orders == map[] && db.dead == [] && db.outbox == [] && db.audits == map[]
    requires db.stock == map[] && db.window == map[] && db.shopOf == map[]
    ensures RedisOk(r, hist, now) && DbOk(r, db, hist) && CrossOk(r, db, hist)
  {
  }

  lemma StartInv()
    ensures Inv(Start)
  {
    hide RedisOk, DbOk, CrossOk;
    var s := Start;
    EmptyStores(s.redis, s.db, s.hist, s.now);
  }

  // From any good state, any interleaving of any length, with crashes anywhere, stays good.
  lemma {:induction false} RunKeepsInv(s: State, run: seq<Action>)
    requires Inv(s) && IsRun(s, run)
    ensures Inv(After(s, run)) && Later(s, After(s, run))
    decreases |run|
  {
    hide Inv, Later;
    if run == [] {
      LaterReflexive(s);
    } else {
      var b := Apply(s, run[0]);
      StepKeepsInv(s, run[0]);
      RunKeepsInv(b, run[1..]);
      LaterTransitive(s, b, After(b, run[1..]));
    }
  }

  ghost predicate Reachable(s: State) {
    exists run :: IsRun(Start, run) && After(Start, run) == s
  }

  lemma ReachableInv(s: State)
    requires Reachable(s)
    ensures Inv(s)
  {
    hide Inv, Later;
    var run :| IsRun(Start, run) && After(Start, run) == s;
    StartInv();
    RunKeepsInv(Start, run);
  }
}
