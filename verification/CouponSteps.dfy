// The coupon trade protocol as a state machine. Every store command, script or transaction is one action; a thread
// keeps what it read in its program counter, so any other actions may happen between two actions of one thread.
module CouponSteps {
  import opened Wrappers
  import opened CouponStores

  // A record a consumer still has to process: a stream position, with the delivery count when the scan reported it.
  datatype Job = Job(pos: nat, known: Option<nat>)

  // Which hint-clearing command comes next for a settled record; Acking means both were attempted.
  datatype Stage = ClearProcessing | ClearAccept | Acking

  // Where a thread is inside one call, with what it has read so far. A thread without an entry is idle.
  datatype Pc =
    | PublishStock(voucher: int, amount: int, begin: int, end: int)
    | PublishBegin(voucher: int, begin: int, end: int)
    | PublishEnd(voucher: int, end: int)
    | Accepting(voucher: int, user: int, id: int, now: int)
    | Resolving(voucher: int, user: int)
    | Working(jobs: seq<Job>)
    | Claiming(ids: seq<nat>)
    | Handling(pos: nat, count: nat, jobs: seq<Job>)
    | Looked(pos: nat, jobs: seq<Job>)
    | Checked(pos: nat, jobs: seq<Job>)
    | Applied(pos: nat, jobs: seq<Job>)
    | Doomed(pos: nat, reason: Reason, jobs: seq<Job>)
    | Settling(pos: nat, stage: Stage, jobs: seq<Job>)
    | Paying(order: int)
    | PayLost(order: int)
    | Cancelling(order: int)
    | CancelLost(order: int)
    | Closing(batch: seq<int>)
    | Redeeming(order: int, shop: int, operator: int, seen: Status)
    | RedeemLost(order: int, seen: Status)
    | Releasing(rows: seq<nat>)
    | Released(rows: seq<nat>)

  // What callers were told.
  datatype Reply =
    | Accepted(user: int, voucher: int, id: int)
    | DuplicateRefused(user: int, voucher: int)
    | PayOk(order: int)
    | CancelOk(order: int)
    | RedeemOk(order: int)

  // History variables: initial stock of each voucher, order ids handed out, claims and first delivery time of each
  // delivered stream position, replies given.
  datatype History = History(
    initial: map<int, int>,
    issued: set<int>,
    claims: seq<nat>,
    first: seq<int>,
    replies: seq<Reply>)

  datatype State = State(redis: Redis, db: Db, threads: map<int, Pc>, hist: History, now: int)

  datatype Action =
    | AddVoucher(t: int, voucher: int, stock: int, begin: int, end: int, shop: int)
    | Publish(t: int)
    | BeginSeckill(t: int, voucher: int, user: int, id: int, clock: int)
    | RunSeckillLua(t: int)
    | ResolveDuplicate(t: int, row: Option<int>)
    | ReadStream(t: int)
    | ScanOwn(t: int)
    | ScanIdle(t: int)
    | ClaimIdle(t: int)
    | TakeJob(t: int, looked: bool)
    | LookupVoucher(t: int)
    | Fail(t: int)
    | Retry(t: int)
    | CheckExisting(t: int)
    | Commit(t: int)
    | Unlock(t: int)
    | Isolate(t: int)
    | ClearHint(t: int, ok: bool)
    | Ack(t: int)
    | Replay(t: int, letter: nat)
    | PayRead(t: int, user: int, order: int)
    | PayUpdate(t: int)
    | PayReread(t: int)
    | CancelRead(t: int, user: int, order: int)
    | CancelUpdate(t: int)
    | CancelReread(t: int)
    | TimeoutScan(t: int, batch: seq<int>)
    | TimeoutCancel(t: int, ok: bool)
    | RedeemRead(t: int, order: int, shop: int, operator: int)
    | RedeemUpdate(t: int)
    | RedeemReread(t: int)
    | OutboxScan(t: int)
    | ReleaseStock(t: int)
    | MarkDone(t: int)
    | SkipRow(t: int)
    | Crash(t: int)
    | Tick(t: int, ms: nat)

  const Start := State(
    Redis(map[], map[], map[], {}, map[], {}, map[], [], 0, map[], {}),
    Db(map[], map[], map[], map[], [], map[], []),
    map[], History(map[], {}, [], [], []), 0)

  // ---- thread bookkeeping ----

  predicate Idle(s: State, t: int) { t !in s.threads }

  function Go(s: State, t: int, pc: Pc): State { s.(threads := s.threads[t := pc]) }

  function Stop(s: State, t: int): State { s.(threads := s.threads - {t}) }

  function Resume(s: State, t: int, jobs: seq<Job>): State {
    if jobs == [] then Stop(s, t) else Go(s, t, Working(jobs))
  }

  function Say(s: State, r: Reply): State { s.(hist := s.hist.(replies := s.hist.replies + [r])) }

  // ---- VoucherServiceImpl: addSeckillVoucher, publishSeckillToRedis ----

  function DoAddVoucher(s: State, t: int, v: int, stock: int, begin: int, end: int, shop: int): State {
    Go(s.(db := s.db.(stock := s.db.stock[v := stock], window := s.db.window[v := (begin, end)],
                      shopOf := s.db.shopOf[v := shop]),
          hist := s.hist.(initial := s.hist.initial[v := stock])),
       t, PublishStock(v, stock, begin, end))
  }

  predicate AtPublish(s: State, t: int) {
    t in s.threads && (s.threads[t].PublishStock? || s.threads[t].PublishBegin? || s.threads[t].PublishEnd?)
  }

  function DoPublish(s: State, t: int): State
    requires AtPublish(s, t)
  {
    match s.threads[t]
    case PublishStock(v, amount, begin, end) =>
      Go(s.(redis := s.redis.(stock := s.redis.stock[v := amount])), t, PublishBegin(v, begin, end))
    case PublishBegin(v, begin, end) =>
      Go(s.(redis := s.redis.(begin := s.redis.begin[v := begin])), t, PublishEnd(v, end))
    case PublishEnd(v, end) =>
      Stop(s.(redis := s.redis.(end := s.redis.end[v := end])), t)
  }

  // ---- VoucherOrderServiceImpl: seckillVoucher, resolveDuplicateOrder ----

  predicate WindowOpen(db: Db, v: int, clock: int) {
    v in db.window && db.window[v].0 <= clock <= db.window[v].1
  }

  function DoBeginSeckill(s: State, t: int, v: int, u: int, id: int, clock: int): State {
    Go(s.(hist := s.hist.(issued := s.hist.issued + {id})), t, Accepting(v, u, id, clock))
  }

  function DoRunSeckillLua(s: State, t: int): State
    requires t in s.threads && s.threads[t].Accepting?
  {
    var Accepting(v, u, id, clock) := s.threads[t];
    var code := SeckillCode(s.redis, v, u, clock);
    var s1 := s.(redis := SeckillLua(s.redis, v, u, id, clock));
    if code == 0 then Say(Stop(s1, t), Accepted(u, v, id))
    else if code == 2 then Go(s1, t, Resolving(v, u))
    else Stop(s1, t)
  }

  // The database answer to "the order of this user for this voucher".
  predicate RowOf(db: Db, v: int, u: int, row: Option<int>) {
    match row
    case Some(o) => o in db.orders && db.orders[o].voucher == v && db.orders[o].user == u
    case None => forall o :: o in db.orders ==> db.orders[o].voucher != v || db.orders[o].user != u
  }

  function DoResolveDuplicate(s: State, t: int, row: Option<int>): State
    requires t in s.threads && s.threads[t].Resolving?
  {
    var Resolving(v, u) := s.threads[t];
    if (v, u) in s.redis.orderIds then Say(Stop(s, t), Accepted(u, v, s.redis.orderIds[(v, u)]))
    else if row.Some? then Say(Stop(s, t), Accepted(u, v, row.value))
    else Say(Stop(s, t), DuplicateRefused(u, v))
  }

  // ---- SeckillOrderStreamConsumer ----

  function Unknown(ids: seq<nat>): (jobs: seq<Job>)
    ensures |jobs| == |ids| && forall k :: 0 <= k < |ids| ==> jobs[k] == Job(ids[k], None)
  {
    seq(|ids|, k requires 0 <= k < |ids| => Job(ids[k], None))
  }

  function Reported(pel: map<nat, Pending>, ids: seq<nat>): (jobs: seq<Job>)
    requires forall k :: 0 <= k < |ids| ==> ids[k] in pel
    ensures |jobs| == |ids| && forall k :: 0 <= k < |ids| ==> jobs[k] == Job(ids[k], Some(pel[ids[k]].deliveries))
  {
    seq(|ids|, k requires 0 <= k < |ids| => Job(ids[k], Some(pel[ids[k]].deliveries)))
  }

  // XREADGROUP ... COUNT 1 >
  function DoReadStream(s: State, t: int): State
    requires s.redis.delivered < |s.redis.stream|
  {
    var pos := s.redis.delivered;
    Go(s.(redis := s.redis.(delivered := pos + 1, pel := s.redis.pel[pos := Pending(t, 1, s.now)]),
          hist := s.hist.(claims := s.hist.claims + [0], first := s.hist.first + [s.now])),
       t, Working([Job(pos, None)]))
  }

  function DoScanOwn(s: State, t: int): State {
    var ids := XPending(s.redis.pel, Some(t), 0, s.redis.delivered, OWN_PENDING_SCAN_LIMIT);
    Resume(s, t, Reported(s.redis.pel, ids))
  }

  function IdleIds(s: State, t: int): seq<nat> {
    SelectIdle(s.redis.pel, XPending(s.redis.pel, None, 0, s.redis.delivered, CLAIM_SCAN_WINDOW), t, s.now, CLAIM_BATCH)
  }

  function DoScanIdle(s: State, t: int): State {
    if IdleIds(s, t) == [] then s else Go(s, t, Claiming(IdleIds(s, t)))
  }

  function DoClaimIdle(s: State, t: int): State
    requires t in s.threads && s.threads[t].Claiming?
  {
    var ids := s.threads[t].ids;
    var pel := s.redis.pel;
    Resume(s.(redis := s.redis.(pel := XClaim(pel, ids, t, s.now)),
              hist := s.hist.(claims := CountClaims(s.hist.claims, pel, ids, s.now))),
           t, Unknown(Claimed(pel, ids, s.now)))
  }

  function CountClaims(claims: seq<nat>, pel: map<nat, Pending>, ids: seq<nat>, now: int): (r: seq<nat>)
    ensures |r| == |claims|
    ensures forall p: nat :: p < |claims| ==> r[p] == claims[p] + if Claimable(pel, ids, p, now) then 1 else 0
  {
    seq(|claims|, p requires 0 <= p < |claims| => claims[p] + if Claimable(pel, ids, p, now) then 1 else 0)
  }

  // lookupDeliveryCount: the PEL count when this consumer owns the id and the command works, otherwise 1.
  function LookupCount(s: State, t: int, pos: nat, looked: bool): nat {
    if looked && pos in s.redis.pel && s.redis.pel[pos].owner == t then s.redis.pel[pos].deliveries else 1
  }

  function DoTakeJob(s: State, t: int, looked: bool): State
    requires t in s.threads && s.threads[t].Working? && s.threads[t].jobs != []
  {
    var jobs := s.threads[t].jobs;
    var count := if jobs[0].known.Some? then jobs[0].known.value else LookupCount(s, t, jobs[0].pos, looked);
    Go(s, t, if count >= MAX_DELIVERIES then Doomed(jobs[0].pos, MaxDeliveries, jobs[1..])
             else Handling(jobs[0].pos, count, jobs[1..]))
  }

  // ---- SeckillStreamMessageHandler.handle, createVoucherOrder ----

  function DoLookupVoucher(s: State, t: int): State
    requires t in s.threads && s.threads[t].Handling? && s.threads[t].pos < |s.redis.stream|
  {
    var Handling(pos, _, jobs) := s.threads[t];
    Go(s, t, if s.redis.stream[pos].voucher in s.db.stock then Looked(pos, jobs) else Doomed(pos, VoucherMissing, jobs))
  }

  predicate InHandler(s: State, t: int) {
    t in s.threads && (s.threads[t].Looked? || s.threads[t].Checked? || s.threads[t].Applied?)
  }

  function DoCheckExisting(s: State, t: int): State
    requires t in s.threads && s.threads[t].Looked? && s.threads[t].pos < |s.redis.stream|
  {
    var Looked(pos, jobs) := s.threads[t];
    Go(s, t, if HasRowFor(s.db, s.redis.stream[pos]) then Applied(pos, jobs) else Checked(pos, jobs))
  }

  // The end of the createVoucherOrder transaction: an insert and a duplicate key both count as applied, an empty stock
  // is transient. The user lock is released afterwards, which may still fail.
  function DoCommit(s: State, t: int): State
    requires t in s.threads && s.threads[t].Checked? && s.threads[t].pos < |s.redis.stream|
  {
    var Checked(pos, jobs) := s.threads[t];
    var e := s.redis.stream[pos];
    var s1 := s.(db := InsertOrder(s.db, e, s.now));
    if InsertResult(s.db, e).OutOfStock? then Resume(s1, t, jobs) else Go(s1, t, Applied(pos, jobs))
  }

  // lock.unlock() returned: the record counts as SUCCESS.
  function DoUnlock(s: State, t: int): State
    requires t in s.threads && s.threads[t].Applied?
  {
    Go(s, t, Settling(s.threads[t].pos, ClearProcessing, s.threads[t].jobs))
  }

  // A runtime exception that isTransient does not recognise.
  function DoFail(s: State, t: int): State
    requires InHandler(s, t)
  {
    Go(s, t, Doomed(s.threads[t].pos, Fault, s.threads[t].jobs))
  }

  // RETRY: a busy lock, a data access failure or a transient exception. No ACK.
  function DoRetry(s: State, t: int): State
    requires InHandler(s, t)
  {
    Resume(s, t, s.threads[t].jobs)
  }

  function DoIsolate(s: State, t: int): State
    requires t in s.threads && s.threads[t].Doomed? && s.threads[t].pos < |s.redis.stream|
  {
    var Doomed(pos, reason, jobs) := s.threads[t];
    Go(s.(db := s.db.(dead := s.db.dead + [DeadLetter(pos, s.redis.stream[pos], reason)])),
       t, Settling(pos, ClearProcessing, jobs))
  }

  predicate AtClearHint(s: State, t: int) {
    t in s.threads && s.threads[t].Settling? && !s.threads[t].stage.Acking? && s.threads[t].pos < |s.redis.stream|
  }

  // clearProcessingHints: SREM then DEL; a failing command is logged and ends the clearing.
  function DoClearHint(s: State, t: int, ok: bool): State
    requires AtClearHint(s, t)
  {
    var Settling(pos, stage, jobs) := s.threads[t];
    var e := s.redis.stream[pos];
    if !ok then Go(s, t, Settling(pos, Acking, jobs))
    else if stage.ClearProcessing?
    then Go(s.(redis := s.redis.(processing := s.redis.processing - {(e.user, e.id)})), t, Settling(pos, ClearAccept, jobs))
    else Go(s.(redis := s.redis.(accept := s.redis.accept - {e.id})), t, Settling(pos, Acking, jobs))
  }

  predicate AtAck(s: State, t: int) {
    t in s.threads && s.threads[t].Settling? && s.threads[t].stage.Acking?
  }

  function DoAck(s: State, t: int): State
    requires AtAck(s, t)
  {
    Resume(s.(redis := s.redis.(pel := s.redis.pel - {s.threads[t].pos})), t, s.threads[t].jobs)
  }

  // SeckillDeadLetterService.replay
  function DoReplay(s: State, row: nat): State
    requires row < |s.db.dead|
  {
    s.(redis := s.redis.(stream := s.redis.stream + [s.db.dead[row].entry]))
  }

  // ---- TradeOrderService ----

  predicate Owns(db: Db, u: int, o: int) { o in db.orders && db.orders[o].user == u }

  function DoPayRead(s: State, t: int, o: int): State
    requires o in s.db.orders
  {
    match s.db.orders[o].status
    case Unpaid => Go(s, t, Paying(o))
    case Paid => Say(s, PayOk(o))
    case _ => s
  }

  function DoPayUpdate(s: State, t: int): State
    requires t in s.threads && s.threads[t].Paying?
  {
    var o := s.threads[t].order;
    if o in s.db.orders && s.db.orders[o].status == Unpaid
    then Say(Stop(s.(db := PayUnpaid(s.db, o)), t), PayOk(o))
    else Go(s, t, PayLost(o))
  }

  function DoPayReread(s: State, t: int): State
    requires t in s.threads && s.threads[t].PayLost?
  {
    var o := s.threads[t].order;
    if o in s.db.orders && s.db.orders[o].status == Paid then Say(Stop(s, t), PayOk(o)) else Stop(s, t)
  }

  function DoCancelRead(s: State, t: int, o: int): State
    requires o in s.db.orders
  {
    match s.db.orders[o].status
    case Unpaid => Go(s, t, Cancelling(o))
    case Cancelled => Say(s, CancelOk(o))
    case _ => s
  }

  function DoCancelUpdate(s: State, t: int): State
    requires t in s.threads && s.threads[t].Cancelling?
  {
    var o := s.threads[t].order;
    if CancelWins(s.db, o) then Say(Stop(s.(db := CancelUnpaid(s.db, o)), t), CancelOk(o)) else Go(s, t, CancelLost(o))
  }

  function DoCancelReread(s: State, t: int): State
    requires t in s.threads && s.threads[t].CancelLost?
  {
    var o := s.threads[t].order;
    if o in s.db.orders && s.db.orders[o].status == Cancelled then Say(Stop(s, t), CancelOk(o)) else Stop(s, t)
  }

  predicate TimedOut(s: State, o: int) {
    o in s.db.orders && s.db.orders[o].status == Unpaid && s.db.orders[o].created < s.now - PAY_TIMEOUT_MS
  }

  // ORDER BY create_time LIMIT 50: the oldest timed-out orders, ties in any order.
  predicate TimeoutBatch(s: State, batch: seq<int>) {
    && |batch| <= SCAN_BATCH
    && (forall i :: 0 <= i < |batch| ==> TimedOut(s, batch[i]))
    && (forall i, j :: 0 <= i < j < |batch| ==> batch[i] != batch[j])
    && (forall i, j :: 0 <= i < j < |batch| ==> s.db.orders[batch[i]].created <= s.db.orders[batch[j]].created)
    && (forall o :: o in s.db.orders && TimedOut(s, o) && o !in batch ==>
          |batch| == SCAN_BATCH && s.db.orders[batch[SCAN_BATCH - 1]].created <= s.db.orders[o].created)
  }

  function DoTimeoutScan(s: State, t: int, batch: seq<int>): State {
    if batch == [] then s else Go(s, t, Closing(batch))
  }

  function DoTimeoutCancel(s: State, t: int, ok: bool): State
    requires t in s.threads && s.threads[t].Closing? && s.threads[t].batch != []
  {
    var batch := s.threads[t].batch;
    var s1 := if ok then s.(db := CancelUnpaid(s.db, batch[0])) else s;
    if |batch| == 1 then Stop(s1, t) else Go(s1, t, Closing(batch[1..]))
  }

  // redeemOrder is one transaction: its plain reads all see the snapshot of the first one, the update sees the row as
  // it is, and nobody else sees anything before the commit.
  function DoRedeemRead(s: State, t: int, o: int, shop: int, operator: int): State
    requires o in s.db.orders
  {
    var row := s.db.orders[o];
    if row.status == Used then Say(s, RedeemOk(o))
    else if row.status == Paid && row.voucher in s.db.shopOf && s.db.shopOf[row.voucher] == shop
    then Go(s, t, Redeeming(o, shop, operator, row.status))
    else s
  }

  function DoRedeemUpdate(s: State, t: int): State
    requires t in s.threads && s.threads[t].Redeeming?
  {
    var Redeeming(o, shop, operator, seen) := s.threads[t];
    if RedeemWins(s.db, o) then Say(Stop(s.(db := RedeemPaid(s.db, o, shop, operator)), t), RedeemOk(o))
    else Go(s, t, RedeemLost(o, seen))
  }

  function DoRedeemReread(s: State, t: int): State
    requires t in s.threads && s.threads[t].RedeemLost?
  {
    var RedeemLost(o, seen) := s.threads[t];
    if seen == Used then Say(Stop(s, t), RedeemOk(o)) else Stop(s, t)
  }

  // ---- StockReleaseOutboxWorker ----

  function DoOutboxScan(s: State, t: int): State {
    var rows := PendingRows(s.db.outbox, 0, SCAN_BATCH);
    if rows == [] then s else Go(s, t, Releasing(rows))
  }

  predicate AtRelease(s: State, t: int) {
    t in s.threads && s.threads[t].Releasing? && s.threads[t].rows != [] && s.threads[t].rows[0] < |s.db.outbox|
  }

  function DoReleaseStock(s: State, t: int): State
    requires AtRelease(s, t)
  {
    var rows := s.threads[t].rows;
    Go(s.(redis := StockReleaseLua(s.redis, s.db.outbox[rows[0]])), t, Released(rows))
  }

  predicate AtMarkDone(s: State, t: int) {
    t in s.threads && s.threads[t].Released? && s.threads[t].rows != [] && s.threads[t].rows[0] < |s.db.outbox|
  }

  function DoMarkDone(s: State, t: int): State
    requires AtMarkDone(s, t)
  {
    var rows := s.threads[t].rows;
    var s1 := s.(db := MarkOutboxDone(s.db, rows[0]));
    if |rows| == 1 then Stop(s1, t) else Go(s1, t, Releasing(rows[1..]))
  }

  predicate AtRow(s: State, t: int) {
    t in s.threads && (s.threads[t].Releasing? || s.threads[t].Released?) && s.threads[t].rows != []
  }

  // A row whose script or update threw: the loop goes on with the next row.
  function DoSkipRow(s: State, t: int): State
    requires AtRow(s, t)
  {
    var rows := s.threads[t].rows;
    if |rows| == 1 then Stop(s, t) else Go(s, t, Releasing(rows[1..]))
  }

  // ---- the step relation ----

  predicate Enabled(s: State, a: Action) {
    match a
    case AddVoucher(t, v, _, _, _, _) => Idle(s, t) && v !in s.db.stock
    case Publish(t) => AtPublish(s, t)
    case BeginSeckill(t, v, _, id, clock) => Idle(s, t) && id !in s.hist.issued && WindowOpen(s.db, v, clock)
    case RunSeckillLua(t) => t in s.threads && s.threads[t].Accepting?
    case ResolveDuplicate(t, row) => && t in s.threads && s.threads[t].Resolving?
                                     && RowOf(s.db, s.threads[t].voucher, s.threads[t].user, row)
    case ReadStream(t) => Idle(s, t) && s.redis.delivered < |s.redis.stream|
    case ScanOwn(t) => Idle(s, t)
    case ScanIdle(t) => Idle(s, t)
    case ClaimIdle(t) => t in s.threads && s.threads[t].Claiming?
    case TakeJob(t, _) => t in s.threads && s.threads[t].Working? && s.threads[t].jobs != []
    case LookupVoucher(t) => t in s.threads && s.threads[t].Handling? && s.threads[t].pos < |s.redis.stream|
    case Fail(t) => InHandler(s, t)
    case Retry(t) => InHandler(s, t)
    case CheckExisting(t) => t in s.threads && s.threads[t].Looked? && s.threads[t].pos < |s.redis.stream|
    case Commit(t) => t in s.threads && s.threads[t].Checked? && s.threads[t].pos < |s.redis.stream|
    case Unlock(t) => t in s.threads && s.threads[t].Applied?
    case Isolate(t) => t in s.threads && s.threads[t].Doomed? && s.threads[t].pos < |s.redis.stream|
    case ClearHint(t, _) => AtClearHint(s, t)
    case Ack(t) => AtAck(s, t)
    case Replay(_, row) => row < |s.db.dead|
    case PayRead(t, u, o) => Idle(s, t) && Owns(s.db, u, o)
    case PayUpdate(t) => t in s.threads && s.threads[t].Paying?
    case PayReread(t) => t in s.threads && s.threads[t].PayLost?
    case CancelRead(t, u, o) => Idle(s, t) && Owns(s.db, u, o)
    case CancelUpdate(t) => t in s.threads && s.threads[t].Cancelling?
    case CancelReread(t) => t in s.threads && s.threads[t].CancelLost?
    case TimeoutScan(t, batch) => Idle(s, t) && TimeoutBatch(s, batch)
    case TimeoutCancel(t, _) => t in s.threads && s.threads[t].Closing? && s.threads[t].batch != []
    case RedeemRead(t, o, _, _) => Idle(s, t) && o in s.db.orders
    case RedeemUpdate(t) => t in s.threads && s.threads[t].Redeeming?
    case RedeemReread(t) => t in s.threads && s.threads[t].RedeemLost?
    case OutboxScan(t) => Idle(s, t)
    case ReleaseStock(t) => AtRelease(s, t)
    case MarkDone(t) => AtMarkDone(s, t)
    case SkipRow(t) => AtRow(s, t)
    case Crash(_) => true
    case Tick(_, _) => true
  }

  predicate IsTrade(a: Action) {
    || a.PayRead?
    || a.PayUpdate?
    || a.PayReread?
    || a.CancelRead?
    || a.CancelUpdate?
    || a.CancelReread?
    || a.TimeoutScan?
    || a.TimeoutCancel?
    || a.RedeemRead?
    || a.RedeemUpdate?
    || a.RedeemReread?
    || a.OutboxScan?
    || a.ReleaseStock?
    || a.MarkDone?
    || a.SkipRow?
  }

  function ApplyTrade(s: State, a: Action): State
    requires Enabled(s, a) && IsTrade(a)
  {
    match a
    case PayRead(t, _, o) => DoPayRead(s, t, o)
    case PayUpdate(t) => DoPayUpdate(s, t)
    case PayReread(t) => DoPayReread(s, t)
    case CancelRead(t, _, o) => DoCancelRead(s, t, o)
    case CancelUpdate(t) => DoCancelUpdate(s, t)
    case CancelReread(t) => DoCancelReread(s, t)
    case TimeoutScan(t, batch) => DoTimeoutScan(s, t, batch)
    case TimeoutCancel(t, ok) => DoTimeoutCancel(s, t, ok)
    case RedeemRead(t, o, shop, operator) => DoRedeemRead(s, t, o, shop, operator)
    case RedeemUpdate(t) => DoRedeemUpdate(s, t)
    case RedeemReread(t) => DoRedeemReread(s, t)
    case OutboxScan(t) => DoOutboxScan(s, t)
    case ReleaseStock(t) => DoReleaseStock(s, t)
    case MarkDone(t) => DoMarkDone(s, t)
    case SkipRow(t) => DoSkipRow(s, t)
  }

  function ApplySeckill(s: State, a: Action): State
    requires Enabled(s, a) && !IsTrade(a)
  {
    match a
    case AddVoucher(t, v, stock, begin, end, shop) => DoAddVoucher(s, t, v, stock, begin, end, shop)
    case Publish(t) => DoPublish(s, t)
    case BeginSeckill(t, v, u, id, clock) => DoBeginSeckill(s, t, v, u, id, clock)
    case RunSeckillLua(t) => DoRunSeckillLua(s, t)
    case ResolveDuplicate(t, row) => DoResolveDuplicate(s, t, row)
    case ReadStream(t) => DoReadStream(s, t)
    case ScanOwn(t) => DoScanOwn(s, t)
    case ScanIdle(t) => DoScanIdle(s, t)
    case ClaimIdle(t) => DoClaimIdle(s, t)
    case TakeJob(t, looked) => DoTakeJob(s, t, looked)
    case LookupVoucher(t) => DoLookupVoucher(s, t)
    case Fail(t) => DoFail(s, t)
    case Retry(t) => DoRetry(s, t)
    case CheckExisting(t) => DoCheckExisting(s, t)
    case Commit(t) => DoCommit(s, t)
    case Unlock(t) => DoUnlock(s, t)
    case Isolate(t) => DoIsolate(s, t)
    case ClearHint(t, ok) => DoClearHint(s, t, ok)
    case Ack(t) => DoAck(s, t)
    case Replay(_, row) => DoReplay(s, row)
    case Crash(t) => Stop(s, t)
    case Tick(_, ms) => s.(now := s.now + ms)
  }

  function Apply(s: State, a: Action): State
    requires Enabled(s, a)
  {
    if IsTrade(a) then ApplyTrade(s, a) else ApplySeckill(s, a)
  }

  // ---- runs ----

  predicate IsRun(s: State, run: seq<Action>)
    decreases |run|
  {
    run == [] || (Enabled(s, run[0]) && IsRun(Apply(s, run[0]), run[1..]))
  }

  function After(s: State, run: seq<Action>): State
    requires IsRun(s, run)
    decreases |run|
  {
    if run == [] then s else After(Apply(s, run[0]), run[1..])
  }
}
