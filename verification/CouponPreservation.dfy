// Every action keeps the invariant and only moves a state forward.
module CouponPreservation {
  import opened Wrappers
  import opened CouponStores
  import opened CouponSteps
  import opened CouponInvariant
  import opened CouponStorePart

  // ---- what one action does to the threads and the replies ----

  ghost predicate OthersKept(a: map<int, Pc>, b: map<int, Pc>, t: int) {
    forall w :: w != t ==> (w in b <==> w in a) && (w in a ==> b[w] == a[w])
  }

  // Thread t moved on to a program counter that starts no acceptance and no publication.
  ghost predicate ThreadStep(a: State, b: State, t: int) {
    && OthersKept(a.threads, b.threads, t)
    && (t in b.threads ==> PcOk(b, b.threads[t]) && !b.threads[t].Accepting? && !b.threads[t].PublishStock?)
    && |b.hist.replies| <= |a.hist.replies| + 1
    && (|b.hist.replies| == |a.hist.replies| + 1 ==> ReplyOk(b, b.hist.replies[|a.hist.replies|]))
  }

  lemma FreshKept(a: map<int, Pc>, b: map<int, Pc>, t: int, orderIds: map<(int, int), int>, issued: set<int>,
                  stock: map<int, int>, stock': map<int, int>)
    requires FreshIds(a, orderIds, issued) && FreshVouchers(a, stock) && stock.Keys == stock'.Keys
    requires OthersKept(a, b, t) && !AtAccept(b, t) && !AtPublishStock(b, t)
    ensures FreshIds(b, orderIds, issued) && FreshVouchers(b, stock')
  {
    forall w | AtAccept(b, w) ensures AtAccept(a, w) && a[w] == b[w] {}
    forall w | AtPublishStock(b, w) ensures AtPublishStock(a, w) && a[w] == b[w] {}
  }

  // The thread-related parts of the invariant after an action that neither accepts nor publishes.
  lemma ThreadPartKept(a: State, b: State, t: int)
    requires ThreadPart(a)
    requires Later(a, b) && ThreadStep(a, b, t)
    requires b.redis.orderIds == a.redis.orderIds && b.redis.stock.Keys == a.redis.stock.Keys
    requires b.hist.issued == a.hist.issued
    ensures ThreadPart(b)
  {
    ThreadsStable(a, b, t);
    RepliesStable(a, b);
    FreshKept(a.threads, b.threads, t, a.redis.orderIds, a.hist.issued, a.redis.stock, b.redis.stock);
  }

  // An action that writes neither store.
  lemma Quiet(a: State, b: State, t: int)
    requires Inv(a) && ThreadStep(a, b, t)
    requires b.redis == a.redis && b.db == a.db && b.now == a.now
    requires b.hist == a.hist.(replies := b.hist.replies) && a.hist.replies <= b.hist.replies
    ensures Inv(b) && Later(a, b)
  {
    ThreadPartKept(a, b, t);
  }

  lemma Knows(s: State, t: int)
    requires Inv(s) && t in s.threads
    ensures PcOk(s, s.threads[t])
  {
  }

  lemma Accountable(s: State)
    requires Inv(s)
    ensures PelOk(s.redis.pel, s.redis.delivered, s.hist.claims, s.hist.first, s.now)
    ensures s.redis.delivered <= |s.redis.stream|
  {
  }

  lemma EntryAccepted(s: State, e: Entry)
    requires Inv(s) && e in s.redis.stream
    ensures IsAccepted(s.redis.orderIds, e) && e.voucher in s.db.stock
  {
    assert (e.voucher, e.user) in s.redis.orderIds;
    assert e.voucher in s.redis.stock.Keys;
  }

  // ---- vouchers ----

  lemma FreshVoucherThread(a: map<int, Pc>, b: map<int, Pc>, t: int, orderIds: map<(int, int), int>, issued: set<int>,
                           stock: map<int, int>)
    requires FreshIds(a, orderIds, issued) && FreshVouchers(a, stock)
    requires OthersKept(a, b, t) && AtPublishStock(b, t) && b[t].voucher !in stock
    requires forall w :: AtPublishStock(a, w) && w != t ==> a[w].voucher != b[t].voucher
    ensures FreshIds(b, orderIds, issued) && FreshVouchers(b, stock)
  {
    forall w | AtAccept(b, w) ensures AtAccept(a, w) && a[w] == b[w] {}
    forall w | AtPublishStock(b, w) && w != t ensures AtPublishStock(a, w) && a[w] == b[w] {}
  }

  lemma AddVoucherThreads(s: State, b: State, t: int, v: int)
    requires ThreadPart(s) && Later(s, b) && v !in s.hist.initial && v !in s.redis.stock && Idle(s, t)
    requires OthersKept(s.threads, b.threads, t) && AtPublishStock(b.threads, t) && b.threads[t].voucher == v
    requires b.redis == s.redis && b.hist.issued == s.hist.issued && b.hist.replies == s.hist.replies
    requires PcOk(b, b.threads[t])
    ensures ThreadPart(b)
  {
    ThreadsStable(s, b, t);
    RepliesStable(s, b);
    forall w | AtPublishStock(s.threads, w) ensures s.threads[w].voucher != v {
      assert PcOk(s, s.threads[w]);
    }
    FreshVoucherThread(s.threads, b.threads, t, s.redis.orderIds, s.hist.issued, s.redis.stock);
  }

  lemma KeepsAddVoucher(s: State, t: int, v: int, stock: int, begin: int, end: int, shop: int)
    requires Inv(s) && Idle(s, t) && v !in s.db.stock
    ensures Inv(DoAddVoucher(s, t, v, stock, begin, end, shop))
    ensures Later(s, DoAddVoucher(s, t, v, stock, begin, end, shop))
  {
    hide StorePart, ThreadPart;
    var b := DoAddVoucher(s, t, v, stock, begin, end, shop);
    AddVoucherStores(s, b, v, stock, begin, end, shop);
    AddVoucherThreads(s, b, t, v);
  }

  lemma PublishedVoucher(a: map<int, Pc>, b: map<int, Pc>, t: int, orderIds: map<(int, int), int>, issued: set<int>,
                         stock: map<int, int>, amount: int)
    requires FreshIds(a, orderIds, issued) && FreshVouchers(a, stock)
    requires OthersKept(a, b, t) && AtPublishStock(a, t) && !AtPublishStock(b, t) && !AtAccept(b, t)
    ensures FreshIds(b, orderIds, issued) && FreshVouchers(b, stock[a[t].voucher := amount])
  {
    forall w | AtAccept(b, w) ensures AtAccept(a, w) && a[w] == b[w] {}
    forall w | AtPublishStock(b, w) ensures AtPublishStock(a, w) && a[w] == b[w] && w != t {}
  }

  lemma PublishStockThreads(s: State, b: State, t: int)
    requires ThreadPart(s) && Later(s, b) && AtPublishStock(s.threads, t)
    requires OthersKept(s.threads, b.threads, t) && t in b.threads && b.threads[t].PublishBegin?
    requires PcOk(b, b.threads[t])
    requires b.redis == s.redis.(stock := s.redis.stock[s.threads[t].voucher := s.threads[t].amount])
    requires b.hist == s.hist
    ensures ThreadPart(b)
  {
    ThreadsStable(s, b, t);
    RepliesStable(s, b);
    PublishedVoucher(s.threads, b.threads, t, s.redis.orderIds, s.hist.issued, s.redis.stock, s.threads[t].amount);
  }

  lemma Unpublished(s: State, t: int)
    requires Inv(s) && AtPublishStock(s.threads, t)
    ensures s.threads[t].voucher !in s.redis.stock
  {
  }

  lemma KeepsPublishStock(s: State, t: int)
    requires Inv(s) && AtPublishStock(s.threads, t)
    ensures Inv(DoPublish(s, t)) && Later(s, DoPublish(s, t))
  {
    hide StorePart, ThreadPart;
    var b := DoPublish(s, t);
    Knows(s, t);
    Unpublished(s, t);
    PublishStockStores(s, b, s.threads[t].voucher);
    PublishStockThreads(s, b, t);
  }

  lemma KeepsPublish(s: State, t: int)
    requires Inv(s) && AtPublish(s, t)
    ensures Inv(DoPublish(s, t)) && Later(s, DoPublish(s, t))
  {
    hide StorePart, ThreadPart;
    var b := DoPublish(s, t);
    Knows(s, t);
    if s.threads[t].PublishStock? {
      KeepsPublishStock(s, t);
    } else {
      PublishWindowStores(s, b);
      ThreadPartKept(s, b, t);
    }
  }

  // ---- accepting ----

  lemma NewId(a: map<int, Pc>, b: map<int, Pc>, t: int, orderIds: map<(int, int), int>, issued: set<int>,
              stock: map<int, int>)
    requires FreshIds(a, orderIds, issued) && FreshVouchers(a, stock)
    requires OthersKept(a, b, t) && AtAccept(b, t) && b[t].id !in issued
    requires forall w :: AtAccept(a, w) ==> a[w].id in issued
    ensures FreshIds(b, orderIds, issued + {b[t].id}) && FreshVouchers(b, stock)
  {
    forall w | AtAccept(b, w) && w != t ensures AtAccept(a, w) && a[w] == b[w] {}
    forall w | AtPublishStock(b, w) ensures AtPublishStock(a, w) && a[w] == b[w] {}
  }

  lemma BeginThreads(s: State, b: State, t: int)
    requires ThreadPart(s) && Later(s, b) && b.redis == s.redis && b.db == s.db
    requires OthersKept(s.threads, b.threads, t) && AtAccept(b.threads, t) && b.threads[t].id !in s.hist.issued
    requires b.hist == s.hist.(issued := s.hist.issued + {b.threads[t].id})
    ensures ThreadPart(b)
  {
    ThreadsStable(s, b, t);
    RepliesStable(s, b);
    forall w | AtAccept(s.threads, w) ensures s.threads[w].id in s.hist.issued {
      assert PcOk(s, s.threads[w]);
    }
    NewId(s.threads, b.threads, t, s.redis.orderIds, s.hist.issued, s.redis.stock);
  }

  lemma KeepsBeginSeckill(s: State, t: int, v: int, u: int, id: int, clock: int)
    requires Inv(s) && Idle(s, t) && id !in s.hist.issued
    ensures Inv(DoBeginSeckill(s, t, v, u, id, clock)) && Later(s, DoBeginSeckill(s, t, v, u, id, clock))
  {
    hide ThreadPart;
    BeginThreads(s, DoBeginSeckill(s, t, v, u, id, clock), t);
  }

  lemma AcceptedId(a: map<int, Pc>, b: map<int, Pc>, t: int, orderIds: map<(int, int), int>, issued: set<int>,
                   stock: map<int, int>, stock': map<int, int>)
    requires FreshIds(a, orderIds, issued) && FreshVouchers(a, stock) && stock.Keys == stock'.Keys
    requires OthersKept(a, b, t) && AtAccept(a, t) && t !in b && a[t].id in issued
    ensures FreshIds(b, orderIds[(a[t].voucher, a[t].user) := a[t].id], issued) && FreshVouchers(b, stock')
  {
    forall w | AtAccept(b, w) ensures AtAccept(a, w) && a[w] == b[w] && w != t {}
    forall w | AtPublishStock(b, w) ensures AtPublishStock(a, w) && a[w] == b[w] {}
  }

  lemma AcceptThreads(s: State, b: State, t: int)
    requires ThreadPart(s) && Later(s, b) && AtAccept(s.threads, t) && b.threads == s.threads - {t}
    requires var pc := s.threads[t];
             && b.redis.orderIds == s.redis.orderIds[(pc.voucher, pc.user) := pc.id]
             && b.hist == s.hist.(replies := s.hist.replies + [Accepted(pc.user, pc.voucher, pc.id)])
    requires b.redis.stock.Keys == s.redis.stock.Keys
    ensures ThreadPart(b)
  {
    assert PcOk(s, s.threads[t]);
    ThreadsStable(s, b, t);
    RepliesStable(s, b);
    AcceptedId(s.threads, b.threads, t, s.redis.orderIds, s.hist.issued, s.redis.stock, b.redis.stock);
  }

  lemma Unaccepted(s: State, t: int)
    requires Inv(s) && AtAccept(s.threads, t)
    ensures forall k :: k in s.redis.orderIds ==> s.redis.orderIds[k] != s.threads[t].id
  {
  }

  lemma Buyer(s: State, v: int, u: int)
    requires Inv(s)
    ensures (v, u) in s.redis.buyers <==> (v, u) in s.redis.orderIds
  {
  }

  lemma KeepsRunSeckillLua(s: State, t: int)
    requires Inv(s) && AtAccept(s.threads, t)
    ensures Inv(DoRunSeckillLua(s, t)) && Later(s, DoRunSeckillLua(s, t))
  {
    hide StorePart, ThreadPart;
    var b := DoRunSeckillLua(s, t);
    var Accepting(v, u, id, clock) := s.threads[t];
    if SeckillCode(s.redis, v, u, clock) == 0 {
      Unaccepted(s, t);
      Buyer(s, v, u);
      AcceptStores(s, b, v, u, id, clock);
      AcceptThreads(s, b, t);
    } else {
      Buyer(s, v, u);
      Quiet(s, b, t);
    }
  }

  lemma KeepsResolveDuplicate(s: State, t: int, row: Option<int>)
    requires Inv(s) && Enabled(s, ResolveDuplicate(t, row))
    ensures Inv(DoResolveDuplicate(s, t, row)) && Later(s, DoResolveDuplicate(s, t, row))
  {
    hide StorePart, ThreadPart;
    Knows(s, t);
    Quiet(s, DoResolveDuplicate(s, t, row), t);
  }

  // ---- the consumer group ----

  lemma KeepsReadStream(s: State, t: int)
    requires Inv(s) && s.redis.delivered < |s.redis.stream|
    ensures Inv(DoReadStream(s, t)) && Later(s, DoReadStream(s, t))
  {
    hide StorePart, ThreadPart;
    var b := DoReadStream(s, t);
    Accountable(s);
    ReadStores(s, b, t);
    ThreadPartKept(s, b, t);
  }

  lemma KeepsScanOwn(s: State, t: int)
    requires Inv(s) && Idle(s, t)
    ensures Inv(DoScanOwn(s, t)) && Later(s, DoScanOwn(s, t))
  {
    hide StorePart, ThreadPart;
    Accountable(s);
    Quiet(s, DoScanOwn(s, t), t);
  }

  lemma KeepsScanIdle(s: State, t: int)
    requires Inv(s) && Idle(s, t)
    ensures Inv(DoScanIdle(s, t)) && Later(s, DoScanIdle(s, t))
  {
    hide StorePart, ThreadPart;
    Accountable(s);
    if IdleIds(s, t) != [] {
      var window := XPending(s.redis.pel, None, 0, s.redis.delivered, CLAIM_SCAN_WINDOW);
      forall k | 0 <= k < |IdleIds(s, t)| ensures IdleIds(s, t)[k] < s.redis.delivered {
        assert IdleIds(s, t)[k] in window;
      }
    }
    Quiet(s, DoScanIdle(s, t), t);
  }

  lemma KeepsClaimIdle(s: State, t: int)
    requires Inv(s) && t in s.threads && s.threads[t].Claiming?
    ensures Inv(DoClaimIdle(s, t)) && Later(s, DoClaimIdle(s, t))
  {
    hide StorePart, ThreadPart;
    var b := DoClaimIdle(s, t);
    Accountable(s);
    ClaimStores(s, b, s.threads[t].ids, t);
    ThreadPartKept(s, b, t);
  }

  lemma KeepsTakeJob(s: State, t: int, looked: bool)
    requires Inv(s) && Enabled(s, TakeJob(t, looked))
    ensures Inv(DoTakeJob(s, t, looked)) && Later(s, DoTakeJob(s, t, looked))
  {
    hide StorePart, ThreadPart;
    Knows(s, t);
    Accountable(s);
    Quiet(s, DoTakeJob(s, t, looked), t);
  }

  lemma KeepsLookupVoucher(s: State, t: int)
    requires Inv(s) && Enabled(s, LookupVoucher(t))
    ensures Inv(DoLookupVoucher(s, t)) && Later(s, DoLookupVoucher(s, t))
  {
    hide StorePart, ThreadPart;
    Knows(s, t);
    EntryAccepted(s, s.redis.stream[s.threads[t].pos]);
    Quiet(s, DoLookupVoucher(s, t), t);
  }

  // ---- the handler ----

  // A row for the entry's user and voucher is a row with the entry's id.
  lemma RowForEntry(s: State, e: Entry)
    requires Inv(s) && e in s.redis.stream && HasRowFor(s.db, e)
    ensures e.id in s.db.orders
  {
    EntryAccepted(s, e);
    if o :| o in s.db.orders && s.db.orders[o].user == e.user && s.db.orders[o].voucher == e.voucher {
      assert IsAccepted(s.redis.orderIds, Entry(o, e.user, e.voucher));
      assert o == e.id;
    }
  }

  lemma KeepsCheckExisting(s: State, t: int)
    requires Inv(s) && Enabled(s, CheckExisting(t))
    ensures Inv(DoCheckExisting(s, t)) && Later(s, DoCheckExisting(s, t))
  {
    hide StorePart, ThreadPart;
    Knows(s, t);
    var e := s.redis.stream[s.threads[t].pos];
    if HasRowFor(s.db, e) {
      RowForEntry(s, e);
    }
    Quiet(s, DoCheckExisting(s, t), t);
  }

  lemma KeepsCommit(s: State, t: int)
    requires Inv(s) && Enabled(s, Commit(t))
    ensures Inv(DoCommit(s, t)) && Later(s, DoCommit(s, t))
  {
    hide StorePart, ThreadPart;
    var b := DoCommit(s, t);
    Knows(s, t);
    var e := s.redis.stream[s.threads[t].pos];
    if InsertResult(s.db, e).DuplicateKey? {
      RowForEntry(s, e);
    }
    InsertStores(s, b, s.threads[t].pos);
    ThreadPartKept(s, b, t);
  }

  lemma KeepsFail(s: State, t: int)
    requires Inv(s) && InHandler(s, t)
    ensures Inv(DoFail(s, t)) && Later(s, DoFail(s, t))
  {
    hide StorePart, ThreadPart;
    Knows(s, t);
    Quiet(s, DoFail(s, t), t);
  }

  lemma KeepsRetry(s: State, t: int)
    requires Inv(s) && InHandler(s, t)
    ensures Inv(DoRetry(s, t)) && Later(s, DoRetry(s, t))
  {
    hide StorePart, ThreadPart;
    Knows(s, t);
    Quiet(s, DoRetry(s, t), t);
  }

  lemma KeepsUnlock(s: State, t: int)
    requires Inv(s) && Enabled(s, Unlock(t))
    ensures Inv(DoUnlock(s, t)) && Later(s, DoUnlock(s, t))
  {
    hide StorePart, ThreadPart;
    Knows(s, t);
    Quiet(s, DoUnlock(s, t), t);
  }

  lemma KeepsIsolate(s: State, t: int)
    requires Inv(s) && Enabled(s, Isolate(t))
    ensures Inv(DoIsolate(s, t)) && Later(s, DoIsolate(s, t))
  {
    hide StorePart, ThreadPart;
    var b := DoIsolate(s, t);
    Knows(s, t);
    var Doomed(pos, reason, jobs) := s.threads[t];
    IsolateStores(s, b, DeadLetter(pos, s.redis.stream[pos], reason));
    assert b.db.dead[|s.db.dead|].entry.id == s.redis.stream[pos].id;
    ThreadPartKept(s, b, t);
  }

  lemma KeepsClearHint(s: State, t: int, ok: bool)
    requires Inv(s) && AtClearHint(s, t)
    ensures Inv(DoClearHint(s, t, ok)) && Later(s, DoClearHint(s, t, ok))
  {
    hide StorePart, ThreadPart;
    var b := DoClearHint(s, t, ok);
    Knows(s, t);
    HintStores(s, b, s.threads[t].pos);
    ThreadPartKept(s, b, t);
  }

  lemma KeepsAck(s: State, t: int)
    requires Inv(s) && AtAck(s, t)
    ensures Inv(DoAck(s, t)) && Later(s, DoAck(s, t))
  {
    hide StorePart, ThreadPart;
    var b := DoAck(s, t);
    Knows(s, t);
    AckStores(s, b, s.threads[t].pos);
    ThreadPartKept(s, b, t);
  }

  lemma ThreadPartReplayed(a: State, b: State)
    requires ThreadPart(a) && Later(a, b) && b.threads == a.threads && b.hist == a.hist
    requires b.redis.orderIds == a.redis.orderIds && b.redis.stock == a.redis.stock
    ensures ThreadPart(b)
  {
    forall w | w in b.threads ensures PcOk(b, b.threads[w]) {
      PcStable(a, b, a.threads[w]);
    }
    RepliesStable(a, b);
  }

  lemma KeepsReplay(s: State, t: int, letter: nat)
    requires Inv(s) && letter < |s.db.dead|
    ensures Inv(DoReplay(s, letter)) && Later(s, DoReplay(s, letter))
  {
    hide StorePart, ThreadPart;
    var b := DoReplay(s, letter);
    ReplayStores(s, b, letter);
    ThreadPartReplayed(s, b);
  }

  // ---- trade ----

  lemma KeepsPayRead(s: State, t: int, o: int)
    requires Inv(s) && Idle(s, t) && o in s.db.orders
    ensures Inv(DoPayRead(s, t, o)) && Later(s, DoPayRead(s, t, o))
  {
    hide StorePart, ThreadPart;
    Quiet(s, DoPayRead(s, t, o), t);
  }

  lemma KeepsPayReread(s: State, t: int)
    requires Inv(s) && Enabled(s, PayReread(t))
    ensures Inv(DoPayReread(s, t)) && Later(s, DoPayReread(s, t))
  {
    hide StorePart, ThreadPart;
    Quiet(s, DoPayReread(s, t), t);
  }

  lemma KeepsCancelRead(s: State, t: int, o: int)
    requires Inv(s) && Idle(s, t) && o in s.db.orders
    ensures Inv(DoCancelRead(s, t, o)) && Later(s, DoCancelRead(s, t, o))
  {
    hide StorePart, ThreadPart;
    Quiet(s, DoCancelRead(s, t, o), t);
  }

  lemma KeepsCancelReread(s: State, t: int)
    requires Inv(s) && Enabled(s, CancelReread(t))
    ensures Inv(DoCancelReread(s, t)) && Later(s, DoCancelReread(s, t))
  {
    hide StorePart, ThreadPart;
    Quiet(s, DoCancelReread(s, t), t);
  }

  lemma KeepsRedeemRead(s: State, t: int, o: int, shop: int, operator: int)
    requires Inv(s) && Idle(s, t) && o in s.db.orders
    ensures Inv(DoRedeemRead(s, t, o, shop, operator)) && Later(s, DoRedeemRead(s, t, o, shop, operator))
  {
    hide StorePart, ThreadPart;
    Quiet(s, DoRedeemRead(s, t, o, shop, operator), t);
  }

  lemma KeepsRedeemReread(s: State, t: int)
    requires Inv(s) && Enabled(s, RedeemReread(t))
    ensures Inv(DoRedeemReread(s, t)) && Later(s, DoRedeemReread(s, t))
  {
    hide StorePart, ThreadPart;
    Knows(s, t);
    Quiet(s, DoRedeemReread(s, t), t);
  }

  lemma KeepsPayUpdate(s: State, t: int)
    requires Inv(s) && Enabled(s, PayUpdate(t))
    ensures Inv(DoPayUpdate(s, t)) && Later(s, DoPayUpdate(s, t))
  {
    hide StorePart, ThreadPart;
    var b := DoPayUpdate(s, t);
    Knows(s, t);
    if HasStatus(s.db.orders, s.threads[t].order, Unpaid) {
      PayStores(s, b, s.threads[t].order);
      ThreadPartKept(s, b, t);
    } else {
      Quiet(s, b, t);
    }
  }

  lemma KeepsCancelUpdate(s: State, t: int)
    requires Inv(s) && Enabled(s, CancelUpdate(t))
    ensures Inv(DoCancelUpdate(s, t)) && Later(s, DoCancelUpdate(s, t))
  {
    hide StorePart, ThreadPart;
    var b := DoCancelUpdate(s, t);
    Knows(s, t);
    if CancelWins(s.db, s.threads[t].order) {
      CancelStores(s, b, s.threads[t].order);
      ThreadPartKept(s, b, t);
    } else {
      Quiet(s, b, t);
    }
  }

  lemma KeepsTimeoutScan(s: State, t: int, batch: seq<int>)
    requires Inv(s) && Idle(s, t) && TimeoutBatch(s, batch)
    ensures Inv(DoTimeoutScan(s, t, batch)) && Later(s, DoTimeoutScan(s, t, batch))
  {
    hide StorePart, ThreadPart;
    forall k | 0 <= k < |batch| ensures PaymentOverdue(s, batch[k]) {
      assert TimedOut(s, batch[k]);
    }
    Quiet(s, DoTimeoutScan(s, t, batch), t);
  }

  lemma KeepsTimeoutCancel(s: State, t: int, ok: bool)
    requires Inv(s) && Enabled(s, TimeoutCancel(t, ok))
    ensures Inv(DoTimeoutCancel(s, t, ok)) && Later(s, DoTimeoutCancel(s, t, ok))
  {
    hide StorePart, ThreadPart;
    var b := DoTimeoutCancel(s, t, ok);
    Knows(s, t);
    var o := s.threads[t].batch[0];
    if ok && CancelWins(s.db, o) {
      CancelStores(s, b, o);
      ThreadPartKept(s, b, t);
    } else {
      Quiet(s, b, t);
    }
  }

  lemma KeepsRedeemWon(s: State, t: int)
    requires Inv(s) && t in s.threads && s.threads[t].Redeeming? && RedeemWins(s.db, s.threads[t].order)
    ensures Inv(DoRedeemUpdate(s, t)) && Later(s, DoRedeemUpdate(s, t))
  {
    hide StorePart, ThreadPart;
    var b := DoRedeemUpdate(s, t);
    Knows(s, t);
    var Redeeming(o, shop, operator, _) := s.threads[t];
    RedeemStores(s, b, o, shop, operator);
    ThreadPartKept(s, b, t);
  }

  lemma KeepsRedeemUpdate(s: State, t: int)
    requires Inv(s) && Enabled(s, RedeemUpdate(t))
    ensures Inv(DoRedeemUpdate(s, t)) && Later(s, DoRedeemUpdate(s, t))
  {
    hide StorePart, ThreadPart;
    if RedeemWins(s.db, s.threads[t].order) {
      KeepsRedeemWon(s, t);
    } else {
      Knows(s, t);
      Quiet(s, DoRedeemUpdate(s, t), t);
    }
  }

  // ---- the outbox worker ----

  lemma KeepsOutboxScan(s: State, t: int)
    requires Inv(s) && Idle(s, t)
    ensures Inv(DoOutboxScan(s, t)) && Later(s, DoOutboxScan(s, t))
  {
    hide StorePart, ThreadPart;
    Quiet(s, DoOutboxScan(s, t), t);
  }

  lemma KeepsReleaseStock(s: State, t: int)
    requires Inv(s) && AtRelease(s, t)
    ensures Inv(DoReleaseStock(s, t)) && Later(s, DoReleaseStock(s, t))
  {
    hide StorePart, ThreadPart;
    var b := DoReleaseStock(s, t);
    Knows(s, t);
    ReleaseStores(s, b, s.threads[t].rows[0]);
    ThreadPartKept(s, b, t);
  }

  lemma KeepsMarkDone(s: State, t: int)
    requires Inv(s) && AtMarkDone(s, t)
    ensures Inv(DoMarkDone(s, t)) && Later(s, DoMarkDone(s, t))
  {
    hide StorePart, ThreadPart;
    var b := DoMarkDone(s, t);
    Knows(s, t);
    MarkDoneStores(s, b, s.threads[t].rows[0]);
    ThreadPartKept(s, b, t);
  }

  lemma KeepsSkipRow(s: State, t: int)
    requires Inv(s) && AtRow(s, t)
    ensures Inv(DoSkipRow(s, t)) && Later(s, DoSkipRow(s, t))
  {
    hide StorePart, ThreadPart;
    Knows(s, t);
    Quiet(s, DoSkipRow(s, t), t);
  }

  lemma KeepsTick(s: State, ms: nat)
    requires Inv(s)
    ensures Inv(s.(now := s.now + ms)) && Later(s, s.(now := s.now + ms))
  {
    hide ThreadPart;
    ThreadPartReplayed(s, s.(now := s.now + ms));
  }
}
