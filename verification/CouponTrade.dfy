// Pay, cancel, redeem and timeout, and the stock release worker, as their services run them among all other threads.
module CouponTrade {
  import opened Wrappers
  import opened CouponStores
  import opened CouponSteps
  import opened CouponInvariant
  import opened CouponRuns
  import opened CouponOrders
  import opened CouponWorld

  datatype Answer =
    | Ok
    | NotLoggedIn
    | NoSuchOrder
    | NotYours
    | AlreadyCancelled
    | AlreadyUsed
    | OnlyUnpaid
    | LostRace
    | NotPrivileged
    | NoShop
    | OnlyPaid
    | NoSuchVoucher
    | WrongShop

  // ---- what each step does, one lemma per action ----

  lemma PayReadStep(s: State, t: int, u: int, o: int)
    requires Idle(s, t) && Owns(s.db, u, o)
    ensures Enabled(s, PayRead(t, u, o)) && Apply(s, PayRead(t, u, o)) == DoPayRead(s, t, o)
  {
  }

  lemma PayUpdateStep(s: State, t: int)
    requires t in s.threads && s.threads[t].Paying?
    ensures Enabled(s, PayUpdate(t)) && Apply(s, PayUpdate(t)) == DoPayUpdate(s, t)
  {
  }

  lemma PayRereadStep(s: State, t: int)
    requires t in s.threads && s.threads[t].PayLost?
    ensures Enabled(s, PayReread(t)) && Apply(s, PayReread(t)) == DoPayReread(s, t)
  {
  }

  // An order never disappears, and its status only moves forward.
  lemma OrderLater(a: State, b: State, o: int)
    requires Later(a, b) && o in a.db.orders
    ensures o in b.db.orders && Reaches(a.db.orders[o].status, b.db.orders[o].status)
    ensures b.db.orders[o].user == a.db.orders[o].user && b.db.orders[o].voucher == a.db.orders[o].voucher
  {
  }

  lemma JustSaid(s: State, y: Reply)
    requires s.hist.replies != [] && s.hist.replies[|s.hist.replies| - 1] == y
    ensures y in s.hist.replies
  {
  }

  // payOrder: read, conditional update, and a second read when the update loses.
  method PayOrder(w: World, t: int, user: Option<int>, order: int) returns (r: Answer)
    requires Reachable(w.s) && Idle(w.s, t)
    modifies w
    ensures Reachable(w.s) && Later(old(w.s), w.s) && Idle(w.s, t)
    ensures r == NotLoggedIn <==> user.None?
    ensures r == NoSuchOrder <==> user.Some? && order !in old(w.s).db.orders
    ensures r == NotYours <==> user.Some? && order in old(w.s).db.orders && old(w.s).db.orders[order].user != user.value
    ensures r == Ok ==> HasStatus(w.s.db.orders, order, Paid) && PayOk(order) in w.s.hist.replies
    ensures r == AlreadyCancelled ==> HasStatus(w.s.db.orders, order, Cancelled)
    ensures r == AlreadyUsed ==> HasStatus(w.s.db.orders, order, Used)
    ensures r == LostRace ==> HasStatus(w.s.db.orders, order, Cancelled) || HasStatus(w.s.db.orders, order, Used)
    ensures r in {Ok, NotLoggedIn, NoSuchOrder, NotYours, AlreadyCancelled, AlreadyUsed, LostRace}
  {
    hide Reachable, Later, Enabled, Apply;
    ghost var s0 := w.s;
    LaterReflexive(s0);
    if user.None? {
      return NotLoggedIn;
    }
    if order !in w.s.db.orders {
      return NoSuchOrder;
    }
    if w.s.db.orders[order].user != user.value {
      return NotYours;
    }
    var status := w.s.db.orders[order].status;
    PayReadStep(w.s, t, user.value, order);
    w.Do(PayRead(t, user.value, order));
    if status == Paid {
      JustSaid(w.s, PayOk(order));
      return Ok;
    }
    if status == Cancelled {
      return AlreadyCancelled;
    }
    if status == Used {
      return AlreadyUsed;
    }
    w.Pause(t);
    ghost var s1 := w.s;
    OrderLater(s0, s1, order);
    PayUpdateStep(w.s, t);
    var won := w.s.db.orders[order].status == Unpaid;
    w.Do(PayUpdate(t));
    if won {
      JustSaid(w.s, PayOk(order));
      return Ok;
    }
    w.Pause(t);
    OrderLater(s1, w.s, order);
    PayRereadStep(w.s, t);
    var again := w.s.db.orders[order].status;
    w.Do(PayReread(t));
    if again == Paid {
      JustSaid(w.s, PayOk(order));
      return Ok;
    }
    r := LostRace;
  }

  lemma CancelReadStep(s: State, t: int, u: int, o: int)
    requires Idle(s, t) && Owns(s.db, u, o)
    ensures Enabled(s, CancelRead(t, u, o)) && Apply(s, CancelRead(t, u, o)) == DoCancelRead(s, t, o)
  {
  }

  lemma CancelUpdateStep(s: State, t: int)
    requires t in s.threads && s.threads[t].Cancelling?
    ensures Enabled(s, CancelUpdate(t)) && Apply(s, CancelUpdate(t)) == DoCancelUpdate(s, t)
  {
  }

  lemma CancelRereadStep(s: State, t: int)
    requires t in s.threads && s.threads[t].CancelLost?
    ensures Enabled(s, CancelReread(t)) && Apply(s, CancelReread(t)) == DoCancelReread(s, t)
  {
  }

  // A row always has its voucher's stock row, so the cancel transaction of an UNPAID order never rolls back.
  lemma CancelNeverRollsBack(s: State, o: int)
    requires Reachable(s) && HasStatus(s.db.orders, o, Unpaid)
    ensures CancelWins(s.db, o)
  {
    ReachableInv(s);
    assert IsAccepted(s.redis.orderIds, Entry(o, s.db.orders[o].user, s.db.orders[o].voucher));
    assert s.db.orders[o].voucher in s.redis.stock.Keys;
    assert s.db.orders[o].voucher in s.db.stock.Keys;
  }

  method CancelOrder(w: World, t: int, user: Option<int>, order: int) returns (r: Answer)
    requires Reachable(w.s) && Idle(w.s, t)
    modifies w
    ensures Reachable(w.s) && Later(old(w.s), w.s) && Idle(w.s, t)
    ensures r == NotLoggedIn <==> user.None?
    ensures r == NoSuchOrder <==> user.Some? && order !in old(w.s).db.orders
    ensures r == NotYours <==> user.Some? && order in old(w.s).db.orders && old(w.s).db.orders[order].user != user.value
    ensures r == Ok ==> HasStatus(w.s.db.orders, order, Cancelled) && HasOutboxRow(w.s.db.outbox, order)
    ensures r == Ok ==> CancelOk(order) in w.s.hist.replies
    ensures r == OnlyUnpaid || r == LostRace ==> HasStatus(w.s.db.orders, order, Paid) || HasStatus(w.s.db.orders, order, Used)
    ensures r in {Ok, NotLoggedIn, NoSuchOrder, NotYours, OnlyUnpaid, LostRace}
  {
    hide Reachable, Later, Enabled, Apply, HasOutboxRow;
    ghost var s0 := w.s;
    LaterReflexive(s0);
    if user.None? {
      return NotLoggedIn;
    }
    if order !in w.s.db.orders {
      return NoSuchOrder;
    }
    if w.s.db.orders[order].user != user.value {
      return NotYours;
    }
    var status := w.s.db.orders[order].status;
    CancelReadStep(w.s, t, user.value, order);
    w.Do(CancelRead(t, user.value, order));
    if status == Cancelled {
      JustSaid(w.s, CancelOk(order));
      CancelAndRedeemRecords(w.s, order);
      return Ok;
    }
    if status != Unpaid {
      return OnlyUnpaid;
    }
    w.Pause(t);
    ghost var s1 := w.s;
    OrderLater(s0, s1, order);
    if s1.db.orders[order].status == Unpaid {
      CancelNeverRollsBack(s1, order);
    }
    CancelUpdateStep(w.s, t);
    var won := w.s.db.orders[order].status == Unpaid;
    w.Do(CancelUpdate(t));
    if won {
      JustSaid(w.s, CancelOk(order));
      CancelAndRedeemRecords(w.s, order);
      return Ok;
    }
    w.Pause(t);
    OrderLater(s1, w.s, order);
    CancelRereadStep(w.s, t);
    var again := w.s.db.orders[order].status;
    w.Do(CancelReread(t));
    if again == Cancelled {
      JustSaid(w.s, CancelOk(order));
      CancelAndRedeemRecords(w.s, order);
      return Ok;
    }
    r := LostRace;
  }

  lemma RedeemReadStep(s: State, t: int, o: int, shop: int, operator: int)
    requires Idle(s, t) && o in s.db.orders
    ensures Enabled(s, RedeemRead(t, o, shop, operator))
    ensures Apply(s, RedeemRead(t, o, shop, operator)) == DoRedeemRead(s, t, o, shop, operator)
  {
  }

  lemma RedeemUpdateStep(s: State, t: int)
    requires t in s.threads && s.threads[t].Redeeming?
    ensures Enabled(s, RedeemUpdate(t)) && Apply(s, RedeemUpdate(t)) == DoRedeemUpdate(s, t)
  {
  }

  lemma RedeemRereadStep(s: State, t: int)
    requires t in s.threads && s.threads[t].RedeemLost?
    ensures Enabled(s, RedeemReread(t)) && Apply(s, RedeemReread(t)) == DoRedeemReread(s, t)
  {
  }

  // The shop that the order's voucher belongs to.
  ghost predicate SoldBy(s: State, o: int, shop: int) {
    o in s.db.orders && s.db.orders[o].voucher in s.db.shopOf && s.db.shopOf[s.db.orders[o].voucher] == shop
  }

  ghost predicate Audited(s: State, o: int) {
    o in s.db.audits && SoldBy(s, o, s.db.audits[o].shop) && s.db.audits[o].voucher == s.db.orders[o].voucher
  }

  lemma UsedIsAudited(s: State, o: int)
    requires Reachable(s) && HasStatus(s.db.orders, o, Used)
    ensures Audited(s, o)
  {
    hide Reachable;
    CancelAndRedeemRecords(s, o);
  }

  lemma VoucherOfOrder(s: State, o: int)
    requires Reachable(s) && o in s.db.orders
    ensures s.db.orders[o].voucher in s.db.shopOf
  {
    ReachableInv(s);
    assert IsAccepted(s.redis.orderIds, Entry(o, s.db.orders[o].user, s.db.orders[o].voucher));
    assert s.db.orders[o].voucher in s.redis.stock.Keys;
    assert s.db.orders[o].voucher in s.db.shopOf.Keys;
  }

  // The re-read of a redeem whose update matched no row: it sees the snapshot, in which the order is PAID.
  method RereadInSnapshot(w: World, t: int, order: int) returns (again: Status)
    requires Reachable(w.s) && t in w.s.threads && w.s.threads[t] == RedeemLost(order, Paid)
    requires HasStatus(w.s.db.orders, order, Used)
    modifies w
    ensures Reachable(w.s) && Later(old(w.s), w.s) && (forall b :: Later(b, old(w.s)) ==> Later(b, w.s)) && Idle(w.s, t)
    ensures again == Paid && HasStatus(w.s.db.orders, order, Used) && Audited(w.s, order)
  {
    hide Reachable, Later, Enabled, Apply, Audited;
    ghost var s0 := w.s;
    w.Pause(t);
    OrderLater(s0, w.s, order);
    RedeemRereadStep(w.s, t);
    again := w.s.threads[t].seen;
    w.Do(RedeemReread(t));
    UsedIsAudited(w.s, order);
  }

  // The caller may redeem, and the snapshot of the transaction shows the order PAID and of this shop.
  ghost predicate MayRedeem(s: State, user: Option<int>, privileged: bool, order: int, shop: Option<int>) {
    user.Some? && privileged && shop.Some? && HasStatus(s.db.orders, order, Paid) && SoldBy(s, order, shop.value)
  }

  // redeemOrder: at is the moment of the conditional update.
  method RedeemOrder(w: World, t: int, user: Option<int>, privileged: bool, order: int,
                     shop: Option<int>) returns (r: Answer, ghost at: State)
    requires Reachable(w.s) && Idle(w.s, t)
    modifies w
    ensures Reachable(w.s) && Later(old(w.s), w.s) && Idle(w.s, t)
    ensures r == NotLoggedIn <==> user.None?
    ensures r == NotPrivileged <==> user.Some? && !privileged
    ensures r == NoShop <==> user.Some? && privileged && shop.None?
    ensures r == NoSuchOrder <==> user.Some? && privileged && shop.Some? && order !in old(w.s).db.orders
    ensures r == Ok ==> HasStatus(w.s.db.orders, order, Used) && Audited(w.s, order) && RedeemOk(order) in w.s.hist.replies
    ensures r == Ok && !HasStatus(old(w.s).db.orders, order, Used) ==>
              HasStatus(old(w.s).db.orders, order, Paid) && shop.Some? && SoldBy(w.s, order, shop.value)
    // the audit row of a redeem that was done here names this operator
    ensures r == Ok && !HasStatus(old(w.s).db.orders, order, Used) ==>
              && user.Some? && shop.Some? && order in w.s.db.audits && order in w.s.db.orders
              && w.s.db.audits[order] == Audit(shop.value, w.s.db.orders[order].voucher, user.value)
    ensures r == WrongShop ==> HasStatus(old(w.s).db.orders, order, Paid) && shop.Some? && !SoldBy(old(w.s), order, shop.value)
    ensures r == OnlyPaid ==> HasStatus(old(w.s).db.orders, order, Unpaid) || HasStatus(old(w.s).db.orders, order, Cancelled)
    // a redeem that comes second is refused, although the order is redeemed: its re-read still sees the snapshot
    ensures Later(old(w.s), at) && Later(at, w.s)
    ensures r == LostRace <==>
              MayRedeem(old(w.s), user, privileged, order, shop) && HasStatus(at.db.orders, order, Used)
    ensures r == LostRace ==> HasStatus(w.s.db.orders, order, Used) && Audited(w.s, order)
    ensures r == Ok <==>
              && user.Some? && privileged && shop.Some?
              && (HasStatus(old(w.s).db.orders, order, Used)
                  || (MayRedeem(old(w.s), user, privileged, order, shop) && HasStatus(at.db.orders, order, Paid)))
    // a row's voucher exists
    ensures r != NoSuchVoucher
  {
    hide Reachable, Later, Enabled, Apply, Audited;
    ghost var s0 := w.s;
    LaterReflexive(s0);
    at := s0;
    if user.None? {
      return NotLoggedIn, s0;
    }
    if !privileged {
      return NotPrivileged, s0;
    }
    if shop.None? {
      return NoShop, s0;
    }
    if order !in w.s.db.orders {
      return NoSuchOrder, s0;
    }
    var row := w.s.db.orders[order];
    VoucherOfOrder(w.s, order);
    RedeemReadStep(w.s, t, order, shop.value, user.value);
    w.Do(RedeemRead(t, order, shop.value, user.value));
    if row.status == Used {
      JustSaid(w.s, RedeemOk(order));
      UsedIsAudited(w.s, order);
      return Ok, s0;
    }
    if row.status != Paid {
      return OnlyPaid, s0;
    }
    if row.voucher !in w.s.db.shopOf {
      return NoSuchVoucher, s0;
    }
    if w.s.db.shopOf[row.voucher] != shop.value {
      return WrongShop, s0;
    }
    ghost var s1 := w.s;
    w.Pause(t);
    at := w.s;
    OrderLater(s0, at, order);
    SameShop(s1, at, order);
    CancelAndRedeemRecords(at, order);
    RedeemUpdateStep(w.s, t);
    var flipped := w.s.db.orders[order].status == Paid;
    w.Do(RedeemUpdate(t));
    if !flipped {
      var again := RereadInSnapshot(w, t, order);
      if again != Used {
        return LostRace, at;
      }
    }
    JustSaid(w.s, RedeemOk(order));
    UsedIsAudited(w.s, order);
    r := Ok;
  }

  lemma SameShop(a: State, b: State, o: int)
    requires Later(a, b) && o in a.db.orders && a.db.orders[o].voucher in a.db.shopOf
    ensures o in b.db.orders && b.db.orders[o].voucher in b.db.shopOf
    ensures b.db.shopOf[b.db.orders[o].voucher] == a.db.shopOf[a.db.orders[o].voucher]
  {
  }

  // ---- the timeout job ----

  ghost predicate BatchLeft(s: State, t: int, batch: seq<int>) {
    if batch == [] then Idle(s, t) else t in s.threads && s.threads[t] == Closing(batch)
  }

  lemma TimeoutScanStep(s: State, t: int, batch: seq<int>)
    requires Idle(s, t) && TimeoutBatch(s, batch)
    ensures Enabled(s, TimeoutScan(t, batch)) && BatchLeft(Apply(s, TimeoutScan(t, batch)), t, batch)
    ensures forall k :: 0 <= k < |batch| ==> batch[k] in s.db.orders
    ensures forall i, j :: 0 <= i < j < |batch| ==> batch[i] != batch[j]
  {
    assert forall k :: 0 <= k < |batch| ==> TimedOut(s, batch[k]);
  }

  lemma TimeoutCancelStep(s: State, t: int, ok: bool)
    requires t in s.threads && s.threads[t].Closing? && s.threads[t].batch != []
    ensures Enabled(s, TimeoutCancel(t, ok)) && Apply(s, TimeoutCancel(t, ok)) == DoTimeoutCancel(s, t, ok)
  {
  }

  // The orders seen so far have left UNPAID, except where the call failed, and those counted are CANCELLED.
  ghost predicate ClosedSoFar(s: State, batch: seq<int>, failing: set<int>, i: nat, won: seq<int>) {
    && i <= |batch|
    && (forall k :: 0 <= k < i && batch[k] !in failing ==> batch[k] in s.db.orders && s.db.orders[batch[k]].status != Unpaid)
    && (forall k :: 0 <= k < |won| ==> won[k] in batch[..i] && HasStatus(s.db.orders, won[k], Cancelled))
    && (forall j, k :: 0 <= j < k < |won| ==> won[j] != won[k])
  }

  lemma ClosedLater(a: State, b: State, batch: seq<int>, failing: set<int>, i: nat, won: seq<int>)
    requires Later(a, b) && ClosedSoFar(a, batch, failing, i, won)
    ensures ClosedSoFar(b, batch, failing, i, won)
  {
    forall k | 0 <= k < i && batch[k] !in failing
      ensures batch[k] in b.db.orders && b.db.orders[batch[k]].status != Unpaid
    {
      OrderLater(a, b, batch[k]);
    }
    forall k | 0 <= k < |won| ensures HasStatus(b.db.orders, won[k], Cancelled) {
      OrderLater(a, b, won[k]);
    }
  }

  lemma ClosedOne(a: State, b: State, batch: seq<int>, failing: set<int>, i: nat, won: seq<int>, wins: bool)
    requires Later(a, b) && ClosedSoFar(a, batch, failing, i, won) && i < |batch|
    requires forall j, k :: 0 <= j < k < |batch| ==> batch[j] != batch[k]
    requires batch[i] !in failing ==> batch[i] in b.db.orders && b.db.orders[batch[i]].status != Unpaid
    requires wins ==> HasStatus(b.db.orders, batch[i], Cancelled)
    ensures ClosedSoFar(b, batch, failing, i + 1, if wins then won + [batch[i]] else won)
  {
    ClosedLater(a, b, batch, failing, i, won);
    assert batch[..i + 1] == batch[..i] + [batch[i]];
    forall k | 0 <= k < |won| ensures won[k] != batch[i] {
      var j :| 0 <= j < i && batch[j] == won[k];
    }
  }

  // The orders whose cancel won: those that were still UNPAID at their turn, and whose call did not fail.
  ghost function Wins(batch: seq<int>, failing: set<int>, at: seq<State>): seq<int>
    requires |batch| == |at|
  {
    if batch == [] then []
    else
      var n := |batch| - 1;
      Wins(batch[..n], failing, at[..n])
      + if batch[n] !in failing && HasStatus(at[n].db.orders, batch[n], Unpaid) then [batch[n]] else []
  }

  lemma WinsOne(batch: seq<int>, failing: set<int>, at: seq<State>, i: nat, s: State, wins: bool)
    requires |at| == i < |batch|
    requires wins <==> batch[i] !in failing && HasStatus(s.db.orders, batch[i], Unpaid)
    ensures Wins(batch[..i + 1], failing, at + [s]) == Wins(batch[..i], failing, at) + if wins then [batch[i]] else []
  {
    assert batch[..i + 1][..i] == batch[..i] && (at + [s])[..i] == at;
  }

  lemma NothingClosed(s: State, batch: seq<int>, failing: set<int>)
    ensures ClosedSoFar(s, batch, failing, 0, []) && Wins([], failing, []) == []
  {
  }

  lemma BatchStays(a: State, b: State, t: int, batch: seq<int>)
    requires SameThread(a, b, t) && BatchLeft(a, t, batch)
    ensures BatchLeft(b, t, batch)
  {
  }

  lemma BatchGone(s: State, t: int)
    ensures BatchLeft(s, t, []) ==> Idle(s, t)
  {
  }

  // What the scan may find among the orders in `some`.
  ghost predicate OldestOf(s: State, some: set<int>, batch: seq<int>) {
    && |batch| <= SCAN_BATCH
    && (forall i :: 0 <= i < |batch| ==> batch[i] in some && batch[i] in s.db.orders)
    && (forall i, j :: 0 <= i < j < |batch| ==> batch[i] != batch[j])
    && (forall i, j :: 0 <= i < j < |batch| ==> s.db.orders[batch[i]].created <= s.db.orders[batch[j]].created)
    && (forall o :: o in some && o !in batch ==>
          && |batch| == SCAN_BATCH && o in s.db.orders
          && s.db.orders[batch[SCAN_BATCH - 1]].created <= s.db.orders[o].created)
  }

  lemma {:induction false} NewestOf(s: State, some: set<int>) returns (o: int)
    requires some != {} && forall p :: p in some ==> p in s.db.orders
    ensures o in some && forall p :: p in some ==> s.db.orders[p].created <= s.db.orders[o].created
    decreases |some|
  {
    o := AnyMember(some);
    if some - {o} != {} {
      var p := NewestOf(s, some - {o});
      if s.db.orders[p].created > s.db.orders[o].created {
        o := p;
      }
    }
  }

  lemma {:induction false} OldestExist(s: State, some: set<int>) returns (batch: seq<int>)
    requires forall p :: p in some ==> p in s.db.orders
    ensures OldestOf(s, some, batch)
    decreases |some|
  {
    batch := [];
    if some != {} {
      var o := NewestOf(s, some);
      var rest := OldestExist(s, some - {o});
      batch := if |rest| < SCAN_BATCH then rest + [o] else rest;
      assert forall p :: p in rest ==> p in batch;
      assert |rest| < SCAN_BATCH ==> batch[|rest|] == o;
      forall p | p in some && p !in batch ensures |batch| == SCAN_BATCH
                                                  && s.db.orders[batch[SCAN_BATCH - 1]].created <= s.db.orders[p].created
      {
        assert p in some - {o} || p == o;
      }
    }
  }

  // The scan always has an answer.
  lemma ScanHasAnswer(s: State) returns (batch: seq<int>)
    ensures TimeoutBatch(s, batch)
  {
    var due := set o | o in s.db.orders && TimedOut(s, o);
    batch := OldestExist(s, due);
  }

  // What the cancels of a batch come to: only overdue orders were closed; and each overdue order has left UNPAID, unless
  // its cancel threw or the scan was full of orders at least as old.
  ghost predicate OverdueClosed(s0: State, s: State, batch: seq<int>, failing: set<int>, won: seq<int>) {
    && (forall k :: 0 <= k < |won| ==>
          HasStatus(s0.db.orders, won[k], Unpaid) && s0.now - s0.db.orders[won[k]].created > 15 * 60 * 1000)
    && (forall o :: HasStatus(s0.db.orders, o, Unpaid) && s0.now - s0.db.orders[o].created > 15 * 60 * 1000 && o !in failing ==>
          || (o in s.db.orders && s.db.orders[o].status != Unpaid)
          || (|batch| == 50 && forall p :: p in batch ==> p in s0.db.orders && s0.db.orders[p].created <= s0.db.orders[o].created))
  }

  lemma BatchIsOverdueClosed(s0: State, t: int, s: State, batch: seq<int>, failing: set<int>, won: seq<int>)
    requires Enabled(s0, TimeoutScan(t, batch)) && ClosedSoFar(s, batch, failing, |batch|, won)
    ensures OverdueClosed(s0, s, batch, failing, won)
  {
    hide Enabled;
    assert batch[..|batch|] == batch;
    forall o ensures o in batch ==> HasStatus(s0.db.orders, o, Unpaid) && PaymentOverdue(s0, o)
             ensures HasStatus(s0.db.orders, o, Unpaid) && PaymentOverdue(s0, o) && o !in batch ==>
                       && |batch| == 50
                       && forall p :: p in batch ==> p in s0.db.orders && s0.db.orders[p].created <= s0.db.orders[o].created
    {
      ScanFindsTheOldest(s0, t, batch, o);
    }
  }

  // closeTimedOutUnpaidOrders, given what the scan found and for which orders the
  // cancel transaction throws; at[k] is the state at the k-th order's turn.
  method CloseTimedOut(w: World, t: int, batch: seq<int>, failing: set<int>)
    returns (closed: nat, ghost won: seq<int>, ghost at: seq<State>)
    requires Reachable(w.s) && Idle(w.s, t) && TimeoutBatch(w.s, batch)
    modifies w
    ensures Reachable(w.s) && Later(old(w.s), w.s) && Idle(w.s, t)
    ensures ClosedSoFar(w.s, batch, failing, |batch|, won)
    ensures |at| == |batch| && won == Wins(batch, failing, at) && closed == |won|
    ensures OverdueClosed(old(w.s), w.s, batch, failing, won)
  {
    hide Reachable, Later, Enabled, Apply, TimeoutBatch, ClosedSoFar, BatchLeft, DoTimeoutCancel, Wins, OverdueClosed;
    LaterReflexive(w.s);
    TimeoutScanStep(w.s, t, batch);
    w.Do(TimeoutScan(t, batch));
    closed, won, at := 0, [], [];
    NothingClosed(w.s, batch, failing);
    assert batch[0..] == batch;
    assert batch[..0] == [];
    var i := 0;
    while i < |batch|
      invariant i <= |batch| && Reachable(w.s) && Later(old(w.s), w.s) && BatchLeft(w.s, t, batch[i..])
      invariant forall k :: 0 <= k < |batch| ==> batch[k] in old(w.s).db.orders
      invariant ClosedSoFar(w.s, batch, failing, i, won) && closed == |won| && |at| == i
      invariant won == Wins(batch[..i], failing, at)
    {
      ghost var s0 := w.s;
      w.Pause(t);
      OrderLater(old(w.s), w.s, batch[i]);
      BatchStays(s0, w.s, t, batch[i..]);
      ghost var s1 := w.s;
      ClosedLater(s0, s1, batch, failing, i, won);
      assert batch[i..][0] == batch[i] && batch[i..][1..] == batch[i + 1..];
      var wins := CancelNext(w, t, batch[i..], batch[i] in failing);
      ClosedOne(s1, w.s, batch, failing, i, won, wins);
      WinsOne(batch, failing, at, i, s1, wins);
      at := at + [s1];
      if wins {
        closed, won := closed + 1, won + [batch[i]];
      }
      i := i + 1;
    }
    BatchGone(w.s, t);
    BatchIsOverdueClosed(old(w.s), t, w.s, batch, failing, won);
    assert batch[|batch|..] == [];
    assert batch[..|batch|] == batch;
  }

  // cancelUnpaidOrder for the next order of the batch; an exception is logged.
  method CancelNext(w: World, t: int, batch: seq<int>, fails: bool) returns (wins: bool)
    requires Reachable(w.s) && batch != [] && BatchLeft(w.s, t, batch) && batch[0] in w.s.db.orders
    modifies w
    ensures Reachable(w.s) && Later(old(w.s), w.s) && (forall b :: Later(b, old(w.s)) ==> Later(b, w.s))
    ensures BatchLeft(w.s, t, batch[1..])
    ensures !fails ==> batch[0] in w.s.db.orders && w.s.db.orders[batch[0]].status != Unpaid
    ensures wins ==> HasStatus(w.s.db.orders, batch[0], Cancelled)
    ensures wins <==> !fails && old(w.s).db.orders[batch[0]].status == Unpaid
  {
    hide Reachable, Later, Enabled, Apply;
    TimeoutCancelStep(w.s, t, !fails);
    wins := !fails && w.s.db.orders[batch[0]].status == Unpaid;
    if wins {
      CancelNeverRollsBack(w.s, batch[0]);
    }
    w.Do(TimeoutCancel(t, !fails));
  }

  // ---- the stock release worker ----

  method ListPendingOutbox(w: World, limit: nat) returns (rows: seq<nat>)
    ensures rows == PendingRows(w.s.db.outbox, 0, limit)
  {
    var outbox := w.s.db.outbox;
    rows := [];
    var i := 0;
    while i < |outbox| && |rows| < limit
      invariant i <= |outbox| && |rows| <= limit
      invariant rows + PendingRows(outbox, i, limit - |rows|) == PendingRows(outbox, 0, limit)
    {
      if !outbox[i].done {
        ghost var rest := PendingRows(outbox, i + 1, limit - |rows| - 1);
        assert PendingRows(outbox, i, limit - |rows|) == [i] + rest;
        assert rows + ([i] + rest) == (rows + [i]) + rest;
        rows := rows + [i];
      }
      i := i + 1;
    }
    assert PendingRows(outbox, i, limit - |rows|) == [];
  }

  ghost predicate RowLeft(s: State, t: int, rows: seq<nat>) {
    if rows == [] then Idle(s, t) else t in s.threads && s.threads[t] == Releasing(rows)
  }

  lemma OutboxScanStep(s: State, t: int)
    requires Idle(s, t)
    ensures Enabled(s, OutboxScan(t)) && Apply(s, OutboxScan(t)) == DoOutboxScan(s, t)
  {
  }

  lemma ReleaseStep(s: State, t: int)
    requires AtRelease(s, t)
    ensures Enabled(s, ReleaseStock(t))
    ensures Apply(s, ReleaseStock(t)).threads == s.threads[t := Released(s.threads[t].rows)]
    ensures Apply(s, ReleaseStock(t)).db == s.db
    ensures s.db.outbox[s.threads[t].rows[0]].eventKey in Apply(s, ReleaseStock(t)).redis.done
  {
  }

  lemma MarkDoneStep(s: State, t: int)
    requires AtMarkDone(s, t)
    ensures Enabled(s, MarkDone(t)) && RowLeft(Apply(s, MarkDone(t)), t, s.threads[t].rows[1..])
    ensures Apply(s, MarkDone(t)).redis == s.redis && |Apply(s, MarkDone(t)).db.outbox| == |s.db.outbox|
    ensures Apply(s, MarkDone(t)).db.outbox[s.threads[t].rows[0]] == s.db.outbox[s.threads[t].rows[0]].(done := true)
  {
  }

  lemma SkipRowStep(s: State, t: int)
    requires AtRow(s, t)
    ensures Enabled(s, SkipRow(t)) && Apply(s, SkipRow(t)) == DoSkipRow(s, t)
  {
  }

  // The cancel of this row has been given back to Redis, and the row says so.
  ghost predicate GivenBack(s: State, row: nat) {
    row < |s.db.outbox| && s.db.outbox[row].done && s.db.outbox[row].eventKey in s.redis.done
  }

  lemma RowLater(a: State, b: State, row: nat)
    requires Later(a, b) && row < |a.db.outbox|
    ensures row < |b.db.outbox| && b.db.outbox[row] == a.db.outbox[row].(done := b.db.outbox[row].done)
    ensures a.redis.done <= b.redis.done
  {
  }

  // Redis has taken the cancel of this row back, whatever the row says.
  ghost predicate Returned(s: State, row: nat) {
    row < |s.db.outbox| && s.db.outbox[row].eventKey in s.redis.done
  }

  // What throws in one call: nothing; the script, before it ran; or something after it ran and before the row is DONE,
  // be it the reply of the script or the update.
  datatype Trouble = Smooth | BeforeScript | AfterScript

  // What the poll knows of a row it has tried.
  ghost predicate Tried(s: State, row: nat, trouble: Trouble) {
    match trouble
    case Smooth => GivenBack(s, row)
    case BeforeScript => true
    case AfterScript => Returned(s, row)
  }

  lemma TriedLater(a: State, b: State, row: nat, trouble: Trouble)
    requires Later(a, b) && Tried(a, row, trouble)
    ensures Tried(b, row, trouble)
  {
  }

  // applyOnce, with the catch block of its caller: whether the increment ran here is decided by the script alone, and a
  // throw behind it leaves the key set, so that the next try only marks the row.
  method ApplyOnce(w: World, t: int, ghost rows: seq<nat>, row: nat, trouble: Trouble) returns (incrRan: Option<bool>)
    requires Reachable(w.s) && rows != [] && row == rows[0] < |w.s.db.outbox| && RowLeft(w.s, t, rows)
    modifies w
    ensures Reachable(w.s) && Later(old(w.s), w.s) && (forall b :: Later(b, old(w.s)) ==> Later(b, w.s))
    ensures Tried(w.s, row, trouble) && RowLeft(w.s, t, rows[1..])
    ensures trouble.BeforeScript? ==> w.s.redis == old(w.s).redis && w.s.db == old(w.s).db
    ensures incrRan.Some? <==> trouble.Smooth?
    ensures incrRan.Some? ==> (incrRan.value <==> !Returned(old(w.s), row))
  {
    hide Reachable, Later, Enabled, Apply;
    LaterReflexive(w.s);
    if trouble.BeforeScript? {
      SkipRowStep(w.s, t);
      w.Do(SkipRow(t));
      return None;
    }
    ReleaseStep(w.s, t);
    incrRan := Some(w.s.db.outbox[row].eventKey !in w.s.redis.done);
    w.Do(ReleaseStock(t));
    ghost var s1 := w.s;
    w.Pause(t);
    RowLater(s1, w.s, row);
    if trouble.AfterScript? {
      SkipRowStep(w.s, t);
      w.Do(SkipRow(t));
      return None;
    }
    MarkDoneStep(w.s, t);
    w.Do(MarkDone(t));
  }

  function TroubleOf(troubles: map<nat, Trouble>, row: nat): Trouble {
    if row in troubles then troubles[row] else Smooth
  }

  // pollAndApply, given the rows whose calls throw, and where.
  method PollAndApply(w: World, t: int, troubles: map<nat, Trouble>)
    requires Reachable(w.s) && Idle(w.s, t)
    modifies w
    ensures Reachable(w.s) && Later(old(w.s), w.s) && Idle(w.s, t)
    ensures forall k :: 0 <= k < |PendingRows(old(w.s).db.outbox, 0, 50)| ==>
              var row := PendingRows(old(w.s).db.outbox, 0, 50)[k];
              Tried(w.s, row, TroubleOf(troubles, row))
  {
    hide Reachable, Later, Enabled, Apply, PendingRows, Tried;
    LaterReflexive(w.s);
    OutboxScanStep(w.s, t);
    var pending := ListPendingOutbox(w, SCAN_BATCH);
    w.Do(OutboxScan(t));
    assert pending[0..] == pending;
    var i := 0;
    while i < |pending|
      invariant i <= |pending| && Reachable(w.s) && Later(old(w.s), w.s) && RowLeft(w.s, t, pending[i..])
      invariant forall k :: 0 <= k < |pending| ==> pending[k] < |old(w.s).db.outbox|
      invariant forall k :: 0 <= k < i ==> Tried(w.s, pending[k], TroubleOf(troubles, pending[k]))
    {
      ghost var s0 := w.s;
      w.Pause(t);
      RowLater(old(w.s), w.s, pending[i]);
      var incrRan := ApplyOnce(w, t, pending[i..], pending[i], TroubleOf(troubles, pending[i]));
      assert pending[i..][1..] == pending[i + 1..];
      LaterReflexive(s0);
      forall k | 0 <= k < i ensures Tried(w.s, pending[k], TroubleOf(troubles, pending[k])) {
        TriedLater(s0, w.s, pending[k], TroubleOf(troubles, pending[k]));
      }
      i := i + 1;
    }
  }
}
