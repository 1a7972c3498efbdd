// Orders over whole runs: created once, never lost, moving along one path, and what their owner is told.
module CouponOrders {
  import opened Wrappers
  import opened CouponStores
  import opened CouponSteps
  import opened CouponInvariant
  import opened CouponRuns

  // ---- creation: at most one row per purchase, under the accepted id ----

  lemma OrdersOfInv(s: State)
    requires Inv(s)
    ensures OrdersOk(s.db.orders, s.redis.orderIds) && IdsInjective(s.redis.orderIds)
    ensures OutboxOk(s.db.outbox, s.db.orders) && AuditsOk(s.db.audits, s.db.orders, s.db.shopOf)
    ensures DoneOk(s.redis.done, s.db.outbox, s.db.orders)
    ensures RepliesOk(s)
  {
  }

  // However often an entry is redelivered, retried or replayed, one (user, voucher) has at most one row, and that row
  // carries the id its buyer was given.
  lemma OneRowPerPurchase(s: State, o: int, p: int)
    requires Reachable(s) && o in s.db.orders && p in s.db.orders
    requires s.db.orders[o].user == s.db.orders[p].user && s.db.orders[o].voucher == s.db.orders[p].voucher
    ensures o == p
    ensures IsAccepted(s.redis.orderIds, Entry(o, s.db.orders[o].user, s.db.orders[o].voucher))
  {
    hide Inv;
    ReachableInv(s);
    OrdersOfInv(s);
    assert IsAccepted(s.redis.orderIds, Entry(o, s.db.orders[o].user, s.db.orders[o].voucher));
    assert IsAccepted(s.redis.orderIds, Entry(p, s.db.orders[p].user, s.db.orders[p].voucher));
  }

  // ---- no accepted purchase is lost ----

  // Where an accepted order id can be: not yet delivered, pending in the group, an order row, or a dead letter.
  ghost predicate Accounted(s: State, id: int) {
    || (exists p: nat :: p < |s.redis.stream| && s.redis.stream[p].id == id && (p >= s.redis.delivered || p in s.redis.pel))
    || Settled(s.db.orders, s.db.dead, id)
  }

  lemma AcceptKeyOwner(s: State, v: int, u: int)
    requires Inv(s) && (v, u) in s.redis.orderIds
    ensures var id := s.redis.orderIds[(v, u)]; id in s.redis.accept ==> s.redis.accept[id] == u
  {
    var id := s.redis.orderIds[(v, u)];
    assert id in s.redis.accept ==> AcceptedFor(s.redis.orderIds, s.redis.accept[id], id);
  }

  lemma EntryOf(s: State, v: int, u: int) returns (p: nat)
    requires Inv(s) && (v, u) in s.redis.orderIds
    ensures p < |s.redis.stream| && s.redis.stream[p] == Entry(s.redis.orderIds[(v, u)], u, v)
    ensures p < s.redis.delivered ==> p in s.redis.pel || Settled(s.db.orders, s.db.dead, s.redis.stream[p].id)
    ensures var id := s.redis.orderIds[(v, u)]; id in s.redis.accept || Settled(s.db.orders, s.db.dead, id)
    ensures var id := s.redis.orderIds[(v, u)]; id in s.redis.accept ==> s.redis.accept[id] == u
  {
    AcceptKeyOwner(s, v, u);
    assert Entry(s.redis.orderIds[(v, u)], u, v) in s.redis.stream;
    p :| 0 <= p < |s.redis.stream| && s.redis.stream[p] == Entry(s.redis.orderIds[(v, u)], u, v);
  }

  lemma NoAcceptedOrderLost(s: State, v: int, u: int)
    requires Reachable(s) && (v, u) in s.redis.orderIds
    ensures Accounted(s, s.redis.orderIds[(v, u)])
  {
    hide Inv;
    ReachableInv(s);
    var p := EntryOf(s, v, u);
    if p < s.redis.delivered && p !in s.redis.pel {
      assert Settled(s.db.orders, s.db.dead, s.redis.orderIds[(v, u)]);
    }
  }

  // Every id that a buyer was ever told stays accounted for, whatever happens next. A duplicate request is never
  // refused and repeats the first id.
  lemma ToldIdsAreKept(s: State, i: nat)
    requires Reachable(s) && i < |s.hist.replies|
    ensures !s.hist.replies[i].DuplicateRefused?
    ensures s.hist.replies[i].Accepted? ==> Accounted(s, s.hist.replies[i].id)
    ensures forall j :: 0 <= j < |s.hist.replies| && s.hist.replies[i].Accepted? && s.hist.replies[j].Accepted?
                        && s.hist.replies[i].user == s.hist.replies[j].user
                        && s.hist.replies[i].voucher == s.hist.replies[j].voucher
                        ==> s.hist.replies[i].id == s.hist.replies[j].id
  {
    hide Inv;
    ReachableInv(s);
    OrdersOfInv(s);
    assert ReplyOk(s, s.hist.replies[i]);
    if s.hist.replies[i].Accepted? {
      NoAcceptedOrderLost(s, s.hist.replies[i].voucher, s.hist.replies[i].user);
      forall j | 0 <= j < |s.hist.replies| ensures ReplyOk(s, s.hist.replies[j]) {}
    }
  }

  // ---- pay, cancel, timeout and redeem races ----

  // No run answers ok to both a pay and a cancel of one order, nor to a redeem and a cancel.
  lemma NeverPaidAndCancelled(s: State, i: nat, j: nat)
    requires Reachable(s) && i < |s.hist.replies| && j < |s.hist.replies|
    requires s.hist.replies[i].CancelOk? && (s.hist.replies[j].PayOk? || s.hist.replies[j].RedeemOk?)
    ensures s.hist.replies[i].order != s.hist.replies[j].order
  {
    hide Inv;
    ReachableInv(s);
    OrdersOfInv(s);
    assert ReplyOk(s, s.hist.replies[i]) && ReplyOk(s, s.hist.replies[j]);
  }

  // CANCELLED orders and outbox rows are in bijection; an audit row
  // exists exactly for USED orders, with the voucher's shop.
  lemma CancelAndRedeemRecords(s: State, o: int)
    requires Reachable(s)
    ensures HasStatus(s.db.orders, o, Cancelled) <==> HasOutboxRow(s.db.outbox, o)
    ensures forall i, j :: 0 <= i < j < |s.db.outbox| ==> s.db.outbox[i].order != s.db.outbox[j].order
    ensures o in s.db.audits <==> HasStatus(s.db.orders, o, Used)
    ensures o in s.db.audits ==>
              && s.db.audits[o].voucher == s.db.orders[o].voucher
              && s.db.orders[o].voucher in s.db.shopOf && s.db.audits[o].shop == s.db.shopOf[s.db.orders[o].voucher]
  {
    hide Inv;
    ReachableInv(s);
    OrdersOfInv(s);
  }

  // A row appears UNPAID and dated now, and one step moves its status at most along
  // one edge of the trade flow, by the action of that edge.
  ghost predicate AlongEdge(s: State, a: Action, o: int)
    requires Enabled(s, a)
  {
    var before, after := s.db.orders, Apply(s, a).db.orders;
    && (o in before ==> o in after)
    && (o in after && o !in before ==> after[o].status == Unpaid && after[o].created == s.now && a.Commit?)
    && (o in before && o in after && before[o].status != after[o].status ==>
          match (before[o].status, after[o].status)
          case (Unpaid, Paid) => a.PayUpdate?
          case (Unpaid, Cancelled) => a.CancelUpdate? || a.TimeoutCancel?
          case (Paid, Used) => a.RedeemUpdate?
          case _ => false)
  }

  predicate WritesStatus(a: Action) { a.PayUpdate? || a.CancelUpdate? || a.TimeoutCancel? || a.RedeemUpdate? }

  lemma TradeEdges(s: State, a: Action, o: int)
    requires Enabled(s, a) && WritesStatus(a)
    ensures AlongEdge(s, a, o)
  {
  }

  predicate WritesOutbox(a: Action) { a.ReleaseStock? || a.MarkDone? }

  lemma OutboxQuiet(s: State, a: Action)
    requires Enabled(s, a) && WritesOutbox(a)
    ensures Apply(s, a).db.orders == s.db.orders && Apply(s, a).db.audits == s.db.audits
  {
  }

  lemma ReadQuiet(s: State, a: Action)
    requires Enabled(s, a) && IsTrade(a) && !WritesStatus(a) && !WritesOutbox(a)
    ensures Apply(s, a).db == s.db
  {
  }

  lemma TradeQuiet(s: State, a: Action)
    requires Enabled(s, a) && IsTrade(a) && !WritesStatus(a)
    ensures Apply(s, a).db.orders == s.db.orders && Apply(s, a).db.audits == s.db.audits
  {
    hide Enabled, Apply;
    if WritesOutbox(a) { OutboxQuiet(s, a); } else { ReadQuiet(s, a); }
  }

  lemma CommitEdge(s: State, a: Action, o: int)
    requires Enabled(s, a) && a.Commit?
    ensures AlongEdge(s, a, o)
  {
  }

  lemma SeckillQuiet(s: State, a: Action)
    requires Enabled(s, a) && !IsTrade(a) && !a.Commit?
    ensures Apply(s, a).db.orders == s.db.orders
  {
  }

  lemma QuietEdge(s: State, a: Action, o: int)
    requires Enabled(s, a) && Apply(s, a).db.orders == s.db.orders
    ensures AlongEdge(s, a, o)
  {
    hide Enabled, Apply;
  }

  lemma StatusMovesAlongEdges(s: State, a: Action, o: int)
    requires Enabled(s, a)
    ensures AlongEdge(s, a, o)
  {
    hide Enabled, Apply, AlongEdge;
    if WritesStatus(a) {
      TradeEdges(s, a, o);
    } else if a.Commit? {
      CommitEdge(s, a, o);
    } else if IsTrade(a) {
      TradeQuiet(s, a);
      QuietEdge(s, a, o);
    } else {
      SeckillQuiet(s, a);
      QuietEdge(s, a, o);
    }
  }

  // ---- the timeout job ----

  // At its turn an order of the batch is more than 15 minutes old.
  lemma BatchIsOverdue(s: State, t: int)
    requires Inv(s) && t in s.threads && s.threads[t].Closing?
    ensures forall k :: 0 <= k < |s.threads[t].batch| ==> PaymentOverdue(s, s.threads[t].batch[k])
  {
    assert PcOk(s, s.threads[t]);
  }

  lemma ClosesNext(s: State, a: Action, o: int)
    requires Enabled(s, a) && a.TimeoutCancel?
    ensures a.t in s.threads && s.threads[a.t].Closing? && s.threads[a.t].batch != []
    ensures !HasStatus(s.db.orders, o, Cancelled) && HasStatus(Apply(s, a).db.orders, o, Cancelled) ==>
              o == s.threads[a.t].batch[0]
  {
  }

  // The buyer has 15 minutes: whatever happens in between, if step a makes the row of an order appear and the timeout
  // job cancels the order in a later step c, more than 15 minutes lie between the two.
  lemma BuyerHasFifteenMinutes(s: State, a: Action, run: seq<Action>, c: Action, o: int)
    requires Reachable(s) && Enabled(s, a) && IsRun(Apply(s, a), run) && Enabled(After(Apply(s, a), run), c)
    requires o !in s.db.orders && o in Apply(s, a).db.orders
    requires c.TimeoutCancel? && !HasStatus(After(Apply(s, a), run).db.orders, o, Cancelled)
    requires HasStatus(Apply(After(Apply(s, a), run), c).db.orders, o, Cancelled)
    ensures After(Apply(s, a), run).now - s.now > 15 * 60 * 1000
  {
    hide Inv, Enabled, Apply;
    var b := Apply(s, a);
    var z := After(b, run);
    ReachableInv(s);
    StepKeepsInv(s, a);
    RunKeepsInv(b, run);
    StatusMovesAlongEdges(s, a, o);
    ClosesNext(z, c, o);
    BatchIsOverdue(z, c.t);
    assert PaymentOverdue(z, z.threads[c.t].batch[0]);
  }

  // What the scan finds: only UNPAID orders of more than 15 minutes, and every such order unless 50 that are at least as
  // old are found.
  lemma ScanFindsTheOldest(s: State, t: int, batch: seq<int>, o: int)
    requires Enabled(s, TimeoutScan(t, batch))
    ensures |batch| <= 50 && forall i, j :: 0 <= i < j < |batch| ==> batch[i] != batch[j]
    ensures o in batch ==> HasStatus(s.db.orders, o, Unpaid) && PaymentOverdue(s, o)
    ensures HasStatus(s.db.orders, o, Unpaid) && PaymentOverdue(s, o) && o !in batch ==>
              && |batch| == 50
              && forall p :: p in batch ==> p in s.db.orders && s.db.orders[p].created <= s.db.orders[o].created
  {
    forall k | 0 <= k < |batch| ensures TimedOut(s, batch[k]) {}
    forall p | p in batch && TimedOut(s, o) && o !in batch ensures s.db.orders[p].created <= s.db.orders[o].created {
      var k :| 0 <= k < |batch| && batch[k] == p;
      assert k < SCAN_BATCH - 1 ==> s.db.orders[batch[k]].created <= s.db.orders[batch[SCAN_BATCH - 1]].created;
    }
  }

  // ---- who redeemed ----

  // An audit row, once there, is never rewritten, and it names the operator who redeemed, the shop that the operator
  // redeemed for and the order's voucher.
  ghost predicate AuditKept(s: State, a: Action, o: int)
    requires Enabled(s, a)
  {
    var before, after := s.db.audits, Apply(s, a).db.audits;
    && (o in before ==> o in after && after[o] == before[o])
    && (o in after && o !in before ==>
          && a.RedeemUpdate? && a.t in s.threads && s.threads[a.t].Redeeming? && s.threads[a.t].order == o
          && after[o].operator == s.threads[a.t].operator && after[o].shop == s.threads[a.t].shop
          && o in s.db.orders && after[o].voucher == s.db.orders[o].voucher)
  }

  lemma AuditsStay(s: State, a: Action)
    requires Enabled(s, a) && !a.RedeemUpdate?
    ensures Apply(s, a).db.audits == s.db.audits
  {
    hide Apply;
    if WritesStatus(a) {
      StatusAudits(s, a);
    } else if IsTrade(a) {
      TradeQuiet(s, a);
    } else {
      SeckillAudits(s, a);
    }
  }

  lemma StatusAudits(s: State, a: Action)
    requires Enabled(s, a) && WritesStatus(a) && !a.RedeemUpdate?
    ensures Apply(s, a).db.audits == s.db.audits
  {
  }

  lemma SeckillAudits(s: State, a: Action)
    requires Enabled(s, a) && !IsTrade(a)
    ensures Apply(s, a).db.audits == s.db.audits
  {
  }

  lemma AuditNamesRedeemer(s: State, a: Action, o: int)
    requires Enabled(s, a)
    ensures AuditKept(s, a, o)
  {
    if !a.RedeemUpdate? {
      hide Apply, Enabled;
      AuditsStay(s, a);
    }
  }

  // ---- exactly-once stock release ----

  ghost function ReleasedOrders(s: State): set<int> { set o | o in s.db.orders && EventKey(o) in s.redis.done }

  ghost function Keys(orders: set<int>): set<string> { set o | o in orders :: EventKey(o) }

  lemma NewKey(orders: set<int>, o: int)
    requires o !in orders
    ensures |Keys(orders + {o})| == |Keys(orders)| + 1
  {
    forall p | p in orders ensures EventKey(p) != EventKey(o) {
      if EventKey(p) == EventKey(o) {
        EventKeyInjective(p, o);
      }
    }
    assert Keys(orders + {o}) == Keys(orders) + {EventKey(o)};
  }

  lemma AnyMember<T>(s: set<T>) returns (x: T)
    requires s != {}
    ensures x in s
  {
    x :| x in s;
  }

  lemma {:induction false} KeysSize(orders: set<int>)
    ensures |Keys(orders)| == |orders|
    decreases |orders|
  {
    if orders == {} {
      assert Keys(orders) == {};
    } else {
      var o := AnyMember(orders);
      var rest := orders - {o};
      KeysSize(rest);
      NewKey(rest, o);
      assert rest + {o} == orders;
    }
  }

  // Done keys and released orders correspond one to one; each released order is CANCELLED, and a DONE outbox
  // row has its key set. With the Redis ledger, Redis stock was increased exactly once per done key.
  lemma ReleasedExactlyOnce(s: State)
    requires Reachable(s)
    ensures |s.redis.done| == |ReleasedOrders(s)|
    ensures forall o :: o in ReleasedOrders(s) ==> HasStatus(s.db.orders, o, Cancelled)
    ensures forall i :: 0 <= i < |s.db.outbox| && s.db.outbox[i].done ==> s.db.outbox[i].order in ReleasedOrders(s)
    ensures RedisLedger(s.redis.stock, s.redis.orderIds, s.db.orders, s.redis.done, s.hist.initial)
  {
    hide Inv;
    ReachableInv(s);
    OrdersOfInv(s);
    LedgerOfInv(s);
    ReleasedKeys(s);
    KeysSize(ReleasedOrders(s));
  }

  lemma LedgerOfInv(s: State)
    requires Inv(s)
    ensures RedisLedger(s.redis.stock, s.redis.orderIds, s.db.orders, s.redis.done, s.hist.initial)
  {
  }

  lemma ReleasedKeys(s: State)
    requires DoneOk(s.redis.done, s.db.outbox, s.db.orders) && OutboxOk(s.db.outbox, s.db.orders)
    ensures Keys(ReleasedOrders(s)) == s.redis.done
    ensures forall o :: o in ReleasedOrders(s) ==> HasStatus(s.db.orders, o, Cancelled)
    ensures forall i :: 0 <= i < |s.db.outbox| && s.db.outbox[i].done ==> s.db.outbox[i].order in ReleasedOrders(s)
  {
    forall key | key in s.redis.done ensures key in Keys(ReleasedOrders(s)) {
      assert KeyOfCancelled(s.db.orders, key);
      var o :| HasStatus(s.db.orders, o, Cancelled) && EventKey(o) == key;
      assert o in ReleasedOrders(s);
    }
    forall o | o in ReleasedOrders(s) ensures HasStatus(s.db.orders, o, Cancelled) {
      assert KeyOfCancelled(s.db.orders, EventKey(o));
      var p :| HasStatus(s.db.orders, p, Cancelled) && EventKey(p) == EventKey(o);
      EventKeyInjective(p, o);
    }
    forall i | 0 <= i < |s.db.outbox| && s.db.outbox[i].done ensures s.db.outbox[i].order in ReleasedOrders(s) {
      assert HasStatus(s.db.orders, s.db.outbox[i].order, Cancelled);
    }
  }

  // ---- queryOrderById on one snapshot ----

  datatype View =
    | Success(id: int, voucher: int, status: Status)
    | Failed(id: int, voucher: int)
    | Processing(id: int)
    | Forbidden
    | Missing

  // ORDER BY id DESC LIMIT 1
  function LatestLetter(dead: seq<DeadLetter>, id: int): (r: Option<DeadLetter>)
    ensures r.Some? <==> exists i :: 0 <= i < |dead| && dead[i].entry.id == id
    ensures r.Some? ==> r.value in dead && r.value.entry.id == id
  {
    if dead == [] then None
    else if dead[|dead| - 1].entry.id == id then Some(dead[|dead| - 1])
    else LatestLetter(dead[..|dead| - 1], id)
  }

  function QueryOrder(s: State, user: int, id: int): View {
    if id in s.db.orders then
      var row := s.db.orders[id];
      if row.user == user then Success(id, row.voucher, row.status) else Forbidden
    else
      match LatestLetter(s.db.dead, id)
      case Some(letter) => if letter.entry.user == user then Failed(id, letter.entry.voucher) else Forbidden
      case None =>
        if id in s.redis.accept then (if s.redis.accept[id] == user then Processing(id) else Forbidden) else Missing
  }

  lemma LettersOfInv(s: State, letter: DeadLetter)
    requires Inv(s) && letter in s.db.dead
    ensures IsAccepted(s.redis.orderIds, letter.entry) && IdsInjective(s.redis.orderIds)
  {
    var i :| 0 <= i < |s.db.dead| && s.db.dead[i] == letter;
    assert s.redis.stream[letter.pos] == letter.entry;
    assert letter.entry in s.redis.stream;
  }

  // The owner of an accepted id always gets a definite answer about it with the right voucher; anybody else is refused.
  lemma OwnerViewIsTotal(s: State, v: int, u: int, user: int)
    requires Reachable(s) && (v, u) in s.redis.orderIds
    ensures var id := s.redis.orderIds[(v, u)];
            match QueryOrder(s, user, id)
            case Success(i, w, _) => user == u && i == id && w == v
            case Failed(i, w) => user == u && i == id && w == v
            case Processing(i) => user == u && i == id
            case Forbidden => user != u
            case Missing => false
  {
    hide Inv;
    ReachableInv(s);
    OrdersOfInv(s);
    var id := s.redis.orderIds[(v, u)];
    var p := EntryOf(s, v, u);
    if id in s.db.orders {
      assert IsAccepted(s.redis.orderIds, Entry(id, s.db.orders[id].user, s.db.orders[id].voucher));
    } else if LatestLetter(s.db.dead, id).Some? {
      LettersOfInv(s, LatestLetter(s.db.dead, id).value);
    }
  }

  // An answer about an order means that it was accepted for the asker; and only an id that nobody was accepted under is
  // said not to exist.
  lemma OnlyAcceptedIdsAreKnown(s: State, user: int, id: int)
    requires Reachable(s)
    ensures QueryOrder(s, user, id) == Missing <==> forall k :: k in s.redis.orderIds ==> s.redis.orderIds[k] != id
    ensures QueryOrder(s, user, id).Success? || QueryOrder(s, user, id).Failed? || QueryOrder(s, user, id).Processing?
            <==> exists k :: k in s.redis.orderIds && k.1 == user && s.redis.orderIds[k] == id
    ensures QueryOrder(s, user, id) == Forbidden
            <==> exists k :: k in s.redis.orderIds && k.1 != user && s.redis.orderIds[k] == id
  {
    hide Inv, QueryOrder;
    ReachableInv(s);
    OrdersOfInv(s);
    if QueryOrder(s, user, id) != Missing {
      AnswersNameAccepted(s, user, id);
    }
    forall k | k in s.redis.orderIds && s.redis.orderIds[k] == id
      ensures QueryOrder(s, user, id) != Missing
      ensures QueryOrder(s, user, id) == Forbidden <==> k.1 != user
    {
      OwnerViewIsTotal(s, k.0, k.1, user);
    }
  }

  lemma AnswersNameAccepted(s: State, user: int, id: int)
    requires Inv(s) && QueryOrder(s, user, id) != Missing
    ensures exists k :: k in s.redis.orderIds && s.redis.orderIds[k] == id
  {
    OrdersOfInv(s);
    if id in s.db.orders {
      assert IsAccepted(s.redis.orderIds, Entry(id, s.db.orders[id].user, s.db.orders[id].voucher));
    } else if LatestLetter(s.db.dead, id).Some? {
      LettersOfInv(s, LatestLetter(s.db.dead, id).value);
    } else {
      assert AcceptedFor(s.redis.orderIds, s.redis.accept[id], id);
    }
  }

  function Rank(view: View): int {
    match view
    case Processing(_) => 1
    case Failed(_, _) => 2
    case Success(_, _, _) => 3
    case _ => 0
  }

  // Over any run the owner's answer only moves PROCESSING -> FAILED -> SUCCESS, possibly skipping FAILED.
  lemma OwnerViewIsMonotone(s: State, run: seq<Action>, v: int, u: int)
    requires Reachable(s) && IsRun(s, run) && (v, u) in s.redis.orderIds
    ensures var id := s.redis.orderIds[(v, u)]; 1 <= Rank(QueryOrder(s, u, id)) <= Rank(QueryOrder(After(s, run), u, id))
  {
    hide Inv, QueryOrder;
    ReachableInv(s);
    RunKeepsInv(s, run);
    ReachableRun(s, run);
    assert (v, u) in After(s, run).redis.orderIds;
    OwnerViewIsTotal(s, v, u, u);
    OwnerViewIsTotal(After(s, run), v, u, u);
    ViewFollowsStores(s, u, s.redis.orderIds[(v, u)]);
    ViewFollowsStores(After(s, run), u, s.redis.orderIds[(v, u)]);
    if QueryOrder(s, u, s.redis.orderIds[(v, u)]).Failed? {
      SettledStable(s, After(s, run), s.redis.orderIds[(v, u)]);
    }
  }

  lemma ViewFollowsStores(s: State, u: int, id: int)
    ensures QueryOrder(s, u, id).Success? ==> id in s.db.orders
    ensures id in s.db.orders ==> QueryOrder(s, u, id).Success? || QueryOrder(s, u, id).Forbidden?
    ensures QueryOrder(s, u, id).Failed? ==> DeadFor(s.db.dead, id)
    ensures Settled(s.db.orders, s.db.dead, id) ==> !QueryOrder(s, u, id).Processing?
  {
  }

  lemma {:induction false} RunsJoin(s: State, run: seq<Action>, more: seq<Action>)
    requires IsRun(s, run) && IsRun(After(s, run), more)
    ensures IsRun(s, run + more) && After(s, run + more) == After(After(s, run), more)
    decreases |run|
  {
    hide Enabled, Apply;
    if run == [] {
      assert run + more == more;
    } else {
      RunsJoin(Apply(s, run[0]), run[1..], more);
      assert (run + more)[1..] == run[1..] + more;
    }
  }

  lemma ReachableRun(s: State, more: seq<Action>)
    requires Reachable(s) && IsRun(s, more)
    ensures Reachable(After(s, more))
  {
    var run :| IsRun(Start, run) && After(Start, run) == s;
    RunsJoin(Start, run, more);
  }
}
