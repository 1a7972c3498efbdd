// The outbox worker, and the two stores at rest: every failure-free poll finishes the first fifty pending rows, and
// with nothing left to do the stores agree.
module CouponPolls {
  import opened CouponStores
  import opened CouponSteps
  import opened CouponInvariant
  import opened CouponPreservation
  import opened CouponRuns
  import opened CouponTheorems
  import opened CouponOrders
  import opened CouponDelivery
  import opened CouponRecords
  import opened CouponDrain

  // ---- the outbox ----

  function Marked(rows: seq<OutboxRow>, which: seq<nat>): (r: seq<OutboxRow>)
    ensures |r| == |rows|
  {
    seq(|rows|, i requires 0 <= i < |rows| => if i in which then rows[i].(done := true) else rows[i])
  }

  ghost function Drop(s: seq<nat>, n: nat): seq<nat> { if |s| <= n then [] else s[n..] }

  lemma TakeCons(x: nat, rest: seq<nat>, limit: nat)
    requires limit > 0
    ensures Take([x] + rest, limit) == [x] + Take(rest, limit - 1) && Drop([x] + rest, limit) == Drop(rest, limit - 1)
    ensures forall i: nat :: i in Take([x] + rest, limit) <==> i == x || i in Take(rest, limit - 1)
  {
  }

  lemma MarkedAt(rows: seq<OutboxRow>, which: seq<nat>, from: nat)
    requires from < |rows|
    ensures PendingOnes(Marked(rows, which), from)
            == (if rows[from].done || from in which then [] else [from]) + PendingOnes(Marked(rows, which), from + 1)
  {
  }

  lemma {:induction false} MarkedPending(rows: seq<OutboxRow>, which: seq<nat>, from: nat, limit: nat)
    requires from <= |rows|
    requires forall i: nat :: from <= i < |rows| ==> (i in which <==> i in Take(PendingOnes(rows, from), limit))
    ensures PendingOnes(Marked(rows, which), from) == Drop(PendingOnes(rows, from), limit)
    decreases |rows| - from
  {
    hide Take, Drop, Marked, PendingOnes;
    if from == |rows| {
      PendingEnd(rows);
      PendingEnd(Marked(rows, which));
      MarkedNothing();
    } else {
      var rest := PendingOnes(rows, from + 1);
      PendingStep(rows, from);
      PendingAbove(rows, from);
      MarkedAt(rows, which, from);
      TakeMembers(PendingOnes(rows, from), limit);
      if rows[from].done {
        assert PendingOnes(rows, from) == rest;
        PendingAbove(rows, from + 1);
        assert from !in rest;
        MarkedPending(rows, which, from + 1, limit);
      } else if limit == 0 {
        TakeNone(PendingOnes(rows, from));
        TakeNone(rest);
        MarkedPending(rows, which, from + 1, 0);
      } else {
        TakeCons(from, rest, limit);
        MarkedPending(rows, which, from + 1, limit - 1);
      }
    }
  }

  lemma PendingEnd(rows: seq<OutboxRow>)
    ensures PendingOnes(rows, |rows|) == []
  {
  }

  lemma PendingStep(rows: seq<OutboxRow>, from: nat)
    requires from < |rows|
    ensures PendingOnes(rows, from) == (if rows[from].done then [] else [from]) + PendingOnes(rows, from + 1)
  {
  }

  lemma MarkedNothing()
    ensures forall limit: nat :: Drop([], limit) == []
  {
  }

  lemma TakeMembers(s: seq<nat>, limit: nat)
    ensures forall i :: i in Take(s, limit) ==> i in s
  {
  }

  lemma TakeNone(s: seq<nat>)
    ensures Take(s, 0) == [] && Drop(s, 0) == s
  {
  }

  lemma {:induction false} PendingAbove(rows: seq<OutboxRow>, from: nat)
    requires from <= |rows|
    ensures forall i :: i in PendingOnes(rows, from) ==> from <= i < |rows|
    decreases |rows| - from
  {
    if from < |rows| {
      PendingAbove(rows, from + 1);
    }
  }

  // Nothing but the outbox rows, the done keys and the Redis stock changes while the worker runs.
  ghost predicate WorkerFrame(a: State, b: State, t: int) {
    && Later(a, b) && OthersKept(a.threads, b.threads, t)
    && b.redis.stream == a.redis.stream && b.redis.delivered == a.redis.delivered && b.redis.pel == a.redis.pel
    && b.db.orders == a.db.orders && b.db.dead == a.db.dead
  }

  lemma ReleaseRow(s: State, t: int)
    requires AtRelease(s, t)
    ensures Enabled(s, ReleaseStock(t))
    ensures var b := Apply(s, ReleaseStock(t));
            && AtMarkDone(b, t) && b.threads == s.threads[t := Released(s.threads[t].rows)]
            && b.db == s.db && b.redis == s.redis.(done := b.redis.done, stock := b.redis.stock)
  {
    assert Apply(s, ReleaseStock(t)) == DoReleaseStock(s, t);
  }

  lemma MarkRow(s: State, t: int)
    requires AtMarkDone(s, t)
    ensures Enabled(s, MarkDone(t))
    ensures var b, rows := Apply(s, MarkDone(t)), s.threads[t].rows;
            && b.threads == (if |rows| == 1 then s.threads - {t} else s.threads[t := Releasing(rows[1..])])
            && b.redis == s.redis && b.db == MarkOutboxDone(s.db, rows[0])
  {
    assert Apply(s, MarkDone(t)) == DoMarkDone(s, t);
  }

  lemma MarkedStep(outbox: seq<OutboxRow>, rows: seq<nat>)
    requires rows != [] && rows[0] < |outbox|
    ensures var next := outbox[rows[0] := outbox[rows[0]].(done := true)];
            Marked(next, rows[1..]) == Marked(outbox, rows) && (|rows| == 1 ==> next == Marked(outbox, rows))
  {
    forall i: nat ensures i in rows <==> i == rows[0] || i in rows[1..] {}
  }

  // ---- polls ----

  // A step of the worker t in which nothing throws.
  predicate IsRelease(a: Action, t: int) { a.t == t && (a.OutboxScan? || a.ReleaseStock? || a.MarkDone?) }

  predicate AllRelease(run: seq<Action>, t: int) { forall i :: 0 <= i < |run| ==> IsRelease(run[i], t) }

  function Scans(run: seq<Action>): nat {
    if run == [] then 0 else (if run[0].OutboxScan? then 1 else 0) + Scans(run[1..])
  }

  // k complete polls of t: it starts with a scan, because t is idle, and ends with t idle.
  ghost predicate PollsOf(s: State, run: seq<Action>, t: int, k: nat) {
    IsRun(s, run) && AllRelease(run, t) && Scans(run) == k && Idle(s, t) && Idle(After(s, run), t)
  }

  // t is idle or has rows of a scan in hand.
  ghost predicate Polling(s: State, t: int) { t in s.threads ==> s.threads[t].Releasing? || s.threads[t].Released? }

  function RowsInHand(s: State, t: int): seq<nat> {
    if t in s.threads && (s.threads[t].Releasing? || s.threads[t].Released?) then s.threads[t].rows else []
  }

  // The outbox as it will be once t has finished the rows in hand.
  ghost function Coming(s: State, t: int): seq<OutboxRow> { Marked(s.db.outbox, RowsInHand(s, t)) }

  // The outbox after k polls.
  ghost function Swept(rows: seq<OutboxRow>, k: nat): seq<OutboxRow>
    decreases k
  {
    if k == 0 then rows else Swept(Marked(rows, PendingRows(rows, 0, SCAN_BATCH)), k - 1)
  }

  lemma NothingInHand(s: State, t: int)
    requires Idle(s, t)
    ensures Coming(s, t) == s.db.outbox
  {
  }

  lemma Scanning(s: State, t: int)
    requires Enabled(s, OutboxScan(t)) && Later(s, Apply(s, OutboxScan(t)))
    ensures var b, rows := Apply(s, OutboxScan(t)), Coming(s, t);
            Polling(b, t) && WorkerFrame(s, b, t) && Coming(b, t) == Marked(rows, PendingRows(rows, 0, SCAN_BATCH))
  {
    hide Later, PendingRows;
    NothingInHand(s, t);
    assert Idle(s, t);
    ScanOutboxApplies(s, t);
    hide Enabled, Apply;
    assert RowsInHand(DoOutboxScan(s, t), t) == PendingRows(s.db.outbox, 0, SCAN_BATCH);
  }

  lemma ScanOutboxApplies(s: State, t: int)
    requires Idle(s, t)
    ensures Enabled(s, OutboxScan(t)) && Apply(s, OutboxScan(t)) == DoOutboxScan(s, t)
  {
  }

  lemma Releases(s: State, t: int)
    requires Enabled(s, ReleaseStock(t)) && Later(s, Apply(s, ReleaseStock(t)))
    ensures var b := Apply(s, ReleaseStock(t)); Polling(b, t) && WorkerFrame(s, b, t) && Coming(b, t) == Coming(s, t)
  {
    hide Later;
    ReleaseRow(s, t);
  }

  lemma Marks(s: State, t: int)
    requires Enabled(s, MarkDone(t)) && Later(s, Apply(s, MarkDone(t)))
    ensures var b := Apply(s, MarkDone(t)); Polling(b, t) && WorkerFrame(s, b, t) && Coming(b, t) == Coming(s, t)
  {
    hide Later;
    var rows := s.threads[t].rows;
    MarkRow(s, t);
    hide Enabled, Apply;
    MarkedStep(s.db.outbox, rows);
    if |rows| == 1 {
      NothingInHand(Apply(s, MarkDone(t)), t);
    }
  }

  lemma FrameJoins(a: State, b: State, c: State, t: int)
    requires WorkerFrame(a, b, t) && WorkerFrame(b, c, t)
    ensures WorkerFrame(a, c, t)
  {
    LaterTransitive(a, b, c);
  }

  // Whatever way t takes through its rows, the outbox ends up swept once per scan.
  lemma {:induction false} Sweeping(s: State, run: seq<Action>, t: int)
    requires Inv(s) && Polling(s, t) && IsRun(s, run) && AllRelease(run, t)
    ensures Inv(After(s, run)) && WorkerFrame(s, After(s, run), t)
    ensures Coming(After(s, run), t) == Swept(Coming(s, t), Scans(run))
    decreases |run|
  {
    hide Inv, Later, Coming, Enabled, Apply;
    if run == [] {
      LaterReflexive(s);
    } else {
      assert IsRelease(run[0], t);
      assert AllRelease(run[1..], t);
      hide AllRelease, WorkerFrame, Polling;
      StepKeepsInv(s, run[0]);
      if run[0].OutboxScan? {
        Scanning(s, t);
      } else if run[0].ReleaseStock? {
        Releases(s, t);
      } else {
        Marks(s, t);
      }
      Sweeping(Apply(s, run[0]), run[1..], t);
      FrameJoins(s, Apply(s, run[0]), After(s, run), t);
    }
  }

  // Nobody is in another place, and nothing but the outbox rows, the done keys and the Redis stock has changed.
  ghost predicate PollFrame(a: State, b: State) {
    && Later(a, b) && b.threads == a.threads
    && b.redis.stream == a.redis.stream && b.redis.delivered == a.redis.delivered && b.redis.pel == a.redis.pel
    && b.db.orders == a.db.orders && b.db.dead == a.db.dead
  }

  lemma FrameOfPoll(a: State, b: State, t: int)
    requires WorkerFrame(a, b, t) && Idle(a, t) && Idle(b, t)
    ensures PollFrame(a, b)
  {
    hide Later;
    SameThreads(a.threads, a.threads, b.threads, t);
  }

  // Every failure-free poll of t finishes exactly the first fifty pending rows.
  lemma PollOnce(s: State, run: seq<Action>, t: int)
    requires Inv(s) && PollsOf(s, run, t, 1)
    ensures Inv(After(s, run)) && PollFrame(s, After(s, run))
    ensures After(s, run).db.outbox == Marked(s.db.outbox, Take(PendingOnes(s.db.outbox, 0), 50))
    ensures PendingOnes(After(s, run).db.outbox, 0) == Drop(PendingOnes(s.db.outbox, 0), 50)
  {
    Polls(s, run, t, 1);
    hide Inv, PendingOnes, PollFrame;
    PendingRowsIsPrefix(s.db.outbox, 0, SCAN_BATCH);
    assert Swept(s.db.outbox, 1) == Swept(Marked(s.db.outbox, PendingRows(s.db.outbox, 0, SCAN_BATCH)), 0);
  }

  ghost predicate LeavesRest(a: State, b: State, k: nat) {
    && b.db.outbox == Swept(a.db.outbox, k)
    && PendingOnes(b.db.outbox, 0) == Drop(PendingOnes(a.db.outbox, 0), 50 * k)
    && var n := |PendingOnes(a.db.outbox, 0)|;
       |PendingOnes(b.db.outbox, 0)| == if n <= 50 * k then 0 else n - 50 * k
  }

  // All k failure-free polls of one worker leave max(0, n - 50 k) of n pending rows, the later ones, and nothing else
  // changes but done keys and Redis stock.
  lemma Polls(s: State, run: seq<Action>, t: int, k: nat)
    requires Inv(s) && PollsOf(s, run, t, k)
    ensures Inv(After(s, run)) && PollFrame(s, After(s, run)) && LeavesRest(s, After(s, run), k)
  {
    hide Inv, WorkerFrame, Coming, PendingOnes;
    Sweeping(s, run, t);
    NothingInHand(s, t);
    NothingInHand(After(s, run), t);
    SweptPending(s.db.outbox, k);
    FrameOfPoll(s, After(s, run), t);
  }

  // ---- polls of several workers ----

  datatype Poll = Poll(t: int, run: seq<Action>)

  // One poll after the other, each of some worker.
  ghost predicate ArePolls(s: State, polls: seq<Poll>)
    decreases |polls|
  {
    polls == [] || (PollsOf(s, polls[0].run, polls[0].t, 1) && ArePolls(After(s, polls[0].run), polls[1..]))
  }

  ghost function PollSteps(polls: seq<Poll>): seq<Action> {
    if polls == [] then [] else polls[0].run + PollSteps(polls[1..])
  }

  // It does not matter which worker polls.
  lemma {:induction false} SeveralPolls(s: State, polls: seq<Poll>)
    requires Inv(s) && ArePolls(s, polls)
    ensures IsRun(s, PollSteps(polls))
    ensures var b := After(s, PollSteps(polls)); Inv(b) && PollFrame(s, b) && LeavesRest(s, b, |polls|)
    decreases |polls|
  {
    if polls == [] {
      NoPolls(s);
    } else {
      hide Inv, LeavesRest, PollFrame, IsRun, After;
      var m := After(s, polls[0].run);
      Polls(s, polls[0].run, polls[0].t, 1);
      SeveralPolls(m, polls[1..]);
      RunsJoin(s, polls[0].run, PollSteps(polls[1..]));
      FramesJoin(s, m, After(s, PollSteps(polls)));
      RestJoins(s, m, After(s, PollSteps(polls)), |polls| - 1);
    }
  }

  lemma NoPolls(s: State)
    ensures IsRun(s, []) && After(s, []) == s && PollFrame(s, s) && LeavesRest(s, s, 0)
  {
  }

  lemma FramesJoin(a: State, b: State, c: State)
    requires PollFrame(a, b) && PollFrame(b, c)
    ensures PollFrame(a, c)
  {
    LaterTransitive(a, b, c);
  }

  lemma RestJoins(a: State, m: State, b: State, k: nat)
    requires LeavesRest(a, m, 1) && LeavesRest(m, b, k)
    ensures LeavesRest(a, b, k + 1)
  {
    var once := Marked(a.db.outbox, PendingRows(a.db.outbox, 0, SCAN_BATCH));
    assert Swept(a.db.outbox, 1) == Swept(once, 0) == once;
    assert Swept(a.db.outbox, k + 1) == Swept(once, k);
    SweptPending(a.db.outbox, k + 1);
  }

  lemma {:induction false} SweptPending(rows: seq<OutboxRow>, k: nat)
    ensures PendingOnes(Swept(rows, k), 0) == Drop(PendingOnes(rows, 0), SCAN_BATCH * k)
    decreases k
  {
    hide PendingOnes, Marked, PendingRows;
    if k > 0 {
      var first := PendingRows(rows, 0, SCAN_BATCH);
      PendingRowsIsPrefix(rows, 0, SCAN_BATCH);
      MarkedPending(rows, first, 0, SCAN_BATCH);
      SweptPending(Marked(rows, first), k - 1);
      assert SCAN_BATCH * k == SCAN_BATCH + SCAN_BATCH * (k - 1);
    }
  }

  // ---- polls exist ----

  lemma {:induction false} ScansJoin(a: seq<Action>, b: seq<Action>)
    ensures Scans(a + b) == Scans(a) + Scans(b)
  {
    if a == [] {
      assert a + b == b;
    } else {
      ScansJoin(a[1..], b);
      assert (a + b)[1..] == a[1..] + b;
    }
  }

  lemma {:induction false} FinishRows(s: State, t: int) returns (run: seq<Action>)
    requires Inv(s) && t in s.threads && s.threads[t].Releasing?
    ensures IsRun(s, run) && AllRelease(run, t) && Scans(run) == 0 && Idle(After(s, run), t) && Inv(After(s, run))
    decreases |s.threads[t].rows|
  {
    hide Inv, Enabled, Apply, Later;
    Knows(s, t);
    var rows := s.threads[t].rows;
    ReleaseRow(s, t);
    StepKeepsInv(s, ReleaseStock(t));
    var b := Apply(s, ReleaseStock(t));
    MarkRow(b, t);
    StepKeepsInv(b, MarkDone(t));
    var c := Apply(b, MarkDone(t));
    var rest := [];
    if |rows| > 1 {
      rest := FinishRows(c, t);
    }
    Cons(b, MarkDone(t), rest);
    Cons(s, ReleaseStock(t), [MarkDone(t)] + rest);
    run := [ReleaseStock(t)] + ([MarkDone(t)] + rest);
    ScansJoin([ReleaseStock(t)], [MarkDone(t)] + rest);
    ScansJoin([MarkDone(t)], rest);
  }

  lemma OnePoll(s: State, t: int) returns (run: seq<Action>)
    requires Inv(s) && Idle(s, t)
    ensures PollsOf(s, run, t, 1) && Inv(After(s, run))
  {
    hide Inv, Enabled, Apply, Later;
    ScanOutboxApplies(s, t);
    StepKeepsInv(s, OutboxScan(t));
    var b := Apply(s, OutboxScan(t));
    var rest := [];
    if t in b.threads {
      rest := FinishRows(b, t);
    }
    Cons(s, OutboxScan(t), rest);
    run := [OutboxScan(t)] + rest;
    ScansJoin([OutboxScan(t)], rest);
  }

  lemma {:induction false} CanPoll(s: State, t: int, k: nat) returns (polls: seq<Poll>)
    requires Inv(s) && Idle(s, t)
    ensures |polls| == k && ArePolls(s, polls) && forall i :: 0 <= i < |polls| ==> polls[i].t == t
    decreases k
  {
    if k == 0 {
      polls := [];
    } else {
      hide *;
      var first := OnePoll(s, t);
      PollEnds(s, first, t);
      var rest := CanPoll(After(s, first), t, k - 1);
      polls := [Poll(t, first)] + rest;
      PollFirst(s, t, first, rest);
    }
  }

  lemma PollFirst(s: State, t: int, first: seq<Action>, rest: seq<Poll>)
    requires PollsOf(s, first, t, 1) && ArePolls(After(s, first), rest)
    ensures ArePolls(s, [Poll(t, first)] + rest)
  {
    hide PollsOf;
    assert ([Poll(t, first)] + rest)[1..] == rest;
  }

  lemma PollEnds(s: State, run: seq<Action>, t: int)
    requires PollsOf(s, run, t, 1)
    ensures IsRun(s, run) && Idle(After(s, run), t)
  {
  }

  // ---- the system at rest ----

  ghost predicate OutboxDone(s: State) {
    forall i :: 0 <= i < |s.db.outbox| ==> s.db.outbox[i].done
  }

  lemma NothingUnreleased(s: State, v: int)
    requires OutboxOk(s.db.outbox, s.db.orders) && DoneOk(s.redis.done, s.db.outbox, s.db.orders) && OutboxDone(s)
    ensures UnreleasedCancels(s, v) == {}
  {
    forall o | HasStatus(s.db.orders, o, Cancelled) ensures EventKey(o) in s.redis.done {
      assert HasOutboxRow(s.db.outbox, o);
      var i :| 0 <= i < |s.db.outbox| && s.db.outbox[i].order == o;
      assert s.db.outbox[i].done;
    }
  }

  // When the pending list and the outbox are empty and every
  // dead-lettered order has a row, both stores hold the same stock.
  lemma DrainedStoresAgree(s: State, v: int)
    requires Reachable(s) && v in s.redis.stock && Drained(s) && OutboxDone(s)
    requires forall i :: 0 <= i < |s.db.dead| ==> s.db.dead[i].entry.id in s.db.orders
    ensures v in s.db.stock && s.redis.stock[v] == s.db.stock[v]
  {
    hide Inv;
    ReachableInv(s);
    OrdersOfInv(s);
    GapOf(s, v);
    NothingUnreleased(s, v);
    forall k | k in s.redis.orderIds ensures s.redis.orderIds[k] in s.db.orders {
      var p := EntryOf(s, k.0, k.1);
      if DeadFor(s.db.dead, s.redis.orderIds[k]) {
        var i :| 0 <= i < |s.db.dead| && s.db.dead[i].entry.id == s.redis.orderIds[k];
        assert s.db.dead[i].entry.id in s.db.orders;
      }
    }
    assert WaitingBuyers(s, v) == {};
  }

  lemma {:induction false} NothingPending(rows: seq<OutboxRow>, from: nat)
    requires from <= |rows| && PendingOnes(rows, from) == []
    ensures forall i :: from <= i < |rows| ==> rows[i].done
    decreases |rows| - from
  {
    if from < |rows| {
      NothingPending(rows, from + 1);
    }
  }

  // However consumers drain the group and however workers then poll, failure-free and often enough: the system is at
  // rest, and if every dead-lettered order has a row, both stores hold the same stock of every published voucher.
  lemma RestAgrees(s: State, rounds: seq<Round>, polls: seq<Poll>)
    requires Reachable(s) && AreRounds(s, rounds) && IsRun(s, AllSteps(rounds))
    requires Drained(After(s, AllSteps(rounds))) && ArePolls(After(s, AllSteps(rounds)), polls)
    requires |PendingOnes(s.db.outbox, 0)| <= 50 * |polls|
    ensures IsRun(s, AllSteps(rounds) + PollSteps(polls))
    ensures AtRest(After(s, AllSteps(rounds) + PollSteps(polls)))
  {
    hide Inv, Later, AreRounds, ArePolls, Reachable, PendingOnes;
    var run := AllSteps(rounds) + PollSteps(polls);
    ReachableInv(s);
    EveryDrain(s, rounds);
    SeveralPolls(After(s, AllSteps(rounds)), polls);
    RunsJoin(s, AllSteps(rounds), PollSteps(polls));
    hide IsRun, After, AllSteps, PollSteps;
    var b := After(s, run);
    NothingPending(b.db.outbox, 0);
    ReachableRun(s, run);
    if forall i :: 0 <= i < |b.db.dead| ==> b.db.dead[i].entry.id in b.db.orders {
      forall v | v in b.redis.stock ensures v in b.db.stock && b.redis.stock[v] == b.db.stock[v] {
        DrainedStoresAgree(b, v);
      }
    }
  }

  ghost predicate AtRest(b: State) {
    && Drained(b) && OutboxDone(b)
    && ((forall i :: 0 <= i < |b.db.dead| ==> b.db.dead[i].entry.id in b.db.orders) ==>
          forall v :: v in b.redis.stock ==> v in b.db.stock && b.redis.stock[v] == b.db.stock[v])
  }

  // From every reachable state there is such a way to rest, by failure-free rounds and polls of one thread alone.
  lemma CanAlwaysAgree(s: State, t: int) returns (rounds: seq<Round>, polls: seq<Poll>)
    requires Reachable(s) && Idle(s, t)
    ensures AreRounds(s, rounds) && IsRun(s, AllSteps(rounds)) && Drained(After(s, AllSteps(rounds)))
    ensures ArePolls(After(s, AllSteps(rounds)), polls)
    ensures (forall k :: 0 <= k < |rounds| ==> rounds[k].t == t) && forall k :: 0 <= k < |polls| ==> polls[k].t == t
    ensures IsRun(s, AllSteps(rounds) + PollSteps(polls)) && AtRest(After(s, AllSteps(rounds) + PollSteps(polls)))
  {
    hide Inv, Later, AreRounds, Reachable, ArePolls, PendingOnes, AtRest;
    ReachableInv(s);
    rounds := CanDrain(s, t);
    EveryDrain(s, rounds);
    polls := CanPoll(After(s, AllSteps(rounds)), t, |PendingOnes(s.db.outbox, 0)|);
    RestAgrees(s, rounds, polls);
  }
}
