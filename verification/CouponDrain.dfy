// Draining the consumer group: every round in which a consumer gets a record and works it off takes the system nearer
// to rest, whoever takes the rounds, and only at rest are there no such rounds left.
module CouponDrain {
  import opened Wrappers
  import opened CouponStores
  import opened CouponSteps
  import opened CouponInvariant
  import opened CouponPreservation
  import opened CouponRuns
  import opened CouponOrders
  import opened CouponDelivery
  import opened CouponRecords

  ghost predicate Drained(s: State) {
    s.redis.delivered == |s.redis.stream| && s.redis.pel == map[]
  }

  // ---- rounds ----

  // Where a round takes its records from: the next new entry, t's own pending entries, or idle ones of the others.
  datatype Source = FromStream | FromOwn | FromIdle

  datatype Round = Round(t: int, wait: nat, source: Source, work: seq<Action>)

  function Scan(source: Source, t: int): seq<Action> {
    match source
    case FromStream => [ReadStream(t)]
    case FromOwn => [ScanOwn(t)]
    case FromIdle => [ScanIdle(t), ClaimIdle(t)]
  }

  function Steps(r: Round): seq<Action> { [Tick(r.t, r.wait)] + Scan(r.source, r.t) + r.work }

  // A failure-free round: the idle consumer waits, is handed at least one record, and works off what it was handed.
  ghost predicate IsRound(s: State, r: Round) {
    Idle(s, r.t) && IsRun(s, Steps(r)) && AllWork(r.work, r.t) && r.work != [] && Idle(After(s, Steps(r)), r.t)
  }

  ghost function Backlog(s: State): int { 2 * (|s.redis.stream| - s.redis.delivered) + |s.redis.pel| }

  // The entry left the pending list below the delivery limit.
  ghost predicate LeftEarly(a: State, b: State, p: nat) {
    p in a.redis.pel && p !in b.redis.pel && a.redis.pel[p].deliveries + 1 < 5
  }

  // From a to b, records were worked off: nobody is in another place, what stays pending is untouched, and what left the
  // pending list below the delivery limit, or was never delivered before, is an order row.
  ghost predicate Served(a: State, b: State) {
    && Later(a, b) && b.threads == a.threads
    && b.redis.stream == a.redis.stream && b.db.outbox == a.db.outbox
    && (forall p :: p in b.redis.pel ==> p in a.redis.pel && b.redis.pel[p] == a.redis.pel[p])
    && (forall p: nat :: LeftEarly(a, b, p) ==> Sold(b, p))
    && (forall p: nat :: a.redis.delivered <= p < b.redis.delivered ==> Sold(b, p))
  }

  ghost predicate RoundDone(a: State, b: State) { Served(a, b) && Backlog(b) < Backlog(a) }

  // ---- what t was handed ----

  // The state in which t has just been handed a batch.
  ghost predicate Handed(a: State, b: State, t: int, jobs: seq<Job>) {
    && Later(a, b) && OthersKept(a.threads, b.threads, t) && jobs != []
    && t in b.threads && b.threads[t] == Working(jobs)
    && b.redis.stream == a.redis.stream && b.db.outbox == a.db.outbox
  }

  // After a batch: t is idle, the batch is acknowledged, and whatever was below the delivery limit is an order row.
  ghost predicate BatchDone(a: State, b: State, t: int, jobs: seq<Job>) {
    && Calm(a, b, t) && Later(a, b) && Idle(b, t)
    && b.redis.pel == a.redis.pel - Positions(jobs)
    && forall k :: 0 <= k < |jobs| && CountOf(a, t, jobs[k]) < 5 ==> Sold(b, jobs[k].pos)
  }

  lemma BatchOfProgress(a: State, b: State, t: int, jobs: seq<Job>)
    requires t in a.threads && a.threads[t] == Working(jobs) && jobs != []
    requires Progress(a, b, t) && Later(a, b) && Idle(b, t)
    ensures BatchDone(a, b, t, jobs)
  {
    assert JobsOf(a, t) == jobs && JobsOf(b, t) == [];
    assert b.redis.pel == b.redis.pel - Todo(b, t);
    forall k | 0 <= k < |jobs| && CountOf(a, t, jobs[k]) < 5 ensures Sold(b, jobs[k].pos) {
      assert Promised(a, t, jobs[k].pos);
    }
  }

  lemma ReadyToWork(s: State, t: int, jobs: seq<Job>)
    requires t in s.threads && s.threads[t] == Working(jobs) && jobs != []
    ensures Ready(s, t)
  {
  }

  // Whatever t does with the batch, if it gets to the end without a failure.
  lemma BatchWorked(s: State, t: int, jobs: seq<Job>, work: seq<Action>)
    requires Inv(s) && t in s.threads && s.threads[t] == Working(jobs) && jobs != []
    requires IsRun(s, work) && AllWork(work, t) && Idle(After(s, work), t)
    ensures Inv(After(s, work)) && BatchDone(s, After(s, work), t, jobs)
  {
    hide Inv, Later, Ready, Progress, IsRun, After, AllWork;
    ReadyToWork(s, t, jobs);
    Work(s, work, t);
    BatchOfProgress(s, After(s, work), t, jobs);
  }

  lemma FirstStep(s: State, a: Action, rest: seq<Action>)
    requires IsRun(s, [a] + rest)
    ensures Enabled(s, a) && IsRun(Apply(s, a), rest) && After(s, [a] + rest) == After(Apply(s, a), rest)
  {
    hide Enabled, Apply;
    assert ([a] + rest)[1..] == rest;
  }

  // Only a thread that was handed something can work.
  lemma WorkerIsBusy(s: State, work: seq<Action>, t: int)
    requires IsRun(s, work) && AllWork(work, t) && work != []
    ensures t in s.threads && AtWork(s.threads[t])
  {
    hide Apply;
    assert IsWork(work[0], t) && Enabled(s, work[0]);
  }

  lemma SmallerPel(a: map<nat, Pending>, b: map<nat, Pending>, p: nat)
    requires b.Keys <= a.Keys && p in a && p !in b
    ensures |b| < |a|
  {
    assert b.Keys <= a.Keys - {p};
    SubsetSize(b.Keys, a.Keys - {p});
  }

  lemma {:induction false} SubsetSize<T>(a: set<T>, b: set<T>)
    requires a <= b
    ensures |a| <= |b|
    decreases |a|
  {
    if a != {} {
      var x := AnyMember(a);
      SubsetSize(a - {x}, b - {x});
    }
  }

  ghost predicate RoundFrame(a: State, b: State) {
    && Later(a, b) && b.threads == a.threads
    && b.redis.stream == a.redis.stream && b.db.outbox == a.db.outbox
  }

  lemma FrameOfBatch(a: State, b: State, c: State, t: int, jobs: seq<Job>)
    requires Idle(a, t) && Handed(a, b, t, jobs) && BatchDone(b, c, t, jobs)
    ensures RoundFrame(a, c)
  {
    LaterTransitive(a, b, c);
    SameThreads(a.threads, b.threads, c.threads, t);
  }

  lemma SameThreads(a: map<int, Pc>, b: map<int, Pc>, c: map<int, Pc>, t: int)
    requires t !in a && OthersKept(a, b, t) && OthersKept(b, c, t) && t !in c
    ensures c == a
  {
    forall w | w in c ensures w in a && c[w] == a[w] {
      assert w in b;
    }
    forall w | w in a ensures w in c {
      assert w in b;
    }
  }

  // ---- a round of each kind ----

  lemma OnePosition(pel: map<nat, Pending>, p: nat, x: Pending, jobs: seq<Job>)
    requires |jobs| == 1 && jobs[0].pos == p && p !in pel
    ensures pel[p := x] - Positions(jobs) == pel
  {
    assert jobs[0].pos in Positions(jobs);
  }

  lemma ReadRoundDone(s: State, b: State, c: State, t: int, jobs: seq<Job>)
    requires Idle(s, t)
    requires s.redis.delivered < |s.redis.stream| && jobs == [Job(s.redis.delivered, None)]
    requires Handed(s, b, t, jobs) && BatchDone(b, c, t, jobs)
    requires b.redis.pel == s.redis.pel[s.redis.delivered := Pending(t, 1, b.now)]
    requires b.redis.delivered == s.redis.delivered + 1 && s.redis.delivered !in s.redis.pel
    ensures RoundDone(s, c)
  {
    FrameOfBatch(s, b, c, t, jobs);
    OnePosition(s.redis.pel, s.redis.delivered, Pending(t, 1, b.now), jobs);
    assert CountOf(b, t, jobs[0]) == 1;
    assert c.redis.delivered == b.redis.delivered && Sold(c, s.redis.delivered);
    hide Later, OthersKept, Handed, BatchDone, Positions;
  }

  lemma Waited(s: State, t: int, ms: nat)
    requires Inv(s)
    ensures Enabled(s, Tick(t, ms)) && Apply(s, Tick(t, ms)) == s.(now := s.now + ms)
    ensures Inv(s.(now := s.now + ms)) && Later(s, s.(now := s.now + ms))
  {
    hide Inv, Later;
    assert Apply(s, Tick(t, ms)) == s.(now := s.now + ms);
    StepKeepsInv(s, Tick(t, ms));
  }

  lemma ReadApplies(s: State, t: int)
    requires Inv(s) && Idle(s, t) && s.redis.delivered < |s.redis.stream|
    ensures Enabled(s, ReadStream(t)) && Apply(s, ReadStream(t)) == DoReadStream(s, t)
    ensures Inv(DoReadStream(s, t)) && Later(s, DoReadStream(s, t)) && s.redis.delivered !in s.redis.pel
  {
    hide Inv, Later;
    assert Apply(s, ReadStream(t)) == DoReadStream(s, t);
    StepKeepsInv(s, ReadStream(t));
    Accountable(s);
  }

  lemma StreamRound(s: State, wait: nat, work: seq<Action>, t: int)
    requires Inv(s) && IsRound(s, Round(t, wait, FromStream, work))
    ensures Inv(After(s, Steps(Round(t, wait, FromStream, work))))
    ensures RoundDone(s, After(s, Steps(Round(t, wait, FromStream, work))))
  {
    hide Inv, Later, BatchDone, RoundDone, AllWork, Apply, IsRun, After;
    var a := s.(now := s.now + wait);
    assert Steps(Round(t, wait, FromStream, work)) == [Tick(t, wait)] + ([ReadStream(t)] + work);
    FirstStep(s, Tick(t, wait), [ReadStream(t)] + work);
    Waited(s, t, wait);
    FirstStep(a, ReadStream(t), work);
    assert a.redis.delivered < |a.redis.stream|;
    hide Enabled;
    ReadApplies(a, t);
    var b := DoReadStream(a, t);
    LaterTransitive(s, a, b);
    var jobs := [Job(s.redis.delivered, None)];
    BatchWorked(b, t, jobs, work);
    ReadRoundDone(s, b, After(b, work), t, jobs);
  }

  ghost function OwnPending(s: State, t: int): seq<nat> {
    XPending(s.redis.pel, Some(t), 0, s.redis.delivered, OWN_PENDING_SCAN_LIMIT)
  }

  // t acknowledged these entries, at least one of them pending, and everything else stays as it was.
  lemma AckedRound(s: State, c: State, gone: set<nat>, p: nat)
    requires RoundFrame(s, c) && c.redis.delivered == s.redis.delivered && c.redis.pel == s.redis.pel - gone
    requires p in gone && p in s.redis.pel
    requires forall q: nat :: LeftEarly(s, c, q) ==> Sold(c, q)
    ensures RoundDone(s, c)
  {
    hide Later, OthersKept, Sold;
    SmallerPel(s.redis.pel, c.redis.pel, p);
  }

  lemma OwnRoundDone(s: State, b: State, c: State, t: int, ids: seq<nat>)
    requires Idle(s, t)
    requires ids != [] && forall k :: 0 <= k < |ids| ==> ids[k] in s.redis.pel
    requires b.redis == s.redis && Handed(s, b, t, Reported(s.redis.pel, ids))
    requires BatchDone(b, c, t, Reported(s.redis.pel, ids))
    ensures RoundDone(s, c)
  {
    var jobs := Reported(s.redis.pel, ids);
    hide Later, OthersKept, Sold;
    FrameOfBatch(s, b, c, t, jobs);
    forall p: nat | LeftEarly(s, c, p) ensures Sold(c, p) {
      OwnServed(s, b, c, t, ids, p);
    }
    assert jobs[0].pos == ids[0] && ids[0] in Positions(jobs);
    AckedRound(s, c, Positions(jobs), ids[0]);
  }

  lemma OwnServed(s: State, b: State, c: State, t: int, ids: seq<nat>, p: nat)
    requires forall k :: 0 <= k < |ids| ==> ids[k] in s.redis.pel
    requires b.redis == s.redis && BatchDone(b, c, t, Reported(s.redis.pel, ids))
    requires LeftEarly(s, c, p)
    ensures Sold(c, p)
  {
    hide Later, Calm, Sold;
    var jobs := Reported(s.redis.pel, ids);
    var k :| 0 <= k < |jobs| && jobs[k].pos == p;
    assert jobs[k] == Job(ids[k], Some(s.redis.pel[ids[k]].deliveries));
  }

  lemma OwnScanned(s: State, t: int, work: seq<Action>)
    requires Idle(s, t) && IsRun(s, [ScanOwn(t)] + work) && AllWork(work, t) && work != []
    ensures OwnPending(s, t) != [] && Apply(s, ScanOwn(t)) == Go(s, t, Working(Reported(s.redis.pel, OwnPending(s, t))))
    ensures IsRun(Apply(s, ScanOwn(t)), work) && After(s, [ScanOwn(t)] + work) == After(Apply(s, ScanOwn(t)), work)
  {
    FirstStep(s, ScanOwn(t), work);
    assert Apply(s, ScanOwn(t)) == DoScanOwn(s, t);
    WorkerIsBusy(DoScanOwn(s, t), work, t);
  }

  lemma OwnRound(s: State, wait: nat, work: seq<Action>, t: int)
    requires Inv(s) && IsRound(s, Round(t, wait, FromOwn, work))
    ensures Inv(After(s, Steps(Round(t, wait, FromOwn, work))))
    ensures RoundDone(s, After(s, Steps(Round(t, wait, FromOwn, work))))
  {
    hide Inv, Later, BatchDone, RoundDone, AllWork, XPending, Apply, Enabled, IsRun, After;
    var a := s.(now := s.now + wait);
    assert Steps(Round(t, wait, FromOwn, work)) == [Tick(t, wait)] + ([ScanOwn(t)] + work);
    FirstStep(s, Tick(t, wait), [ScanOwn(t)] + work);
    Waited(s, t, wait);
    var ids := OwnPending(a, t);
    var jobs := Reported(a.redis.pel, ids);
    OwnScanned(a, t, work);
    FirstStep(a, ScanOwn(t), work);
    var b := Go(a, t, Working(jobs));
    StepKeepsInv(a, ScanOwn(t));
    LaterTransitive(s, a, b);
    BatchWorked(b, t, jobs, work);
    OwnRoundDone(s, b, After(b, work), t, ids);
  }

  lemma IdleAreForeign(s: State, t: int)
    ensures forall k :: 0 <= k < |IdleIds(s, t)| ==> IdleElsewhere(s.redis.pel, IdleIds(s, t)[k], t, s.now)
  {
    SelectedAreForeign(s.redis.pel, XPending(s.redis.pel, None, 0, s.redis.delivered, CLAIM_SCAN_WINDOW), t, s.now,
                       CLAIM_BATCH);
    forall k | 0 <= k < |IdleIds(s, t)| ensures IdleElsewhere(s.redis.pel, IdleIds(s, t)[k], t, s.now) {
      assert IdleIds(s, t)[k] in IdleIds(s, t);
    }
  }

  lemma {:induction false} ClaimedAll(pel: map<nat, Pending>, ids: seq<nat>, t: int, now: int)
    requires forall k :: 0 <= k < |ids| ==> IdleElsewhere(pel, ids[k], t, now)
    ensures Claimed(pel, ids, now) == ids
  {
    if ids != [] {
      assert IdleElsewhere(pel, ids[0], t, now);
      ClaimedAll(pel, ids[1..], t, now);
    }
  }

  // Claiming raises the delivery count of the claimed ids by one and touches nothing else.
  lemma ClaimedPel(pel: map<nat, Pending>, ids: seq<nat>, t: int, now: int)
    requires forall k :: 0 <= k < |ids| ==> IdleElsewhere(pel, ids[k], t, now)
    ensures XClaim(pel, ids, t, now).Keys == pel.Keys
    ensures forall p :: p in pel && p !in Positions(Unknown(ids)) ==> XClaim(pel, ids, t, now)[p] == pel[p]
    ensures forall p :: p in ids ==> p in pel && XClaim(pel, ids, t, now)[p] == Pending(t, pel[p].deliveries + 1, now)
    ensures forall p :: p in Positions(Unknown(ids)) <==> p in ids
  {
    forall p | p in ids ensures p in Positions(Unknown(ids)) {
      var k :| 0 <= k < |ids| && ids[k] == p;
      assert Unknown(ids)[k].pos == p;
    }
    forall p | p in ids ensures IdleElsewhere(pel, p, t, now) {
      var k :| 0 <= k < |ids| && ids[k] == p;
      assert IdleElsewhere(pel, ids[k], t, now);
    }
  }

  // A claimed id that left the pending list below the delivery limit became an order row.
  lemma ForeignServed(s: State, c: State, d: State, t: int, ids: seq<nat>, now: int, p: nat)
    requires forall k :: 0 <= k < |ids| ==> IdleElsewhere(s.redis.pel, ids[k], t, now)
    requires BatchDone(c, d, t, Unknown(ids)) && c.redis.pel == XClaim(s.redis.pel, ids, t, now)
    requires p in ids && p in s.redis.pel && s.redis.pel[p].deliveries + 1 < 5
    ensures Sold(d, p)
  {
    hide Later, OthersKept, XClaim, Sold;
    ClaimedPel(s.redis.pel, ids, t, now);
    var k :| 0 <= k < |ids| && ids[k] == p;
    assert Unknown(ids)[k] == Job(p, None) && CountOf(c, t, Unknown(ids)[k]) == s.redis.pel[p].deliveries + 1;
  }

  lemma ForeignRoundDone(s: State, c: State, d: State, t: int, ids: seq<nat>, now: int)
    requires Idle(s, t)
    requires ids != [] && forall k :: 0 <= k < |ids| ==> IdleElsewhere(s.redis.pel, ids[k], t, now)
    requires Handed(s, c, t, Unknown(ids)) && BatchDone(c, d, t, Unknown(ids))
    requires c.redis.delivered == s.redis.delivered && c.redis.pel == XClaim(s.redis.pel, ids, t, now)
    ensures RoundDone(s, d)
  {
    hide Later, OthersKept, XClaim, IdleElsewhere, CountOf, Sold;
    FrameOfBatch(s, c, d, t, Unknown(ids));
    ClaimedPel(s.redis.pel, ids, t, now);
    var gone := Positions(Unknown(ids));
    assert d.redis.pel == s.redis.pel - gone;
    forall p: nat | LeftEarly(s, d, p) ensures Sold(d, p) {
      ForeignServed(s, c, d, t, ids, now, p);
    }
    assert ids[0] in ids && ids[0] in gone;
    AckedRound(s, d, gone, ids[0]);
  }

  lemma IdleScanned(s: State, t: int, rest: seq<Action>)
    requires Idle(s, t) && IsRun(s, [ScanIdle(t)] + ([ClaimIdle(t)] + rest))
    ensures IdleIds(s, t) != []
    ensures var b := Go(s, t, Claiming(IdleIds(s, t)));
            && Enabled(s, ScanIdle(t)) && Apply(s, ScanIdle(t)) == b && IsRun(b, [ClaimIdle(t)] + rest)
            && After(s, [ScanIdle(t)] + ([ClaimIdle(t)] + rest)) == After(b, [ClaimIdle(t)] + rest)
  {
    hide IdleIds;
    FirstStep(s, ScanIdle(t), [ClaimIdle(t)] + rest);
    assert Apply(s, ScanIdle(t)) == DoScanIdle(s, t);
    FirstStep(DoScanIdle(s, t), ClaimIdle(t), rest);
  }

  lemma ClaimApplies(s: State, t: int, ids: seq<nat>)
    requires t in s.threads && s.threads[t] == Claiming(ids) && ids != [] && Claimed(s.redis.pel, ids, s.now) == ids
    ensures Enabled(s, ClaimIdle(t))
    ensures var c := Apply(s, ClaimIdle(t));
            && c.redis == s.redis.(pel := XClaim(s.redis.pel, ids, t, s.now)) && c.db == s.db && c.now == s.now
            && c.threads == s.threads[t := Working(Unknown(ids))]
  {
    assert Apply(s, ClaimIdle(t)) == DoClaimIdle(s, t);
  }

  lemma ForeignRound(s: State, wait: nat, work: seq<Action>, t: int)
    requires Inv(s) && IsRound(s, Round(t, wait, FromIdle, work))
    ensures Inv(After(s, Steps(Round(t, wait, FromIdle, work))))
    ensures RoundDone(s, After(s, Steps(Round(t, wait, FromIdle, work))))
  {
    hide Inv, Later, Enabled, Apply, RoundDone, BatchDone, SelectIdle, XPending, Claimed, IsRun, After, AllWork;
    hide IdleElsewhere;
    var a := s.(now := s.now + wait);
    assert Steps(Round(t, wait, FromIdle, work)) == [Tick(t, wait)] + ([ScanIdle(t)] + ([ClaimIdle(t)] + work));
    FirstStep(s, Tick(t, wait), [ScanIdle(t)] + ([ClaimIdle(t)] + work));
    Waited(s, t, wait);
    var ids := IdleIds(a, t);
    IdleScanned(a, t, work);
    var b := Go(a, t, Claiming(ids));
    StepKeepsInv(a, ScanIdle(t));
    IdleAreForeign(a, t);
    ClaimedAll(a.redis.pel, ids, t, a.now);
    ClaimApplies(b, t, ids);
    FirstStep(b, ClaimIdle(t), work);
    var c := Apply(b, ClaimIdle(t));
    StepKeepsInv(b, ClaimIdle(t));
    LaterTransitive(s, a, b);
    LaterTransitive(s, b, c);
    BatchWorked(c, t, Unknown(ids), work);
    ForeignRoundDone(s, c, After(c, work), t, ids, a.now);
  }

  // Every failure-free round of every consumer, whatever it reads or claims, shrinks the backlog.
  lemma EveryRound(s: State, r: Round)
    requires Inv(s) && IsRound(s, r)
    ensures Inv(After(s, Steps(r))) && RoundDone(s, After(s, Steps(r)))
  {
    hide Inv, RoundDone;
    if r.source.FromStream? {
      StreamRound(s, r.wait, r.work, r.t);
    } else if r.source.FromOwn? {
      OwnRound(s, r.wait, r.work, r.t);
    } else {
      ForeignRound(s, r.wait, r.work, r.t);
    }
  }

  // ---- any number of rounds ----

  ghost predicate AreRounds(s: State, rounds: seq<Round>)
    decreases |rounds|
  {
    rounds == [] || (IsRound(s, rounds[0]) && AreRounds(After(s, Steps(rounds[0])), rounds[1..]))
  }

  ghost function AllSteps(rounds: seq<Round>): seq<Action> {
    if rounds == [] then [] else Steps(rounds[0]) + AllSteps(rounds[1..])
  }

  lemma ServedJoins(a: State, b: State, c: State)
    requires Served(a, b) && Served(b, c)
    ensures Served(a, c)
  {
    LaterTransitive(a, b, c);
    SoldStays(b, c);
    hide Later, Sold;
  }

  lemma SoldStays(a: State, b: State)
    requires Later(a, b)
    ensures forall p: nat :: Sold(a, p) ==> Sold(b, p)
  {
    forall p: nat | Sold(a, p) ensures Sold(b, p) {
      assert b.redis.stream[p] == a.redis.stream[p];
    }
  }

  // Every sequence of rounds, of any consumers in any order, serves the records, and there are no more rounds than the
  // backlog they worked off.
  lemma {:induction false} EveryDrain(s: State, rounds: seq<Round>)
    requires Inv(s) && AreRounds(s, rounds)
    ensures IsRun(s, AllSteps(rounds))
    ensures var b := After(s, AllSteps(rounds)); Inv(b) && Served(s, b) && |rounds| <= Backlog(s) - Backlog(b)
    decreases |rounds|
  {
    hide Inv, Later, Steps, IsRun, After;
    if rounds == [] {
      NoRounds(s);
    } else {
      EveryRound(s, rounds[0]);
      var m := After(s, Steps(rounds[0]));
      EveryDrain(m, rounds[1..]);
      RunsJoin(s, Steps(rounds[0]), AllSteps(rounds[1..]));
      hide Served;
      ServedJoins(s, m, After(s, AllSteps(rounds)));
    }
  }

  lemma NoRounds(s: State)
    ensures IsRun(s, []) && After(s, []) == s && Served(s, s)
  {
  }

  // ---- a round is always possible until everything is drained ----

  lemma OwnIds(s: State, t: int, p: nat)
    requires p in s.redis.pel && s.redis.pel[p].owner == t && p < s.redis.delivered
    ensures OwnPending(s, t) != []
  {
    XPendingIsPrefix(s.redis.pel, Some(t), 0, s.redis.delivered, OWN_PENDING_SCAN_LIMIT);
    ListedIdsComplete(s.redis.pel, Some(t), 0, s.redis.delivered);
    assert p in ListedIds(s.redis.pel, Some(t), 0, s.redis.delivered);
  }

  lemma IdleFound(s: State, t: int)
    requires s.redis.pel != map[]
    requires forall p :: p in s.redis.pel ==> p < s.redis.delivered && IdleElsewhere(s.redis.pel, p, t, s.now)
    ensures IdleIds(s, t) != []
  {
    var p := AnyMember(s.redis.pel.Keys);
    XPendingIsPrefix(s.redis.pel, None, 0, s.redis.delivered, CLAIM_SCAN_WINDOW);
    ListedIdsComplete(s.redis.pel, None, 0, s.redis.delivered);
    assert p in ListedIds(s.redis.pel, None, 0, s.redis.delivered);
  }

  // A batch that t has just been handed can be worked off.
  lemma WorkOff(s: State, t: int, jobs: seq<Job>) returns (work: seq<Action>)
    requires Inv(s) && t in s.threads && s.threads[t] == Working(jobs) && jobs != []
    ensures IsRun(s, work) && AllWork(work, t) && work != [] && Idle(After(s, work), t)
  {
    hide Inv, IsWork, Enabled, Apply;
    ReadyToWork(s, t, jobs);
    work := Finish(s, t);
  }

  lemma ReadMore(s: State, t: int) returns (r: Round)
    requires Inv(s) && Idle(s, t) && s.redis.delivered < |s.redis.stream|
    ensures r.t == t && IsRound(s, r)
  {
    hide Inv, Later, AllWork, IsRun, After, Apply, Enabled;
    Waited(s, t, 0);
    var b := DoReadStream(s, t);
    ReadApplies(s, t);
    var work := WorkOff(b, t, [Job(s.redis.delivered, None)]);
    r := Round(t, 0, FromStream, work);
    Cons(s, ReadStream(t), work);
    Cons(s, Tick(t, 0), [ReadStream(t)] + work);
    assert Steps(r) == [Tick(t, 0)] + ([ReadStream(t)] + work);
  }

  lemma OwnScanApplies(s: State, t: int)
    requires Idle(s, t)
    ensures Enabled(s, ScanOwn(t)) && Apply(s, ScanOwn(t)) == DoScanOwn(s, t)
  {
    hide XPending;
  }

  lemma RecoverMore(s: State, t: int, p: nat) returns (r: Round)
    requires Inv(s) && Idle(s, t) && p in s.redis.pel && s.redis.pel[p].owner == t
    ensures r.t == t && IsRound(s, r)
  {
    hide Inv, Later, AllWork, IsRun, After, XPending, Apply, Enabled;
    Waited(s, t, 0);
    Accountable(s);
    OwnIds(s, t, p);
    var b := DoScanOwn(s, t);
    OwnScanApplies(s, t);
    StepKeepsInv(s, ScanOwn(t));
    var work := WorkOff(b, t, Reported(s.redis.pel, OwnPending(s, t)));
    r := Round(t, 0, FromOwn, work);
    Cons(s, ScanOwn(t), work);
    Cons(s, Tick(t, 0), [ScanOwn(t)] + work);
    assert Steps(r) == [Tick(t, 0)] + ([ScanOwn(t)] + work);
  }

  // After 30 s of silence t claims what the other consumers left.
  lemma ClaimMore(s: State, t: int) returns (r: Round)
    requires Inv(s) && Idle(s, t) && s.redis.pel != map[]
    requires forall p :: p in s.redis.pel ==> s.redis.pel[p].owner != t
    ensures r.t == t && IsRound(s, r)
  {
    hide Inv, Later, Enabled, Apply, SelectIdle, XPending, Claimed, IsRun, After, AllWork;
    var a := s.(now := s.now + CLAIM_MIN_IDLE_MS);
    Waited(s, t, CLAIM_MIN_IDLE_MS);
    Accountable(s);
    IdleFound(a, t);
    IdleAreForeign(a, t);
    hide IdleElsewhere, IdleIds;
    var ids := IdleIds(a, t);
    var b := Go(a, t, Claiming(ids));
    ScanApplies(a, t);
    StepKeepsInv(a, ScanIdle(t));
    ClaimedAll(a.redis.pel, ids, t, a.now);
    ClaimApplies(b, t, ids);
    StepKeepsInv(b, ClaimIdle(t));
    var work := WorkOff(Apply(b, ClaimIdle(t)), t, Unknown(ids));
    r := Round(t, CLAIM_MIN_IDLE_MS, FromIdle, work);
    Cons(b, ClaimIdle(t), work);
    Cons(a, ScanIdle(t), [ClaimIdle(t)] + work);
    Cons(s, Tick(t, CLAIM_MIN_IDLE_MS), [ScanIdle(t)] + ([ClaimIdle(t)] + work));
    assert Steps(r) == [Tick(t, CLAIM_MIN_IDLE_MS)] + ([ScanIdle(t)] + ([ClaimIdle(t)] + work));
  }

  lemma ScanApplies(s: State, t: int)
    requires Idle(s, t) && IdleIds(s, t) != []
    ensures Enabled(s, ScanIdle(t)) && Apply(s, ScanIdle(t)) == Go(s, t, Claiming(IdleIds(s, t)))
  {
    hide IdleIds;
  }

  lemma BacklogShrinks(s: State, r: Round)
    requires Inv(s) && IsRound(s, r)
    ensures IsRun(s, Steps(r)) && 0 <= Backlog(After(s, Steps(r))) < Backlog(s)
  {
    hide Inv;
    EveryRound(s, r);
    Accountable(After(s, Steps(r)));
  }

  ghost predicate HasRound(s: State, t: int) { exists r: Round :: r.t == t && IsRound(s, r) }

  // An idle consumer has a round left exactly while something is not drained.
  lemma RoundLeft(s: State, t: int)
    requires Inv(s) && Idle(s, t)
    ensures HasRound(s, t) <==> !Drained(s)
  {
    hide Inv, IsRound;
    if Drained(s) {
      forall r | IsRound(s, r) ensures false {
        BacklogShrinks(s, r);
      }
    } else {
      var r := AnotherRound(s, t);
      assert r.t == t && IsRound(s, r);
    }
  }

  lemma AnotherRound(s: State, t: int) returns (r: Round)
    requires Inv(s) && Idle(s, t) && !Drained(s)
    ensures r.t == t && IsRound(s, r)
  {
    hide Inv, IsRound;
    Accountable(s);
    if s.redis.delivered < |s.redis.stream| {
      r := ReadMore(s, t);
    } else if p :| p in s.redis.pel && s.redis.pel[p].owner == t {
      r := RecoverMore(s, t, p);
    } else {
      r := ClaimMore(s, t);
    }
  }

  // Consumers that go on with failure-free rounds, in whatever order they take turns and whatever each reads or claims,
  // take at most as many rounds as the backlog; each of them can go on exactly until everything is delivered and
  // acknowledged.
  lemma DrainConsumers(s: State, rounds: seq<Round>)
    requires Inv(s) && AreRounds(s, rounds)
    ensures IsRun(s, AllSteps(rounds))
    ensures var b := After(s, AllSteps(rounds));
            && Served(s, b) && |rounds| <= Backlog(s)
            && (forall t :: Idle(s, t) ==> (HasRound(b, t) <==> !Drained(b)))
            && (Drained(b) ==>
                  && (forall p :: p in s.redis.pel && s.redis.pel[p].deliveries + 1 < 5 ==> Sold(b, p))
                  && (forall p: nat :: s.redis.delivered <= p < |s.redis.stream| ==> Sold(b, p)))
  {
    hide Inv, Later, HasRound, Sold;
    EveryDrain(s, rounds);
    var b := After(s, AllSteps(rounds));
    forall t | Idle(s, t) ensures HasRound(b, t) <==> !Drained(b) {
      RoundLeft(b, t);
    }
    Accountable(b);
  }

  // And there is such a sequence from every reachable state, by one consumer alone, whatever the others left behind.
  lemma {:induction false} CanDrain(s: State, t: int) returns (rounds: seq<Round>)
    requires Inv(s) && Idle(s, t)
    ensures AreRounds(s, rounds) && forall k :: 0 <= k < |rounds| ==> rounds[k].t == t
    ensures IsRun(s, AllSteps(rounds)) && Drained(After(s, AllSteps(rounds)))
    decreases Backlog(s)
  {
    hide Inv, IsRound, RoundDone, Enabled, Apply;
    Accountable(s);
    if Drained(s) {
      rounds := [];
    } else {
      var r := AnotherRound(s, t);
      RoundRuns(s, r);
      EveryRound(s, r);
      var m := After(s, Steps(r));
      RoundShrinks(s, m, t);
      var rest := CanDrain(m, t);
      rounds := [r] + rest;
      assert rounds[1..] == rest;
      RunsJoin(s, Steps(r), AllSteps(rest));
    }
  }

  lemma RoundRuns(s: State, r: Round)
    requires IsRound(s, r)
    ensures IsRun(s, Steps(r))
  {
  }

  lemma RoundShrinks(a: State, b: State, t: int)
    requires Idle(a, t) && RoundDone(a, b)
    ensures Backlog(b) < Backlog(a) && Idle(b, t)
  {
  }
}
