// A consumer working off the records it was handed, alone and without failures: every way of doing so ends with each
// record acknowledged, and with an order row for each one below the delivery limit.
module CouponRecords {
  import opened Wrappers
  import opened CouponStores
  import opened CouponSteps
  import opened CouponInvariant
  import opened CouponPreservation
  import opened CouponRuns
  import opened CouponTheorems

  // A step of the record loop of t. Lookups and hint commands may fail, they are only logged; an exception of the
  // handler, a busy lock and a crash are no work.
  predicate IsWork(a: Action, t: int) {
    && a.t == t
    && (a.TakeJob? || a.LookupVoucher? || a.CheckExisting? || a.Commit? || a.Unlock? || a.Isolate? || a.ClearHint?
        || a.Ack?)
  }

  predicate AllWork(run: seq<Action>, t: int) { forall i :: 0 <= i < |run| ==> IsWork(run[i], t) }

  // ---- what is still to do ----

  predicate InRecord(pc: Pc) {
    pc.Handling? || pc.Looked? || pc.Checked? || pc.Applied? || pc.Doomed? || pc.Settling?
  }

  // The record will end as an order row, not as a dead letter.
  predicate Sellable(pc: Pc) { pc.Handling? || pc.Looked? || pc.Checked? || pc.Applied? }

  predicate AtWork(pc: Pc) { InRecord(pc) || (pc.Working? && pc.jobs != []) }

  function JobsOf(s: State, t: int): seq<Job> {
    if t in s.threads && AtWork(s.threads[t]) then s.threads[t].jobs else []
  }

  ghost function Positions(jobs: seq<Job>): set<nat> { set k | 0 <= k < |jobs| :: jobs[k].pos }

  // The records that t still has to acknowledge.
  ghost function Todo(s: State, t: int): set<nat> {
    Positions(JobsOf(s, t)) + if t in s.threads && InRecord(s.threads[t]) then {s.threads[t].pos} else {}
  }

  // The delivery count the handler will see for a job when the lookup works.
  function CountOf(s: State, t: int, job: Job): nat {
    if job.known.Some? then job.known.value else LookupCount(s, t, job.pos, true)
  }

  // The records of t that will be order rows.
  ghost predicate Promised(s: State, t: int, p: nat) {
    || (t in s.threads && Sellable(s.threads[t]) && s.threads[t].pos == p)
    || exists k :: 0 <= k < |JobsOf(s, t)| && JobsOf(s, t)[k].pos == p
                   && CountOf(s, t, JobsOf(s, t)[k]) < 5
  }

  ghost predicate Sold(s: State, p: nat) { p < |s.redis.stream| && s.redis.stream[p].id in s.db.orders }

  function StepsLeft(pc: Pc): nat {
    match pc
    case Handling(_, _, _) => 7
    case Looked(_, _) => 6
    case Checked(_, _) => 5
    case Applied(_, _) => 4
    case Doomed(_, _, _) => 4
    case Settling(_, stage, _) => (match stage case ClearProcessing => 3 case ClearAccept => 2 case Acking => 1)
    case _ => 0
  }

  // More than the steps that are left.
  function WorkLeft(s: State, t: int): nat {
    8 * |JobsOf(s, t)| + if t in s.threads then StepsLeft(s.threads[t]) else 0
  }

  // t is idle or at work, and a commit it is about to try finds a unit of stock.
  ghost predicate Ready(s: State, t: int) {
    && (t in s.threads ==> AtWork(s.threads[t]))
    && (t in s.threads && s.threads[t].Checked? ==>
          s.threads[t].pos < |s.redis.stream| && InsertResult(s.db, s.redis.stream[s.threads[t].pos]).Inserted?)
  }

  // What working on records leaves alone.
  ghost predicate Calm(a: State, b: State, t: int) {
    && b.redis.stream == a.redis.stream && b.redis.delivered == a.redis.delivered
    && b.db.outbox == a.db.outbox && b.now == a.now
    && OthersKept(a.threads, b.threads, t)
  }

  // From a to b, t only acknowledged records it had to, and sold those it had promised.
  ghost predicate Progress(a: State, b: State, t: int) {
    && Calm(a, b, t) && Ready(b, t)
    && b.redis.pel - Todo(b, t) == a.redis.pel - Todo(a, t)
    && forall p: nat :: Promised(a, t, p) ==> Promised(b, t, p) || Sold(b, p)
  }

  ghost predicate Shorter(a: State, b: State, t: int) { WorkLeft(b, t) < WorkLeft(a, t) }

  // ---- one step ----

  lemma RestOfJobs(jobs: seq<Job>)
    requires jobs != []
    ensures Positions(jobs) == {jobs[0].pos} + Positions(jobs[1..])
  {
    assert jobs[0].pos in Positions(jobs);
    forall k | 0 <= k < |jobs[1..]| ensures jobs[1..][k].pos in Positions(jobs) {
      assert jobs[1..][k] == jobs[k + 1];
    }
    forall k | 0 < k < |jobs| ensures jobs[k].pos in Positions(jobs[1..]) {
      assert jobs[1..][k - 1] == jobs[k];
    }
  }

  lemma TakesJob(s: State, t: int, looked: bool)
    requires Ready(s, t) && Enabled(s, TakeJob(t, looked))
    ensures var b := Apply(s, TakeJob(t, looked)); Progress(s, b, t) && Shorter(s, b, t)
  {
    var jobs := s.threads[t].jobs;
    var b := DoTakeJob(s, t, looked);
    assert Apply(s, TakeJob(t, looked)) == b && JobsOf(b, t) == jobs[1..];
    hide Enabled, Apply;
    RestOfJobs(jobs);
    forall p: nat | Promised(s, t, p) ensures Promised(b, t, p) {
      var k :| 0 <= k < |jobs| && jobs[k].pos == p && CountOf(s, t, jobs[k]) < 5;
      if k > 0 {
        assert jobs[1..][k - 1] == jobs[k];
      }
    }
  }

  // t stays in its record.
  ghost predicate SameRecord(a: State, b: State, t: int) {
    && t in a.threads && InRecord(a.threads[t]) && t in b.threads && InRecord(b.threads[t])
    && Calm(a, b, t) && b.redis.pel == a.redis.pel
    && b.threads[t].pos == a.threads[t].pos && b.threads[t].jobs == a.threads[t].jobs
  }

  lemma RecordGoesOn(a: State, b: State, t: int)
    requires SameRecord(a, b, t) && Ready(b, t)
    requires Sellable(a.threads[t]) ==> Sellable(b.threads[t]) || Sold(b, a.threads[t].pos)
    ensures Progress(a, b, t)
  {
    forall p: nat | Promised(a, t, p) ensures Promised(b, t, p) || Sold(b, p) {
      if !(Sellable(a.threads[t]) && a.threads[t].pos == p) {
        var k :| 0 <= k < |JobsOf(a, t)| && JobsOf(a, t)[k].pos == p && CountOf(a, t, JobsOf(a, t)[k]) < 5;
        assert JobsOf(b, t)[k] == JobsOf(a, t)[k];
      }
    }
  }

  lemma LooksUp(s: State, t: int)
    requires Ready(s, t) && Enabled(s, LookupVoucher(t)) && s.redis.stream[s.threads[t].pos].voucher in s.db.stock
    ensures var b := Apply(s, LookupVoucher(t)); Progress(s, b, t) && Shorter(s, b, t)
  {
    assert Apply(s, LookupVoucher(t)) == DoLookupVoucher(s, t);
    RecordGoesOn(s, DoLookupVoucher(s, t), t);
  }

  // A commit right after the check inserts the row: the purchase was accepted, so a unit of stock is there.
  lemma FreshCommit(s: State, e: Entry)
    requires Inv(s) && e in s.redis.stream && !HasRowFor(s.db, e)
    ensures InsertResult(s.db, e).Inserted?
  {
    hide Inv;
    EntryAccepted(s, e);
    AcceptedHasStock(s, e.voucher, e.user);
    GapOf(s, e.voucher);
    assert (e.voucher, e.user) in WaitingBuyers(s, e.voucher);
  }

  lemma ChecksExisting(s: State, t: int)
    requires Inv(s) && Ready(s, t) && Enabled(s, CheckExisting(t))
    ensures var b := Apply(s, CheckExisting(t)); Progress(s, b, t) && Shorter(s, b, t)
  {
    hide Inv;
    var e := s.redis.stream[s.threads[t].pos];
    if !HasRowFor(s.db, e) {
      FreshCommit(s, e);
    }
    hide HasRowFor;
    assert Apply(s, CheckExisting(t)) == DoCheckExisting(s, t);
    RecordGoesOn(s, DoCheckExisting(s, t), t);
  }

  lemma Commits(s: State, t: int)
    requires Ready(s, t) && Enabled(s, Commit(t))
    ensures var b := Apply(s, Commit(t)); Progress(s, b, t) && Shorter(s, b, t)
  {
    hide HasRowFor;
    assert Apply(s, Commit(t)) == DoCommit(s, t);
    RecordGoesOn(s, DoCommit(s, t), t);
  }

  lemma Unlocks(s: State, t: int)
    requires Ready(s, t) && Enabled(s, Unlock(t)) && Sold(s, s.threads[t].pos)
    ensures var b := Apply(s, Unlock(t)); Progress(s, b, t) && Shorter(s, b, t)
  {
    assert Apply(s, Unlock(t)) == DoUnlock(s, t);
    RecordGoesOn(s, DoUnlock(s, t), t);
  }

  lemma Isolates(s: State, t: int)
    requires Ready(s, t) && Enabled(s, Isolate(t))
    ensures var b := Apply(s, Isolate(t)); Progress(s, b, t) && Shorter(s, b, t)
  {
    assert Apply(s, Isolate(t)) == DoIsolate(s, t);
    RecordGoesOn(s, DoIsolate(s, t), t);
  }

  lemma ClearsHint(s: State, t: int, ok: bool)
    requires Ready(s, t) && Enabled(s, ClearHint(t, ok))
    ensures var b := Apply(s, ClearHint(t, ok)); Progress(s, b, t) && Shorter(s, b, t)
  {
    assert Apply(s, ClearHint(t, ok)) == DoClearHint(s, t, ok);
    RecordGoesOn(s, DoClearHint(s, t, ok), t);
  }

  lemma Acks(s: State, t: int)
    requires Ready(s, t) && Enabled(s, Ack(t))
    ensures var b := Apply(s, Ack(t)); Progress(s, b, t) && Shorter(s, b, t)
  {
    var b := DoAck(s, t);
    var jobs := s.threads[t].jobs;
    assert Apply(s, Ack(t)) == b && JobsOf(b, t) == jobs && JobsOf(s, t) == jobs;
    assert b.redis.pel - Todo(b, t) == s.redis.pel - Todo(s, t);
    forall p: nat | Promised(s, t, p) ensures Promised(b, t, p) {
      var k :| 0 <= k < |jobs| && jobs[k].pos == p && CountOf(s, t, jobs[k]) < 5;
      assert CountOf(b, t, jobs[k]) < 5;
    }
  }

  lemma AppliedIsSold(s: State, t: int)
    requires Inv(s) && t in s.threads && s.threads[t].Applied?
    ensures Sold(s, s.threads[t].pos)
  {
    assert PcOk(s, s.threads[t]);
  }

  // Whatever step of its loop t takes, it makes progress.
  lemma WorkStep(s: State, a: Action, t: int)
    requires Inv(s) && Ready(s, t) && Enabled(s, a) && IsWork(a, t)
    ensures Inv(Apply(s, a)) && Later(s, Apply(s, a)) && Progress(s, Apply(s, a), t) && Shorter(s, Apply(s, a), t)
  {
    hide Inv, Later, Apply, Progress, Shorter, Ready;
    StepKeepsInv(s, a);
    match a
    case TakeJob(_, looked) => TakesJob(s, t, looked);
    case LookupVoucher(_) =>
      EntryAccepted(s, s.redis.stream[s.threads[t].pos]);
      LooksUp(s, t);
    case CheckExisting(_) => ChecksExisting(s, t);
    case Commit(_) => Commits(s, t);
    case Unlock(_) =>
      AppliedIsSold(s, t);
      Unlocks(s, t);
    case Isolate(_) => Isolates(s, t);
    case ClearHint(_, ok) => ClearsHint(s, t, ok);
    case Ack(_) => Acks(s, t);
  }

  // ---- any number of steps ----

  lemma ProgressJoins(a: State, b: State, c: State, t: int)
    requires Progress(a, b, t) && Progress(b, c, t) && Later(b, c)
    ensures Progress(a, c, t)
  {
    forall p: nat | Promised(a, t, p) ensures Promised(c, t, p) || Sold(c, p) {
      if !Promised(b, t, p) {
        assert Sold(b, p);
        assert c.redis.stream[p] == b.redis.stream[p];
      }
    }
  }

  lemma NoProgress(s: State, t: int)
    requires Ready(s, t)
    ensures Progress(s, s, t) && Later(s, s)
  {
  }

  // Any run of such steps, in any state in which t is ready.
  lemma {:induction false} Work(s: State, run: seq<Action>, t: int)
    requires Inv(s) && Ready(s, t) && IsRun(s, run) && AllWork(run, t)
    ensures Inv(After(s, run)) && Later(s, After(s, run)) && Progress(s, After(s, run), t)
    ensures |run| + WorkLeft(After(s, run), t) <= WorkLeft(s, t)
    decreases |run|
  {
    if run == [] {
      hide Inv;
      NoProgress(s, t);
    } else {
      var b := Apply(s, run[0]);
      assert IsWork(run[0], t);
      assert AllWork(run[1..], t);
      hide Inv, Later, Progress, Ready, Apply, Enabled, IsWork;
      WorkStep(s, run[0], t);
      ReadyAgain(s, b, t);
      Work(b, run[1..], t);
      var c := After(b, run[1..]);
      LaterTransitive(s, b, c);
      ProgressJoins(s, b, c, t);
    }
  }

  lemma ReadyAgain(a: State, b: State, t: int)
    requires Progress(a, b, t)
    ensures Ready(b, t)
  {
  }

  // ---- reaching the end ----

  // The next action of t, with nothing failing.
  function NextStep(pc: Pc, t: int): Action {
    match pc
    case Working(_) => TakeJob(t, true)
    case Handling(_, _, _) => LookupVoucher(t)
    case Looked(_, _) => CheckExisting(t)
    case Checked(_, _) => Commit(t)
    case Applied(_, _) => Unlock(t)
    case Doomed(_, _, _) => Isolate(t)
    case Settling(_, stage, _) => if stage.Acking? then Ack(t) else ClearHint(t, true)
    case _ => Crash(t)
  }

  lemma CanGoOn(s: State, t: int)
    requires Inv(s) && Ready(s, t) && t in s.threads
    ensures Enabled(s, NextStep(s.threads[t], t)) && IsWork(NextStep(s.threads[t], t), t)
  {
    hide Inv;
    RecordBody(s, t);
  }

  lemma RecordBody(s: State, t: int)
    requires Inv(s) && t in s.threads
    ensures InRecord(s.threads[t]) ==> s.threads[t].pos < |s.redis.stream|
  {
    assert PcOk(s, s.threads[t]);
  }

  lemma Cons(s: State, a: Action, run: seq<Action>)
    requires Enabled(s, a) && IsRun(Apply(s, a), run)
    ensures IsRun(s, [a] + run) && After(s, [a] + run) == After(Apply(s, a), run)
  {
    hide Enabled, Apply;
    assert ([a] + run)[1..] == run;
  }

  lemma OneMore(s: State, t: int) returns (a: Action)
    requires Inv(s) && Ready(s, t) && t in s.threads
    ensures Enabled(s, a) && IsWork(a, t)
    ensures Inv(Apply(s, a)) && Ready(Apply(s, a), t) && WorkLeft(Apply(s, a), t) < WorkLeft(s, t)
  {
    hide Inv, Progress, Ready, Apply, Enabled, Later, IsWork, WorkLeft, NextStep;
    a := NextStep(s.threads[t], t);
    CanGoOn(s, t);
    WorkStep(s, a, t);
    ReadyAgain(s, Apply(s, a), t);
  }

  lemma WorkFirst(a: Action, run: seq<Action>, t: int)
    requires IsWork(a, t) && AllWork(run, t)
    ensures AllWork([a] + run, t)
  {
  }

  // t is never stuck, so it can always finish.
  lemma {:induction false} Finish(s: State, t: int) returns (run: seq<Action>)
    requires Inv(s) && Ready(s, t)
    ensures IsRun(s, run) && AllWork(run, t) && Idle(After(s, run), t)
    decreases WorkLeft(s, t)
  {
    if Idle(s, t) {
      hide Inv, Enabled, Apply;
      run := [];
      return;
    }
    hide *;
    var a := OneMore(s, t);
    var rest := Finish(Apply(s, a), t);
    Cons(s, a, rest);
    WorkFirst(a, rest, t);
    run := [a] + rest;
  }
}
