// Deliveries: what the pending list accounts for, what a scan picks, and who may claim.
module CouponDelivery {
  import opened Wrappers
  import opened CouponStores
  import opened CouponSteps
  import opened CouponInvariant
  import opened CouponPreservation
  import opened CouponRuns

  // ---- what the scans pick, against plain filters ----

  ghost function ListedIds(pel: map<nat, Pending>, owner: Option<int>, from: nat, end: nat): seq<nat>
    requires from <= end
    decreases end - from
  {
    if from == end then []
    else (if Listed(pel, owner, from) then [from] else []) + ListedIds(pel, owner, from + 1, end)
  }

  ghost function IdleOnes(pel: map<nat, Pending>, window: seq<nat>, self: int, now: int): seq<nat> {
    if window == [] then []
    else (if IdleElsewhere(pel, window[0], self, now) then [window[0]] else []) + IdleOnes(pel, window[1..], self, now)
  }

  ghost function PendingOnes(rows: seq<OutboxRow>, from: nat): seq<nat>
    requires from <= |rows|
    decreases |rows| - from
  {
    if from == |rows| then [] else (if rows[from].done then [] else [from]) + PendingOnes(rows, from + 1)
  }

  ghost function Take(s: seq<nat>, limit: nat): seq<nat> { if |s| <= limit then s else s[..limit] }

  lemma {:induction false} XPendingIsPrefix(pel: map<nat, Pending>, owner: Option<int>, from: nat, end: nat, limit: nat)
    requires from <= end
    ensures XPending(pel, owner, from, end, limit) == Take(ListedIds(pel, owner, from, end), limit)
    decreases end - from
  {
    if from < end && limit > 0 {
      XPendingIsPrefix(pel, owner, from + 1, end, if Listed(pel, owner, from) then limit - 1 else limit);
    }
  }

  // The listing is complete, and in ascending id order.
  lemma {:induction false} ListedIdsComplete(pel: map<nat, Pending>, owner: Option<int>, from: nat, end: nat)
    requires from <= end
    ensures forall p: nat :: p in ListedIds(pel, owner, from, end) <==> from <= p < end && Listed(pel, owner, p)
    ensures forall i, j :: 0 <= i < j < |ListedIds(pel, owner, from, end)| ==>
              ListedIds(pel, owner, from, end)[i] < ListedIds(pel, owner, from, end)[j]
    decreases end - from
  {
    if from < end {
      ListedIdsComplete(pel, owner, from + 1, end);
      var rest := ListedIds(pel, owner, from + 1, end);
      forall i | 0 <= i < |rest| ensures rest[i] > from {
        assert rest[i] in rest;
      }
    }
  }

  lemma {:induction false} SelectIdleIsPrefix(pel: map<nat, Pending>, window: seq<nat>, self: int, now: int, limit: nat)
    ensures SelectIdle(pel, window, self, now, limit) == Take(IdleOnes(pel, window, self, now), limit)
  {
    if window != [] && limit > 0 {
      SelectIdleIsPrefix(pel, window[1..], self, now,
                         if IdleElsewhere(pel, window[0], self, now) then limit - 1 else limit);
    }
  }

  lemma {:induction false} PendingRowsIsPrefix(rows: seq<OutboxRow>, from: nat, limit: nat)
    requires from <= |rows|
    ensures PendingRows(rows, from, limit) == Take(PendingOnes(rows, from), limit)
    decreases |rows| - from
  {
    if from < |rows| && limit > 0 {
      PendingRowsIsPrefix(rows, from + 1, if rows[from].done then limit else limit - 1);
    }
  }

  lemma {:induction false} IdleOnesMean(pel: map<nat, Pending>, window: seq<nat>, self: int, now: int)
    ensures forall p: nat :: p in IdleOnes(pel, window, self, now)
                             <==> p in window && p in pel && pel[p].owner != self && now - pel[p].lastDelivery >= 30000
  {
    if window != [] {
      IdleOnesMean(pel, window[1..], self, now);
      assert window == [window[0]] + window[1..];
    }
  }

  // A claim scan picks exactly the first min(10, eligible) idle foreign ids among the first 100 pending ids.
  lemma ClaimScanPicks(s: State, t: int)
    requires Inv(s)
    ensures IdleIds(s, t)
            == Take(IdleOnes(s.redis.pel, Take(ListedIds(s.redis.pel, None, 0, s.redis.delivered), 100), t, s.now), 10)
    ensures forall window, p: nat :: p in IdleOnes(s.redis.pel, window, t, s.now)
                                     <==> && p in window && p in s.redis.pel && s.redis.pel[p].owner != t
                                          && s.now - s.redis.pel[p].lastDelivery >= 30000
    ensures forall p: nat :: p in ListedIds(s.redis.pel, None, 0, s.redis.delivered) <==> p in s.redis.pel
  {
    Accountable(s);
    XPendingIsPrefix(s.redis.pel, None, 0, s.redis.delivered, CLAIM_SCAN_WINDOW);
    SelectIdleIsPrefix(s.redis.pel, XPending(s.redis.pel, None, 0, s.redis.delivered, CLAIM_SCAN_WINDOW), t, s.now,
                       CLAIM_BATCH);
    ListedIdsComplete(s.redis.pel, None, 0, s.redis.delivered);
    forall window {
      IdleOnesMean(s.redis.pel, window, t, s.now);
    }
  }

  // ---- delivery counts ----

  lemma CountsOfInv(s: State, t: int)
    requires Inv(s)
    ensures t in s.threads && s.threads[t].Handling? ==>
              s.threads[t].pos < |s.hist.claims| && s.threads[t].count <= 1 + s.hist.claims[s.threads[t].pos]
    ensures DeadOk(s.db.dead, s.redis.stream, s.hist.claims)
  {
    assert t in s.threads ==> PcOk(s, s.threads[t]);
  }

  // A pending entry was delivered 1 + claims times, and the count its handler works with is never more.
  lemma DeliveryCounts(s: State, p: nat, t: int)
    requires Reachable(s)
    ensures p in s.redis.pel ==> p < |s.hist.claims| && s.redis.pel[p].deliveries == 1 + s.hist.claims[p]
    ensures t in s.threads && s.threads[t].Handling? && s.threads[t].pos in s.redis.pel ==>
              s.threads[t].count <= s.redis.pel[s.threads[t].pos].deliveries
  {
    hide Inv;
    ReachableInv(s);
    Accountable(s);
    CountsOfInv(s, t);
  }

  // A record is dead-lettered for MAX_DELIVERIES only after four claims, hence at least two minutes after its first
  // delivery; no accepted record is ever dead-lettered for a missing voucher.
  lemma ExhaustedOnlyAfterClaims(s: State, i: nat)
    requires Reachable(s) && i < |s.db.dead|
    ensures s.db.dead[i].reason != VoucherMissing
    ensures s.db.dead[i].reason == MaxDeliveries ==>
              && s.db.dead[i].pos < |s.hist.claims| && s.db.dead[i].pos < |s.hist.first|
              && s.hist.claims[s.db.dead[i].pos] >= 4
              && s.now - s.hist.first[s.db.dead[i].pos] >= 4 * 30000
  {
    hide Inv;
    ReachableInv(s);
    Accountable(s);
    CountsOfInv(s, 0);
    assert s.db.dead[i].pos < |s.hist.claims|;
  }

  // ---- only another consumer claims ----

  // A consumer that is about to claim owns none of the ids it picked.
  ghost predicate ForeignClaims(s: State) {
    forall t, p :: t in s.threads && s.threads[t].Claiming? && p in s.threads[t].ids && p in s.redis.pel ==>
      s.redis.pel[p].owner != t
  }

  lemma ForeignTrade(s: State, a: Action)
    requires ForeignClaims(s) && Enabled(s, a) && IsTrade(a)
    ensures ForeignClaims(Apply(s, a))
  {
    forall t | t in Apply(s, a).threads && Apply(s, a).threads[t].Claiming?
      ensures t in s.threads && s.threads[t] == Apply(s, a).threads[t] {}
  }

  lemma ForeignScan(s: State, t: int)
    requires Idle(s, t)
    ensures forall p :: p in IdleIds(s, t) ==> p in s.redis.pel && s.redis.pel[p].owner != t
  {
    var window := XPending(s.redis.pel, None, 0, s.redis.delivered, CLAIM_SCAN_WINDOW);
    SelectedAreForeign(s.redis.pel, window, t, s.now, CLAIM_BATCH);
  }

  lemma {:induction false} SelectedAreForeign(pel: map<nat, Pending>, window: seq<nat>, self: int, now: int, limit: nat)
    ensures forall p :: p in SelectIdle(pel, window, self, now, limit) ==> IdleElsewhere(pel, p, self, now)
  {
    if window != [] && limit > 0 {
      SelectedAreForeign(pel, window[1..], self, now,
                         if IdleElsewhere(pel, window[0], self, now) then limit - 1 else limit);
    }
  }

  lemma ForeignSeckill(s: State, a: Action)
    requires ForeignClaims(s) && Enabled(s, a) && !IsTrade(a)
    ensures ForeignClaims(Apply(s, a))
  {
    if a.ScanIdle? {
      ForeignScan(s, a.t);
    }
  }

  lemma {:induction false} ForeignRun(s: State, run: seq<Action>)
    requires ForeignClaims(s) && IsRun(s, run)
    ensures ForeignClaims(After(s, run))
    decreases |run|
  {
    hide ForeignClaims, Enabled, Apply;
    if run != [] {
      if IsTrade(run[0]) { ForeignTrade(s, run[0]); } else { ForeignSeckill(s, run[0]); }
      ForeignRun(Apply(s, run[0]), run[1..]);
    }
  }

  // The claim count of an entry moves only by one at a time, only by XCLAIM, and only when the claimer takes the entry
  // over from another consumer that left it idle for 30 s.
  lemma ClaimTakesOver(s: State, a: Action, p: nat)
    requires Reachable(s) && Enabled(s, a) && p < |s.hist.claims|
    ensures |Apply(s, a).hist.claims| >= |s.hist.claims|
    ensures Apply(s, a).hist.claims[p] != s.hist.claims[p] ==>
              && a.ClaimIdle? && Apply(s, a).hist.claims[p] == s.hist.claims[p] + 1
              && p in s.redis.pel && s.redis.pel[p].owner != a.t && s.now - s.redis.pel[p].lastDelivery >= 30000
              && p in Apply(s, a).redis.pel && Apply(s, a).redis.pel[p].owner == a.t
  {
    var run :| IsRun(Start, run) && After(Start, run) == s;
    assert ForeignClaims(Start);
    ForeignRun(Start, run);
    ClaimStep(s, a, p);
  }

  // Only reading the stream and claiming write the claim counts.
  lemma ClaimsKept(s: State, a: Action)
    requires Enabled(s, a) && !a.ReadStream? && !a.ClaimIdle?
    ensures Apply(s, a).hist.claims == s.hist.claims
  {
    hide ApplyTrade, ApplySeckill, Enabled;
    if IsTrade(a) {
      TradeClaims(s, a);
    } else {
      SeckillClaims(s, a);
    }
  }

  lemma TradeClaims(s: State, a: Action)
    requires Enabled(s, a) && IsTrade(a)
    ensures ApplyTrade(s, a).hist.claims == s.hist.claims
  {
  }

  lemma SeckillClaims(s: State, a: Action)
    requires Enabled(s, a) && !IsTrade(a) && !a.ReadStream? && !a.ClaimIdle?
    ensures ApplySeckill(s, a).hist.claims == s.hist.claims
  {
  }

  lemma ClaimStep(s: State, a: Action, p: nat)
    requires ForeignClaims(s) && Enabled(s, a) && p < |s.hist.claims|
    ensures |Apply(s, a).hist.claims| >= |s.hist.claims|
    ensures Apply(s, a).hist.claims[p] != s.hist.claims[p] ==>
              && a.ClaimIdle? && Apply(s, a).hist.claims[p] == s.hist.claims[p] + 1
              && p in s.redis.pel && s.redis.pel[p].owner != a.t && s.now - s.redis.pel[p].lastDelivery >= 30000
              && p in Apply(s, a).redis.pel && Apply(s, a).redis.pel[p].owner == a.t
  {
    if a.ReadStream? {
      assert Apply(s, a) == DoReadStream(s, a.t);
    } else if a.ClaimIdle? {
      assert Apply(s, a) == DoClaimIdle(s, a.t);
    } else {
      hide Apply;
      ClaimsKept(s, a);
    }
  }
}
