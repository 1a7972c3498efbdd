// The deployed system as one thread meets it: its own steps, and between them whatever the other threads do.
module CouponWorld {
  import opened CouponStores
  import opened CouponSteps
  import opened CouponInvariant
  import opened CouponRuns
  import opened CouponOrders

  ghost predicate SameThread(a: State, b: State, t: int) {
    && (t in a.threads <==> t in b.threads)
    && (t in a.threads ==> b.threads[t] == a.threads[t])
  }

  // Where the world may be once the other threads have run: still reachable, not earlier, and t is where it was.
  ghost predicate Moved(a: State, b: State, t: int) {
    Reachable(b) && Later(a, b) && SameThread(a, b, t)
  }

  predicate ByOthers(run: seq<Action>, t: int) { forall i :: 0 <= i < |run| ==> run[i].t != t }

  lemma TradeLeaves(s: State, a: Action, t: int)
    requires Enabled(s, a) && IsTrade(a) && a.t != t
    ensures SameThread(s, Apply(s, a), t)
  {
  }

  predicate IsHandling(a: Action) {
    a.TakeJob? || a.LookupVoucher? || a.CheckExisting? || a.Commit? || a.Unlock?
  }

  lemma HandlingLeaves(s: State, a: Action, t: int)
    requires Enabled(s, a) && IsHandling(a) && a.t != t
    ensures SameThread(s, Apply(s, a), t)
  {
  }

  lemma SeckillLeaves(s: State, a: Action, t: int)
    requires Enabled(s, a) && !IsTrade(a) && !IsHandling(a) && a.t != t
    ensures SameThread(s, Apply(s, a), t)
  {
  }

  lemma {:induction false} OthersLeave(s: State, run: seq<Action>, t: int)
    requires IsRun(s, run) && ByOthers(run, t)
    ensures SameThread(s, After(s, run), t)
    decreases |run|
  {
    hide Enabled, Apply;
    if run != [] {
      if IsTrade(run[0]) {
        TradeLeaves(s, run[0], t);
      } else if IsHandling(run[0]) {
        HandlingLeaves(s, run[0], t);
      } else {
        SeckillLeaves(s, run[0], t);
      }
      OthersLeave(Apply(s, run[0]), run[1..], t);
    }
  }

  lemma OthersMove(s: State, run: seq<Action>, t: int)
    requires Reachable(s) && IsRun(s, run) && ByOthers(run, t)
    ensures Moved(s, After(s, run), t)
  {
    hide Inv, Later, Reachable;
    ReachableInv(s);
    RunKeepsInv(s, run);
    ReachableRun(s, run);
    OthersLeave(s, run, t);
  }

  lemma OneStep(s: State, a: Action)
    requires Reachable(s) && Enabled(s, a)
    ensures Reachable(Apply(s, a)) && Later(s, Apply(s, a))
  {
    hide Inv, Later, Enabled, Apply;
    ReachableInv(s);
    StepKeepsInv(s, a);
    assert IsRun(Apply(s, a), [a][1..]) && After(s, [a]) == Apply(s, a);
    ReachableRun(s, [a]);
  }

  lemma LaterThrough(a: State, b: State)
    requires Later(a, b)
    ensures forall x :: Later(x, a) ==> Later(x, b)
  {
    hide Later;
    forall x | Later(x, a) ensures Later(x, b) {
      LaterTransitive(x, a, b);
    }
  }

  // The position that an action acknowledges.
  ghost function Acknowledged(s: State, a: Action): seq<nat> {
    if a.Ack? && AtAck(s, a.t) then [s.threads[a.t].pos] else []
  }

  class World {
    var s: State
    // What the other threads do at each pause of this one; an entry that is not a run of theirs is skipped.
    var others: seq<seq<Action>>
    // The stream positions that this thread has acknowledged.
    ghost var acks: seq<nat>

    constructor (others: seq<seq<Action>>)
      ensures s == Start && Reachable(s) && acks == []
    {
      s, this.others, acks := Start, others, [];
      new;
      assert IsRun(Start, []) && After(Start, []) == Start;
    }

    method Do(a: Action)
      requires Reachable(s) && Enabled(s, a)
      modifies this
      ensures s == Apply(old(s), a) && Reachable(s) && Later(old(s), s)
      ensures forall b :: Later(b, old(s)) ==> Later(b, s)
      ensures acks == old(acks) + Acknowledged(old(s), a)
    {
      hide *;
      OneStep(s, a);
      LaterThrough(s, Apply(s, a));
      acks := acks + Acknowledged(s, a);
      s := Apply(s, a);
    }

    method Pause(t: int)
      requires Reachable(s)
      modifies this
      ensures Moved(old(s), s, t) && acks == old(acks)
      ensures forall b :: Later(b, old(s)) ==> Later(b, s)
    {
      hide Reachable, Later, IsRun, After, Enabled, Apply;
      if others != [] {
        var run := others[0];
        others := others[1..];
        if IsRun(s, run) && ByOthers(run, t) {
          OthersMove(s, run, t);
          LaterThrough(s, After(s, run));
          s := After(s, run);
          return;
        }
      }
      LaterReflexive(s);
    }
  }
}
