// The scheduler: queueWatcher and flushSchedulerQueue. Watchers are known by their ids.
module VueScheduler {
  import opened Lists

  const MAX_UPDATE_COUNT := 100

  // What happened: a watcher was handed to queueWatcher, or was run, or all pending ones were given up.
  datatype Event = Queued(id: int) | Ran(id: int) | GivenUp

  // The watchers that were queued and not run since.
  ghost function Pending(log: seq<Event>): set<int> {
    if log == [] then {}
    else
      var before := Pending(log[..|log| - 1]);
      match log[|log| - 1]
      case Queued(id) => before + {id}
      case Ran(id) => before - {id}
      case GivenUp => {}
  }

  ghost function Runs(log: seq<Event>, id: int): nat {
    if log == [] then 0 else Runs(log[..|log| - 1], id) + if log[|log| - 1] == Ran(id) then 1 else 0
  }

  // From position `from` on, only pending watchers run, and always the one with the smallest id.
  ghost predicate SmallestFirst(log: seq<Event>, from: nat) {
    forall p :: from <= p < |log| && log[p].Ran? ==> SmallestAt(log, p)
  }

  ghost predicate SmallestAt(log: seq<Event>, p: nat)
    requires p < |log| && log[p].Ran?
  {
    log[p].id in Pending(log[..p]) && forall j :: j in Pending(log[..p]) ==> log[p].id <= j
  }

  ghost predicate NoneGivenUp(log: seq<Event>, from: nat) { forall p :: from <= p < |log| ==> !log[p].GivenUp? }

  // Whoever was queued and is not pending any more has run since, or was given up.
  lemma {:induction false} NotPendingHasRun(log: seq<Event>, p: nat)
    requires p < |log| && log[p].Queued? && log[p].id !in Pending(log)
    ensures exists q :: p < q < |log| && (log[q] == Ran(log[p].id) || log[q].GivenUp?)
    decreases |log|
  {
    var n := |log| - 1;
    if log[n] != Ran(log[p].id) && !log[n].GivenUp? {
      NotPendingHasRun(log[..n], p);
      var q :| p < q < n && (log[..n][q] == Ran(log[..n][p].id) || log[..n][q].GivenUp?);
      assert log[q] == Ran(log[p].id) || log[q].GivenUp?;
    }
  }

  // After a flush that completed, every watcher queued during it has run, after it was queued.
  lemma EveryQueuedRuns(log: seq<Event>, from: nat, p: nat)
    requires Pending(log) == {} && NoneGivenUp(log, from) && from <= p < |log| && log[p].Queued?
    ensures exists q :: p < q < |log| && log[q] == Ran(log[p].id)
  {
    NotPendingHasRun(log, p);
    var q :| p < q < |log| && (log[q] == Ran(log[p].id) || log[q].GivenUp?);
    assert log[q] == Ran(log[p].id);
  }

  lemma Appended(log: seq<Event>, e: Event)
    ensures Pending(log + [e]) == if e.Queued? then Pending(log) + {e.id} else if e.Ran? then Pending(log) - {e.id} else {}
    ensures forall id :: Runs(log + [e], id) == Runs(log, id) + if e == Ran(id) then 1 else 0
  {
    assert (log + [e])[..|log|] == log;
  }

  lemma StillSmallest(log: seq<Event>, from: nat, e: Event)
    requires SmallestFirst(log, from)
    requires e.Ran? ==> e.id in Pending(log) && forall j :: j in Pending(log) ==> e.id <= j
    ensures SmallestFirst(log + [e], from)
  {
    forall p | from <= p < |log + [e]| && (log + [e])[p].Ran? ensures SmallestAt(log + [e], p) {
      assert (log + [e])[..p] == log[..p];
      if p < |log| {
        assert SmallestAt(log, p);
      } else {
        assert log[..p] == log;
      }
    }
  }

  // What watchers hand to queueWatcher in their runs; beyond the list they hand over nothing.
  function EffectOf(effects: seq<seq<int>>, k: nat): seq<int> { if k < |effects| then effects[k] else [] }

  ghost function Handed(effect: seq<int>): (r: seq<Event>)
    ensures |r| == |effect| && forall k :: 0 <= k < |r| ==> r[k] == Queued(effect[k])
  {
    seq(|effect|, k requires 0 <= k < |effect| => Queued(effect[k]))
  }

  // The events of consecutive runs.
  ghost function Trace(runs: seq<int>, effects: seq<seq<int>>): seq<Event> {
    if runs == [] then []
    else
      var n := |runs| - 1;
      Trace(runs[..n], effects) + ([Ran(runs[n])] + Handed(EffectOf(effects, n)))
  }

  // In how many of these runs the watcher handed itself to queueWatcher.
  ghost function Requeues(runs: seq<int>, effects: seq<seq<int>>, id: int): nat {
    if runs == [] then 0
    else
      var n := |runs| - 1;
      Requeues(runs[..n], effects, id) + if runs[n] == id && id in EffectOf(effects, n) then 1 else 0
  }

  lemma RequeuesMore(runs: seq<int>, effects: seq<seq<int>>, id: int)
    ensures forall j :: Requeues(runs + [id], effects, j)
                        == Requeues(runs, effects, j) + if j == id && id in EffectOf(effects, |runs|) then 1 else 0
  {
    assert (runs + [id])[..|runs|] == runs;
  }

  lemma NoRequeues(effects: seq<seq<int>>)
    ensures forall j :: Requeues([], effects, j) == 0
  {
  }

  lemma Regrouped(a: seq<Event>, b: seq<Event>, c: seq<Event>)
    ensures (a + b) + c == a + (b + c)
  {
  }

  lemma NoTrace(effects: seq<seq<int>>)
    ensures Trace([], effects) == [] && Elements<int>([]) == {}
  {
  }

  lemma TraceMore(runs: seq<int>, effects: seq<seq<int>>, id: int)
    ensures Trace(runs + [id], effects) == Trace(runs, effects) + ([Ran(id)] + Handed(EffectOf(effects, |runs|)))
  {
    assert (runs + [id])[..|runs|] == runs;
  }

  // ---- ascending queues ----

  ghost predicate Ascending(s: seq<int>) { forall i, j :: 0 <= i < j < |s| ==> s[i] < s[j] }

  function Spliced(s: seq<int>, i: nat, x: int): seq<int>
    requires i <= |s|
  {
    s[..i] + [x] + s[i..]
  }

  lemma SplicedElements(s: seq<int>, i: nat, x: int)
    requires i <= |s|
    ensures Elements(Spliced(s, i, x)) == Elements(s) + {x}
    ensures Distinct(s) && x !in s ==> Distinct(Spliced(s, i, x))
  {
    assert s == s[..i] + s[i..];
  }

  lemma SplicedAscending(s: seq<int>, i: nat, x: int)
    requires i <= |s| && Ascending(s) && (forall k :: 0 <= k < i ==> s[k] < x) && forall k :: i <= k < |s| ==> x < s[k]
    ensures Ascending(Spliced(s, i, x))
  {
  }

  // queue.sort by id
  method Sort(s: seq<int>) returns (r: seq<int>)
    requires Distinct(s)
    ensures Ascending(r) && Elements(r) == Elements(s)
  {
    r := [];
    for i := 0 to |s|
      invariant Ascending(r) && Elements(r) == Elements(s[..i])
    {
      assert s[i] !in s[..i] && s[..i + 1] == s[..i] + [s[i]];
      assert s[i] !in Elements(r);
      var k := |r|;
      while k > 0 && r[k - 1] > s[i]
        invariant 0 <= k <= |r| && forall j :: k <= j < |r| ==> r[j] > s[i]
      {
        k := k - 1;
      }
      assert forall j :: 0 <= j < |r| ==> r[j] in Elements(r);
      SplicedElements(r, k, s[i]);
      SplicedAscending(r, k, s[i]);
      r := Spliced(r, k, s[i]);
    }
    assert s[..|s|] == s;
  }

  // ---- the scheduler ----

  class Scheduler {
    var queue: seq<int>
    var has: set<int>
    var circular: map<int, nat>
    var waiting: bool
    var flushing: bool
    var index: nat
    ghost var log: seq<Event>

    constructor ()
      ensures AtRest() && log == []
    {
      queue, has, circular, waiting, flushing, index := [], {}, map[], false, false, 0;
      log := [];
    }

    ghost predicate AtRest()
      reads this
    {
      && !flushing && index == 0 && circular == map[] && (waiting <==> queue != [])
      && Distinct(queue) && Elements(queue) == has == Pending(log)
    }

    // While the watcher at index runs: what is left is strictly ascending and is exactly what has marks.
    ghost predicate Running()
      reads this
    {
      && flushing && waiting && index < |queue|
      && Ascending(queue[index + 1..]) && Elements(queue[index + 1..]) == has == Pending(log)
    }

    method QueueWatcher(id: int)
      requires AtRest() || Running()
      modifies this
      ensures log == old(log) + [Queued(id)] && has == old(has) + {id} && circular == old(circular)
      ensures old(AtRest()) ==> AtRest()
      ensures old(Running()) ==> Running() && index == old(index) && queue[index] == old(queue[index])
    {
      hide Pending, Runs, Ascending, Spliced;
      Appended(log, Queued(id));
      log := log + [Queued(id)];
      if id !in has {
        has := has + {id};
        if !flushing {
          PushedElements(queue, id);
          queue := queue + [id];
        } else {
          queue := InsertIntoTail(id);
        }
        if !waiting {
          waiting := true;
        }
      } else {
        assert has + {id} == has;
      }
    }

    // What a watcher does while it runs: it hands other watchers, or itself, to queueWatcher.
    method Run(effects: seq<int>, ghost from: nat)
      requires Running() && SmallestFirst(log, from) && NoneGivenUp(log, from)
      modifies this
      ensures Running() && index == old(index) && queue[index] == old(queue[index]) && circular == old(circular)
      ensures forall id :: id in has <==> id in old(has) || id in effects
      ensures SmallestFirst(log, from) && old(log) <= log && |log| == |old(log)| + |effects| && NoneGivenUp(log, from)
      ensures forall k :: 0 <= k < |effects| ==> log[|old(log)| + k] == Queued(effects[k])
      ensures effects == [] ==> queue == old(queue)
      ensures forall id :: Runs(log, id) == Runs(old(log), id)
    {
      for i := 0 to |effects|
        invariant Running() && index == old(index) && queue[index] == old(queue[index]) && circular == old(circular)
        invariant SmallestFirst(log, from) && NoneGivenUp(log, from) && old(log) <= log && |log| == |old(log)| + i
        invariant i == 0 ==> queue == old(queue)
        invariant forall id :: id in has <==> id in old(has) || id in effects[..i]
        invariant forall k :: 0 <= k < i ==> log[|old(log)| + k] == Queued(effects[k])
        invariant forall id :: Runs(log, id) == Runs(old(log), id)
      {
        StillSmallest(log, from, Queued(effects[i]));
        Appended(log, Queued(effects[i]));
        QueueWatcher(effects[i]);
      }
    }

    // Unmarks and runs the watcher at index.
    method RunNext(effects: seq<int>, ghost from: nat)
      requires flushing && waiting && index < |queue|
      requires Ascending(queue[index..]) && Elements(queue[index..]) == has == Pending(log)
      requires SmallestFirst(log, from) && NoneGivenUp(log, from)
      modifies this
      ensures Running() && index == old(index) && queue[index] == old(queue[index]) && circular == old(circular)
      ensures SmallestFirst(log, from) && NoneGivenUp(log, from) && old(log) <= log
      ensures effects == [] ==> queue == old(queue)
      ensures old(queue[index]) in has <==> old(queue[index]) in effects
      ensures log == old(log) + ([Ran(old(queue[index]))] + Handed(effects))
      ensures forall id :: Runs(log, id) == Runs(old(log), id) + if id == old(queue[index]) then 1 else 0
    {
      hide Pending, Runs, SmallestFirst, Ascending, Elements, Distinct;
      var id := queue[index];
      HeadIsSmallest(queue[index..]);
      assert queue[index..][1..] == queue[index + 1..];
      StillSmallest(log, from, Ran(id));
      Appended(log, Ran(id));
      has := has - {id};
      log := log + [Ran(id)];
      Run(effects, from);
    }

    // The flush, given what each run hands to queueWatcher; a run beyond that list queues nothing.
    method FlushSchedulerQueue(effects: seq<seq<int>>) returns (completed: bool, ghost runs: seq<int>)
      requires AtRest() && queue != []
      modifies this
      ensures AtRest() && queue == [] && old(log) <= log
      // the k-th run hands its watchers to queueWatcher before the next one starts
      ensures log == old(log) + Trace(runs, effects) + if completed then [] else [GivenUp]
      // every run takes the smallest pending id
      ensures SmallestFirst(log, |old(log)|)
      // everything queued before or during the flush has run, unless the circular check gives up
      ensures completed ==> Pending(log) == {} && NoneGivenUp(log, |old(log)|)
      // and that happens exactly when one watcher has requeued itself in more than 100 of its runs, right behind the last
      // of these runs
      ensures completed <==> forall id :: Requeues(runs, effects, id) <= 100
      ensures !completed ==> runs != [] && Requeues(runs, effects, runs[|runs| - 1]) == 101
      ensures !completed ==> forall id :: id != runs[|runs| - 1] ==> Requeues(runs, effects, id) <= 100
      ensures !completed ==> exists id :: Runs(log, id) - Runs(old(log), id) > 100
    {
      hide Pending, Runs, Ascending, Elements, Distinct, Trace, Handed, Requeues;
      flushing := true;
      queue := Sort(queue);
      index := 0;
      completed, runs := true, [];
      NoTrace(effects);
      NoRequeues(effects);
      var k := 0;
      assert queue[0..] == queue;
      assert SmallestFirst(log, |log|) && NoneGivenUp(log, |log|);
      hide SmallestFirst, NoneGivenUp;
      while index < |queue|
        invariant flushing && waiting && index <= |queue| && completed
        invariant k == |runs| && log == old(log) + Trace(runs, effects)
        invariant Ascending(queue[index..]) && Elements(queue[index..]) == has == Pending(log)
        invariant SmallestFirst(log, |old(log)|) && NoneGivenUp(log, |old(log)|) && old(log) <= log
        invariant forall id :: Requeues(runs, effects, id) == (if id in circular then circular[id] else 0) <= 100
        invariant forall id :: Requeues(runs, effects, id) <= Runs(log, id) - Runs(old(log), id)
        invariant forall id :: Runs(log, id) >= Runs(old(log), id)
        decreases if k < |effects| then |effects| - k else 0, |queue| - index
      {
        var id := queue[index];
        RunNext(EffectOf(effects, k), |old(log)|);
        TraceMore(runs, effects, id);
        RequeuesMore(runs, effects, id);
        Regrouped(old(log), Trace(runs, effects), [Ran(id)] + Handed(EffectOf(effects, k)));
        runs := runs + [id];
        k := k + 1;
        if id in has {
          circular := circular[id := (if id in circular then circular[id] else 0) + 1];
          if circular[id] > MAX_UPDATE_COUNT {
            assert Requeues(runs, effects, id) == 101;
            completed := false;
            break;
          }
        }
        index := index + 1;
      }
      assert completed ==> queue[index..] == [];
      ResetSchedulerState(completed, |old(log)|);
    }

    method ResetSchedulerState(completed: bool, ghost from: nat)
      requires SmallestFirst(log, from) && (completed ==> Pending(log) == {})
      modifies this
      ensures AtRest() && queue == [] && SmallestFirst(log, from)
      ensures log == old(log) + if completed then [] else [GivenUp]
      ensures old(log) <= log && forall id :: Runs(log, id) == Runs(old(log), id)
    {
      if !completed {
        StillSmallest(log, from, GivenUp);
        Appended(log, GivenUp);
        log := log + [GivenUp];
      }
      index, queue, has, circular, waiting, flushing := 0, [], {}, map[], false, false;
    }

    lemma HeadIsSmallest(tail: seq<int>)
      requires tail != [] && Ascending(tail)
      ensures tail[0] in Elements(tail) && forall j :: j in Elements(tail) ==> tail[0] <= j
      ensures Elements(tail[1..]) == Elements(tail) - {tail[0]} && Ascending(tail[1..])
    {
      assert tail == [tail[0]] + tail[1..];
    }

    lemma PushedElements(q: seq<int>, id: int)
      requires Distinct(q) && id !in Elements(q)
      ensures Distinct(q + [id]) && Elements(q + [id]) == Elements(q) + {id}
    {
    }

    // Splices the watcher in after the running one, by its id; one that is past runs next.
    method InsertIntoTail(id: int) returns (q: seq<int>)
      requires index < |queue| && Ascending(queue[index + 1..]) && id !in Elements(queue[index + 1..])
      ensures |q| == |queue| + 1 && q[index] == queue[index]
      ensures Ascending(q[index + 1..]) && Elements(q[index + 1..]) == Elements(queue[index + 1..]) + {id}
    {
      var i := |queue| - 1;
      while i > index && queue[i] > id
        invariant index <= i < |queue| && forall k :: i < k < |queue| ==> queue[k] > id
      {
        i := i - 1;
      }
      InsertPoint(queue, index, i, id);
      q := Spliced(queue, i + 1, id);
    }

    lemma InsertPoint(q: seq<int>, index: nat, i: nat, id: int)
      requires index <= i < |q| && Ascending(q[index + 1..]) && id !in Elements(q[index + 1..])
      requires (i > index ==> q[i] <= id) && forall k :: i < k < |q| ==> q[k] > id
      ensures Spliced(q, i + 1, id)[index + 1..] == Spliced(q[index + 1..], i - index, id)
      ensures Spliced(q, i + 1, id)[index] == q[index]
      ensures Ascending(Spliced(q[index + 1..], i - index, id))
      ensures Elements(Spliced(q[index + 1..], i - index, id)) == Elements(q[index + 1..]) + {id}
    {
      hide Ascending, Elements, Spliced, Distinct;
      var tail := q[index + 1..];
      LastOfFront(q, index, i, id);
      BelowInTail(tail, i - index, id);
      AboveInTail(q, tail, index, i, id);
      SplicedElements(tail, i - index, id);
      SplicedAscending(tail, i - index, id);
      SplicedTail(q, index + 1, i - index, id);
    }

    lemma LastOfFront(q: seq<int>, index: nat, i: nat, id: int)
      requires index <= i < |q| && (i > index ==> q[i] <= id)
      ensures i - index > 0 ==> q[index + 1..][i - index - 1] <= id
    {
    }

    lemma AboveInTail(q: seq<int>, tail: seq<int>, index: nat, i: nat, id: int)
      requires index <= i < |q| && tail == q[index + 1..] && forall k :: i < k < |q| ==> q[k] > id
      ensures forall k :: i - index <= k < |tail| ==> id < tail[k]
    {
      forall k | i - index <= k < |tail| ensures id < tail[k] {
        assert tail[k] == q[index + 1 + k];
      }
    }

    lemma BelowInTail(tail: seq<int>, m: nat, id: int)
      requires m <= |tail| && Ascending(tail) && id !in Elements(tail) && (m > 0 ==> tail[m - 1] <= id)
      ensures forall k :: 0 <= k < m ==> tail[k] < id
    {
      forall k | 0 <= k < m ensures tail[k] < id {
        assert tail[k] in tail && tail[k] <= tail[m - 1];
      }
    }

    // Splicing into the tail leaves the front alone.
    lemma SplicedTail(q: seq<int>, n: nat, m: nat, id: int)
      requires n <= |q| && m <= |q| - n
      ensures Spliced(q, n + m, id)[n..] == Spliced(q[n..], m, id) && Spliced(q, n + m, id)[..n] == q[..n]
      ensures n > 0 ==> Spliced(q, n + m, id)[n - 1] == q[n - 1]
    {
      var r := Spliced(q, n + m, id);
      assert q[..n + m] == q[..n] + q[n..][..m] && q[n + m..] == q[n..][m..];
      assert r == q[..n] + Spliced(q[n..], m, id);
    }
  }
}
