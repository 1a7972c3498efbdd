// The front end: accepting a purchase, resolving a repeated one, and the owner's list.
module CouponAccept {
  import opened Lists
  import opened Wrappers
  import opened CouponStores
  import opened CouponSteps
  import opened CouponInvariant
  import opened CouponRuns
  import opened CouponOrders
  import opened CouponRace
  import opened CouponWorld
  import IdWorker

  datatype Verdict =
    | Ok(id: int)
    | NotReady
    | NotOpen
    | NotStarted
    | Ended
    | SoldOut
    | NotActive
    | Repeated

  lemma BeginSeckillStep(s: State, t: int, v: int, u: int, id: int, clock: int)
    requires Idle(s, t) && id !in s.hist.issued && WindowOpen(s.db, v, clock)
    ensures Enabled(s, BeginSeckill(t, v, u, id, clock))
    ensures Apply(s, BeginSeckill(t, v, u, id, clock)) == DoBeginSeckill(s, t, v, u, id, clock)
  {
  }

  lemma RunSeckillLuaStep(s: State, t: int)
    requires t in s.threads && s.threads[t].Accepting?
    ensures Enabled(s, RunSeckillLua(t)) && Apply(s, RunSeckillLua(t)) == DoRunSeckillLua(s, t)
  {
  }

  lemma ResolveDuplicateStep(s: State, t: int, row: Option<int>)
    requires t in s.threads && s.threads[t].Resolving? && RowOf(s.db, s.threads[t].voucher, s.threads[t].user, row)
    ensures Enabled(s, ResolveDuplicate(t, row)) && Apply(s, ResolveDuplicate(t, row)) == DoResolveDuplicate(s, t, row)
  {
  }

  // What a thread between nextId and the script, or between the script and the lookup, can rely on.
  lemma AcceptingFacts(s: State, t: int)
    requires Reachable(s) && t in s.threads
    ensures s.redis.buyers == s.redis.orderIds.Keys
    ensures s.threads[t].Accepting? ==> forall k :: k in s.redis.orderIds ==> s.redis.orderIds[k] != s.threads[t].id
    ensures s.threads[t].Resolving? ==> (s.threads[t].voucher, s.threads[t].user) in s.redis.orderIds
  {
    ReachableInv(s);
    assert PcOk(s, s.threads[t]);
    assert AtAccept(s.threads, t) <==> s.threads[t].Accepting?;
  }

  lemma AcceptedForEver(a: State, b: State, k: (int, int))
    requires Later(a, b) && k in a.redis.orderIds
    ensures k in b.redis.orderIds && b.redis.orderIds[k] == a.redis.orderIds[k]
  {
  }

  predicate WindowPublished(r: Redis, v: int, now: int) {
    v in r.begin && v in r.end && r.begin[v] <= now <= r.end[v]
  }

  // The published window is open and a unit is left.
  predicate OnSale(r: Redis, v: int, now: int) {
    WindowPublished(r, v, now) && v in r.stock && r.stock[v] > 0
  }

  // What the script does for whoever gets to it, whoever bought before: a user without an id for the voucher, while it is
  // on sale, takes one unit, and the id, the hints, one stream entry and the reply appear together.
  lemma FirstPurchase(s: State, t: int, v: int, u: int, id: int, now: int)
    requires Reachable(s) && t in s.threads && s.threads[t] == Accepting(v, u, id, now)
    requires OnSale(s.redis, v, now) && (v, u) !in s.redis.orderIds
    ensures Enabled(s, RunSeckillLua(t))
    ensures var b := Apply(s, RunSeckillLua(t));
            && b.redis == s.redis.(stock := s.redis.stock[v := s.redis.stock[v] - 1],
                                   buyers := s.redis.buyers + {(v, u)},
                                   orderIds := s.redis.orderIds[(v, u) := id],
                                   stream := s.redis.stream + [Entry(id, u, v)],
                                   processing := s.redis.processing + {(u, id)},
                                   accept := s.redis.accept[id := u])
            && b.hist.replies == s.hist.replies + [Accepted(u, v, id)] && b.db == s.db
  {
    hide Reachable;
    AcceptingFacts(s, t);
    RunSeckillLuaStep(s, t);
    hide Apply, Enabled;
  }

  // Whoever has an id already, and whoever comes while the voucher is not on sale, changes nothing.
  lemma NoPurchase(s: State, t: int, v: int, u: int, id: int, now: int)
    requires Reachable(s) && t in s.threads && s.threads[t] == Accepting(v, u, id, now)
    ensures Enabled(s, RunSeckillLua(t))
    ensures !OnSale(s.redis, v, now) || (v, u) in s.redis.orderIds ==>
              var b := Apply(s, RunSeckillLua(t)); b.redis == s.redis && b.db == s.db && b.hist == s.hist
  {
    hide Reachable;
    AcceptingFacts(s, t);
    RunSeckillLuaStep(s, t);
    hide Apply, Enabled;
  }

  // A repeated purchase is resolved to its first id exactly inside the published window while stock is left. At sellout
  // the script answers "sold out" before it looks for the duplicate, and outside the window "not active".
  lemma RepeatAtSellout(s: State, v: int, u: int, now: int)
    requires Reachable(s) && (v, u) in s.redis.orderIds
    ensures v in s.redis.stock
    ensures SeckillCode(s.redis, v, u, now) == 2 <==> WindowPublished(s.redis, v, now) && s.redis.stock[v] > 0
    ensures SeckillCode(s.redis, v, u, now) == 1 <==> WindowPublished(s.redis, v, now) && s.redis.stock[v] <= 0
    ensures SeckillCode(s.redis, v, u, now) == 3 <==> !WindowPublished(s.redis, v, now)
    ensures forall id :: SeckillLua(s.redis, v, u, id, now) == s.redis
  {
    ReachableInv(s);
    assert (v, u) in s.redis.buyers;
  }

  // Both failures happen: user 42 bought the only coupon, and is later told "sold out", or "not active".
  lemma RepeatIsRefused() returns (s: State)
    ensures Reachable(s) && (7, 42) in s.redis.orderIds
    ensures SeckillCode(s.redis, 7, 42, 60) == 1 && SeckillCode(s.redis, 7, 42, 101) == 3
  {
    hide Reachable;
    s := Selling();
  }

  const PREFIX := "order"

  // What seckillVoucher relies on: the id that nextId hands it next was never issued to a purchase before, if those got
  // theirs from the same generator, whatever the clocks did.
  lemma OrderIdIsNew(s: State, issued: seq<IdWorker.Issue>, next: IdWorker.Issue)
    requires IdWorker.History(issued + [next]) && IdWorker.AllInRange(issued + [next]) && next.prefix == PREFIX
    requires forall id :: id in s.hist.issued ==>
               exists i :: 0 <= i < |issued| && issued[i].prefix == PREFIX && issued[i].id == id
    ensures next.id !in s.hist.issued
  {
    hide IdWorker.Id, IdWorker.History;
    var all := issued + [next];
    forall i | 0 <= i < |issued| && issued[i].prefix == PREFIX ensures issued[i].id != next.id {
      assert all[i] == issued[i] && all[|issued|] == next;
      IdWorker.HistoryIsDistinct(all, i, |issued|);
    }
  }

  // The checks in front of the script pass.
  predicate InTime(s: State, ready: bool, v: int, clock: int) {
    ready && v in s.db.window && s.db.window[v].0 <= clock <= s.db.window[v].1
  }

  method SeckillVoucher(w: World, t: int, ready: bool, voucher: int, user: int, id: int,
                        clock: int) returns (r: Verdict, ghost at: State)
    requires Reachable(w.s) && Idle(w.s, t) && id !in w.s.hist.issued
    modifies w
    ensures Reachable(w.s) && Later(old(w.s), w.s) && Idle(w.s, t)
    ensures r == NotReady <==> !ready
    ensures r == NotOpen <==> ready && voucher !in old(w.s).db.window
    ensures r == NotStarted <==> ready && voucher in old(w.s).db.window && clock < old(w.s).db.window[voucher].0
    ensures r == Ended <==> ready && voucher in old(w.s).db.window && old(w.s).db.window[voucher].0 <= clock
                            && clock > old(w.s).db.window[voucher].1
    // an accepted id belongs to this purchase and is accounted for
    ensures r.Ok? ==> IsAccepted(w.s.redis.orderIds, Entry(r.id, user, voucher)) && Accounted(w.s, r.id)
    ensures r.Ok? ==> Accepted(user, voucher, r.id) in w.s.hist.replies
    // a repeated purchase is told the first id
    ensures r.Ok? && (voucher, user) in old(w.s).redis.orderIds ==> r.id == old(w.s).redis.orderIds[(voucher, user)]
    // a refused request sold nothing under its id
    ensures r == SoldOut || r == NotActive ==> forall k :: k in w.s.redis.orderIds ==> w.s.redis.orderIds[k] != id
    // at is the moment of the script, which answers by what is published and left then
    ensures Reachable(at) && Later(old(w.s), at) && Later(at, w.s)
    ensures r == NotActive <==>
              && InTime(old(w.s), ready, voucher, clock)
              && !(voucher in at.redis.begin && voucher in at.redis.end
                   && at.redis.begin[voucher] <= clock <= at.redis.end[voucher])
    ensures r == SoldOut <==>
              && InTime(old(w.s), ready, voucher, clock) && voucher in at.redis.begin && voucher in at.redis.end
              && at.redis.begin[voucher] <= clock <= at.redis.end[voucher]
              && !(voucher in at.redis.stock && at.redis.stock[voucher] > 0)
    ensures r.Ok? <==>
              && InTime(old(w.s), ready, voucher, clock) && voucher in at.redis.begin && voucher in at.redis.end
              && at.redis.begin[voucher] <= clock <= at.redis.end[voucher]
              && voucher in at.redis.stock && at.redis.stock[voucher] > 0
    ensures r.Ok? ==> r.id == if (voucher, user) in at.redis.orderIds then at.redis.orderIds[(voucher, user)] else id
    // the flat refusal of a repeated purchase is never given
    ensures r != Repeated
  {
    hide Reachable, Later, Enabled, Apply, Accounted;
    ghost var s0 := w.s;
    LaterReflexive(s0);
    if !ready {
      return NotReady, s0;
    }
    if voucher !in w.s.db.window {
      return NotOpen, s0;
    }
    var (begin, end) := w.s.db.window[voucher];
    if clock < begin {
      return NotStarted, s0;
    }
    if clock > end {
      return Ended, s0;
    }
    BeginSeckillStep(w.s, t, voucher, user, id, clock);
    w.Do(BeginSeckill(t, voucher, user, id, clock));
    w.Pause(t);
    ghost var s1 := w.s;
    at := s1;
    AcceptingFacts(s1, t);
    if (voucher, user) in s0.redis.orderIds {
      AcceptedForEver(s0, s1, (voucher, user));
    }
    RunSeckillLuaStep(w.s, t);
    var code := SeckillCode(w.s.redis, voucher, user, clock);
    w.Do(RunSeckillLua(t));
    if code != 0 {
      if code == 1 {
        return SoldOut, s1;
      }
      if code == 2 {
        r := ResolveDuplicateOrder(w, t, voucher, user);
        return;
      }
      return NotActive, s1;
    }
    assert w.s.hist.replies[|w.s.hist.replies| - 1] == Accepted(user, voucher, id);
    NoAcceptedOrderLost(w.s, voucher, user);
    r := Ok(id);
  }

  method ResolveDuplicateOrder(w: World, t: int, voucher: int, user: int) returns (r: Verdict)
    requires Reachable(w.s) && t in w.s.threads && w.s.threads[t] == Resolving(voucher, user)
    modifies w
    ensures Reachable(w.s) && Later(old(w.s), w.s) && (forall b :: Later(b, old(w.s)) ==> Later(b, w.s)) && Idle(w.s, t)
    ensures (voucher, user) in w.s.redis.orderIds && r == Ok(w.s.redis.orderIds[(voucher, user)])
    ensures Accounted(w.s, r.id) && Accepted(user, voucher, r.id) in w.s.hist.replies
    ensures (voucher, user) in old(w.s).redis.orderIds
    ensures w.s.redis.orderIds[(voucher, user)] == old(w.s).redis.orderIds[(voucher, user)]
  {
    hide Reachable, Later, Enabled, Apply, Accounted;
    AcceptingFacts(w.s, t);
    ghost var s0 := w.s;
    w.Pause(t);
    AcceptedForEver(s0, w.s, (voucher, user));
    var mapped := if (voucher, user) in w.s.redis.orderIds then Some(w.s.redis.orderIds[(voucher, user)]) else None;
    var existing := FindOrder(w.s.db, voucher, user);
    ResolveDuplicateStep(w.s, t, existing);
    w.Do(ResolveDuplicate(t, existing));
    assert w.s.hist.replies[|w.s.hist.replies| - 1] == Accepted(user, voucher, w.s.redis.orderIds[(voucher, user)]);
    NoAcceptedOrderLost(w.s, voucher, user);
    r := Resolved(mapped, existing);
  }

  function Resolved(mapped: Option<int>, existing: Option<int>): Verdict {
    if mapped.Some? then Ok(mapped.value) else if existing.Some? then Ok(existing.value) else Repeated
  }

  // The order of this user for this voucher, if there is one.
  method FindOrder(db: Db, v: int, u: int) returns (row: Option<int>)
    ensures RowOf(db, v, u, row)
  {
    if o :| o in db.orders && db.orders[o].voucher == v && db.orders[o].user == u {
      row := Some(o);
    } else {
      row := None;
    }
  }

  // ---- listMyOrders ----

  ghost predicate Enumerates<T(!new)>(list: seq<T>, s: set<T>) {
    Distinct(list) && forall x :: x in list <==> x in s
  }

  ghost function RowsOf(s: State, user: int): set<int> { set o | o in s.db.orders && s.db.orders[o].user == user }

  ghost function ProcessingOf(s: State, user: int): set<int> { set p | p in s.redis.processing && p.0 == user :: p.1 }

  // Some dead letter of this user carries the id.
  ghost predicate LetterOf(dead: seq<DeadLetter>, user: int, id: int) {
    exists i :: 0 <= i < |dead| && Concerns(dead[i], user, id)
  }

  predicate Concerns(d: DeadLetter, user: int, id: int) { d.entry.user == user && d.entry.id == id }

  // The voucher on the newest of them.
  function NewestVoucher(dead: seq<DeadLetter>, user: int, id: int): int {
    if dead == [] then 0
    else if Concerns(dead[|dead| - 1], user, id) then dead[|dead| - 1].entry.voucher
    else NewestVoucher(dead[..|dead| - 1], user, id)
  }

  lemma {:induction false} OlderLetter(d: DeadLetter, rest: seq<DeadLetter>, user: int, id: int)
    ensures LetterOf([d] + rest, user, id) <==> LetterOf(rest, user, id) || Concerns(d, user, id)
    ensures LetterOf(rest, user, id) ==> NewestVoucher([d] + rest, user, id) == NewestVoucher(rest, user, id)
    ensures !LetterOf(rest, user, id) && Concerns(d, user, id) ==> NewestVoucher([d] + rest, user, id) == d.entry.voucher
  {
    var s := [d] + rest;
    assert s[0] == d && forall i :: 0 <= i < |rest| ==> s[i + 1] == rest[i];
    assert LetterOf(s, user, id) ==> LetterOf(rest, user, id) || Concerns(d, user, id) by {
      if LetterOf(s, user, id) {
        var i :| 0 <= i < |s| && Concerns(s[i], user, id);
        assert i > 0 ==> Concerns(rest[i - 1], user, id);
      }
    }
    if rest == [] {
      assert s == [d] && s[..0] == [];
    } else {
      var k := |rest| - 1;
      OlderLetter(d, rest[..k], user, id);
      assert s[..k + 1] == [d] + rest[..k];
      assert LetterOf(rest, user, id) <==> LetterOf(rest[..k], user, id) || Concerns(rest[k], user, id) by {
        if LetterOf(rest, user, id) {
          var i :| 0 <= i < |rest| && Concerns(rest[i], user, id);
          assert i < k ==> Concerns(rest[..k][i], user, id);
        }
        if LetterOf(rest[..k], user, id) {
          var i :| 0 <= i < k && Concerns(rest[..k][i], user, id);
          assert Concerns(rest[i], user, id);
        }
      }
    }
  }

  // The three kinds of rows of the list, for the part of their source that has been read.
  ghost predicate RowShown(s: State, rows: set<int>, x: View) {
    x.Success? && x.id in rows && x.id in s.db.orders && x.voucher == s.db.orders[x.id].voucher
    && x.status == s.db.orders[x.id].status
  }

  ghost predicate HintShown(hints: set<int>, rows: set<int>,
                            x: View) { x.Processing? && x.id in hints && x.id !in rows }

  ghost predicate LetterShown(dead: seq<DeadLetter>, user: int, rows: set<int>, x: View) {
    x.Failed? && LetterOf(dead, user, x.id) && x.id !in rows && x.voucher == NewestVoucher(dead, user, x.id)
  }

  ghost predicate ListsParts(s: State, user: int, rows: set<int>, hints: set<int>, dead: seq<DeadLetter>,
                             all: set<int>, list: seq<View>) {
    && (forall x :: x in list <==> RowShown(s, rows, x) || HintShown(hints, all, x) || LetterShown(dead, user, all, x))
    && Distinct(list)
  }

  // One row for each order of the user; one for each hint without an
  // order row; one for each dead-lettered id without one.
  ghost predicate Listing(s: State, user: int, list: seq<View>) {
    ListsParts(s, user, RowsOf(s, user), ProcessingOf(s, user), s.db.dead, RowsOf(s, user), list)
  }

  // The place of the newest dead letter of this user and id, counted from 1.
  function LastLetter(dead: seq<DeadLetter>, user: int, id: int): nat {
    if dead == [] then 0
    else if Concerns(dead[|dead| - 1], user, id) then |dead|
    else LastLetter(dead[..|dead| - 1], user, id)
  }

  // x may stand before y: first the orders, newest first, then the hints, then the dead letters, newest first.
  ghost predicate Before(s: State, user: int, x: View, y: View) {
    match (x, y)
    case (Success(i, _, _), Success(j, _, _)) =>
      i in s.db.orders && j in s.db.orders && s.db.orders[i].created >= s.db.orders[j].created
    case (Success(_, _, _), _) => true
    case (Processing(_), _) => !y.Success?
    case (Failed(i, _), Failed(j, _)) => LastLetter(s.db.dead, user, i) > LastLetter(s.db.dead, user, j)
    case _ => false
  }

  ghost predicate InOrder(s: State, user: int, list: seq<View>) {
    forall i, j :: 0 <= i < j < |list| ==> Before(s, user, list[i], list[j])
  }

  // What the order means for two rows: orders come first and newest first, then hints, then letters, and of two letters'
  // ids the one with the newer last letter first.
  lemma ListOrderMeans(s: State, user: int, list: seq<View>, i: nat, j: nat)
    requires InOrder(s, user, list) && i < j < |list|
    ensures list[j].Success? ==> list[i].Success?
    ensures list[j].Processing? ==> !list[i].Failed?
    ensures list[i].Success? && list[j].Success? ==>
              list[i].id in s.db.orders && list[j].id in s.db.orders
              && s.db.orders[list[i].id].created >= s.db.orders[list[j].id].created
    ensures list[i].Failed? && list[j].Failed? ==>
              exists k :: 0 <= k < |s.db.dead| && s.db.dead[k].entry.user == user && s.db.dead[k].entry.id == list[i].id
                          && forall m :: k <= m < |s.db.dead| && s.db.dead[m].entry.user == user ==>
                                           s.db.dead[m].entry.id != list[j].id
  {
    assert Before(s, user, list[i], list[j]);
    if list[i].Failed? && list[j].Failed? {
      LastLetterMeans(s.db.dead, user, list[i].id);
      LastLetterMeans(s.db.dead, user, list[j].id);
    }
  }

  lemma {:induction false} LastLetterMeans(dead: seq<DeadLetter>, user: int, id: int)
    ensures var n := LastLetter(dead, user, id);
            && n <= |dead| && (n > 0 ==> Concerns(dead[n - 1], user, id))
            && forall m :: n <= m < |dead| ==> !Concerns(dead[m], user, id)
  {
    if dead != [] {
      LastLetterMeans(dead[..|dead| - 1], user, id);
    }
  }

  lemma OrderKept(s: State, user: int, list: seq<View>, y: View)
    requires InOrder(s, user, list) && forall x :: x in list ==> Before(s, user, x, y)
    ensures InOrder(s, user, list + [y])
  {
  }

  lemma {:induction false} LetterBehind(dead: seq<DeadLetter>, k: nat, user: int, id: int)
    requires k <= |dead|
    ensures LetterOf(dead[k..], user, id) <==> LastLetter(dead, user, id) > k
    decreases |dead|
  {
    var n := |dead| - 1;
    if k == |dead| {
      LastLetterBound(dead, user, id);
    } else {
      LetterBehind(dead[..n], k, user, id);
      assert dead[k..] == dead[..n][k..] + [dead[n]];
      LetterAdded(dead[..n][k..], dead[n], user, id);
    }
  }

  lemma LetterAdded(some: seq<DeadLetter>, d: DeadLetter, user: int, id: int)
    ensures LetterOf(some + [d], user, id) <==> LetterOf(some, user, id) || Concerns(d, user, id)
  {
    var s := some + [d];
    assert s[|some|] == d;
    if LetterOf(s, user, id) {
      var i :| 0 <= i < |s| && Concerns(s[i], user, id);
      assert i < |some| ==> Concerns(some[i], user, id);
    }
    if LetterOf(some, user, id) {
      var i :| 0 <= i < |some| && Concerns(some[i], user, id);
      assert Concerns(s[i], user, id);
    }
  }

  lemma {:induction false} LastLetterBound(dead: seq<DeadLetter>, user: int, id: int)
    ensures LastLetter(dead, user, id) <= |dead|
    ensures LetterOf([], user, id) == false
  {
    if dead != [] {
      LastLetterBound(dead[..|dead| - 1], user, id);
    }
  }

  lemma Added(list: seq<View>, y: View)
    requires y !in list && Distinct(list)
    ensures forall x :: x in list + [y] <==> x in list || x == y
    ensures Distinct(list + [y])
  {
  }

  lemma OlderShown(d: DeadLetter, rest: seq<DeadLetter>, user: int, all: set<int>)
    ensures forall id :: LetterOf([d] + rest, user, id) <==> LetterOf(rest, user, id) || Concerns(d, user, id)
    ensures forall x :: LetterShown([d] + rest, user, all, x) <==>
                        || LetterShown(rest, user, all, x)
                        || (d.entry.user == user && d.entry.id !in all && !LetterOf(rest, user, d.entry.id)
                            && x == Failed(d.entry.id, d.entry.voucher))
  {
    hide LetterOf, NewestVoucher;
    forall id
      ensures LetterOf([d] + rest, user, id) <==> LetterOf(rest, user, id) || Concerns(d, user, id)
      ensures LetterOf(rest, user, id) ==> NewestVoucher([d] + rest, user, id) == NewestVoucher(rest, user, id)
      ensures !LetterOf(rest, user, id) && Concerns(d, user, id) ==> NewestVoucher([d] + rest, user, id) == d.entry.voucher
    {
      OlderLetter(d, rest, user, id);
    }
  }

  // The newest order comes first.
  ghost predicate NewestFirst(s: State, rows: seq<int>) {
    forall i, j :: 0 <= i < j < |rows| ==>
      rows[i] in s.db.orders && rows[j] in s.db.orders && s.db.orders[rows[i]].created >= s.db.orders[rows[j]].created
  }

  lemma RowComesNext(s: State, user: int, rows: seq<int>, k: nat, list: seq<View>, y: View)
    requires NewestFirst(s, rows) && k < |rows| && y.Success? && y.id == rows[k]
    requires forall x :: x in list ==> x.Success? && x.id in rows[..k]
    ensures forall x :: x in list ==> Before(s, user, x, y)
  {
    forall x | x in list ensures Before(s, user, x, y) {
      var i :| 0 <= i < k && rows[..k][i] == x.id;
      assert rows[i] == x.id;
    }
  }

  lemma LetterComesNext(s: State, user: int, k: nat, all: set<int>, hints: set<int>, list: seq<View>, y: View)
    requires k < |s.db.dead| && y.Failed? && Concerns(s.db.dead[k], user, y.id)
    requires !LetterOf(s.db.dead[k + 1..], user, y.id)
    requires ListsParts(s, user, all, hints, s.db.dead[k + 1..], all, list)
    ensures forall x :: x in list ==> Before(s, user, x, y)
  {
    hide NewestVoucher;
    LetterBehind(s.db.dead, k + 1, user, y.id);
    forall x | x in list ensures Before(s, user, x, y) {
      if x.Failed? {
        hide LetterOf;
        LetterBehind(s.db.dead, k + 1, user, x.id);
      }
    }
  }

  // rows, members: the order rows by falling creation time and the members of the hint set, as the stores return them.
  method ListMyOrders(s: State, user: int, rows: seq<int>, members: seq<int>) returns (list: seq<View>)
    requires Enumerates(rows, RowsOf(s, user)) && NewestFirst(s, rows) && Enumerates(members, ProcessingOf(s, user))
    ensures Listing(s, user, list) && InOrder(s, user, list)
  {
    assert forall id :: !LetterOf([], user, id);
    hide LetterOf, NewestVoucher, LastLetter, InOrder, Before, NewestFirst;
    ghost var all := RowsOf(s, user);
    list := [];
    NothingInOrder(s, user);
    var seen: set<int> := {};
    for k := 0 to |rows|
      invariant seen == (set x | x in rows[..k])
      invariant ListsParts(s, user, seen, {}, [], all, list) && InOrder(s, user, list)
    {
      assert rows[k] in rows && rows[k] !in rows[..k] && rows[..k + 1] == rows[..k] + [rows[k]];
      var row := s.db.orders[rows[k]];
      var next := Success(rows[k], row.voucher, row.status);
      RowComesNext(s, user, rows, k, list, next);
      OrderKept(s, user, list, next);
      Added(list, next);
      seen := seen + {rows[k]};
      list := list + [next];
    }
    assert rows[..|rows|] == rows && seen == all;
    for k := 0 to |members|
      invariant ListsParts(s, user, all, (set x | x in members[..k]), [], all, list) && InOrder(s, user, list)
    {
      assert members[k] in members && members[k] !in members[..k] && members[..k + 1] == members[..k] + [members[k]];
      if members[k] !in seen {
        HintComesNext(s, user, list, Processing(members[k]));
        OrderKept(s, user, list, Processing(members[k]));
        Added(list, Processing(members[k]));
        list := list + [Processing(members[k])];
      }
    }
    assert members[..|members|] == members && (set x | x in members) == ProcessingOf(s, user);
    var k := |s.db.dead|;
    assert s.db.dead[k..] == [];
    while k > 0
      invariant 0 <= k <= |s.db.dead|
      invariant forall id :: id in seen <==> id in all || LetterOf(s.db.dead[k..], user, id)
      invariant ListsParts(s, user, all, ProcessingOf(s, user), s.db.dead[k..], all, list) && InOrder(s, user, list)
    {
      k := k - 1;
      var d := s.db.dead[k];
      ghost var rest := s.db.dead[k + 1..];
      assert s.db.dead[k..] == [d] + rest;
      OlderShown(d, rest, user, all);
      if d.entry.user == user && d.entry.id !in seen {
        seen := seen + {d.entry.id};
        var next := Failed(d.entry.id, d.entry.voucher);
        LetterComesNext(s, user, k, all, ProcessingOf(s, user), list, next);
        OrderKept(s, user, list, next);
        Added(list, next);
        list := list + [next];
      }
    }
  }

  lemma NothingInOrder(s: State, user: int)
    ensures InOrder(s, user, [])
  {
  }

  lemma HintComesNext(s: State, user: int, list: seq<View>, y: View)
    requires y.Processing? && forall x :: x in list ==> x.Success? || x.Processing?
    ensures forall x :: x in list ==> Before(s, user, x, y)
  {
  }

  // An id is listed at most once among the SUCCESS and FAILED rows, and never as PROCESSING if it has an order row.
  lemma ListedOnce(s: State, user: int, list: seq<View>, i: nat, j: nat)
    requires Listing(s, user, list) && i < j < |list|
    requires (list[i].Success? || list[i].Failed?) && (list[j].Success? || list[j].Failed? || list[j].Processing?)
    ensures list[i].id == list[j].id ==> list[i].Failed? && list[j].Processing?
    ensures list[i].Success? ==> list[i].id != list[j].id
  {
    hide LetterOf, NewestVoucher;
    assert list[i] in list && list[j] in list;
  }

  lemma {:induction false} NewestIsLatest(dead: seq<DeadLetter>, user: int, id: int)
    requires forall i :: 0 <= i < |dead| && dead[i].entry.id == id ==> dead[i].entry.user == user
    ensures LetterOf(dead, user, id) <==> LatestLetter(dead, id).Some?
    ensures LetterOf(dead, user, id) ==> LatestLetter(dead, id).value.entry.voucher == NewestVoucher(dead, user, id)
    ensures LetterOf(dead, user, id) ==> LatestLetter(dead, id).value.entry.user == user
  {
    if dead != [] {
      var k := |dead| - 1;
      NewestIsLatest(dead[..k], user, id);
      assert LetterOf(dead, user, id) <==> LetterOf(dead[..k], user, id) || Concerns(dead[k], user, id) by {
        if LetterOf(dead, user, id) {
          var i :| 0 <= i < |dead| && Concerns(dead[i], user, id);
          assert i < k ==> Concerns(dead[..k][i], user, id);
        }
        if LetterOf(dead[..k], user, id) {
          var i :| 0 <= i < k && Concerns(dead[..k][i], user, id);
          assert Concerns(dead[i], user, id);
        }
      }
    }
  }

  lemma NoLetterOf(dead: seq<DeadLetter>, user: int, id: int)
    requires forall i :: 0 <= i < |dead| && dead[i].entry.id == id ==> dead[i].entry.user != user
    ensures !LetterOf(dead, user, id)
  {
  }

  // All dead letters of one id name the same buyer.
  lemma LettersAgree(s: State, i: nat, j: nat)
    requires Reachable(s) && i < |s.db.dead| && j < |s.db.dead| && s.db.dead[i].entry.id == s.db.dead[j].entry.id
    ensures s.db.dead[i].entry == s.db.dead[j].entry
    ensures s.db.dead[i].entry.id in s.db.orders ==> s.db.orders[s.db.dead[i].entry.id].user == s.db.dead[i].entry.user
  {
    hide Inv;
    ReachableInv(s);
    LettersOfInv(s, s.db.dead[i]);
    LettersOfInv(s, s.db.dead[j]);
    OrdersOfInv(s);
    var e := s.db.dead[i].entry;
    if e.id in s.db.orders {
      assert IsAccepted(s.redis.orderIds, Entry(e.id, s.db.orders[e.id].user, s.db.orders[e.id].voucher));
    }
  }

  // The list and the single query agree: a row is listed as SUCCESS or FAILED exactly if the query for its id says so.
  lemma ListAgreesWithQuery(s: State, user: int, list: seq<View>, x: View)
    requires Reachable(s) && Listing(s, user, list) && (x.Success? || x.Failed?)
    ensures x in list <==> QueryOrder(s, user, x.id) == x
  {
    hide Reachable, LetterOf, NewestVoucher;
    var id := x.id;
    if LatestLetter(s.db.dead, id).Some? {
      var i :| 0 <= i < |s.db.dead| && s.db.dead[i] == LatestLetter(s.db.dead, id).value;
      forall j | 0 <= j < |s.db.dead| && s.db.dead[j].entry.id == id ensures s.db.dead[j].entry == s.db.dead[i].entry {
        LettersAgree(s, i, j);
      }
      LettersAgree(s, i, i);
      NewestIsLatest(s.db.dead, s.db.dead[i].entry.user, id);
      if s.db.dead[i].entry.user != user {
        NoLetterOf(s.db.dead, user, id);
      }
    } else {
      NoLetterOf(s.db.dead, user, id);
    }
  }

  // The list has a row for exactly the ids that purchases of this user were accepted under, wherever they have got to.
  lemma ListIsComplete(s: State, user: int, list: seq<View>, id: int)
    requires Reachable(s) && Listing(s, user, list)
    ensures forall x :: x in list ==> x.Success? || x.Failed? || x.Processing?
    ensures (exists x :: x in list && x.id == id) <==> AcceptedFor(s.redis.orderIds, user, id)
  {
    hide Inv;
    ReachableInv(s);
    forall x | x in list ensures AcceptedFor(s.redis.orderIds, user, x.id) {
      RowIsAccepted(s, user, x);
    }
    if AcceptedFor(s.redis.orderIds, user, id) {
      var x := RowOfAccepted(s, user, id);
      assert x in list;
    }
  }

  ghost predicate Shown(s: State, user: int, x: View) {
    || RowShown(s, RowsOf(s, user), x)
    || HintShown(ProcessingOf(s, user), RowsOf(s, user), x)
    || LetterShown(s.db.dead, user, RowsOf(s, user), x)
  }

  lemma RowIsAccepted(s: State, user: int, x: View)
    requires Inv(s) && Shown(s, user, x)
    ensures AcceptedFor(s.redis.orderIds, user, x.id)
  {
    OrdersOfInv(s);
    if x.Success? {
      assert IsAccepted(s.redis.orderIds, Entry(x.id, user, s.db.orders[x.id].voucher));
    } else if x.Failed? {
      var i :| 0 <= i < |s.db.dead| && Concerns(s.db.dead[i], user, x.id);
      LettersOfInv(s, s.db.dead[i]);
    } else {
      assert (user, x.id) in s.redis.processing;
    }
  }

  lemma RowOfAccepted(s: State, user: int, id: int) returns (x: View)
    requires Inv(s) && AcceptedFor(s.redis.orderIds, user, id)
    ensures Shown(s, user, x) && x.id == id
  {
    OrdersOfInv(s);
    if id in s.db.orders {
      assert IsAccepted(s.redis.orderIds, Entry(id, s.db.orders[id].user, s.db.orders[id].voucher));
      x := Success(id, s.db.orders[id].voucher, s.db.orders[id].status);
    } else if i :| 0 <= i < |s.db.dead| && s.db.dead[i].entry.id == id {
      LettersOfInv(s, s.db.dead[i]);
      assert Concerns(s.db.dead[i], user, id);
      x := Failed(id, NewestVoucher(s.db.dead, user, id));
    } else {
      assert (user, id) in s.redis.processing;
      x := Processing(id);
    }
  }

  // The one overlap: an id is listed both as PROCESSING and as FAILED exactly if the query says FAILED while the hint
  // is still there.
  lemma ProcessingBesideFailed(s: State, user: int, list: seq<View>, id: int)
    requires Reachable(s) && Listing(s, user, list)
    ensures (Processing(id) in list && exists v :: Failed(id, v) in list)
            <==> (user, id) in s.redis.processing && QueryOrder(s, user, id).Failed?
  {
    hide Reachable, LetterOf, NewestVoucher;
    var answer := QueryOrder(s, user, id);
    assert answer.Failed? ==> answer.id == id && id !in s.db.orders;
    if answer.Failed? {
      ListAgreesWithQuery(s, user, list, answer);
    }
    if v :| Failed(id, v) in list {
      ListAgreesWithQuery(s, user, list, Failed(id, v));
    }
    hide QueryOrder;
    assert id in ProcessingOf(s, user) <==> (user, id) in s.redis.processing;
  }

  // It happens: a consumer fails on the record, isolates it, and dies before it clears the hint.
  lemma HintOutlivesLetter() returns (s: State)
    ensures Reachable(s) && (42, 9001) in s.redis.processing && QueryOrder(s, 42, 9001) == Failed(9001, 7)
    ensures forall list :: Listing(s, 42, list) ==> Processing(9001) in list && Failed(9001, 7) in list
  {
    hide Reachable;
    s := IsolatedThenDead();
    assert QueryOrder(s, 42, 9001) == Failed(9001, 7);
    hide QueryOrder, Listing;
    forall list | Listing(s, 42, list) ensures Processing(9001) in list && Failed(9001, 7) in list {
      ListAgreesWithQuery(s, 42, list, Failed(9001, 7));
      ProcessingBesideFailed(s, 42, list, 9001);
    }
  }

  lemma IsolatedThenDead() returns (s: State)
    ensures Reachable(s) && (42, 9001) in s.redis.processing
    ensures s.db.orders == map[] && s.db.dead == [DeadLetter(0, BOUGHT, Fault)]
  {
    hide Reachable;
    var c := FaultyRecord();
    var d := DoIsolate(c, 1);
    Step(c, Isolate(1), d);
    s := Stop(d, 1);
    Step(d, Crash(1), s);
  }

  // Consumer 1 was handed the only record, and its handler met an exception.
  lemma FaultyRecord() returns (s: State)
    ensures Reachable(s) && 1 in s.threads && s.threads[1] == Doomed(0, Fault, [])
    ensures s.redis.stream == [BOUGHT] && s.db.orders == map[] && s.db.dead == [] && (42, 9001) in s.redis.processing
  {
    hide Reachable;
    var b := RecordInHand();
    var c := Looks(b, 1);
    s := DoFail(c, 1);
    Step(c, Fail(1), s);
  }

  lemma RecordInHand() returns (s: State)
    ensures Reachable(s) && 1 in s.threads && s.threads[1] == Working([Job(0, None)])
    ensures 7 in s.db.stock && s.redis.stream == [BOUGHT] && 0 in s.redis.pel && s.redis.pel[0].deliveries == 1
    ensures s.db.orders == map[] && s.db.dead == [] && (42, 9001) in s.redis.processing
  {
    hide Reachable;
    var a := Selling();
    s := DoReadStream(a, 1);
    Step(a, ReadStream(1), s);
  }
}
