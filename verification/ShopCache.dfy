// The logical-expire shop cache and its owner-token lock: every store command is one action, and other threads act
// between any two actions of a call.
module ShopCache {
  import opened Wrappers

  type Shop = int
  type Token = nat

  // A cached value: the empty marker, or a shop with its logical expiry.
  datatype Entry = Marker | Wrapped(data: Shop, expire: int)

  // A load that took the lock: before its database read, between the read and the write with the row it holds,
  // or after the write. at is the place of the answer in the database's log.
  datatype Pc = Waiting | Holding(row: Option<Shop>, at: nat) | Written

  datatype Load = Load(id: int, pc: Pc)

  // said logs every answer the database has given; source is the logged answer that each key was last written from;
  // issued holds every lock token handed out; loads are the loads in flight, by their tokens.
  datatype State = State(
    cache: map<int, Entry>,
    source: map<int, nat>,
    locks: map<int, Token>,
    loads: map<Token, Load>,
    db: map<int, Shop>,
    said: seq<(int, Option<Shop>)>,
    issued: set<Token>,
    now: int)

  datatype Action =
    | ChangeDb(id: int, row: Option<Shop>)
    | ReadDb(id: int)
    | ReadFor(token: Token)
    | WriteBack(token: Token, expire: int)
    | Evict(id: int)
    | TakeLock(id: int, token: Token)
    | Unlock(id: int, token: Token)
    | Drop(token: Token)
    | LockExpires(id: int)
    | Tick(ms: nat)

  function Row(s: State, id: int): Option<Shop> { if id in s.db then Some(s.db[id]) else None }

  function EntryOf(row: Option<Shop>, expire: int): Entry {
    if row.None? then Marker else Wrapped(row.value, expire)
  }

  // A load reads once and writes once; tokens are random and never repeat.
  predicate Enabled(s: State, a: Action) {
    match a
    case ReadFor(token) => token in s.loads && s.loads[token].pc.Waiting?
    case WriteBack(token, _) => token in s.loads && s.loads[token].pc.Holding?
    case TakeLock(id, token) => token !in s.issued
    case _ => true
  }

  // TakeLock is SET NX and begins a load; Unlock is the compare-and-delete script and ends it. Drop ends a load
  // whose thread died, whose task the pool never ran, or whose unlock failed.
  function Apply(s: State, a: Action): State
    requires Enabled(s, a)
  {
    match a
    case ChangeDb(id, row) => s.(db := if row.Some? then s.db[id := row.value] else s.db - {id})
    case ReadDb(id) => s.(said := s.said + [(id, Row(s, id))])
    case ReadFor(token) =>
      var id := s.loads[token].id;
      s.(said := s.said + [(id, Row(s, id))], loads := s.loads[token := Load(id, Holding(Row(s, id), |s.said|))])
    case WriteBack(token, expire) =>
      var load := s.loads[token];
      s.(cache := s.cache[load.id := EntryOf(load.pc.row, expire)], source := s.source[load.id := load.pc.at],
      loads := s.loads[token := Load(load.id, Written)])
    case Evict(id) => s.(cache := s.cache - {id})
    case TakeLock(id, token) =>
      if id in s.locks then s.(issued := s.issued + {token})
      else s.(issued := s.issued + {token}, locks := s.locks[id := token], loads := s.loads[token := Load(id, Waiting)])
    case Unlock(id, token) =>
      s.(locks := if id in s.locks && s.locks[id] == token then s.locks - {id} else s.locks, loads := s.loads - {token})
    case Drop(token) => s.(loads := s.loads - {token})
    case LockExpires(id) => s.(locks := s.locks - {id})
    case Tick(ms) => s.(now := s.now + ms)
  }

  predicate IsRun(s: State, run: seq<Action>)
    decreases |run|
  {
    run == [] || (Enabled(s, run[0]) && IsRun(Apply(s, run[0]), run[1..]))
  }

  function After(s: State, run: seq<Action>): State
    requires IsRun(s, run)
    decreases |run|
  {
    if run == [] then s else After(Apply(s, run[0]), run[1..])
  }

  // ---- what always holds ----

  ghost predicate Said(s: State, id: int, e: Entry) {
    if e.Marker? then (id, None) in s.said else (id, Some(e.data)) in s.said
  }

  // The key was written from answer number at of the database.
  ghost predicate From(s: State, id: int, e: Entry, at: nat) {
    at < |s.said| && s.said[at].0 == id && e == EntryOf(s.said[at].1, if e.Wrapped? then e.expire else 0)
  }

  // Whatever is cached or held by a load was said by the database, and every lock was taken with an issued token.
  ghost predicate Justified(s: State) {
    && (forall id :: id in s.cache ==> id in s.source && From(s, id, s.cache[id], s.source[id]))
    && (forall t :: t in s.loads ==> t in s.issued)
    && (forall t :: t in s.loads && s.loads[t].pc.Holding? ==>
          s.loads[t].pc.at < |s.said| && s.said[s.loads[t].pc.at] == (s.loads[t].id, s.loads[t].pc.row))
    && (forall id :: id in s.locks ==> s.locks[id] in s.issued)
    && (forall i, j :: i in s.locks && j in s.locks && s.locks[i] == s.locks[j] ==> i == j)
  }

  // Nothing said or issued is taken back, and no load read the database before a unless it already had then.
  ghost predicate Later(a: State, b: State) {
    && a.said <= b.said && a.issued <= b.issued && a.now <= b.now
    && (forall t :: t in b.loads && b.loads[t].pc.Holding? && b.loads[t].pc.at < |a.said| ==>
          t in a.loads && a.loads[t] == b.loads[t])
  }

  lemma StepLater(s: State, a: Action)
    requires Justified(s) && Enabled(s, a)
    ensures Later(s, Apply(s, a))
  {
  }

  lemma StepJustified(s: State, a: Action)
    requires Justified(s) && Enabled(s, a)
    ensures Justified(Apply(s, a)) && Later(s, Apply(s, a))
  {
    StepLater(s, a);
    hide Later;
  }

  lemma {:induction false} RunJustified(s: State, run: seq<Action>)
    requires Justified(s) && IsRun(s, run)
    ensures Justified(After(s, run)) && Later(s, After(s, run))
    decreases |run|
  {
    if run != [] {
      StepJustified(s, run[0]);
      RunJustified(Apply(s, run[0]), run[1..]);
    }
  }

  lemma CachedWasSaid(s: State, id: int)
    requires Justified(s) && id in s.cache
    ensures Said(s, id, s.cache[id])
  {
    assert s.said[s.source[id]] in s.said;
  }

  // ---- what an invalidation gives ----

  // What is cached for the id was said at or after that place of the database's log.
  ghost predicate Fresh(s: State, id: int, since: nat) { id in s.cache ==> id in s.source && s.source[id] >= since }

  // A load of the id that read before that place has not written yet.
  ghost predicate InFlight(s: State, id: int, since: nat) {
    exists t :: t in s.loads && s.loads[t].id == id && s.loads[t].pc.Holding? && s.loads[t].pc.at < since
  }

  // The step writes for the id what a load read before that place.
  ghost predicate WritesStale(s: State, a: Action, id: int, since: nat) {
    a.WriteBack? && a.token in s.loads && s.loads[a.token].id == id
    && s.loads[a.token].pc.Holding? && s.loads[a.token].pc.at < since
  }

  ghost predicate StaleWriteIn(s: State, run: seq<Action>, id: int, since: nat)
    requires IsRun(s, run)
    decreases |run|
  {
    run != [] && (WritesStale(s, run[0], id, since) || StaleWriteIn(Apply(s, run[0]), run[1..], id, since))
  }

  ghost predicate AlwaysFresh(s: State, run: seq<Action>, id: int, since: nat)
    requires IsRun(s, run)
    decreases |run|
  {
    Fresh(s, id, since) && (run != [] ==> AlwaysFresh(Apply(s, run[0]), run[1..], id, since))
  }

  // Along any run, the id's entry stays one said since then if and only if no load that read before writes it.
  lemma {:induction false} FreshUnlessStaleWrite(s: State, run: seq<Action>, id: int, since: nat)
    requires Justified(s) && IsRun(s, run) && Fresh(s, id, since) && since <= |s.said|
    ensures AlwaysFresh(s, run, id, since) <==> !StaleWriteIn(s, run, id, since)
    decreases |run|
  {
    if run != [] {
      StepJustified(s, run[0]);
      if !WritesStale(s, run[0], id, since) {
        StepFresh(s, run[0], id, since);
        FreshUnlessStaleWrite(Apply(s, run[0]), run[1..], id, since);
      }
    }
  }

  lemma StepFresh(s: State, a: Action, id: int, since: nat)
    requires Justified(s) && Enabled(s, a) && Fresh(s, id, since) && since <= |s.said|
    ensures Fresh(Apply(s, a), id, since) <==> !WritesStale(s, a, id, since)
  {
  }

  lemma {:induction false} NoLoadNoStaleWrite(s: State, run: seq<Action>, id: int, since: nat)
    requires Justified(s) && IsRun(s, run) && !InFlight(s, id, since) && since <= |s.said|
    ensures !StaleWriteIn(s, run, id, since)
    decreases |run|
  {
    if run != [] {
      StepJustified(s, run[0]);
      NothingInFlight(s, Apply(s, run[0]), id, since);
      NoLoadNoStaleWrite(Apply(s, run[0]), run[1..], id, since);
    }
  }

  lemma NothingInFlight(a: State, b: State, id: int, since: nat)
    requires Later(a, b) && !InFlight(a, id, since) && since <= |a.said|
    ensures !InFlight(b, id, since)
  {
  }

  lemma {:induction false} EndsFresh(s: State, run: seq<Action>, id: int, since: nat)
    requires IsRun(s, run) && AlwaysFresh(s, run, id, since)
    ensures Fresh(After(s, run), id, since)
    decreases |run|
  {
    if run != [] {
      EndsFresh(Apply(s, run[0]), run[1..], id, since);
    }
  }

  // The cached row of the id is one that the database said for it since then.
  ghost predicate SaidSince(s: State, id: int, since: nat) {
    id in s.cache && exists at :: since <= at < |s.said| && From(s, id, s.cache[id], at)
  }

  lemma FreshIsSaidSince(s: State, id: int, since: nat)
    requires Justified(s) && Fresh(s, id, since) && id in s.cache && since <= |s.said|
    ensures SaidSince(s, id, since)
  {
    assert From(s, id, s.cache[id], s.source[id]);
  }

  // An update committed in the state c and deleted the key in the state e. Whatever happens from then on, the cache
  // holds for the id only what the database said since the commit, if and only if no load of the id that read before
  // the commit was still to write at the deletion.
  lemma InvalidationHolds(c: State, before: State, id: int)
    requires Justified(c) && Justified(before) && Later(c, before)
    ensures var e := Apply(before, Evict(id));
            (forall run :: IsRun(e, run) ==> Fresh(After(e, run), id, |c.said|)) <==> !InFlight(e, id, |c.said|)
    ensures var e := Apply(before, Evict(id));
            !InFlight(e, id, |c.said|) ==>
              forall run :: IsRun(e, run) && id in After(e, run).cache ==> SaidSince(After(e, run), id, |c.said|)
  {
    var e, since := Apply(before, Evict(id)), |c.said|;
    StepJustified(before, Evict(id));
    if !InFlight(e, id, since) {
      forall run | IsRun(e, run) ensures Fresh(After(e, run), id, since) {
        FreshUnlessStaleWrite(e, run, id, since);
        NoLoadNoStaleWrite(e, run, id, since);
        EndsFresh(e, run, id, since);
      }
      forall run | IsRun(e, run) && id in After(e, run).cache ensures SaidSince(After(e, run), id, since) {
        RunJustified(e, run);
        FreshIsSaidSince(After(e, run), id, since);
      }
    } else {
      var t :| t in e.loads && e.loads[t].id == id && e.loads[t].pc.Holding? && e.loads[t].pc.at < since;
      LateWrite(e, t, since);
      assert IsRun(e, [WriteBack(t, 0)]);
    }
  }

  lemma LateWrite(s: State, t: Token, since: nat)
    requires t in s.loads && s.loads[t].pc.Holding? && s.loads[t].pc.at < since
    ensures var run := [WriteBack(t, 0)]; IsRun(s, run) && !Fresh(After(s, run), s.loads[t].id, since)
  {
    var run := [WriteBack(t, 0)];
    assert run[1..] == [];
    assert IsRun(Apply(s, run[0]), []) && After(Apply(s, run[0]), []) == Apply(s, run[0]);
  }

  // Enough for a caller to look at the commit: no load of the id between its read and its write.
  lemma QuietCommitInvalidates(c: State, before: State, id: int, run: seq<Action>)
    requires Justified(c) && Justified(before) && Later(c, before) && IsRun(Apply(before, Evict(id)), run)
    requires forall t :: t in c.loads && c.loads[t].id == id ==> !c.loads[t].pc.Holding?
    ensures var b := After(Apply(before, Evict(id)), run); id in b.cache ==> SaidSince(b, id, |c.said|)
  {
    NothingInFlight(c, before, id, |c.said|);
    var e := Apply(before, Evict(id));
    StepJustified(before, Evict(id));
    NothingInFlight(before, e, id, |c.said|);
    InvalidationHolds(c, before, id);
  }

  // ---- tokens ----

  ghost predicate Holds(s: State, id: int, token: Token) { id in s.locks && s.locks[id] == token }

  // A token that has been issued and does not hold the lock will never hold it again.
  lemma {:induction false} LostForEver(s: State, run: seq<Action>, id: int, token: Token)
    requires IsRun(s, run) && token in s.issued && !Holds(s, id, token)
    ensures token in After(s, run).issued && !Holds(After(s, run), id, token)
    decreases |run|
  {
    if run != [] {
      LostForEver(Apply(s, run[0]), run[1..], id, token);
    }
  }

  // Releasing with a token whose lock was lost ends that load and changes nothing else,
  // however much later: it never removes a later holder's lock.
  lemma StaleReleaseIsHarmless(s: State, run: seq<Action>, id: int, token: Token)
    requires IsRun(s, run) && token in s.issued && !Holds(s, id, token)
    ensures Enabled(After(s, run), Unlock(id, token))
    ensures Apply(After(s, run), Unlock(id, token)) == After(s, run).(loads := After(s, run).loads - {token})
  {
    LostForEver(s, run, id, token);
  }

  lemma TakenOver(s: State, id: int, ms: nat, token: Token) returns (s1: State, s2: State, s3: State, end: State)
    requires id in s.locks && token !in s.issued && s.locks[id] in s.issued
    ensures s1 == Apply(s, Tick(ms)) && s2 == Apply(s1, LockExpires(id))
    ensures Enabled(s2, TakeLock(id, token)) && s3 == Apply(s2, TakeLock(id, token))
    ensures s3 == s.(now := s.now + ms, locks := s.locks[id := token], loads := s.loads[token := Load(id, Waiting)],
                     issued := s.issued + {token})
    ensures end == Apply(s3, Unlock(id, s.locks[id])) && Holds(end, id, token)
  {
    s1 := Apply(s, Tick(ms));
    s2 := Apply(s1, LockExpires(id));
    s3 := Apply(s2, TakeLock(id, token));
    assert s3.locks == s.locks[id := token];
    end := Apply(s3, Unlock(id, s.locks[id]));
  }

  // A lock that expires under its holder is taken by another load, in any state; the first load goes on beside the
  // second, and its release leaves the second one's lock alone.
  lemma ExpiredLockIsTaken(s: State, id: int, ms: nat, token: Token)
    requires Justified(s) && id in s.locks && token !in s.issued
    ensures var run := [Tick(ms), LockExpires(id), TakeLock(id, token), Unlock(id, s.locks[id])];
            && IsRun(s, run[..3]) && After(s, run[..3]) == s.(now := s.now + ms, locks := s.locks[id := token],
                                                              loads := s.loads[token := Load(id, Waiting)],
                                                              issued := s.issued + {token})
            && IsRun(s, run) && Holds(After(s, run), id, token)
  {
    var first := s.locks[id];
    var s1, s2, s3, end := TakenOver(s, id, ms, token);
    hide Apply, Enabled, IsRun, After;
    StepRun(s2, TakeLock(id, token), [], s3);
    StepRun(s1, LockExpires(id), [TakeLock(id, token)], s3);
    StepRun(s, Tick(ms), [LockExpires(id), TakeLock(id, token)], s3);
    StepRun(s3, Unlock(id, first), [], end);
    StepRun(s2, TakeLock(id, token), [Unlock(id, first)], end);
    StepRun(s1, LockExpires(id), [TakeLock(id, token), Unlock(id, first)], end);
    StepRun(s, Tick(ms), [LockExpires(id), TakeLock(id, token), Unlock(id, first)], end);
    var run := [Tick(ms), LockExpires(id), TakeLock(id, token), Unlock(id, first)];
    assert run[1..] == [LockExpires(id), TakeLock(id, token), Unlock(id, first)];
    assert run[..3] == [Tick(ms), LockExpires(id), TakeLock(id, token)];
    assert run[..3][1..] == [LockExpires(id), TakeLock(id, token)];
  }

  // ---- the code, one call among others ----

  // Nobody else's action goes on with a load of these tokens.
  predicate Foreign(run: seq<Action>, mine: set<Token>) {
    forall k :: 0 <= k < |run| ==>
      (run[k].ReadFor? || run[k].WriteBack? || run[k].Unlock? || run[k].Drop?) ==> run[k].token !in mine
  }

  ghost predicate LoadsKept(a: State, b: State, mine: set<Token>) {
    forall t :: t in mine && t in a.loads ==> t in b.loads && b.loads[t] == a.loads[t]
  }

  lemma {:induction false} ForeignKeeps(s: State, run: seq<Action>, mine: set<Token>)
    requires Justified(s) && IsRun(s, run) && Foreign(run, mine)
    ensures LoadsKept(s, After(s, run), mine)
    decreases |run|
  {
    if run != [] {
      StepJustified(s, run[0]);
      assert Foreign(run[1..], mine);
      assert LoadsKept(s, Apply(s, run[0]), mine);
      ForeignKeeps(Apply(s, run[0]), run[1..], mine);
    }
  }

  class World {
    var s: State
    // What the other threads do at each pause of this call; an entry that is not a run is skipped.
    var others: seq<seq<Action>>
    // the tokens of this call's own loads, and this call's own actions
    var mine: set<Token>
    ghost var trace: seq<Action>

    ghost predicate Valid()
      reads this
    {
      Justified(s) && mine <= s.issued
    }

    constructor (s: State, others: seq<seq<Action>>, mine: set<Token>)
      ensures this.s == s && this.others == others && this.mine == mine && trace == []
    {
      this.s, this.others, this.mine, this.trace := s, others, mine, [];
    }

    method Do(a: Action)
      requires Valid() && Enabled(s, a)
      modifies this
      ensures s == Apply(old(s), a) && Valid() && Later(old(s), s)
      ensures mine == old(mine) && trace == old(trace) + [a]
    {
      StepJustified(s, a);
      s := Apply(s, a);
      trace := trace + [a];
    }

    method Pause()
      requires Valid()
      modifies this
      ensures Valid() && Later(old(s), s) && LoadsKept(old(s), s, mine)
      ensures mine == old(mine) && trace == old(trace)
    {
      if others != [] {
        var run := others[0];
        others := others[1..];
        if IsRun(s, run) && Foreign(run, mine) {
          RunJustified(s, run);
          ForeignKeeps(s, run, mine);
          s := After(s, run);
        }
      }
    }
  }

  datatype Result = Ok(shop: Shop) | NotFound | Unavailable | Threw

  // Which commands of this call throw, and whether the pool throws when it is given a rebuild.
  datatype Luck = Luck(
    get: bool,
    lock: bool,
    getAgain: bool,
    db: bool,
    put: bool,
    unlock: bool,
    submit: bool)

  // An answer is one the database has given; UNAVAILABLE needs a database read that threw in this call.
  ghost predicate Answers(s: State, id: int, r: Result, luck: Luck) {
    && (r.Ok? ==> (id, Some(r.shop)) in s.said)
    && (r.NotFound? ==> (id, None) in s.said)
    && (r.Unavailable? ==> luck.db)
    && (r.Threw? ==> luck.lock)
  }

  // loadFromDbOnly: the answer is what the database says at this moment.
  method LoadFromDbOnly(w: World, id: int, luck: Luck) returns (r: Result)
    requires w.Valid()
    modifies w
    ensures w.Valid() && Later(old(w.s), w.s) && Answers(w.s, id, r, luck) && w.mine == old(w.mine)
    ensures w.s.loads == old(w.s).loads
    ensures r == if luck.db then Unavailable else if id in old(w.s).db then Ok(old(w.s).db[id]) else NotFound
  {
    if luck.db {
      return Unavailable;
    }
    var row := Row(w.s, id);
    w.Do(ReadDb(id));
    assert w.s.said[|w.s.said| - 1] == (id, row);
    r := if row.None? then NotFound else Ok(row.value);
  }

  // UUID.randomUUID: a token that was never used.
  method FreshToken(w: World) returns (token: Token)
    ensures token !in w.s.issued
  {
    token := 0;
    ghost var left := w.s.issued;
    while token in w.s.issued
      invariant left <= w.s.issued && forall x :: x in w.s.issued && x >= token ==> x in left
      decreases left
    {
      left := left - {token};
      token := token + 1;
    }
  }

  // The load of this token is mine and has not read yet.
  ghost predicate MayLoad(w: World, id: int, token: Token)
    reads w
  {
    token in w.mine && token in w.s.loads && w.s.loads[token] == Load(id, Waiting)
  }

  // tryLock: the token, if the lock was free.
  method TryLock(w: World, id: int) returns (token: Option<Token>)
    requires w.Valid()
    modifies w
    ensures w.Valid() && Later(old(w.s), w.s)
    ensures token.Some? <==> id !in old(w.s).locks
    ensures token.None? ==> w.mine == old(w.mine) && w.s == old(w.s).(issued := w.s.issued)
    ensures w.s.cache == old(w.s).cache && w.s.said == old(w.s).said
    ensures token.Some? ==>
              && token.value !in old(w.s).issued && token.value in w.s.issued
              && w.s.locks == old(w.s).locks[id := token.value] && Holds(w.s, id, token.value)
              && w.mine == old(w.mine) + {token.value} && MayLoad(w, id, token.value)
              && w.s.loads == old(w.s).loads[token.value := Load(id, Waiting)]
  {
    var unused := FreshToken(w);
    token := if id in w.s.locks then None else Some(unused);
    w.Do(TakeLock(id, unused));
    if token.Some? {
      w.mine := w.mine + {unused};
    }
  }

  // releaseLock, with which the load of this token ends.
  method ReleaseLock(w: World, id: int, token: Token, fails: bool) returns (deleted: bool)
    requires w.Valid()
    modifies w
    ensures w.Valid() && Later(old(w.s), w.s)
    ensures deleted <==> !fails && Holds(old(w.s), id, token)
    ensures w.s == old(w.s).(locks := if deleted then old(w.s).locks - {id} else old(w.s).locks,
                             loads := old(w.s).loads - {token})
    ensures w.mine == old(w.mine) - {token}
    ensures w.trace == old(w.trace) + [if fails then Drop(token) else Unlock(id, token)]
  {
    deleted := !fails && id in w.s.locks && w.s.locks[id] == token;
    w.Do(if fails then Drop(token) else Unlock(id, token));
    w.mine := w.mine - {token};
  }

  // dbFallback.apply under the lock.
  method ReadUnderLock(w: World, id: int, token: Token) returns (row: Option<Shop>)
    requires w.Valid() && MayLoad(w, id, token)
    modifies w
    ensures w.Valid() && Later(old(w.s), w.s) && w.mine == old(w.mine)
    ensures row == Row(old(w.s), id) && w.s.said == old(w.s).said + [(id, row)]
    ensures token in w.s.loads && w.s.loads[token] == Load(id, Holding(row, |old(w.s).said|))
    ensures w.trace == old(w.trace) + [ReadFor(token)]
  {
    row := Row(w.s, id);
    w.Do(ReadFor(token));
  }

  // Writing back what the database said; a failing command is logged.
  method PutBack(w: World, id: int, token: Token, ttl: nat, fails: bool)
    requires w.Valid() && token in w.mine && token in w.s.loads
    requires w.s.loads[token].id == id && w.s.loads[token].pc.Holding?
    modifies w
    ensures w.Valid() && Later(old(w.s), w.s) && w.mine == old(w.mine)
    ensures fails ==> w.s == old(w.s)
    ensures !fails ==>
              && w.s.cache == old(w.s).cache[id := EntryOf(old(w.s).loads[token].pc.row, old(w.s).now + ttl)]
              && id in w.s.source && w.s.source[id] == old(w.s).loads[token].pc.at
              && w.s.now == old(w.s).now && w.s.said == old(w.s).said
    ensures w.trace == old(w.trace) + if fails then [] else [WriteBack(token, old(w.s).now + ttl)]
  {
    if !fails {
      w.Do(WriteBack(token, w.s.now + ttl));
    }
  }

  // What a rebuild does, in order.
  function RebuildSteps(id: int, token: Token, expire: int, luck: Luck): seq<Action> {
    (if luck.db then [] else [ReadFor(token)] + if luck.put then [] else [WriteBack(token, expire)])
    + [if luck.unlock then Drop(token) else Unlock(id, token)]
  }

  lemma LaterStill(a: State, b: State, c: State)
    requires Later(a, b) && Later(b, c)
    ensures Later(a, c)
  {
  }

  // A rebuild task of the pool. written is the state right after the write: unless the read or the write threw,
  // the cache then holds what the database said during this call, for ttl from then on.
  method RebuildAsync(w: World, id: int, ttl: nat, token: Token, luck: Luck) returns (ghost written: State)
    requires w.Valid() && MayLoad(w, id, token)
    modifies w
    ensures w.Valid() && Justified(written) && Later(old(w.s), written) && Later(written, w.s)
    ensures !luck.db && !luck.put ==>
              && id in written.cache && written.source[id] >= |old(w.s).said|
              && written.cache[id] == EntryOf(written.said[written.source[id]].1, written.now + ttl)
    ensures w.trace == old(w.trace) + RebuildSteps(id, token, written.now + ttl, luck)
    ensures token !in w.s.loads && w.mine == old(w.mine) - {token} && (!luck.unlock ==> !Holds(w.s, id, token))
  {
    hide Justified, IsRun, Foreign;
    w.Pause();
    ghost var s0, s1 := old(w.s), w.s;
    written := w.s;
    if !luck.db {
      var row := ReadUnderLock(w, id, token);
      ghost var s2 := w.s;
      w.Pause();
      ghost var s3 := w.s;
      PutBack(w, id, token, ttl, luck.put);
      written := w.s;
      LaterStill(s0, s1, s2);
      LaterStill(s0, s2, s3);
      LaterStill(s0, s3, written);
      hide Later;
      w.Pause();
    }
    ghost var s5 := w.s;
    var deleted := ReleaseLock(w, id, token, luck.unlock);
    LaterStill(written, s5, w.s);
  }

  // handleHit: a fresh value, or a stale one with a rebuild under way. The task itself is one of the other
  // threads; a pool that throws gives the lock back, a saturated one only logs and leaves it to the TTL.
  method HandleHit(w: World, id: int, entry: Entry, luck: Luck) returns (r: Result)
    requires w.Valid() && entry.Wrapped? && (id, Some(entry.data)) in w.s.said
    modifies w
    ensures w.Valid() && Later(old(w.s), w.s) && Answers(w.s, id, r, luck) && w.mine == old(w.mine)
    ensures r == if entry.expire <= old(w.s).now && luck.lock then Threw else Ok(entry.data)
    ensures entry.expire > old(w.s).now ==> r == Ok(entry.data) && w.s == old(w.s)
    // a stale hit hands one rebuild of the id to the pool, under the lock it took
    ensures entry.expire <= old(w.s).now && !luck.lock && !luck.submit && id !in old(w.s).locks ==>
              && id in w.s.locks && w.s.locks[id] !in old(w.s).issued
              && w.s.loads == old(w.s).loads[w.s.locks[id] := Load(id, Waiting)]
    // and none if the lock is busy or the pool throws
    ensures entry.expire <= old(w.s).now && (id in old(w.s).locks || luck.submit || luck.lock) ==>
              w.s.loads == old(w.s).loads && (luck.unlock || w.s.locks == old(w.s).locks)
    ensures entry.expire <= old(w.s).now && id in old(w.s).locks ==> w.s.locks == old(w.s).locks
    ensures w.s.cache == old(w.s).cache && w.s.said == old(w.s).said
  {
    if entry.expire > w.s.now {
      return Ok(entry.data);
    }
    if luck.lock {
      return Threw;
    }
    var token := TryLock(w, id);
    if token.Some? && luck.submit {
      var deleted := ReleaseLock(w, id, token.value, luck.unlock);
      assert w.s.loads == old(w.s).loads && w.mine == old(w.mine);
      assert !luck.unlock ==> w.s.locks == old(w.s).locks;
    } else if token.Some? {
      w.mine := w.mine - {token.value};
    }
    r := Ok(entry.data);
  }

  // What a get returned was once said by the database.
  ghost predicate Seen(s: State, id: int, json: Option<Entry>) { json.Some? ==> Said(s, id, json.value) }

  method Get(w: World, id: int) returns (json: Option<Entry>)
    requires w.Valid()
    ensures Seen(w.s, id, json) && json == if id in w.s.cache then Some(w.s.cache[id]) else None
  {
    if id in w.s.cache {
      CachedWasSaid(w.s, id);
    }
    json := if id in w.s.cache then Some(w.s.cache[id]) else None;
  }

  // What a look into the cache says, if it finds something.
  function Answer(entry: Entry): Result { if entry.Marker? then NotFound else Ok(entry.data) }

  // loadOnMiss: whoever gets the lock loads, and gives the lock back. at is the moment of the second look, loaded the one
  // at which the answer is there.
  method LoadOnMiss(w: World, id: int, ttl: nat, luck: Luck)
    returns (r: Result, ghost token: Option<Token>, ghost at: State, ghost loaded: State)
    requires w.Valid()
    modifies w
    ensures w.Valid() && Later(old(w.s), w.s) && Answers(w.s, id, r, luck)
    ensures token.Some? <==> !luck.lock && id !in old(w.s).locks
    ensures token.Some? ==> token.value !in old(w.s).issued && token.value !in w.s.loads
    ensures token.Some? && !luck.unlock ==> !Holds(w.s, id, token.value)
    ensures Later(old(w.s), at) && Later(at, loaded) && Later(loaded, w.s)
    // what is found at the second look is the answer, with and without the lock
    ensures !luck.lock && !luck.getAgain && id in at.cache ==> r == Answer(at.cache[id])
    // with the lock a miss fills the cache, unless a command failed
    ensures token.Some? && !luck.getAgain && !luck.db && !luck.put ==> id in loaded.cache && r == Answer(loaded.cache[id])
  {
    hide Justified, IsRun, Foreign;
    if luck.lock {
      return Threw, None, w.s, w.s;
    }
    ghost var s0 := w.s;
    var mine := TryLock(w, id);
    ghost var s1 := w.s;
    token := mine;
    if mine.None? {
      r, at := WaitAndRetryAfterMiss(w, id, luck);
      LaterStill(s0, s1, at);
      return r, None, at, w.s;
    }
    r, at := LoadUnderLock(w, id, ttl, mine.value, luck);
    loaded := w.s;
    LaterStill(s0, s1, at);
    w.Pause();
    ghost var s2 := w.s;
    var deleted := ReleaseLock(w, id, mine.value, luck.unlock);
    LaterStill(loaded, s2, w.s);
  }

  // at is the moment of the look under the lock.
  method LoadUnderLock(w: World, id: int, ttl: nat, token: Token, luck: Luck) returns (r: Result, ghost at: State)
    requires w.Valid() && MayLoad(w, id, token)
    modifies w
    ensures w.Valid() && Later(old(w.s), w.s) && Answers(w.s, id, r, luck) && !r.Threw? && w.mine == old(w.mine)
    ensures Later(old(w.s), at) && Later(at, w.s)
    // what another load has put there meanwhile is the answer, and the database is not asked again
    ensures !luck.getAgain && id in at.cache ==> r == Answer(at.cache[id]) && w.s == at
    // the answer is in the cache now, unless a command failed
    ensures !luck.getAgain && !luck.db && !luck.put ==> id in w.s.cache && r == Answer(w.s.cache[id])
  {
    hide Justified, IsRun, Foreign;
    w.Pause();
    at := w.s;
    if luck.getAgain {
      r := LoadFromDbOnly(w, id, luck);
      return;
    }
    var json := Get(w, id);
    if json == Some(Marker) {
      return NotFound, at;
    }
    if json.Some? {
      return Ok(json.value.data), at;
    }
    w.Pause();
    if luck.db {
      return Unavailable, at;
    }
    ghost var s1 := w.s;
    var row := ReadUnderLock(w, id, token);
    assert w.s.said[|w.s.said| - 1] == (id, row);
    ghost var s2 := w.s;
    w.Pause();
    ghost var s3 := w.s;
    PutBack(w, id, token, ttl, luck.put);
    LaterStill(at, s1, s2);
    LaterStill(at, s2, s3);
    LaterStill(at, s3, w.s);
    r := if row.None? then NotFound else Ok(row.value);
  }

  // The lock is busy: look once more, and otherwise ask the database, so a miss is never taken for "not found". A hit
  // that throws on the way is answered by the database as well.
  method WaitAndRetryAfterMiss(w: World, id: int, luck: Luck) returns (r: Result, ghost at: State)
    requires w.Valid()
    modifies w
    ensures w.Valid() && Later(old(w.s), w.s) && Answers(w.s, id, r, luck) && !r.Threw?
    // at is the moment of that look, and what it finds is the answer, unless a hit throws
    ensures Later(old(w.s), at) && Later(at, w.s)
    ensures !luck.getAgain && id in at.cache && !(luck.lock && at.cache[id].Wrapped? && at.cache[id].expire <= at.now) ==>
              r == Answer(at.cache[id])
    // what the database says is the answer otherwise
    ensures luck.getAgain || id !in at.cache ==> (r.Unavailable? <==> luck.db)
  {
    w.Pause();
    at := w.s;
    if !luck.getAgain {
      var json := Get(w, id);
      if json == Some(Marker) {
        return NotFound, at;
      }
      if json.Some? {
        r := HandleHit(w, id, json.value, luck);
        if !r.Threw? {
          return;
        }
      }
    }
    ghost var s1 := w.s;
    w.Pause();
    ghost var s2 := w.s;
    r := LoadFromDbOnly(w, id, luck);
    LaterStill(at, s1, s2);
    LaterStill(at, s2, w.s);
  }

  // queryWithLogicalExpire. Apart from a lock command that throws, every call ends with a justified answer.
  // missed is the moment at which a miss tries the lock, loaded the one at which its answer is there.
  method Query(w: World, id: int, ttl: nat, luck: Luck) returns (r: Result, ghost missed: State, ghost loaded: State)
    requires w.Valid()
    modifies w
    ensures w.Valid() && Later(old(w.s), w.s) && Answers(w.s, id, r, luck)
    // what is cached and fresh is the answer, and nothing is touched
    ensures !luck.get && id in old(w.s).cache && old(w.s).cache[id].Wrapped? && old(w.s).cache[id].expire > old(w.s).now ==>
              r == Ok(old(w.s).cache[id].data) && w.s == old(w.s)
    ensures !luck.get && id in old(w.s).cache && old(w.s).cache[id].Marker? ==> r == NotFound && w.s == old(w.s)
    // with the load lock a miss fills the cache, unless a command failed
    ensures Later(old(w.s), missed) && Later(missed, loaded) && Later(loaded, w.s)
    ensures !luck.get && id !in old(w.s).cache && id !in missed.locks
            && !luck.lock && !luck.getAgain && !luck.db && !luck.put
            ==> id in loaded.cache && r == Answer(loaded.cache[id])
    // a cached value that is expired is answered all the same
    ensures !luck.get && id in old(w.s).cache && !luck.lock ==> r == Answer(old(w.s).cache[id])
    // without Redis the database answers
    ensures luck.get && !luck.db ==> r == if id in old(w.s).db then Ok(old(w.s).db[id]) else NotFound
  {
    missed, loaded := w.s, w.s;
    if luck.get {
      r := LoadFromDbOnly(w, id, luck);
      return;
    }
    var json := Get(w, id);
    if json.None? {
      w.Pause();
      missed := w.s;
      ghost var token, at;
      r, token, at, loaded := LoadOnMiss(w, id, ttl, luck);
      LaterStill(missed, at, loaded);
      return;
    }
    if json == Some(Marker) {
      r := NotFound;
      return;
    }
    r := HandleHit(w, id, json.value, luck);
  }

  // ---- ShopServiceImpl ----

  datatype Page = Found(shop: Shop) | Gone | Busy | Error

  // queryById: "does not exist" is said only if the database once said so.
  method QueryById(w: World, id: int, ttl: nat, luck: Luck) returns (page: Page)
    requires w.Valid()
    modifies w
    ensures w.Valid() && Later(old(w.s), w.s)
    ensures page.Found? ==> (id, Some(page.shop)) in w.s.said
    ensures page == Gone ==> (id, None) in w.s.said
    ensures page == Busy ==> luck.db
    ensures page == Error ==> luck.lock
  {
    var r;
    ghost var missed, loaded;
    r, missed, loaded := Query(w, id, ttl, luck);
    page := match r
      case Ok(shop) => Found(shop)
      case NotFound => Gone
      case Unavailable => Busy
      case Threw => Error;
  }

  // What an update does, in order.
  function UpdateSteps(id: int, row: Option<Shop>, deleteFails: bool): seq<Action> {
    [ChangeDb(id, row)] + if deleteFails then [] else [Evict(id)]
  }

  // update: the key is deleted after the commit; a failing delete is logged and left to the logical expiry.
  // Unless a load of the id stood between its read and its write at the commit, the cache afterwards never holds
  // for the id what the database said before.
  method Update(w: World, id: int, shop: Shop, deleteFails: bool) returns (ghost committed: State)
    requires w.Valid()
    modifies w
    ensures w.Valid() && Later(old(w.s), committed) && Later(committed, w.s)
    ensures committed.cache == old(w.s).cache && Row(committed, id) == if id in old(w.s).db then Some(shop) else None
    ensures w.trace == old(w.trace) + UpdateSteps(id, Row(committed, id), deleteFails)
    ensures !deleteFails ==> id !in w.s.cache
    ensures !deleteFails ==>
              ((forall run :: IsRun(w.s, run) ==> Fresh(After(w.s, run), id, |committed.said|)) <==>
               !InFlight(w.s, id, |committed.said|))
    ensures !InFlight(committed, id, |committed.said|) ==> !InFlight(w.s, id, |committed.said|)
    ensures !deleteFails && !InFlight(w.s, id, |committed.said|) ==>
              forall run :: IsRun(w.s, run) && id in After(w.s, run).cache ==>
                              SaidSince(After(w.s, run), id, |committed.said|)
  {
    w.Do(ChangeDb(id, if id in w.s.db then Some(shop) else None));
    committed := w.s;
    w.Pause();
    if !deleteFails {
      InvalidationHolds(committed, w.s, id);
      w.Do(Evict(id));
    }
  }

  const SMOOTH := Luck(false, false, false, false, false, false, false)

  // The condition is needed: a rebuild and an update, each with all its steps and none failing, interleaved so that
  // the rebuild reads before the commit and writes after the deletion. The old row is then cached.
  lemma StaleValueMayReturn(id: int, before: Shop, after: Shop, expire: int)
    requires before != after
    ensures var s := State(map[], map[], map[], map[], map[id := before], [], {}, 0);
            var rebuild, update := RebuildSteps(id, 0, expire, SMOOTH), UpdateSteps(id, Some(after), false);
            var run := [TakeLock(id, 0)] + rebuild[..1] + update + rebuild[1..];
            && Justified(s) && IsRun(s, run)
            && Row(After(s, run), id) == Some(after)
            && id in After(s, run).cache && After(s, run).cache[id] == Wrapped(before, expire)
  {
    var run := StaleRun(id, before, after, expire);
    var rebuild, update := RebuildSteps(id, 0, expire, SMOOTH), UpdateSteps(id, Some(after), false);
    assert rebuild == [ReadFor(0), WriteBack(0, expire), Unlock(id, 0)];
    hide IsRun, After, Apply, Enabled;
    assert run == [TakeLock(id, 0)] + rebuild[..1] + update + rebuild[1..];
  }

  lemma StaleRun(id: int, before: Shop, after: Shop, expire: int) returns (run: seq<Action>)
    ensures run == [TakeLock(id, 0), ReadFor(0), ChangeDb(id, Some(after)), Evict(id), WriteBack(0, expire),
                    Unlock(id, 0)]
    ensures var s := State(map[], map[], map[], map[], map[id := before], [], {}, 0);
            && IsRun(s, run)
            && After(s, run) == State(map[id := Wrapped(before, expire)], map[id := 0], map[], map[],
                                      map[id := after], [(id, Some(before))], {0}, 0)
  {
    run := [TakeLock(id, 0), ReadFor(0), ChangeDb(id, Some(after)), Evict(id), WriteBack(0, expire), Unlock(id, 0)];
    var s := State(map[], map[], map[], map[], map[id := before], [], {}, 0);
    var s1 := s.(locks := map[id := 0], loads := map[0 := Load(id, Waiting)], issued := {0});
    var s2 := s1.(said := [(id, Some(before))], loads := map[0 := Load(id, Holding(Some(before), 0))]);
    var s3 := s2.(db := map[id := after]);
    assert Apply(s, run[0]) == s1 && Apply(s1, run[1]) == s2;
    assert Apply(s2, run[2]) == s3 && Apply(s3, run[3]) == s3;
    hide IsRun, After, Apply;
    LateRebuild(s3, id, before, expire);
    assert run[4..] == [WriteBack(0, expire), Unlock(id, 0)];
    var end := After(s3, run[4..]);
    StepRun(s3, run[3], run[4..], end);
    StepRun(s2, run[2], run[3..], end);
    StepRun(s1, run[1], run[2..], end);
    StepRun(s, run[0], run[1..], end);
  }

  // The rest of a rebuild that holds the old row.
  lemma LateRebuild(s: State, id: int, row: Shop, expire: int)
    requires s.loads == map[0 := Load(id, Holding(Some(row), 0))] && s.locks == map[id := 0]
    ensures var run := [WriteBack(0, expire), Unlock(id, 0)];
            && IsRun(s, run)
            && After(s, run) == s.(cache := s.cache[id := Wrapped(row, expire)], source := s.source[id := 0],
                                   locks := map[], loads := map[])
  {
    var run := [WriteBack(0, expire), Unlock(id, 0)];
    var s1 := Apply(s, run[0]);
    var s2 := Apply(s1, run[1]);
    assert s2.locks == map[] && s2.loads == map[];
    hide IsRun, After, Apply;
    StepRun(s1, run[1], [], s2);
    StepRun(s, run[0], run[1..], s2);
  }

  lemma StepRun(s: State, a: Action, rest: seq<Action>, end: State)
    requires Enabled(s, a)
    requires if rest == [] then Apply(s, a) == end else IsRun(Apply(s, a), rest) && After(Apply(s, a), rest) == end
    ensures forall run :: run != [] && run[0] == a && run[1..] == rest ==> IsRun(s, run) && After(s, run) == end
  {
  }
}
