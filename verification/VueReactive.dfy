// Dependency collection: which watchers are subscribed to which deps after an evaluation.
module VueReactive {
  import opened Lists

  class Dep {
    const id: nat
    var subs: seq<Watcher>

    constructor (id: nat)
      ensures this.id == id && subs == []
    {
      this.id, subs := id, [];
    }

    method AddSub(sub: Watcher)
      modifies this
      ensures subs == old(subs) + [sub]
    {
      subs := subs + [sub];
    }

    method RemoveSub(sub: Watcher)
      modifies this
      ensures subs == Without(old(subs), sub)
    {
      subs := Without(subs, sub);
    }
  }

  lemma LastElement<T>(s: seq<T>, i: nat)
    requires Distinct(s) && i < |s|
    ensures Elements(s[..i + 1]) == Elements(s[..i]) + {s[i]} && s[i] !in Elements(s[..i])
  {
    assert s[..i + 1] == s[..i] + [s[i]];
  }

  ghost function IdsOf(deps: seq<Dep>): set<nat> { set d | d in deps :: d.id }

  // No two deps of the universe share an id.
  ghost predicate Universe(all: set<Dep>) { forall d, e :: d in all && e in all && d.id == e.id ==> d == e }

  ghost predicate Within(deps: seq<Dep>, all: set<Dep>) { forall d :: d in deps ==> d in all }

  lemma IdMembership(all: set<Dep>, deps: seq<Dep>, d: Dep)
    requires Universe(all) && Within(deps, all) && d in all
    ensures d.id in IdsOf(deps) <==> d in deps
  {
  }

  // w is subscribed once to each of these deps and to no other.
  ghost predicate Subscribed(all: set<Dep>, w: Watcher, exactly: set<Dep>)
    reads all
  {
    forall d :: d in all ==> multiset(d.subs)[w] == if d in exactly then 1 else 0
  }

  class Watcher {
    const id: nat
    var deps: seq<Dep>
    var newDeps: seq<Dep>
    var depIds: set<nat>
    var newDepIds: set<nat>

    constructor (id: nat)
      ensures this.id == id && deps == [] && newDeps == [] && depIds == {} && newDepIds == {}
    {
      this.id, deps, newDeps, depIds, newDepIds := id, [], [], {}, {};
    }

    // Between evaluations, or inside one.
    ghost predicate Collecting(all: set<Dep>)
      reads this, all
    {
      && Within(deps, all) && Within(newDeps, all) && Distinct(deps) && Distinct(newDeps)
      && depIds == IdsOf(deps) && newDepIds == IdsOf(newDeps)
      && Subscribed(all, this, Elements(deps) + Elements(newDeps))
    }

    ghost predicate AtRest(all: set<Dep>)
      reads this, all
    {
      newDeps == [] && Collecting(all)
    }

    lemma DepsWithin(all: set<Dep>)
      requires AtRest(all)
      ensures Within(deps, all)
    {
    }

    method AddDep(dep: Dep, ghost all: set<Dep>)
      requires Universe(all) && dep in all && Collecting(all)
      modifies this, dep
      ensures Collecting(all) && deps == old(deps)
      ensures newDeps == if dep in old(newDeps) then old(newDeps) else old(newDeps) + [dep]
      ensures forall v :: v != this ==> multiset(dep.subs)[v] == old(multiset(dep.subs))[v]
    {
      IdMembership(all, newDeps, dep);
      IdMembership(all, deps, dep);
      var id := dep.id;
      if id !in newDepIds {
        newDepIds := newDepIds + {id};
        newDeps := newDeps + [dep];
        if id !in depIds {
          dep.AddSub(this);
        }
      }
    }

    method Unsubscribe(dep: Dep, ghost all: set<Dep>, ghost from: set<Dep>)
      requires dep in all && dep in from && Subscribed(all, this, from)
      modifies dep
      ensures Subscribed(all, this, from - {dep})
      ensures forall v :: v != this ==> multiset(dep.subs)[v] == old(multiset(dep.subs)[v])
    {
      assert multiset(dep.subs)[this] == 1 && this in dep.subs;
      WithoutOne(dep.subs, this);
      dep.RemoveSub(this);
    }

    // Deps that this evaluation did not read are unsubscribed, last first; then the two lists change places.
    method CleanupDeps(ghost all: set<Dep>)
      requires Universe(all) && Collecting(all)
      modifies this, all
      ensures AtRest(all) && deps == old(newDeps)
      ensures forall d, v :: d in all && v != this ==> multiset(d.subs)[v] == old(multiset(d.subs)[v])
    {
      hide Subscribed;
      ghost var kept := Elements(newDeps);
      assert deps[..|deps|] == deps;
      var i := |deps|;
      while i > 0
        invariant 0 <= i <= |deps|
        invariant deps == old(deps) && newDeps == old(newDeps) && depIds == old(depIds) && newDepIds == old(newDepIds)
        invariant Subscribed(all, this, Elements(deps[..i]) + kept)
        invariant forall d, v :: d in all && v != this ==> multiset(d.subs)[v] == old(multiset(d.subs)[v])
      {
        i := i - 1;
        var dep := deps[i];
        IdMembership(all, newDeps, dep);
        LastElement(deps, i);
        if dep.id !in newDepIds {
          assert Elements(deps[..i + 1]) + kept - {dep} == Elements(deps[..i]) + kept;
          Unsubscribe(dep, all, Elements(deps[..i + 1]) + kept);
        } else {
          assert Elements(deps[..i + 1]) + kept == Elements(deps[..i]) + kept;
        }
      }
      assert deps[..0] == [] && Elements(deps[..0]) + kept == kept;
      depIds, newDepIds := newDepIds, {};
      deps, newDeps := newDeps, [];
      assert Elements(deps) + Elements(newDeps) == kept;
    }
  }

  // ---- evaluation ----

  // What a getter does: it reads a dep, has another watcher evaluated, or depends on everything that one collected.
  datatype Read = Touch(dep: Dep) | Evaluate(watcher: Watcher, body: seq<Read>) | DependOn(watcher: Watcher)

  // Only idle watchers are evaluated on the way, and none of them from inside its own getter.
  ghost predicate Fits(body: seq<Read>, all: set<Dep>, free: set<Watcher>)
    decreases body, 0
  {
    forall i :: 0 <= i < |body| ==> FitsOne(body[i], all, free)
  }

  ghost predicate FitsOne(r: Read, all: set<Dep>, free: set<Watcher>)
    decreases r, 1
  {
    match r
    case Touch(d) => d in all
    case Evaluate(v, inner) => v in free && Fits(inner, all, free - {v})
    case DependOn(v) => v in free
  }

  // What a getter has read so far, and what every idle watcher holds from its own last evaluation.
  datatype Tracking = Tracking(read: set<Dep>, held: map<Watcher, set<Dep>>)

  // What a getter tracks, read by read: a touched dep is read; an evaluated watcher holds what its own getter reads,
  // instead of what it held before; depending on a watcher reads what that one holds then.
  ghost function Tracks(body: seq<Read>, t: Tracking): Tracking
    decreases body, 0
  {
    if body == [] then t else TracksOne(body[|body| - 1], Tracks(body[..|body| - 1], t))
  }

  ghost function TracksOne(r: Read, t: Tracking): Tracking
    decreases r, 1
  {
    match r
    case Touch(d) => t.(read := t.read + {d})
    case Evaluate(v, inner) =>
      var own := Collected(inner, t.held - {v});
      t.(held := own.held[v := own.read])
    case DependOn(v) => t.(read := t.read + if v in t.held then t.held[v] else {})
  }

  // A whole evaluation of a getter.
  ghost function Collected(body: seq<Read>, held: map<Watcher, set<Dep>>): Tracking
    decreases body, 1
  {
    Tracks(body, Tracking({}, held))
  }

  ghost function Held(free: set<Watcher>): map<Watcher, set<Dep>>
    reads free
  {
    map v | v in free :: Elements(v.deps)
  }

  // What w has collected in the evaluation it is in, and what the idle watchers hold.
  ghost function Tracked(w: Watcher, free: set<Watcher>): Tracking
    reads w, free
  {
    Tracking(Elements(w.newDeps), Held(free))
  }

  lemma OneMore(body: seq<Read>, i: nat, t: Tracking)
    requires i < |body|
    ensures Tracks(body[..i + 1], t) == TracksOne(body[i], Tracks(body[..i], t))
  {
    hide TracksOne;
    assert body[..i + 1][..i] == body[..i];
  }

  lemma TracksSingle(r: Read, t: Tracking)
    ensures Tracks([r], t) == TracksOne(r, t)
  {
    hide TracksOne;
    OneMore([r], 0, t);
    assert [r][..1] == [r] && Tracks([r][..0], t) == t;
  }

  // Getters run one after the other track what their joined reads track.
  lemma {:induction false} TracksJoined(a: seq<Read>, b: seq<Read>, t: Tracking)
    ensures Tracks(a + b, t) == Tracks(b, Tracks(a, t))
    decreases |b|
  {
    hide TracksOne;
    if b == [] {
      assert a + b == a;
    } else {
      var n := |b| - 1;
      TracksJoined(a, b[..n], t);
      assert (a + b)[..|a + b| - 1] == a + b[..n];
    }
  }

  // The i-th read of the getter brings in d: it is d itself, or a watcher that holds d at that moment.
  ghost predicate Brings(body: seq<Read>, held: map<Watcher, set<Dep>>, i: int, d: Dep) {
    0 <= i < |body|
    && (body[i] == Touch(d)
        || (body[i].DependOn? && var now := Tracks(body[..i], Tracking({}, held)).held;
                                 body[i].watcher in now && d in now[body[i].watcher]))
  }

  lemma LastRead(body: seq<Read>, held: map<Watcher, set<Dep>>, d: Dep)
    requires body != []
    ensures var n := |body| - 1;
            d in Collected(body, held).read <==> d in Collected(body[..n], held).read || Brings(body, held, n, d)
  {
    var n := |body| - 1;
    OneMore(body, n, Tracking({}, held));
    assert body[..n + 1] == body;
  }

  // A getter collects exactly what its own reads bring in; what watchers evaluated on the way read is theirs.
  lemma {:induction false} CollectsWhatItReads(body: seq<Read>, held: map<Watcher, set<Dep>>, d: Dep)
    ensures d in Collected(body, held).read <==> exists i :: Brings(body, held, i, d)
    decreases |body|
  {
    if body != [] {
      var n := |body| - 1;
      CollectsWhatItReads(body[..n], held, d);
      LastRead(body, held, d);
      forall i | 0 <= i < n ensures Brings(body, held, i, d) <==> Brings(body[..n], held, i, d) {
        assert body[..n][..i] == body[..i];
      }
      if i :| Brings(body, held, i, d) {
        assert i < n ==> Brings(body[..n], held, i, d);
      }
      if i :| Brings(body[..n], held, i, d) {
        assert Brings(body, held, i, d);
      }
    }
  }

  // A watcher holds what its own getter collected when it was last evaluated here.
  lemma HoldsWhatItCollected(body: seq<Read>, held: map<Watcher, set<Dep>>, i: nat)
    requires i < |body| && body[i].Evaluate?
    ensures var before, after := Tracks(body[..i], Tracking({}, held)).held, Tracks(body[..i + 1], Tracking({}, held)).held;
            && body[i].watcher in after
            && after[body[i].watcher] == Collected(body[i].body, before - {body[i].watcher}).read
  {
    OneMore(body, i, Tracking({}, held));
  }

  // Where nothing but deps is read, exactly those are collected.
  lemma CollectsDeps(body: seq<Read>, held: map<Watcher, set<Dep>>, d: Dep)
    requires forall i :: 0 <= i < |body| ==> !body[i].DependOn?
    ensures d in Collected(body, held).read <==> Touch(d) in body
  {
    CollectsWhatItReads(body, held, d);
    if Touch(d) in body {
      var i :| 0 <= i < |body| && body[i] == Touch(d);
      assert Brings(body, held, i, d);
    }
  }

  lemma StartsEmpty(w: Watcher, body: seq<Read>, all: set<Dep>, free: set<Watcher>)
    requires w.AtRest(all)
    ensures w.Collecting(all) && Tracks(body, Tracked(w, free)) == Collected(body, Held(free))
  {
    assert Elements(w.newDeps) == {};
  }

  lemma SubscribedByReads(w: Watcher, all: set<Dep>, body: seq<Read>, held: map<Watcher, set<Dep>>)
    requires w.AtRest(all) && Elements(w.deps) == Collected(body, held).read
    ensures forall d :: d in all ==> multiset(d.subs)[w] == if exists i :: Brings(body, held, i, d) then 1 else 0
  {
    hide Brings, Collected;
    forall d | d in all ensures d in Elements(w.deps) <==> exists i :: Brings(body, held, i, d) {
      CollectsWhatItReads(body, held, d);
    }
  }

  // Dep.target and its stack.
  class Runtime {
    var target: Watcher?
    var targetStack: seq<Watcher>

    constructor ()
      ensures Valid() && target == null
    {
      target, targetStack := null, [];
    }

    ghost predicate Valid()
      reads this
    {
      target == null ==> targetStack == []
    }

    method PushTarget(w: Watcher)
      requires Valid()
      modifies this
      ensures Valid() && target == w
      ensures targetStack == if old(target) == null then [] else old(targetStack) + [old(target)]
    {
      if target != null {
        targetStack := targetStack + [target];
      }
      target := w;
    }

    // Popping the empty stack leaves no target.
    method PopTarget()
      requires Valid()
      modifies this
      ensures Valid()
      ensures if old(targetStack) == [] then target == null && targetStack == []
              else target == old(targetStack)[|old(targetStack)| - 1] && targetStack == old(targetStack)[..|old(targetStack)| - 1]
    {
      if targetStack == [] {
        target := null;
      } else {
        target, targetStack := targetStack[|targetStack| - 1], targetStack[..|targetStack| - 1];
      }
    }

    // Watcher.get: afterwards w is subscribed once to each dep its getter collected, and to nothing else; so is every
    // watcher evaluated on the way, with what its own getter collected; nobody else's subscriptions changed.
    method Get(w: Watcher, body: seq<Read>, ghost all: set<Dep>, ghost free: set<Watcher>)
      requires Valid() && Universe(all) && w !in free && Fits(body, all, free)
      requires w.AtRest(all) && forall v :: v in free ==> v.AtRest(all)
      modifies this, all, free, w
      ensures Valid() && target == old(target) && targetStack == old(targetStack)
      ensures w.AtRest(all) && Elements(w.deps) == Collected(body, old(Held(free))).read
      ensures (forall v :: v in free ==> v.AtRest(all)) && Held(free) == Collected(body, old(Held(free))).held
      // subscribed to exactly what its own reads brought in
      ensures forall d :: d in all ==>
                multiset(d.subs)[w] == if exists i :: Brings(body, old(Held(free)), i, d) then 1 else 0
      ensures forall d, v :: d in all && v !in free && v != w ==> multiset(d.subs)[v] == old(multiset(d.subs)[v])
      decreases body, 1
    {
      ghost var t := Tracked(w, free);
      StartsEmpty(w, body, all, free);
      hide Tracks, Collected, Watcher.AtRest, Watcher.Collecting, Fits, Universe, Tracked, Held, Elements;
      PushTarget(w);
      Run(w, body, all, free);
      FinishEvaluation(w, all, free, Tracks(body, t));
      SubscribedByReads(w, all, body, old(Held(free)));
    }

    // The end of get.
    method FinishEvaluation(w: Watcher, ghost all: set<Dep>, ghost free: set<Watcher>, ghost t: Tracking)
      requires Universe(all) && w !in free && w.Collecting(all) && (forall v :: v in free ==> v.AtRest(all))
      requires Valid() && Tracked(w, free) == t
      modifies this, all, w
      ensures Valid()
      ensures if old(targetStack) == [] then target == null && targetStack == []
              else target == old(targetStack)[|old(targetStack)| - 1]
                   && targetStack == old(targetStack)[..|old(targetStack)| - 1]
      ensures w.AtRest(all) && Elements(w.deps) == t.read
      ensures (forall v :: v in free ==> v.AtRest(all)) && Held(free) == t.held
      ensures forall d, v :: d in all && v != w ==> multiset(d.subs)[v] == old(multiset(d.subs)[v])
    {
      hide Watcher.AtRest, Watcher.Collecting, Universe;
      PopTarget();
      CleanupBeside(w, all, free);
    }

    // Nobody but w is touched.
    method CleanupBeside(w: Watcher, ghost all: set<Dep>, ghost free: set<Watcher>)
      requires Universe(all) && w !in free && w.Collecting(all) && (forall v :: v in free ==> v.AtRest(all))
      modifies all, w
      ensures w.AtRest(all) && w.deps == old(w.newDeps)
      ensures (forall v :: v in free ==> v.AtRest(all)) && Held(free) == old(Held(free))
      ensures forall d, v :: d in all && v != w ==> multiset(d.subs)[v] == old(multiset(d.subs)[v])
    {
      w.CleanupDeps(all);
      forall v | v in free ensures v.AtRest(all) {
      }
    }

    // dep.depend()
    method Depend(dep: Dep, w: Watcher, ghost all: set<Dep>, ghost free: set<Watcher>)
      requires Valid() && target == w && Universe(all) && w !in free
      requires w.Collecting(all) && forall v :: v in free ==> v.AtRest(all)
      requires dep in all
      modifies w, dep
      ensures w.Collecting(all) && w.deps == old(w.deps) && Elements(w.newDeps) == Elements(old(w.newDeps)) + {dep}
      ensures forall v :: v in free ==> v.AtRest(all)
      ensures forall d, v :: d in all && v != w ==> multiset(d.subs)[v] == old(multiset(d.subs)[v])
    {
      if target != null {
        target.AddDep(dep, all);
      }
      forall v | v in free ensures v.AtRest(all) {
      }
    }

    // watcher.depend()
    method DependOnAll(v: Watcher, w: Watcher, ghost all: set<Dep>, ghost free: set<Watcher>)
      requires Valid() && target == w && Universe(all) && w !in free
      requires w.Collecting(all) && forall v :: v in free ==> v.AtRest(all)
      requires v in free
      modifies w, all
      ensures w.Collecting(all) && w.deps == old(w.deps)
      ensures Elements(w.newDeps) == Elements(old(w.newDeps)) + Elements(v.deps)
      ensures forall u :: u in free ==> u.AtRest(all)
      ensures forall d, u :: d in all && u != w ==> multiset(d.subs)[u] == old(multiset(d.subs)[u])
    {
      hide Watcher.Collecting, Elements;
      Nothing(w.newDeps);
      v.DepsWithin(all);
      var i := |v.deps|;
      assert v.deps[i..] == [] && v.deps[0..] == v.deps;
      while i > 0
        invariant 0 <= i <= |v.deps|
        invariant w.Collecting(all) && w.deps == old(w.deps)
        invariant Elements(w.newDeps) == Elements(old(w.newDeps)) + Elements(v.deps[i..])
        invariant forall u :: u in free ==> u.AtRest(all)
        invariant forall d, u :: d in all && u != w ==> multiset(d.subs)[u] == old(multiset(d.subs)[u])
      {
        i := i - 1;
        var dep := v.deps[i];
        Depend(dep, w, all, free);
        assert v.deps[i..] == [dep] + v.deps[i + 1..];
        Joined([dep], v.deps[i + 1..]);
        Single(dep);
      }
    }

    // The reads of a getter, one after the other.
    method Run(w: Watcher, body: seq<Read>, ghost all: set<Dep>, ghost free: set<Watcher>)
      requires Valid() && target == w && Universe(all) && w !in free
      requires w.Collecting(all) && forall v :: v in free ==> v.AtRest(all)
      requires Fits(body, all, free)
      modifies this, all, free, w
      ensures Valid() && target == w && targetStack == old(targetStack)
      ensures w.Collecting(all) && w.deps == old(w.deps)
      ensures Tracked(w, free) == Tracks(body, old(Tracked(w, free)))
      ensures forall v :: v in free ==> v.AtRest(all)
      ensures forall d, v :: d in all && v !in free && v != w ==> multiset(d.subs)[v] == old(multiset(d.subs)[v])
      decreases body, 0
    {
      ghost var t := Tracked(w, free);
      assert body[..0] == [] && Tracks(body[..0], t) == t;
      hide Watcher.AtRest, Watcher.Collecting, Elements, Tracks, TracksOne, Tracked;
      var i := 0;
      while i < |body|
        invariant i <= |body| && Valid() && target == w && targetStack == old(targetStack)
        invariant w.Collecting(all) && w.deps == old(w.deps)
        invariant Tracked(w, free) == Tracks(body[..i], t)
        invariant forall v :: v in free ==> v.AtRest(all)
        invariant forall d, v :: d in all && v !in free && v != w ==> multiset(d.subs)[v] == old(multiset(d.subs)[v])
      {
        assert FitsOne(body[i], all, free);
        RunOne(w, body[i], all, free);
        OneMore(body, i, t);
        i := i + 1;
      }
      assert body[..|body|] == body;
    }

    method RunOne(w: Watcher, r: Read, ghost all: set<Dep>, ghost free: set<Watcher>)
      requires Valid() && target == w && Universe(all) && w !in free
      requires w.Collecting(all) && forall v :: v in free ==> v.AtRest(all)
      requires FitsOne(r, all, free)
      modifies this, all, free, w
      ensures Valid() && target == w && targetStack == old(targetStack)
      ensures w.Collecting(all) && w.deps == old(w.deps)
      ensures Tracked(w, free) == TracksOne(r, old(Tracked(w, free)))
      ensures forall v :: v in free ==> v.AtRest(all)
      ensures forall d, v :: d in all && v !in free && v != w ==> multiset(d.subs)[v] == old(multiset(d.subs)[v])
      decreases r, 3
    {
      hide Watcher.AtRest, Watcher.Collecting;
      if r.Touch? {
        Depend(r.dep, w, all, free);
        assert Held(free) == old(Held(free));
      } else if r.Evaluate? {
        EvaluateOther(w, r.watcher, r.body, all, free);
      } else {
        DependOnAll(r.watcher, w, all, free);
        assert Held(free) == old(Held(free));
      }
    }

    // watcher.evaluate() inside the getter of w: v then holds what its own getter collects, and w has read nothing.
    method EvaluateOther(w: Watcher, v: Watcher, inner: seq<Read>, ghost all: set<Dep>, ghost free: set<Watcher>)
      requires Valid() && target == w && Universe(all) && w !in free && v in free && Fits(inner, all, free - {v})
      requires w.Collecting(all) && forall u :: u in free ==> u.AtRest(all)
      modifies this, all, free
      ensures Valid() && target == w && targetStack == old(targetStack)
      ensures w.Collecting(all)
      ensures var own := Collected(inner, old(Held(free)) - {v}); Held(free) == own.held[v := own.read]
      ensures forall u :: u in free ==> u.AtRest(all)
      ensures forall d, u :: d in all && u !in free ==> multiset(d.subs)[u] == old(multiset(d.subs)[u])
      decreases inner, 2
    {
      hide Watcher.AtRest, Collected;
      ghost var others := free - {v};
      assert Held(others) == Held(free) - {v};
      Get(v, inner, all, others);
      assert others + {v} == free;
      assert Held(free) == Held(others)[v := Elements(v.deps)];
      // evaluating another watcher does not disturb one in the middle of its own evaluation
      assert w.Collecting(all);
    }

    // A renderer w reads the computed property of v, which has to be evaluated for it: afterwards both are subscribed,
    // once each, to exactly the deps that the computed getter collected.
    method RenderComputed(w: Watcher, v: Watcher, inner: seq<Read>, ghost all: set<Dep>, ghost free: set<Watcher>)
      requires Valid() && Universe(all) && w !in free && v in free && Fits(inner, all, free - {v})
      requires w.AtRest(all) && forall u :: u in free ==> u.AtRest(all)
      modifies this, all, free, w
      ensures forall d :: d in all ==>
                var n := if d in Collected(inner, old(Held(free)) - {v}).read then 1 else 0;
                multiset(d.subs)[v] == n && multiset(d.subs)[w] == n
      // if that getter only reads deps and has others evaluated, to exactly the deps it reads
      ensures (forall i :: 0 <= i < |inner| ==> !inner[i].DependOn?) ==>
                forall d :: d in all ==>
                  multiset(d.subs)[v] == multiset(d.subs)[w] == if Touch(d) in inner then 1 else 0
    {
      var body := [Evaluate(v, inner), DependOn(v)];
      assert FitsOne(body[0], all, free) && FitsOne(body[1], all, free);
      ghost var t := Tracking({}, Held(free));
      assert body == [body[0]] + [body[1]];
      TracksJoined([body[0]], [body[1]], t);
      TracksSingle(body[0], t);
      TracksSingle(body[1], TracksOne(body[0], t));
      Get(w, body, all, free);
      assert v.AtRest(all) && Elements(v.deps) == Held(free)[v];
      forall d | d in all && forall i :: 0 <= i < |inner| ==> !inner[i].DependOn?
        ensures d in Collected(inner, old(Held(free)) - {v}).read <==> Touch(d) in inner
      {
        CollectsDeps(inner, old(Held(free)) - {v}, d);
      }
    }
  }

  lemma Single<T>(x: T)
    ensures Elements([x]) == {x}
  {
  }

  lemma Nothing<T>(s: seq<T>)
    ensures Elements(s) == Elements(s) + Elements<T>([])
  {
  }

  lemma Joined<T>(a: seq<T>, b: seq<T>)
    ensures Elements(a + b) == Elements(a) + Elements(b)
  {
  }
}
