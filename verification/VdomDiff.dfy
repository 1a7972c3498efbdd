// When two virtual nodes may share a live node, and what the four-index diff knows while it runs.
module VdomDiff {
  import opened Wrappers
  import opened VdomTrees
  import opened VdomRows

  // ---- sameVnode ----

  // What `isDef(data) && isDef(attrs) && attrs.type` evaluates to.
  datatype InputType = Missing | Undefined | Is(name: string)

  function TypeOf(v: VNode): InputType {
    if v.data.None? || v.data.value.attrs.None? then Missing
    else if "type" in v.data.value.attrs.value then Is(v.data.value.attrs.value["type"])
    else Undefined
  }

  predicate IsTextInputType(t: InputType) {
    t.Is? && t.name in ["text", "number", "password", "search", "email", "tel", "url"]
  }

  predicate SameInputType(a: VNode, b: VNode) {
    a.tag != Some("input") || TypeOf(a) == TypeOf(b) || (IsTextInputType(TypeOf(a)) && IsTextInputType(TypeOf(b)))
  }

  predicate SameVnode(a: VNode, b: VNode) {
    && a.key == b.key && a.tag == b.tag && a.isComment == b.isComment
    && a.data.Some? == b.data.Some? && SameInputType(a, b)
  }

  lemma SameVnodeEitherWay(a: VNode, b: VNode)
    ensures SameVnode(a, b) <==> SameVnode(b, a)
  {
  }

  lemma SameKey(a: VNode, b: VNode)
    requires SameVnode(a, b)
    ensures a.key == b.key
  {
  }

  // ---- the old children by key ----

  // The last index of each key between two indices.
  function KeyIndexOf(children: seq<VNode>, lo: nat, hi: int): map<string, nat>
    requires hi < lo || hi < |children|
    decreases hi - lo + 1
  {
    if hi < lo then map[]
    else
      var m := KeyIndexOf(children, lo, hi - 1);
      if children[hi].key.Some? then m[children[hi].key.value := hi] else m
  }

  method CreateKeyToOldIdx(children: seq<VNode>, beginIdx: nat, endIdx: int) returns (m: map<string, nat>)
    requires endIdx < |children|
    ensures m == KeyIndexOf(children, beginIdx, endIdx)
    ensures forall k :: k in m ==> beginIdx <= m[k] <= endIdx && children[m[k]].key == Some(k)
    ensures forall i :: beginIdx <= i <= endIdx && children[i].key.Some? ==>
                          children[i].key.value in m && i <= m[children[i].key.value]
  {
    m := map[];
    var i := beginIdx;
    while i <= endIdx
      invariant beginIdx <= i && (if beginIdx <= endIdx then i <= endIdx + 1 else i == beginIdx)
      invariant m == KeyIndexOf(children, beginIdx, i - 1)
      invariant forall k :: k in m ==> beginIdx <= m[k] < i && m[k] <= endIdx && children[m[k]].key == Some(k)
      invariant forall j :: beginIdx <= j < i && j <= endIdx && children[j].key.Some? ==>
                              children[j].key.value in m && j <= m[children[j].key.value]
    {
      var key := children[i].key;
      if key.Some? {
        m := m[key.value := i];
      }
      i := i + 1;
    }
  }

  // Which old children are left.
  function LeftOf(slots: seq<Option<DomTree>>): (left: seq<bool>)
    ensures |left| == |slots| && forall j :: 0 <= j < |slots| ==> left[j] == slots[j].Some?
  {
    seq(|slots|, j requires 0 <= j < |slots| => slots[j].Some?)
  }

  // The first old child from start on, and before end, that is left and matches.
  function FirstMatch(node: VNode, oldCh: seq<VNode>, left: seq<bool>, start: nat, end: nat): Option<nat>
    requires |left| == |oldCh| && end < |oldCh|
    decreases end - start
  {
    if start >= end then None
    else if left[start] && SameVnode(node, oldCh[start]) then Some(start)
    else FirstMatch(node, oldCh, left, start + 1, end)
  }

  lemma {:induction false} FirstMatchMeans(node: VNode, oldCh: seq<VNode>, left: seq<bool>, start: nat, end: nat)
    requires |left| == |oldCh| && end < |oldCh|
    ensures var found := FirstMatch(node, oldCh, left, start, end);
            if found.Some? then
              && start <= found.value < end && left[found.value] && SameVnode(node, oldCh[found.value])
              && forall j :: start <= j < found.value ==> !(left[j] && SameVnode(node, oldCh[j]))
            else forall j :: start <= j < end ==> !(left[j] && SameVnode(node, oldCh[j]))
    decreases end - start
  {
    if start < end && !(left[start] && SameVnode(node, oldCh[start])) {
      FirstMatchMeans(node, oldCh, left, start + 1, end);
    }
  }

  // The last index is never tried: the diff has already compared it.
  method FindIdxInOld(node: VNode, oldCh: seq<VNode>, slots: seq<Option<DomTree>>, start: nat, end: nat)
    returns (found: Option<nat>)
    requires |slots| == |oldCh| && end < |oldCh|
    ensures found == FirstMatch(node, oldCh, LeftOf(slots), start, end)
  {
    var i := start;
    while i < end
      invariant start <= i && (start <= end ==> i <= end)
      invariant FirstMatch(node, oldCh, LeftOf(slots), start, end) == FirstMatch(node, oldCh, LeftOf(slots), i, end)
    {
      if slots[i].Some? && SameVnode(node, oldCh[i]) {
        return Some(i);
      }
      i := i + 1;
    }
    return None;
  }

  // ---- lists with gaps ----

  function Filled(s: seq<Option<DomTree>>): seq<DomTree> {
    if s == [] then [] else (if s[0].Some? then [s[0].value] else []) + Filled(s[1..])
  }

  lemma NothingFilled()
    ensures Filled([]) == []
  {
  }

  function Head(s: seq<Option<DomTree>>): seq<DomTree>
    requires s != []
  {
    if s[0].Some? then [s[0].value] else []
  }

  lemma FilledStep(s: seq<Option<DomTree>>)
    requires s != []
    ensures Filled(s) == Head(s) + Filled(s[1..])
  {
  }

  lemma Joined(h: seq<DomTree>, u: seq<DomTree>, v: seq<DomTree>)
    ensures h + (u + v) == (h + u) + v
  {
  }

  lemma {:induction false} FilledConcat(a: seq<Option<DomTree>>, b: seq<Option<DomTree>>)
    ensures Filled(a + b) == Filled(a) + Filled(b)
  {
    if a == [] {
      assert a + b == b;
    } else {
      hide Filled;
      FilledConcat(a[1..], b);
      FilledStep(a);
      FilledStep(a + b);
      assert (a + b)[1..] == a[1..] + b;
      Joined(Head(a), Filled(a[1..]), Filled(b));
    }
  }

  lemma {:induction false} FilledAll(s: seq<Option<DomTree>>)
    requires forall i :: 0 <= i < |s| ==> s[i].Some?
    ensures |Filled(s)| == |s| && forall i :: 0 <= i < |s| ==> Filled(s)[i] == s[i].value
  {
    if s != [] {
      FilledAll(s[1..]);
    }
  }

  lemma FilledAt(s: seq<Option<DomTree>>, lo: nat, i: nat, hi: nat)
    requires lo <= i < hi <= |s|
    ensures Filled(s[lo..hi]) == Filled(s[lo..i]) + (if s[i].Some? then [s[i].value] else []) + Filled(s[i + 1..hi])
  {
    FilledConcat(s[lo..i], s[i..hi]);
    assert s[lo..i] + s[i..hi] == s[lo..hi];
    assert s[i..hi][1..] == s[i + 1..hi];
  }

  lemma FilledFrom(s: seq<Option<DomTree>>, i: nat, hi: nat)
    requires i < hi <= |s|
    ensures Filled(s[i..hi]) == (if s[i].Some? then [s[i].value] else []) + Filled(s[i + 1..hi])
  {
    assert s[i..hi][1..] == s[i + 1..hi];
  }

  // ---- the state of the diff ----

  // slots are the old children by position, emptied when one is moved
  // to the left; made are the live trees of new children.
  datatype Diff = Diff(
    slots: seq<Option<DomTree>>,
    made: seq<Option<DomTree>>,
    oldStart: int,
    oldEnd: int,
    newStart: int,
    newEnd: int,
    keyToIdx: Option<map<string, nat>>)

  // What p's children are: the settled ones on both sides of the old ones that are left.
  function Arranged(g: Diff): seq<DomTree>
    requires Windows(g)
  {
    Left(g) + Middle(g) + Right(g)
  }

  function Left(g: Diff): seq<DomTree>
    requires Windows(g)
  {
    Filled(g.made[..g.newStart])
  }

  function Middle(g: Diff): seq<DomTree>
    requires Windows(g)
  {
    Filled(g.slots[g.oldStart..g.oldEnd + 1])
  }

  function Right(g: Diff): seq<DomTree>
    requires Windows(g)
  {
    Filled(g.made[g.newEnd + 1..])
  }

  predicate Windows(g: Diff) {
    && 0 <= g.oldStart <= g.oldEnd + 1 <= |g.slots|
    && 0 <= g.newStart <= g.newEnd + 1 <= |g.made|
  }

  // The old child is still there to be matched.
  predicate Available(g: Diff, j: int) {
    0 <= j < |g.slots| && g.oldStart <= j <= g.oldEnd && g.slots[j].Some?
  }

  // New child i lives in the element of old child j.
  ghost predicate Reuses(g: Diff, oldCh: seq<VNode>, ts: seq<DomTree>, newCh: seq<VNode>, i: int, j: int) {
    && 0 <= i < |newCh| == |g.made| && 0 <= j < |oldCh| == |ts|
    && g.made[i].Some? && g.made[i].value.id == ts[j].id && SameVnode(oldCh[j], newCh[i])
  }

  // The new child is still to be made.
  predicate Waiting(g: Diff, i: int) { g.newStart <= i <= g.newEnd }

  ghost predicate Tracks(g: Diff, oldCh: seq<VNode>, ts: seq<DomTree>, newCh: seq<VNode>, was: set<nat>)
    requires WellFormedAll(newCh)
  {
    && Windows(g) && |g.slots| == |oldCh| == |ts| && |g.made| == |newCh|
    && MadeShown(g, newCh) && SlotsKept(g, ts) && Accounted(g, oldCh, ts, newCh) && Sourced(g, oldCh, ts, newCh, was)
    && Thrifty(g, oldCh, ts, newCh)
    && KeyIndex(g, oldCh) && (KeysUnique(oldCh) && KeysUnique(newCh) ==> KeyedReuse(g, oldCh, ts, newCh))
  }

  // Exactly the new children outside the window are made, and each shows its vnode.
  ghost predicate MadeShown(g: Diff, newCh: seq<VNode>)
    requires WellFormedAll(newCh) && |g.made| == |newCh|
  {
    forall i :: 0 <= i < |newCh| ==>
                  && (g.made[i].Some? <==> !Waiting(g, i))
                  && (g.made[i].Some? ==> Strip(g.made[i].value) == Render(newCh[i]))
  }

  // An available old child is as it was.
  ghost predicate SlotsKept(g: Diff, ts: seq<DomTree>)
    requires |g.slots| == |ts|
  {
    forall j :: Available(g, j) ==> g.slots[j].value == ts[j]
  }

  // Every other old child lives on in a new one.
  ghost predicate Accounted(g: Diff, oldCh: seq<VNode>, ts: seq<DomTree>, newCh: seq<VNode>) {
    forall j :: 0 <= j < |oldCh| && !Available(g, j) ==> exists i :: Reuses(g, oldCh, ts, newCh, i, j)
  }

  // A new child has a new element or that of an old one.
  ghost predicate Sourced(g: Diff, oldCh: seq<VNode>, ts: seq<DomTree>, newCh: seq<VNode>, was: set<nat>) {
    forall i :: 0 <= i < |g.made| && g.made[i].Some? && g.made[i].value.id in was ==>
                  exists j :: Reuses(g, oldCh, ts, newCh, i, j)
  }

  // No new element is made for a child that an old one which is still left could serve.
  ghost predicate Thrifty(g: Diff, oldCh: seq<VNode>, ts: seq<DomTree>, newCh: seq<VNode>)
    requires |g.made| == |newCh| && |g.slots| == |oldCh|
  {
    forall i, j :: 0 <= i < |newCh| && g.made[i].Some? && Available(g, j) && Servable(oldCh, newCh, i, j) ==>
                     exists k :: Reuses(g, oldCh, ts, newCh, i, k)
  }

  // Old child j matches new child i; with keys, only unique ones count.
  predicate Servable(oldCh: seq<VNode>, newCh: seq<VNode>, i: int, j: int) {
    0 <= i < |newCh| && 0 <= j < |oldCh| && (newCh[i].key.None? || KeysUnique(oldCh)) && SameVnode(oldCh[j], newCh[i])
  }

  // The lazily built index, which is never updated.
  ghost predicate KeyIndex(g: Diff, oldCh: seq<VNode>)
    requires |g.slots| == |oldCh|
  {
    g.keyToIdx.Some? ==>
      var m := g.keyToIdx.value;
      && (forall k :: k in m ==> m[k] < |oldCh| && oldCh[m[k]].key == Some(k))
      && (forall j :: Available(g, j) && oldCh[j].key.Some? ==> oldCh[j].key.value in m)
  }

  // A keyed new child lives in the element of the old child with its key, if those two match.
  ghost predicate KeyedReuse(g: Diff, oldCh: seq<VNode>, ts: seq<DomTree>, newCh: seq<VNode>) {
    forall i, j ::
      0 <= i < |newCh| == |g.made| && 0 <= j < |oldCh| == |ts| && newCh[i].key.Some? && SameVnode(oldCh[j], newCh[i]) ==>
        g.made[i].Some? ==> g.made[i].value.id == ts[j].id
  }

  // Key uniqueness keeps the index from pointing at an old child that is already used.
  lemma IndexIsLive(g: Diff, oldCh: seq<VNode>, ts: seq<DomTree>, newCh: seq<VNode>, was: set<nat>, i: nat, j: nat)
    requires WellFormedAll(newCh) && KeysUnique(newCh) && Tracks(g, oldCh, ts, newCh, was)
    requires i < |newCh| && Waiting(g, i) && newCh[i].key.Some? && j < |oldCh| && oldCh[j].key == newCh[i].key
    ensures Available(g, j)
  {
    forall i' ensures !Reuses(g, oldCh, ts, newCh, i', j) {
      assert 0 <= i' < |newCh| && i' != i ==> newCh[i'].key != newCh[i].key;
    }
  }

  // Old child j, patched to t, became new child i; or, without j, t is new.
  ghost predicate Settled(g: Diff, g': Diff, i: nat, j: Option<nat>, t: DomTree) {
    && i < |g.made| && g.made[i].None? && Waiting(g, i) && g'.made == g.made[i := Some(t)]
    && |g'.slots| == |g.slots| && g'.keyToIdx == g.keyToIdx
    && (j.Some? ==> Available(g, j.value))
    && (forall k :: Available(g', k) <==> Available(g, k) && Some(k) != j)
    && (forall k :: Available(g', k) ==> g'.slots[k] == g.slots[k])
    && (forall k :: Waiting(g', k) <==> Waiting(g, k) && k != i)
  }

  lemma SettledAccounted(g: Diff, g': Diff, oldCh: seq<VNode>, ts: seq<DomTree>, newCh: seq<VNode>, i: nat,
                         j: Option<nat>,
                         t: DomTree)
    requires Settled(g, g', i, j, t) && |g.slots| == |oldCh| == |ts| && |g.made| == |newCh|
    requires Accounted(g, oldCh, ts, newCh) && (j.Some? ==> Reuses(g', oldCh, ts, newCh, i, j.value))
    ensures Accounted(g', oldCh, ts, newCh)
  {
    forall k | 0 <= k < |oldCh| && !Available(g', k) ensures exists i' :: Reuses(g', oldCh, ts, newCh, i', k) {
      if Some(k) != j {
        var i' :| Reuses(g, oldCh, ts, newCh, i', k);
        assert Reuses(g', oldCh, ts, newCh, i', k);
      }
    }
  }

  lemma SettledSourced(g: Diff, g': Diff, oldCh: seq<VNode>, ts: seq<DomTree>, newCh: seq<VNode>, was: set<nat>,
                       i: nat, j: Option<nat>, t: DomTree)
    requires Settled(g, g', i, j, t) && |g.slots| == |oldCh| == |ts| && |g.made| == |newCh|
    requires Sourced(g, oldCh, ts, newCh, was)
    requires if j.Some? then Reuses(g', oldCh, ts, newCh, i, j.value) else t.id !in was
    ensures Sourced(g', oldCh, ts, newCh, was)
  {
    forall k | 0 <= k < |g'.made| && g'.made[k].Some? && g'.made[k].value.id in was
      ensures exists j' :: Reuses(g', oldCh, ts, newCh, k, j')
    {
      if k != i {
        var j' :| Reuses(g, oldCh, ts, newCh, k, j');
        assert Reuses(g', oldCh, ts, newCh, k, j');
      }
    }
  }

  lemma SettledThrifty(g: Diff, g': Diff, oldCh: seq<VNode>, ts: seq<DomTree>, newCh: seq<VNode>, i: nat, j: Option<nat>,
                       t: DomTree)
    requires Settled(g, g', i, j, t) && |g.slots| == |oldCh| == |ts| && |g.made| == |newCh|
    requires Thrifty(g, oldCh, ts, newCh)
    requires if j.Some? then Reuses(g', oldCh, ts, newCh, i, j.value)
             else forall k :: Available(g, k) ==> !Servable(oldCh, newCh, i, k)
    ensures Thrifty(g', oldCh, ts, newCh)
  {
    hide SameVnode, KeysUnique;
    forall i', j' | 0 <= i' < |newCh| && g'.made[i'].Some? && Available(g', j') && Servable(oldCh, newCh, i', j')
      ensures exists k :: Reuses(g', oldCh, ts, newCh, i', k)
    {
      if i' != i {
        var k :| Reuses(g, oldCh, ts, newCh, i', k);
        assert Reuses(g', oldCh, ts, newCh, i', k);
      }
    }
  }

  lemma SettledKeyed(g: Diff, g': Diff, oldCh: seq<VNode>, ts: seq<DomTree>, newCh: seq<VNode>, i: nat, j: Option<nat>,
                     t: DomTree)
    requires Settled(g, g', i, j, t) && |g.slots| == |oldCh| == |ts| && |g.made| == |newCh|
    requires KeyedReuse(g, oldCh, ts, newCh)
    requires forall k :: 0 <= k < |oldCh| && newCh[i].key.Some? && SameVnode(oldCh[k], newCh[i]) ==> t.id == ts[k].id
    ensures KeyedReuse(g', oldCh, ts, newCh)
  {
  }

  lemma ReuseTracked(g: Diff, g': Diff, oldCh: seq<VNode>, ts: seq<DomTree>, newCh: seq<VNode>, was: set<nat>,
                     i: nat, j: nat, t: DomTree)
    requires WellFormedAll(newCh) && Tracks(g, oldCh, ts, newCh, was) && Windows(g') && Settled(g, g', i, Some(j), t)
    requires t.id == ts[j].id && Strip(t) == Render(newCh[i]) && SameVnode(oldCh[j], newCh[i])
    ensures Tracks(g', oldCh, ts, newCh, was)
  {
    hide SameVnode, Accounted, Sourced, Thrifty, KeyedReuse, Render, Strip;
    assert Reuses(g', oldCh, ts, newCh, i, j);
    SettledThrifty(g, g', oldCh, ts, newCh, i, Some(j), t);
    SettledAccounted(g, g', oldCh, ts, newCh, i, Some(j), t);
    SettledSourced(g, g', oldCh, ts, newCh, was, i, Some(j), t);
    if KeysUnique(oldCh) && KeysUnique(newCh) {
      forall k | 0 <= k < |oldCh| && newCh[i].key.Some? && SameVnode(oldCh[k], newCh[i]) ensures t.id == ts[k].id {
        SameKey(oldCh[k], newCh[i]);
        SameKey(oldCh[j], newCh[i]);
        assert k == j;
      }
      SettledKeyed(g, g', oldCh, ts, newCh, i, Some(j), t);
    }
  }

  lemma CreateTracked(g: Diff, g': Diff, oldCh: seq<VNode>, ts: seq<DomTree>, newCh: seq<VNode>, was: set<nat>,
                      i: nat, t: DomTree)
    requires WellFormedAll(newCh) && Tracks(g, oldCh, ts, newCh, was) && Windows(g')
    requires Settled(g, g', i, None, t) && t.id !in was && Strip(t) == Render(newCh[i])
    requires forall j :: Available(g, j) ==> !Servable(oldCh, newCh, i, j)
    ensures Tracks(g', oldCh, ts, newCh, was)
  {
    hide Accounted, Sourced, Thrifty, KeyedReuse, Render, Strip;
    SettledThrifty(g, g', oldCh, ts, newCh, i, None, t);
    SettledAccounted(g, g', oldCh, ts, newCh, i, None, t);
    SettledSourced(g, g', oldCh, ts, newCh, was, i, None, t);
    if KeysUnique(oldCh) && KeysUnique(newCh) {
      forall k | 0 <= k < |oldCh| && newCh[i].key.Some? ensures !SameVnode(oldCh[k], newCh[i]) {
        if oldCh[k].key == newCh[i].key {
          IndexIsLive(g, oldCh, ts, newCh, was, i, k);
          assert !Servable(oldCh, newCh, i, k);
        }
      }
      SettledKeyed(g, g', oldCh, ts, newCh, i, None, t);
    }
  }

  // ---- the row, as the indices move ----

  function Before(g: Diff, j: int): seq<DomTree>
    requires Windows(g) && g.oldStart <= j <= g.oldEnd
  {
    Left(g) + Filled(g.slots[g.oldStart..j])
  }

  function After(g: Diff, j: int): seq<DomTree>
    requires Windows(g) && g.oldStart <= j <= g.oldEnd
  {
    Filled(g.slots[j + 1..g.oldEnd + 1]) + Right(g)
  }

  lemma ArrangedAround(g: Diff, j: int)
    requires Windows(g) && Available(g, j)
    ensures Arranged(g) == Before(g, j) + [g.slots[j].value] + After(g, j)
  {
    FilledAt(g.slots, g.oldStart, j, g.oldEnd + 1);
  }

  // The first old child that is left opens the middle.
  lemma MiddleOpens(g: Diff)
    requires Windows(g) && Available(g, g.oldStart)
    ensures Middle(g) == [g.slots[g.oldStart].value] + Filled(g.slots[g.oldStart + 1..g.oldEnd + 1])
  {
    FilledAt(g.slots, g.oldStart, g.oldStart, g.oldEnd + 1);
    assert g.slots[g.oldStart..g.oldStart] == [];
  }

  lemma LeftGrows(g: Diff, g': Diff, t: DomTree)
    requires Windows(g) && Windows(g') && g.newStart <= g.newEnd
    requires g'.made == g.made[g.newStart := Some(t)] && g'.newStart == g.newStart + 1 && g'.newEnd == g.newEnd
    ensures Left(g') == Left(g) + [t] && Right(g') == Right(g)
  {
    var n := g.newStart;
    assert g'.made[..n + 1] == g.made[..n] + [Some(t)];
    FilledConcat(g.made[..n], [Some(t)]);
    assert g'.made[g.newEnd + 1..] == g.made[g.newEnd + 1..];
  }

  lemma RightGrows(g: Diff, g': Diff, t: DomTree)
    requires Windows(g) && Windows(g') && g.newStart <= g.newEnd
    requires g'.made == g.made[g.newEnd := Some(t)] && g'.newStart == g.newStart && g'.newEnd == g.newEnd - 1
    ensures Left(g') == Left(g) && Right(g') == [t] + Right(g)
  {
    var n := g.newEnd;
    assert g'.made[n..] == [Some(t)] + g.made[n + 1..];
    FilledConcat([Some(t)], g.made[n + 1..]);
    assert g'.made[..g.newStart] == g.made[..g.newStart];
  }

  lemma MiddleLoses(g: Diff, g': Diff, j: int)
    requires Windows(g) && Windows(g') && Available(g, j)
    requires g'.slots == g.slots[j := None] && g'.oldStart == g.oldStart && g'.oldEnd == g.oldEnd
    ensures Middle(g') == Filled(g.slots[g.oldStart..j]) + Filled(g.slots[j + 1..g.oldEnd + 1])
  {
    FilledAt(g'.slots, g.oldStart, j, g.oldEnd + 1);
    assert g'.slots[g.oldStart..j] == g.slots[g.oldStart..j];
    assert g'.slots[j + 1..g.oldEnd + 1] == g.slots[j + 1..g.oldEnd + 1];
  }

  lemma ArrangedParts(g: Diff, h: Diff)
    requires Windows(g) && h == g.(keyToIdx := h.keyToIdx)
    ensures Windows(h) && Arranged(h) == Left(g) + Filled(g.slots[g.oldStart..g.oldEnd + 1]) + Right(g) == Arranged(g)
  {
  }

  // Where the patched tree of old child j has to go, branch by branch.

  lemma StaysFirst(g: Diff, g': Diff, t: DomTree)
    requires Windows(g) && Available(g, g.oldStart) && g.newStart <= g.newEnd
    requires g' == g.(made := g.made[g.newStart := Some(t)], oldStart := g.oldStart + 1, newStart := g.newStart + 1)
    ensures Windows(g') && Before(g, g.oldStart) + [t] + After(g, g.oldStart) == Arranged(g')
  {
    LeftGrows(g, g', t);
    assert g.slots[g.oldStart..g.oldStart] == [];
  }

  lemma StaysLast(g: Diff, g': Diff, t: DomTree)
    requires Windows(g) && Available(g, g.oldEnd) && g.newStart <= g.newEnd
    requires g' == g.(made := g.made[g.newEnd := Some(t)], oldEnd := g.oldEnd - 1, newEnd := g.newEnd - 1)
    ensures Windows(g') && Before(g, g.oldEnd) + [t] + After(g, g.oldEnd) == Arranged(g')
  {
    RightGrows(g, g', t);
    assert g.slots[g.oldEnd + 1..g.oldEnd + 1] == [];
  }

  lemma GoesRight(g: Diff, g': Diff, t: DomTree)
    requires Windows(g) && Available(g, g.oldStart) && g.newStart <= g.newEnd
    requires g' == g.(made := g.made[g.newEnd := Some(t)], oldStart := g.oldStart + 1, newEnd := g.newEnd - 1)
    ensures Windows(g') && Before(g, g.oldStart) + After(g, g.oldStart) == (Left(g) + Middle(g')) + Right(g)
    ensures Arranged(g') == (Left(g) + Middle(g')) + [t] + Right(g)
  {
    RightGrows(g, g', t);
    assert g.slots[g.oldStart..g.oldStart] == [];
  }

  lemma GoesLeft(g: Diff, g': Diff, t: DomTree)
    requires Windows(g) && Available(g, g.oldStart) && Available(g, g.oldEnd) && g.oldStart < g.oldEnd
    requires g.newStart <= g.newEnd
    requires g' == g.(made := g.made[g.newStart := Some(t)], oldEnd := g.oldEnd - 1, newStart := g.newStart + 1)
    ensures Windows(g') && Before(g, g.oldEnd) + After(g, g.oldEnd) == Left(g) + (Middle(g') + Right(g))
    ensures Arranged(g') == Left(g) + [t] + (Middle(g') + Right(g))
    ensures First(Middle(g') + Right(g)) == Some(g.slots[g.oldStart].value.id)
  {
    LeftGrows(g, g', t);
    assert g.slots[g.oldEnd + 1..g.oldEnd + 1] == [];
    MiddleOpens(g');
  }

  lemma Regrouped(l: seq<DomTree>, u: seq<DomTree>, v: seq<DomTree>, r: seq<DomTree>)
    ensures (l + u) + (v + r) == l + ((u + v) + r)
  {
  }

  lemma PulledLeft(g: Diff, g': Diff, j: nat, t: DomTree)
    requires Windows(g) && Available(g, g.oldStart) && Available(g, j) && g.oldStart < j && g.newStart <= g.newEnd
    requires g' == g.(slots := g.slots[j := None], made := g.made[g.newStart := Some(t)], newStart := g.newStart + 1)
    ensures Windows(g') && Before(g, j) + After(g, j) == Left(g) + (Middle(g') + Right(g))
    ensures Arranged(g') == Left(g) + [t] + (Middle(g') + Right(g))
    ensures First(Middle(g') + Right(g)) == Some(g.slots[g.oldStart].value.id)
  {
    hide Filled, Left, Right;
    LeftGrows(g, g', t);
    MiddleLoses(g, g', j);
    MiddleOpens(g');
    Regrouped(Left(g), Filled(g.slots[g.oldStart..j]), Filled(g.slots[j + 1..g.oldEnd + 1]), Right(g));
  }

  lemma PutLeft(g: Diff, g': Diff, t: DomTree)
    requires Windows(g) && Available(g, g.oldStart) && g.newStart <= g.newEnd
    requires g' == g.(made := g.made[g.newStart := Some(t)], newStart := g.newStart + 1)
    ensures Windows(g') && Arranged(g) == Left(g) + (Middle(g) + Right(g))
    ensures Arranged(g') == Left(g) + [t] + (Middle(g) + Right(g))
    ensures First(Middle(g) + Right(g)) == Some(g.slots[g.oldStart].value.id)
  {
    LeftGrows(g, g', t);
    MiddleOpens(g);
  }

  lemma SkipFirst(g: Diff, g': Diff)
    requires Windows(g) && g.oldStart <= g.oldEnd && g.slots[g.oldStart].None? && g' == g.(oldStart := g.oldStart + 1)
    ensures Windows(g') && Arranged(g') == Arranged(g) && forall j :: Available(g', j) <==> Available(g, j)
  {
    FilledFrom(g.slots, g.oldStart, g.oldEnd + 1);
  }

  lemma SkipLast(g: Diff, g': Diff)
    requires Windows(g) && g.oldStart <= g.oldEnd && g.slots[g.oldEnd].None? && g' == g.(oldEnd := g.oldEnd - 1)
    ensures Windows(g') && Arranged(g') == Arranged(g) && forall j :: Available(g', j) <==> Available(g, j)
  {
    FilledAt(g.slots, g.oldStart, g.oldEnd, g.oldEnd + 1);
    assert g.slots[g.oldEnd + 1..g.oldEnd + 1] == [];
  }

  // Passing a gap or building the index changes nothing that is tracked.
  lemma SameTracked(g: Diff, g': Diff, oldCh: seq<VNode>, ts: seq<DomTree>, newCh: seq<VNode>, was: set<nat>)
    requires WellFormedAll(newCh) && Tracks(g, oldCh, ts, newCh, was) && Windows(g')
    requires g'.slots == g.slots && g'.made == g.made && g'.newStart == g.newStart && g'.newEnd == g.newEnd
    requires (forall j :: Available(g', j) <==> Available(g, j)) && KeyIndex(g', oldCh)
    ensures Tracks(g', oldCh, ts, newCh, was)
  {
    forall k | 0 <= k < |oldCh| && !Available(g', k) ensures exists i' :: Reuses(g', oldCh, ts, newCh, i', k) {
      var i' :| Reuses(g, oldCh, ts, newCh, i', k);
      assert Reuses(g', oldCh, ts, newCh, i', k);
    }
    forall k | 0 <= k < |g'.made| && g'.made[k].Some? && g'.made[k].value.id in was
      ensures exists j' :: Reuses(g', oldCh, ts, newCh, k, j')
    {
      var j' :| Reuses(g, oldCh, ts, newCh, k, j');
      assert Reuses(g', oldCh, ts, newCh, k, j');
    }
    SameThrifty(g, g', oldCh, ts, newCh);
  }

  lemma SameThrifty(g: Diff, g': Diff, oldCh: seq<VNode>, ts: seq<DomTree>, newCh: seq<VNode>)
    requires |g.made| == |newCh| && |g.slots| == |oldCh| && Thrifty(g, oldCh, ts, newCh)
    requires g'.slots == g.slots && g'.made == g.made && forall j :: Available(g', j) <==> Available(g, j)
    ensures Thrifty(g', oldCh, ts, newCh)
  {
    forall i, j | 0 <= i < |newCh| && g'.made[i].Some? && Available(g', j) && Servable(oldCh, newCh, i, j)
      ensures exists k :: Reuses(g', oldCh, ts, newCh, i, k)
    {
      var k :| Reuses(g, oldCh, ts, newCh, i, k);
      assert Reuses(g', oldCh, ts, newCh, i, k);
    }
  }

  // ---- where the diff starts and ends ----

  function Begin(ts: seq<DomTree>, n: nat): Diff {
    Diff(seq(|ts|, i requires 0 <= i < |ts| => Some(ts[i])), seq(n, _ => None), 0, |ts| - 1, 0, n - 1, None)
  }

  lemma BeginArranged(ts: seq<DomTree>, n: nat)
    ensures Windows(Begin(ts, n)) && Arranged(Begin(ts, n)) == ts
  {
    var g := Begin(ts, n);
    assert g.slots[0..|ts|] == g.slots && g.made[n..] == [] && g.made[..0] == [];
    FilledAll(g.slots);
  }

  lemma BeginTracked(oldCh: seq<VNode>, ts: seq<DomTree>, newCh: seq<VNode>, was: set<nat>)
    requires WellFormedAll(newCh) && |ts| == |oldCh|
    ensures Tracks(Begin(ts, |newCh|), oldCh, ts, newCh, was)
  {
    hide Filled, SameVnode, Render, Strip;
  }

  // New child i lives in the element of old child j.
  ghost predicate LivesOn(oldCh: seq<VNode>, ts: seq<DomTree>, newCh: seq<VNode>, out: seq<DomTree>, i: int, j: int) {
    0 <= i < |newCh| == |out| && 0 <= j < |oldCh| == |ts| && out[i].id == ts[j].id && SameVnode(oldCh[j], newCh[i])
  }

  // A new child lives in a new element or in that of an old child it matches; and with unique keys,
  // if it has the key of an old child that it matches, in that one's. A new element is not made for a
  // child as long as an old child that matches it goes to waste.
  ghost predicate Carried(oldCh: seq<VNode>, ts: seq<DomTree>, newCh: seq<VNode>, out: seq<DomTree>, was: set<nat>) {
    && |out| == |newCh| && |ts| == |oldCh|
    && (forall i :: 0 <= i < |out| && out[i].id in was ==> exists j :: LivesOn(oldCh, ts, newCh, out, i, j))
    && (KeysUnique(oldCh) && KeysUnique(newCh) ==>
          forall i, j :: 0 <= i < |newCh| && 0 <= j < |oldCh| && newCh[i].key.Some? && SameVnode(oldCh[j], newCh[i]) ==>
            out[i].id == ts[j].id)
    && (forall i, j :: Servable(oldCh, newCh, i, j) ==>
          (exists k :: LivesOn(oldCh, ts, newCh, out, i, k)) || exists k :: LivesOn(oldCh, ts, newCh, out, k, j))
  }

  // The list, index by index, once xs fill the gap.
  ghost predicate Completes(g: Diff, xs: seq<DomTree>, out: seq<DomTree>) {
    && |out| == |g.made| && |xs| == g.newEnd - g.newStart + 1
    && (forall i :: 0 <= i < |out| && Waiting(g, i) ==> out[i] == xs[i - g.newStart])
    && (forall i :: 0 <= i < |out| && !Waiting(g, i) ==> g.made[i] == Some(out[i]))
  }

  lemma Completed(g: Diff, newCh: seq<VNode>, xs: seq<DomTree>)
    requires WellFormedAll(newCh) && Windows(g) && |g.made| == |newCh| && MadeShown(g, newCh)
    requires |xs| == g.newEnd - g.newStart + 1
    ensures Completes(g, xs, Left(g) + xs + Right(g))
  {
    assert forall i :: 0 <= i < |g.made| && !Waiting(g, i) ==> g.made[i].Some?;
    hide *;
    CompletesList(g, xs);
  }

  lemma CompletesList(g: Diff, xs: seq<DomTree>)
    requires Windows(g) && |xs| == g.newEnd - g.newStart + 1
    requires forall i :: 0 <= i < |g.made| && !Waiting(g, i) ==> g.made[i].Some?
    ensures Completes(g, xs, Left(g) + xs + Right(g))
  {
    hide Filled;
    FilledAll(g.made[..g.newStart]);
    FilledAll(g.made[g.newEnd + 1..]);
    Concatenated(Left(g), xs, Right(g));
  }

  lemma Concatenated(a: seq<DomTree>, b: seq<DomTree>, c: seq<DomTree>)
    ensures |a + b + c| == |a| + |b| + |c|
    ensures forall i :: 0 <= i < |a| ==> (a + b + c)[i] == a[i]
    ensures forall i :: |a| <= i < |a| + |b| ==> (a + b + c)[i] == b[i - |a|]
    ensures forall i :: |a| + |b| <= i < |a| + |b| + |c| ==> (a + b + c)[i] == c[i - |a| - |b|]
  {
  }

  lemma CompletesMatch(g: Diff, newCh: seq<VNode>, xs: seq<DomTree>, out: seq<DomTree>)
    requires WellFormedAll(newCh) && Windows(g) && |g.made| == |newCh| && MadeShown(g, newCh) && Completes(g, xs, out)
    requires Match(xs, newCh[g.newStart..g.newEnd + 1])
    ensures Match(out, newCh)
  {
    forall i | 0 <= i < |out| ensures Strip(out[i]) == Render(newCh[i]) {
      if Waiting(g, i) {
        assert newCh[g.newStart..g.newEnd + 1][i - g.newStart] == newCh[i];
      } else {
        assert g.made[i].value == out[i];
      }
    }
  }

  lemma CompletesThrifty(g: Diff, oldCh: seq<VNode>, ts: seq<DomTree>, newCh: seq<VNode>, was: set<nat>,
                         xs: seq<DomTree>, out: seq<DomTree>)
    requires WellFormedAll(newCh) && Tracks(g, oldCh, ts, newCh, was) && Completes(g, xs, out)
    requires g.oldStart > g.oldEnd || xs == []
    ensures forall i, j :: Servable(oldCh, newCh, i, j) ==>
              (exists k :: LivesOn(oldCh, ts, newCh, out, i, k)) || exists k :: LivesOn(oldCh, ts, newCh, out, k, j)
  {
    hide Strip, Render, SameVnode, KeysUnique, KeyedReuse, KeyIndex, Sourced;
    forall i, j | Servable(oldCh, newCh, i, j)
      ensures (exists k :: LivesOn(oldCh, ts, newCh, out, i, k)) || exists k :: LivesOn(oldCh, ts, newCh, out, k, j)
    {
      if Available(g, j) {
        assert g.made[i] == Some(out[i]);
        var k :| Reuses(g, oldCh, ts, newCh, i, k);
        assert LivesOn(oldCh, ts, newCh, out, i, k);
      } else {
        var k :| Reuses(g, oldCh, ts, newCh, k, j);
        assert g.made[k] == Some(out[k]);
        assert LivesOn(oldCh, ts, newCh, out, k, j);
      }
    }
  }

  lemma CompletesCarried(g: Diff, oldCh: seq<VNode>, ts: seq<DomTree>, newCh: seq<VNode>, was: set<nat>,
                         xs: seq<DomTree>,
                         out: seq<DomTree>)
    requires WellFormedAll(newCh) && Tracks(g, oldCh, ts, newCh, was) && Completes(g, xs, out)
    requires (g.oldStart > g.oldEnd || xs == []) && forall i :: 0 <= i < |xs| ==> xs[i].id !in was
    ensures Carried(oldCh, ts, newCh, out, was)
  {
    hide Strip, Render, SameVnode, MadeShown;
    CompletesThrifty(g, oldCh, ts, newCh, was, xs, out);
    forall i | 0 <= i < |out| && out[i].id in was ensures exists j :: LivesOn(oldCh, ts, newCh, out, i, j) {
      assert g.made[i] == Some(out[i]);
      var j :| Reuses(g, oldCh, ts, newCh, i, j);
      assert LivesOn(oldCh, ts, newCh, out, i, j);
    }
    if KeysUnique(oldCh) && KeysUnique(newCh) {
      forall i, j | 0 <= i < |newCh| && 0 <= j < |oldCh| && newCh[i].key.Some? && SameVnode(oldCh[j], newCh[i])
        ensures g.made[i] == Some(out[i])
      {
        SameKey(oldCh[j], newCh[i]);
        if Waiting(g, i) {
          IndexIsLive(g, oldCh, ts, newCh, was, i, j);
        }
      }
    }
  }

  lemma Finished(g: Diff, oldCh: seq<VNode>, ts: seq<DomTree>, newCh: seq<VNode>, was: set<nat>, xs: seq<DomTree>)
    requires WellFormedAll(newCh) && Tracks(g, oldCh, ts, newCh, was)
    requires g.oldStart > g.oldEnd || xs == []
    requires Match(xs, newCh[g.newStart..g.newEnd + 1]) && forall i :: 0 <= i < |xs| ==> xs[i].id !in was
    ensures Match(Left(g) + xs + Right(g), newCh) && Carried(oldCh, ts, newCh, Left(g) + xs + Right(g), was)
  {
    hide Left, Right, Strip, Render, Carried, MadeShown, Completes, Accounted, Sourced, Thrifty, KeyedReuse, KeyIndex, SameVnode;
    Completed(g, newCh, xs);
    CompletesMatch(g, newCh, xs, Left(g) + xs + Right(g));
    CompletesCarried(g, oldCh, ts, newCh, was, xs, Left(g) + xs + Right(g));
  }
}
