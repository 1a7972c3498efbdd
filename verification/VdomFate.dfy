// How an update of a child list goes on vnodes alone: which old child meets which new one, turn by turn, and when the
// source reads an old child that it has taken out of its list.
module VdomFate {
  import opened Wrappers
  import opened VdomTrees
  import opened VdomDiff

  // Throws: an emptied slot is read. Reuses: an old child that has left the window is patched and moved a second time.
  datatype Fate = Fine | Throws | Reuses

  type Trouble = f: Fate | !f.Fine? witness Throws

  // What a patch returns, unless it breaks.
  datatype Outcome<+T> = Done(value: T) | Broken(fate: Trouble)

  function FateOf<T>(out: Outcome<T>): Fate { if out.Done? then Fine else out.fate }

  // The indices, which old children are left, and the key index once it is built.
  datatype Cursor = Cursor(
    left: seq<bool>,
    oldStart: int,
    oldEnd: int,
    newStart: int,
    newEnd: int,
    index: Option<map<string, nat>>)

  predicate InBounds(c: Cursor, oldCh: seq<VNode>, newCh: seq<VNode>) {
    && |c.left| == |oldCh|
    && 0 <= c.oldStart <= c.oldEnd + 1 <= |oldCh| && 0 <= c.newStart <= c.newEnd + 1 <= |newCh|
    && (c.index.Some? ==> forall k :: k in c.index.value ==> c.index.value[k] < |oldCh|)
  }

  predicate Turning(c: Cursor) { c.oldStart <= c.oldEnd && c.newStart <= c.newEnd }

  function Size(c: Cursor): int { (c.oldEnd - c.oldStart) + (c.newEnd - c.newStart) + 2 }

  // What one turn of the loop does: it passes an emptied slot, patches old child j to new child i, makes a new element,
  // or ends in trouble.
  datatype Turn =
    | Skip(next: Cursor)
    | Use(next: Cursor, j: nat, i: nat)
    | Make(next: Cursor)
    | Stop(fate: Trouble)

  // What the search for an old child finds: nothing to use, an old child that is left, or trouble.
  datatype Lookup = Nothing | Free(idx: nat) | Used(fate: Trouble)

  lemma {:induction false} IndexInBounds(children: seq<VNode>, lo: nat, hi: int)
    requires hi < lo || hi < |children|
    ensures forall k :: k in KeyIndexOf(children, lo, hi) ==>
              var j := KeyIndexOf(children, lo, hi)[k]; lo <= j <= hi && j < |children| && children[j].key == Some(k)
    decreases hi - lo + 1
  {
    if lo <= hi {
      IndexInBounds(children, lo, hi - 1);
    }
  }

  // The index, built on the first use and never updated.
  function Indexed(c: Cursor, oldCh: seq<VNode>): Cursor
    requires 0 <= c.oldStart && c.oldEnd < |oldCh|
  {
    if c.index.Some? then c else c.(index := Some(KeyIndexOf(oldCh, c.oldStart, c.oldEnd)))
  }

  function LookupOf(h: Cursor, oldCh: seq<VNode>, node: VNode): Lookup
    requires |h.left| == |oldCh| && 0 <= h.oldStart <= h.oldEnd < |oldCh| && h.index.Some?
    requires forall k :: k in h.index.value ==> h.index.value[k] < |oldCh|
  {
    if node.key.None? then
      var found := FirstMatch(node, oldCh, h.left, h.oldStart, h.oldEnd);
      if found.Some? then Free(found.value) else Nothing
    else if node.key.value !in h.index.value then Nothing
    else
      var idx := h.index.value[node.key.value];
      if !h.left[idx] then Used(Throws)
      else if h.oldStart <= idx <= h.oldEnd then Free(idx)
      else if SameVnode(oldCh[idx], node) then Used(Reuses)
      else Nothing
  }

  function TurnOf(c: Cursor, oldCh: seq<VNode>, newCh: seq<VNode>): (r: Turn)
    requires InBounds(c, oldCh, newCh) && Turning(c)
    ensures !r.Stop? ==> InBounds(r.next, oldCh, newCh) && Size(r.next) < Size(c)
    ensures r.Use? ==> r.j < |oldCh| && r.i < |newCh|
  {
    var first, last := newCh[c.newStart], newCh[c.newEnd];
    if !c.left[c.oldStart] then Skip(c.(oldStart := c.oldStart + 1))
    else if !c.left[c.oldEnd] then Skip(c.(oldEnd := c.oldEnd - 1))
    else if SameVnode(oldCh[c.oldStart], first) then
      Use(c.(oldStart := c.oldStart + 1, newStart := c.newStart + 1), c.oldStart, c.newStart)
    else if SameVnode(oldCh[c.oldEnd], last) then
      Use(c.(oldEnd := c.oldEnd - 1, newEnd := c.newEnd - 1), c.oldEnd, c.newEnd)
    else if SameVnode(oldCh[c.oldStart], last) then
      Use(c.(oldStart := c.oldStart + 1, newEnd := c.newEnd - 1), c.oldStart, c.newEnd)
    else if SameVnode(oldCh[c.oldEnd], first) then
      Use(c.(oldEnd := c.oldEnd - 1, newStart := c.newStart + 1), c.oldEnd, c.newStart)
    else
      IndexInBounds(oldCh, c.oldStart, c.oldEnd);
      var h := Indexed(c, oldCh);
      var found := LookupOf(h, oldCh, first);
      if found.Used? then Stop(found.fate)
      else if found.Free? then
        FirstMatchMeans(first, oldCh, h.left, h.oldStart, h.oldEnd);
        if SameVnode(oldCh[found.idx], first) then
          Use(h.(left := h.left[found.idx := false], newStart := c.newStart + 1), found.idx, c.newStart)
        else Make(h.(newStart := c.newStart + 1))
      else Make(h.(newStart := c.newStart + 1))
  }

  // How the rest of an update ends, with the patches of its children on the way.
  function RunFate(c: Cursor, oldCh: seq<VNode>, newCh: seq<VNode>): Fate
    requires InBounds(c, oldCh, newCh)
    decreases newCh, Size(c)
  {
    if !Turning(c) then Fine
    else
      match TurnOf(c, oldCh, newCh)
      case Skip(next) => RunFate(next, oldCh, newCh)
      case Make(next) => RunFate(next, oldCh, newCh)
      case Stop(fate) => fate
      case Use(next, j, i) =>
        var fate := PatchFate(oldCh[j], newCh[i]);
        if fate.Fine? then RunFate(next, oldCh, newCh) else fate
  }

  function Beginning(m: nat, n: nat): Cursor { Cursor(seq(m, _ => true), 0, m - 1, 0, n - 1, None) }

  // updateChildren
  function ListFate(oldCh: seq<VNode>, newCh: seq<VNode>): Fate
    decreases newCh, |oldCh| + |newCh| + 1
  {
    RunFate(Beginning(|oldCh|, |newCh|), oldCh, newCh)
  }

  // patchVnode
  function PatchFate(oldVnode: VNode, vnode: VNode): Fate
    decreases vnode, 0
  {
    if vnode.text.None? && oldVnode.children.Present? && vnode.children.Present?
    then ListFate(oldVnode.children.list, vnode.children.list)
    else Fine
  }

  // ---- unique keys ----

  predicate IsLeft(c: Cursor, j: int) { 0 <= j < |c.left| && c.oldStart <= j <= c.oldEnd && c.left[j] }

  // An old child that is used became a new one that is not waiting any more.
  ghost predicate UsedUp(c: Cursor, oldCh: seq<VNode>, newCh: seq<VNode>) {
    forall j :: 0 <= j < |oldCh| && !IsLeft(c, j) ==> exists i :: Became(c, oldCh, newCh, j, i)
  }

  ghost predicate Became(c: Cursor, oldCh: seq<VNode>, newCh: seq<VNode>, j: int, i: int) {
    0 <= i < |newCh| && 0 <= j < |oldCh| && !(c.newStart <= i <= c.newEnd) && SameVnode(oldCh[j], newCh[i])
  }

  ghost predicate IndexByKey(c: Cursor, oldCh: seq<VNode>) {
    c.index.Some? ==>
      forall k :: k in c.index.value ==> c.index.value[k] < |oldCh| && oldCh[c.index.value[k]].key == Some(k)
  }

  // After a turn, j used for i if there was one.
  lemma UsedUpNext(c: Cursor, d: Cursor, oldCh: seq<VNode>, newCh: seq<VNode>, j: int, i: int)
    requires InBounds(c, oldCh, newCh) && UsedUp(c, oldCh, newCh) && |d.left| == |oldCh|
    requires d.newStart >= c.newStart && d.newEnd <= c.newEnd
    requires forall k :: IsLeft(c, k) && k != j ==> IsLeft(d, k)
    requires 0 <= j < |oldCh| ==> IsLeft(d, j) || Became(d, oldCh, newCh, j, i)
    ensures UsedUp(d, oldCh, newCh)
  {
    forall k | 0 <= k < |oldCh| && !IsLeft(d, k) ensures exists i' :: Became(d, oldCh, newCh, k, i') {
      if k == j {
        assert Became(d, oldCh, newCh, k, i);
      } else {
        assert !IsLeft(c, k);
        var i' :| Became(c, oldCh, newCh, k, i');
        assert Became(d, oldCh, newCh, k, i');
      }
    }
  }

  lemma NeverUsed(c: Cursor, oldCh: seq<VNode>, newCh: seq<VNode>)
    requires InBounds(c, oldCh, newCh) && Turning(c) && KeysUnique(newCh) && UsedUp(c, oldCh, newCh)
    requires IndexByKey(c, oldCh) && c.index.Some?
    ensures !LookupOf(c, oldCh, newCh[c.newStart]).Used?
    ensures LookupOf(c, oldCh, newCh[c.newStart]).Free? ==> IsLeft(c, LookupOf(c, oldCh, newCh[c.newStart]).idx)
  {
    var node := newCh[c.newStart];
    FirstMatchMeans(node, oldCh, c.left, c.oldStart, c.oldEnd);
    if node.key.Some? && node.key.value in c.index.value {
      var idx := c.index.value[node.key.value];
      forall i ensures !Became(c, oldCh, newCh, idx, i) {
        assert 0 <= i < |newCh| && i != c.newStart ==> newCh[i].key != node.key;
      }
      assert IsLeft(c, idx);
    }
  }

  lemma TurnKeeps(c: Cursor, oldCh: seq<VNode>, newCh: seq<VNode>)
    requires InBounds(c, oldCh, newCh) && Turning(c) && KeysUnique(newCh)
    requires UsedUp(c, oldCh, newCh) && IndexByKey(c, oldCh)
    ensures var r := TurnOf(c, oldCh, newCh);
            !r.Stop? && UsedUp(r.next, oldCh, newCh) && IndexByKey(r.next, oldCh)
  {
    hide KeyIndexOf, LookupOf, UsedUp, SameVnode, KeysUnique;
    var r := TurnOf(c, oldCh, newCh);
    IndexInBounds(oldCh, c.oldStart, c.oldEnd);
    var h := Indexed(c, oldCh);
    UsedUpNext(c, h, oldCh, newCh, -1, 0);
    NeverUsed(h, oldCh, newCh);
    if r.Use? {
      assert Became(r.next, oldCh, newCh, r.j, r.i);
      UsedUpNext(c, r.next, oldCh, newCh, r.j, r.i);
    } else {
      UsedUpNext(c, r.next, oldCh, newCh, -1, 0);
    }
  }

  lemma {:induction false} RunIsFine(c: Cursor, oldCh: seq<VNode>, newCh: seq<VNode>)
    requires InBounds(c, oldCh, newCh) && KeyedWellAll(newCh) && UsedUp(c, oldCh, newCh) && IndexByKey(c, oldCh)
    ensures RunFate(c, oldCh, newCh) == Fine
    decreases newCh, Size(c)
  {
    if Turning(c) {
      hide UsedUp, IndexByKey, TurnOf;
      TurnKeeps(c, oldCh, newCh);
      var r := TurnOf(c, oldCh, newCh);
      if r.Use? {
        PatchIsFine(oldCh[r.j], newCh[r.i]);
      }
      RunIsFine(r.next, oldCh, newCh);
    }
  }

  // With unique keys on every level, an update neither reads an emptied slot nor uses an old child twice, whatever the
  // old list is.
  lemma {:induction false} ListIsFine(oldCh: seq<VNode>, newCh: seq<VNode>)
    requires KeyedWellAll(newCh)
    ensures ListFate(oldCh, newCh) == Fine
    decreases newCh, |oldCh| + |newCh| + 1
  {
    RunIsFine(Beginning(|oldCh|, |newCh|), oldCh, newCh);
  }

  lemma {:induction false} PatchIsFine(oldVnode: VNode, vnode: VNode)
    requires KeyedWell(vnode)
    ensures PatchFate(oldVnode, vnode) == Fine
    decreases vnode, 0
  {
    if vnode.text.None? && oldVnode.children.Present? && vnode.children.Present? {
      ListIsFine(oldVnode.children.list, vnode.children.list);
    }
  }

  // ---- two equal keys ----

  function Plain(key: string): VNode { VNode(Some(key), Some("x"), false, None, None, Absent) }

  // What matches v and has no children.
  function Bare(v: VNode): VNode { v.(children := Absent, text := if v.tag.Some? then None else v.text) }

  function Longest(vs: seq<VNode>): (n: nat)
    ensures forall i :: 0 <= i < |vs| && vs[i].key.Some? ==> |vs[i].key.value| <= n
  {
    if vs == [] then 0
    else
      var n := Longest(vs[1..]);
      if vs[0].key.Some? && |vs[0].key.value| > n then |vs[0].key.value| else n
  }

  // Neither end of such an old list matches any new child.
  ghost predicate Apart(oldCh: seq<VNode>, newCh: seq<VNode>, key: string) {
    && |oldCh| == 3 && oldCh[0].key.Some? && oldCh[2].key.Some? && oldCh[1].key == Some(key)
    && oldCh[0].key != oldCh[1].key && oldCh[1].key != oldCh[2].key && oldCh[0].key != oldCh[2].key
    && forall i :: 0 <= i < |newCh| ==> newCh[i].key != oldCh[0].key && newCh[i].key != oldCh[2].key
  }

  // The update has come to new child m, with the old child of the key used or not.
  function Reached(oldCh: seq<VNode>, newCh: seq<VNode>, m: nat, used: bool): Cursor
    requires |oldCh| == 3
  {
    Cursor([true, !used, true], 0, 2, m, |newCh| - 1, if m == 0 then None else Some(KeyIndexOf(oldCh, 0, 2)))
  }

  lemma IndexOfThree(oldCh: seq<VNode>, newCh: seq<VNode>, key: string, m: nat, used: bool)
    requires Apart(oldCh, newCh, key) && m < |newCh|
    ensures InBounds(Reached(oldCh, newCh, m, used), oldCh, newCh)
    ensures KeyIndexOf(oldCh, 0, 2) == map[oldCh[0].key.value := 0, key := 1, oldCh[2].key.value := 2]
  {
    assert KeyIndexOf(oldCh, 0, -1) == map[];
    assert KeyIndexOf(oldCh, 0, 0) == map[oldCh[0].key.value := 0];
    assert KeyIndexOf(oldCh, 0, 1) == map[oldCh[0].key.value := 0, key := 1];
  }

  lemma OtherKeyTurn(oldCh: seq<VNode>, newCh: seq<VNode>, key: string, m: nat, used: bool)
    requires Apart(oldCh, newCh, key) && m < |newCh| && newCh[m].key != Some(key)
    ensures InBounds(Reached(oldCh, newCh, m, used), oldCh, newCh)
    ensures TurnOf(Reached(oldCh, newCh, m, used), oldCh, newCh) == Make(Reached(oldCh, newCh, m + 1, used))
  {
    IndexOfThree(oldCh, newCh, key, m, used);
    hide KeyIndexOf;
    FirstMatchMeans(newCh[m], oldCh, [true, !used, true], 0, 2);
    hide FirstMatch;
  }

  lemma KeyTurn(oldCh: seq<VNode>, newCh: seq<VNode>, key: string, m: nat, used: bool)
    requires Apart(oldCh, newCh, key) && m < |newCh| && newCh[m].key == Some(key)
    requires !used ==> SameVnode(oldCh[1], newCh[m])
    ensures InBounds(Reached(oldCh, newCh, m, used), oldCh, newCh)
    ensures TurnOf(Reached(oldCh, newCh, m, used), oldCh, newCh)
         == if used then Stop(Throws) else Use(Reached(oldCh, newCh, m + 1, true), 1, m)
  {
    IndexOfThree(oldCh, newCh, key, m, used);
    hide KeyIndexOf;
    assert [true, true, true][1 := false] == [true, false, true];
  }

  lemma {:induction false} SecondKeyThrows(oldCh: seq<VNode>, newCh: seq<VNode>, key: string, m: nat, j: nat)
    requires Apart(oldCh, newCh, key) && m <= j < |newCh| && newCh[j].key == Some(key)
    ensures InBounds(Reached(oldCh, newCh, m, true), oldCh, newCh)
    ensures RunFate(Reached(oldCh, newCh, m, true), oldCh, newCh) == Throws
    decreases j - m
  {
    if newCh[m].key == Some(key) {
      KeyTurn(oldCh, newCh, key, m, true);
    } else {
      OtherKeyTurn(oldCh, newCh, key, m, true);
      SecondKeyThrows(oldCh, newCh, key, m + 1, j);
    }
  }

  lemma {:induction false} FirstKeyUses(oldCh: seq<VNode>, newCh: seq<VNode>, key: string, m: nat, i: nat, j: nat)
    requires Apart(oldCh, newCh, key) && m <= i < j < |newCh| && newCh[i].key == Some(key) && newCh[j].key == Some(key)
    requires forall k :: 0 <= k < i ==> newCh[k].key != Some(key)
    requires SameVnode(oldCh[1], newCh[i]) && oldCh[1].children.Absent?
    ensures InBounds(Reached(oldCh, newCh, m, false), oldCh, newCh)
    ensures RunFate(Reached(oldCh, newCh, m, false), oldCh, newCh) == Throws
    decreases i - m
  {
    hide TurnOf, KeyIndexOf;
    if m == i {
      KeyTurn(oldCh, newCh, key, m, false);
      SecondKeyThrows(oldCh, newCh, key, m + 1, j);
    } else {
      OtherKeyTurn(oldCh, newCh, key, m, false);
      FirstKeyUses(oldCh, newCh, key, m + 1, i, j);
    }
  }

  // The first child with this key.
  lemma FirstWith(newCh: seq<VNode>, j: nat) returns (i: nat)
    requires j < |newCh|
    ensures i <= j && newCh[i].key == newCh[j].key && forall k :: 0 <= k < i ==> newCh[k].key != newCh[j].key
  {
    i := 0;
    while newCh[i].key != newCh[j].key
      invariant i <= j && forall k :: 0 <= k < i ==> newCh[k].key != newCh[j].key
      decreases j - i
    {
      i := i + 1;
    }
  }

  lemma EqualKeysThrow(newCh: seq<VNode>) returns (oldCh: seq<VNode>)
    requires WellFormedAll(newCh) && !KeysUnique(newCh)
    ensures WellFormedAll(oldCh) && KeysUnique(oldCh) && ListFate(oldCh, newCh) == Throws
  {
    var i0, j :| 0 <= i0 < j < |newCh| && newCh[i0].key.Some? && newCh[i0].key == newCh[j].key;
    var i := FirstWith(newCh, i0);
    var n := Longest(newCh);
    var x, y := seq(n + 1, _ => 'x'), seq(n + 2, _ => 'x');
    oldCh := [Plain(x), Bare(newCh[i]), Plain(y)];
    assert |x| == n + 1 && |y| == n + 2;
    assert WellFormed(newCh[i]);
    var key := newCh[i].key.value;
    assert Apart(oldCh, newCh, key);
    FirstKeyUses(oldCh, newCh, key, 0, i, j);
    assert Beginning(3, |newCh|) == Reached(oldCh, newCh, 0, false);
  }

  // ---- equal keys on a deeper level ----

  // The old list is newCh up to k, with other children for the k-th.
  ghost predicate Twin(oldCh: seq<VNode>, newCh: seq<VNode>, k: nat, inner: seq<VNode>) {
    && k < |newCh| && newCh[k].children.Present? && newCh[k].text.None?
    && oldCh == newCh[..k] + [newCh[k].(children := Present(inner))]
  }

  lemma {:induction false} TwinThrows(oldCh: seq<VNode>, newCh: seq<VNode>, k: nat, inner: seq<VNode>, m: nat)
    requires Twin(oldCh, newCh, k, inner) && m <= k && forall i :: 0 <= i < k ==> KeyedWell(newCh[i])
    requires ListFate(inner, newCh[k].children.list) == Throws
    ensures var c := Beginning(|oldCh|, |newCh|).(oldStart := m, newStart := m);
            InBounds(c, oldCh, newCh) && RunFate(c, oldCh, newCh) == Throws
    decreases k - m
  {
    var c := Beginning(|oldCh|, |newCh|).(oldStart := m, newStart := m);
    assert |oldCh| == k + 1 && SameVnode(oldCh[m], newCh[m]);
    assert TurnOf(c, oldCh, newCh) == Use(c.(oldStart := m + 1, newStart := m + 1), m, m);
    if m < k {
      assert oldCh[m] == newCh[m];
      PatchIsFine(oldCh[m], newCh[m]);
      TwinThrows(oldCh, newCh, k, inner, m + 1);
    } else {
      assert oldCh[k] == newCh[k].(children := Present(inner));
    }
  }

  lemma FirstUnkeyed(newCh: seq<VNode>) returns (k: nat)
    requires !KeyedWellAll(newCh) && KeysUnique(newCh)
    ensures k < |newCh| && !KeyedWell(newCh[k]) && forall i :: 0 <= i < k ==> KeyedWell(newCh[i])
  {
    k := 0;
    while KeyedWell(newCh[k])
      invariant k < |newCh| && (forall i :: 0 <= i < k ==> KeyedWell(newCh[i]))
      invariant exists i :: k <= i < |newCh| && !KeyedWell(newCh[i])
      decreases |newCh| - k
    {
      k := k + 1;
    }
  }

  lemma {:induction false} SomeOldThrows(newCh: seq<VNode>) returns (oldCh: seq<VNode>)
    requires WellFormedAll(newCh) && !KeyedWellAll(newCh)
    ensures WellFormedAll(oldCh) && ListFate(oldCh, newCh) == Throws
    decreases newCh, 1
  {
    if !KeysUnique(newCh) {
      oldCh := EqualKeysThrow(newCh);
    } else {
      var k := FirstUnkeyed(newCh);
      var inner := SomeChildrenThrow(newCh[k]);
      oldCh := newCh[..k] + [newCh[k].(children := Present(inner))];
      forall i | 0 <= i < |oldCh| ensures WellFormed(oldCh[i]) {
        assert i < k ==> oldCh[i] == newCh[i];
        assert i == k ==> oldCh[i].children == Present(inner);
      }
      TwinThrows(oldCh, newCh, k, inner, 0);
    }
  }

  lemma {:induction false} SomeChildrenThrow(v: VNode) returns (inner: seq<VNode>)
    requires WellFormed(v) && !KeyedWell(v)
    ensures v.children.Present? && v.text.None? && v.tag.Some?
    ensures WellFormedAll(inner) && ListFate(inner, v.children.list) == Throws
    decreases v, 0
  {
    inner := SomeOldThrows(v.children.list);
  }

  // Updates to a list are safe from every old list if and only if no two siblings in it share a key, on any level.
  lemma SafeExactlyWithUniqueKeys(newCh: seq<VNode>)
    requires WellFormedAll(newCh)
    ensures (forall oldCh :: WellFormedAll(oldCh) ==> ListFate(oldCh, newCh) != Throws) <==> KeyedWellAll(newCh)
    ensures KeyedWellAll(newCh) ==> forall oldCh :: ListFate(oldCh, newCh) == Fine
  {
    hide ListFate, KeyedWellAll, WellFormedAll;
    if KeyedWellAll(newCh) {
      forall oldCh ensures ListFate(oldCh, newCh) == Fine {
        ListIsFine(oldCh, newCh);
      }
    } else {
      var oldCh := SomeOldThrows(newCh);
      assert WellFormedAll(oldCh) && ListFate(oldCh, newCh) == Throws;
    }
  }

  // The same for a vnode and whatever it replaces.
  lemma SafePatchExactly(v: VNode)
    requires WellFormed(v)
    ensures (forall u :: WellFormed(u) && SameVnode(u, v) ==> PatchFate(u, v) != Throws) <==> KeyedWell(v)
  {
    if KeyedWell(v) {
      forall u ensures PatchFate(u, v) == Fine {
        PatchIsFine(u, v);
      }
    } else {
      var inner := SomeChildrenThrow(v);
      var u := v.(children := Present(inner));
      hide ListFate;
      assert WellFormed(u) && SameVnode(u, v) && PatchFate(u, v) == Throws;
    }
  }

  // x, k, y become k, k, z: the first turn pulls k to the front and empties its slot, and the second one reads it.
  lemma DuplicateKeyThrows()
    ensures ListFate([Plain("x"), Plain("k"), Plain("y")], [Plain("k"), Plain("k"), Plain("z")]) == Throws
  {
    var oldCh, newCh := [Plain("x"), Plain("k"), Plain("y")], [Plain("k"), Plain("k"), Plain("z")];
    assert Apart(oldCh, newCh, "k");
    FirstKeyUses(oldCh, newCh, "k", 0, 0, 1);
    assert Beginning(3, 3) == Reached(oldCh, newCh, 0, false);
  }

  // a, k, b become n, a, k, m, k: n builds the index, a and k are matched in place, and the second k finds the old k in
  // the index although it is behind the window by then.
  lemma OldChildUsedTwice()
    ensures ListFate([Plain("a"), Plain("k"), Plain("b")],
                     [Plain("n"), Plain("a"), Plain("k"), Plain("m"), Plain("k")]) == Reuses
  {
    var oldCh := [Plain("a"), Plain("k"), Plain("b")];
    var newCh := [Plain("n"), Plain("a"), Plain("k"), Plain("m"), Plain("k")];
    var m := map["a" := 0, "k" := 1, "b" := 2];
    assert KeyIndexOf(oldCh, 0, 2) == m by {
      assert KeyIndexOf(oldCh, 0, -1) == map[];
      assert KeyIndexOf(oldCh, 0, 0) == map["a" := 0];
      assert KeyIndexOf(oldCh, 0, 1) == map["a" := 0, "k" := 1];
    }
    hide KeyIndexOf, FirstMatch;
    var c0 := Beginning(3, 5);
    assert c0.left == [true, true, true];
    var c1 := c0.(newStart := 1, index := Some(m));
    var c2 := c1.(oldStart := 1, newStart := 2);
    var c3 := c2.(oldStart := 2, newStart := 3);
    var c4 := c3.(newStart := 4);
    assert TurnOf(c0, oldCh, newCh) == Make(c1);
    assert TurnOf(c1, oldCh, newCh) == Use(c2, 0, 1);
    assert TurnOf(c2, oldCh, newCh) == Use(c3, 1, 2);
    assert TurnOf(c3, oldCh, newCh) == Make(c4);
    assert TurnOf(c4, oldCh, newCh) == Stop(Reuses);
    hide TurnOf;
    assert RunFate(c4, oldCh, newCh) == Reuses;
    assert RunFate(c3, oldCh, newCh) == Reuses;
    assert RunFate(c2, oldCh, newCh) == Reuses;
    assert RunFate(c1, oldCh, newCh) == Reuses;
  }
}
