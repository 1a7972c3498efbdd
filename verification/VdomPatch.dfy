// Patching the live tree of one vnode into that of another: patchVnode and updateChildren.
module VdomPatch {
  import opened Wrappers
  import opened VdomTrees
  import opened VdomDocument
  import opened VdomRows
  import opened VdomCreate
  import opened VdomDiff
  import opened VdomFate
  import opened VdomVisible

  // Takes the old children slots[startIdx..endIdx] that are still there out of the document.
  method RemoveVnodes(doc: Document, parentElm: nat, slots: seq<Option<DomTree>>, startIdx: nat, endIdx: int,
                      ghost d: Shot, ghost a: seq<DomTree>, ghost b: seq<DomTree>, ghost s: set<nat>)
    requires doc.Valid() && startIdx <= endIdx + 1 <= |slots|
    requires RowSince(d, doc.Now(), parentElm, a + Filled(slots[startIdx..endIdx + 1]) + b, s)
    modifies doc
    ensures doc.Valid() && RowSince(d, doc.Now(), parentElm, a + b, s)
  {
    hide Row, IdsOf, HoldsAll, Roots, Forest, ValidDocument, Kept, Grown, RowSince, Detached;
    var i := startIdx;
    while i <= endIdx
      invariant startIdx <= i <= endIdx + 1 && doc.Valid()
      invariant RowSince(d, doc.Now(), parentElm, a + Filled(slots[i..endIdx + 1]) + b, s)
    {
      FilledFrom(slots, i, endIdx + 1);
      ghost var rest := Filled(slots[i + 1..endIdx + 1]);
      if slots[i].Some? {
        ghost var x := slots[i].value;
        assert a + Filled(slots[i..endIdx + 1]) + b == a + [x] + (rest + b);
        ghost var d1, parent1 := doc.Now(), doc.parent;
        RemovedChild(d, d1, parent1, doc.next, parentElm, a, x, rest + b, s);
        doc.RemoveNode(slots[i].value.id);
        assert doc.Now() == d1.(kids := Detached(d1.kids, parent1, x.id));
        assert RowSince(d, doc.Now(), parentElm, a + (rest + b), s);
      } else {
        assert [] + rest == rest;
      }
      assert a + (rest + b) == a + rest + b;
      assert RowSince(d, doc.Now(), parentElm, a + rest + b, s);
      i := i + 1;
    }
    assert a + Filled([]) + b == a + b;
  }

  lemma RemovedChild(d: Shot, d1: Shot, parent: map<nat, nat>, next: nat, p: nat, a: seq<DomTree>, x: DomTree,
                     b: seq<DomTree>,
                     s: set<nat>)
    requires RowSince(d, d1, p, a + [x] + b, s) && ValidDocument(d1.kinds, d1.kids, parent, next)
    ensures RowSince(d, d1.(kids := Detached(d1.kids, parent, x.id)), p, a + b, s)
  {
    hide Row, ValidDocument, Detached, Roots, IdsOf;
    DetachedChild(d1, parent, next, p, a, x, b);
    RowSinceKeys(d, d1, p, a + [x] + b, s);
    RemovedRowSince(d, d1, d1.(kids := d1.kids[p := Roots(a + b)]), p, a, x, b, s);
  }

  // ---- one step of the diff ----

  // The live tree t of the old vnode has become the live tree t' of v, in the same node.
  ghost predicate Patched(d: Shot, d': Shot, v: VNode, t: DomTree, t': DomTree)
    requires WellFormed(v)
  {
    && Strip(t') == Render(v) && Sound(t') && Holds(d', t') && t'.id == t.id
    && Kept(d, d', Ids(t)) && Grown(d, Ids(t'), Ids(t)) && d.kids.Keys <= d'.kids.Keys
  }

  ghost predicate Inputs(oldCh: seq<VNode>, ts: seq<DomTree>, newCh: seq<VNode>) {
    WellFormedAll(oldCh) && WellFormedAll(newCh) && Match(ts, oldCh)
  }

  // The diff of p's children, begun at d, has come this far.
  ghost predicate Diffing(d: Shot, now: Shot, p: nat, oldCh: seq<VNode>, ts: seq<DomTree>, newCh: seq<VNode>, g: Diff) {
    && Inputs(oldCh, ts, newCh) && Tracks(g, oldCh, ts, newCh, d.kids.Keys)
    && RowSince(d, now, p, Arranged(g), IdsOf(ts))
  }

  // The diff without its live trees.
  function CursorOf(g: Diff): Cursor {
    Cursor(LeftOf(g.slots), g.oldStart, g.oldEnd, g.newStart, g.newEnd, g.keyToIdx)
  }

  function Measure(g: Diff): int { (g.oldEnd - g.oldStart) + (g.newEnd - g.newStart) }

  // nodeOps.insertBefore of a child of p, in front of f.
  method Move(doc: Document, p: nat, elm: nat, ref: Option<nat>, ghost x: DomTree, ghost a: seq<DomTree>,
              ghost b: seq<DomTree>,
              ghost e: seq<DomTree>, ghost f: seq<DomTree>, ghost d: Shot, ghost s: set<nat>)
    requires doc.Valid() && RowSince(d, doc.Now(), p, a + [x] + b, s) && elm == x.id
    requires a + b == e + f && ref == First(f)
    modifies doc
    ensures doc.Valid() && RowSince(d, doc.Now(), p, e + [x] + f, s)
  {
    hide Row, IdsOf, HoldsAll, Roots, Forest, ValidDocument, Kept, Grown, Inserted;
    ghost var d1 := doc.Now();
    MoveBefore(d1, doc.parent, doc.next, p, a, x, b, e, f);
    MovedRowSince(d, d1, d1.(kids := d1.kids[p := Roots(e + [x] + f)]), p, x, a + b, a + [x] + b, a, b, e + [x] + f, e,
                  f, s);
    doc.InsertBefore(p, elm, ref);
  }

  lemma ChildOfRow(d: Shot, now: Shot, p: nat, a: seq<DomTree>, x: DomTree, b: seq<DomTree>, s: set<nat>)
    requires RowSince(d, now, p, a + [x] + b, s)
    ensures Sound(x) && Holds(now, x)
  {
    RowAround(now, p, a, x, b);
  }

  lemma MatchFacts(oldCh: seq<VNode>, ts: seq<DomTree>, newCh: seq<VNode>)
    requires Inputs(oldCh, ts, newCh)
    ensures |ts| == |oldCh| && Match([], [])
  {
  }

  // Old child j, still in place, is patched to new child i, unless patching it breaks.
  method PatchSlot(doc: Document, p: nat, oldCh: seq<VNode>, newCh: seq<VNode>, g: Diff, j: nat, i: nat,
                   ghost ts: seq<DomTree>,
                   ghost d: Shot)
    returns (t: Outcome<DomTree>)
    requires doc.Valid() && Diffing(d, doc.Now(), p, oldCh, ts, newCh, g)
    requires Available(g, j) && i < |newCh| && SameVnode(oldCh[j], newCh[i])
    modifies doc
    ensures doc.Valid() && FateOf(t) == PatchFate(oldCh[j], newCh[i])
    ensures t.Done? ==> RowSince(d, doc.Now(), p, Before(g, j) + [t.value] + After(g, j), IdsOf(ts))
    ensures t.Done? ==> t.value.id == ts[j].id && Strip(t.value) == Render(newCh[i])
    decreases newCh, 0
  {
    hide Row, IdsOf, HoldsAll, Roots, Forest, ValidDocument, Kept, Grown, RowSince, Arranged, Before, After, Render;
    hide Strip, SameVnode, PatchFate;
    ghost var d1 := doc.Now();
    var x := g.slots[j].value;
    ArrangedAround(g, j);
    ChildOfRow(d, d1, p, Before(g, j), x, After(g, j), IdsOf(ts));
    t := PatchVnode(doc, oldCh[j], x, newCh[i]);
    if t.Done? {
      PatchedRowSince(d, d1, doc.Now(), p, Before(g, j), x, After(g, j), t.value, IdsOf(ts));
    }
  }

  lemma Bounds(d: Shot, now: Shot, p: nat, oldCh: seq<VNode>, ts: seq<DomTree>, newCh: seq<VNode>, g: Diff)
    requires Diffing(d, now, p, oldCh, ts, newCh, g)
    ensures Windows(g) && |g.slots| == |oldCh| == |ts| && |g.made| == |newCh|
    ensures forall i :: 0 <= i < |newCh| ==> (g.made[i].None? <==> Waiting(g, i))
    ensures forall j :: Available(g, j) ==> g.slots[j].value == ts[j]
    ensures KeyIndex(g, oldCh) && InBounds(CursorOf(g), oldCh, newCh)
  {
    assert forall i :: 0 <= i < |newCh| ==> (g.made[i].Some? <==> !Waiting(g, i));
  }

  // ---- the branches of the loop ----

  // Both first children match: it stays where it is.
  method PatchStart(doc: Document, p: nat, oldCh: seq<VNode>, newCh: seq<VNode>, g: Diff, ghost ts: seq<DomTree>,
                    ghost d: Shot)
    returns (g': Outcome<Diff>)
    requires doc.Valid() && Diffing(d, doc.Now(), p, oldCh, ts, newCh, g) && g.newStart <= g.newEnd
    requires Available(g, g.oldStart) && SameVnode(oldCh[g.oldStart], newCh[g.newStart])
    modifies doc
    ensures doc.Valid() && FateOf(g') == PatchFate(oldCh[g.oldStart], newCh[g.newStart])
    ensures g'.Done? ==> CursorOf(g'.value) == CursorOf(g).(oldStart := g.oldStart + 1, newStart := g.newStart + 1)
    ensures g'.Done? ==> Diffing(d, doc.Now(), p, oldCh, ts, newCh, g'.value) && Measure(g'.value) < Measure(g)
    decreases newCh, 1
  {
    hide Row, IdsOf, HoldsAll, Roots, Forest, ValidDocument, Kept, Grown, RowSince, Arranged, Before, After, Left;
    hide Middle, Right;
    hide Render, Strip, SameVnode, Tracks, Filled, Match, KeysUnique, PatchFate;
    Bounds(d, doc.Now(), p, oldCh, ts, newCh, g);
    var patched := PatchSlot(doc, p, oldCh, newCh, g, g.oldStart, g.newStart, ts, d);
    if patched.Broken? {
      return Broken(patched.fate);
    }
    var t := patched.value;
    var next := g.(made := g.made[g.newStart := Some(t)], oldStart := g.oldStart + 1, newStart := g.newStart + 1);
    StaysFirst(g, next, t);
    ReuseTracked(g, next, oldCh, ts, newCh, d.kids.Keys, g.newStart, g.oldStart, t);
    g' := Done(next);
  }

  // Both last children match.
  method PatchEnd(doc: Document, p: nat, oldCh: seq<VNode>, newCh: seq<VNode>, g: Diff, ghost ts: seq<DomTree>,
                  ghost d: Shot)
    returns (g': Outcome<Diff>)
    requires doc.Valid() && Diffing(d, doc.Now(), p, oldCh, ts, newCh, g) && g.newStart <= g.newEnd
    requires Available(g, g.oldEnd) && SameVnode(oldCh[g.oldEnd], newCh[g.newEnd])
    modifies doc
    ensures doc.Valid() && FateOf(g') == PatchFate(oldCh[g.oldEnd], newCh[g.newEnd])
    ensures g'.Done? ==> CursorOf(g'.value) == CursorOf(g).(oldEnd := g.oldEnd - 1, newEnd := g.newEnd - 1)
    ensures g'.Done? ==> Diffing(d, doc.Now(), p, oldCh, ts, newCh, g'.value) && Measure(g'.value) < Measure(g)
    decreases newCh, 1
  {
    hide Row, IdsOf, HoldsAll, Roots, Forest, ValidDocument, Kept, Grown, RowSince, Arranged, Before, After, Left;
    hide Middle, Right;
    hide Render, Strip, SameVnode, Tracks, Filled, Match, KeysUnique, PatchFate;
    Bounds(d, doc.Now(), p, oldCh, ts, newCh, g);
    var patched := PatchSlot(doc, p, oldCh, newCh, g, g.oldEnd, g.newEnd, ts, d);
    if patched.Broken? {
      return Broken(patched.fate);
    }
    var t := patched.value;
    var next := g.(made := g.made[g.newEnd := Some(t)], oldEnd := g.oldEnd - 1, newEnd := g.newEnd - 1);
    StaysLast(g, next, t);
    ReuseTracked(g, next, oldCh, ts, newCh, d.kids.Keys, g.newEnd, g.oldEnd, t);
    g' := Done(next);
  }

  // The first old child is the last new one: it moves behind the last old one.
  method MoveRight(doc: Document, p: nat, oldCh: seq<VNode>, newCh: seq<VNode>, g: Diff, ghost ts: seq<DomTree>,
                   ghost d: Shot)
    returns (g': Outcome<Diff>)
    requires doc.Valid() && Diffing(d, doc.Now(), p, oldCh, ts, newCh, g) && g.newStart <= g.newEnd
    requires Available(g, g.oldStart) && Available(g, g.oldEnd) && SameVnode(oldCh[g.oldStart], newCh[g.newEnd])
    modifies doc
    ensures doc.Valid() && FateOf(g') == PatchFate(oldCh[g.oldStart], newCh[g.newEnd])
    ensures g'.Done? ==> CursorOf(g'.value) == CursorOf(g).(oldStart := g.oldStart + 1, newEnd := g.newEnd - 1)
    ensures g'.Done? ==> Diffing(d, doc.Now(), p, oldCh, ts, newCh, g'.value) && Measure(g'.value) < Measure(g)
    decreases newCh, 1
  {
    hide Row, IdsOf, HoldsAll, Roots, Forest, ValidDocument, Kept, Grown, RowSince, Arranged, Before, After, Left;
    hide Middle, Right;
    hide Render, Strip, SameVnode, Tracks, Filled, Match, KeysUnique, PatchFate;
    Bounds(d, doc.Now(), p, oldCh, ts, newCh, g);
    var patched := PatchSlot(doc, p, oldCh, newCh, g, g.oldStart, g.newEnd, ts, d);
    if patched.Broken? {
      return Broken(patched.fate);
    }
    var t := patched.value;
    var next := g.(made := g.made[g.newEnd := Some(t)], oldStart := g.oldStart + 1, newEnd := g.newEnd - 1);
    GoesRight(g, next, t);
    ghost var at := BehindLast(d, doc.Now(), doc.parent, doc.next, p, g, t, IdsOf(ts));
    var ref := doc.NextSibling(g.slots[g.oldEnd].value.id);
    assert doc.kids[doc.parent[g.slots[g.oldEnd].value.id]][at] == g.slots[g.oldEnd].value.id;
    assert ref == Following(doc.kids[p], at);
    Move(doc, p, g.slots[g.oldStart].value.id, ref, t, Before(g, g.oldStart), After(g, g.oldStart),
         Left(g) + Middle(next), Right(g), d, IdsOf(ts));
    ReuseTracked(g, next, oldCh, ts, newCh, d.kids.Keys, g.newEnd, g.oldStart, t);
    g' := Done(next);
  }

  // The last old child is the first new one: it moves in front of the first old one.
  method MoveLeft(doc: Document, p: nat, oldCh: seq<VNode>, newCh: seq<VNode>, g: Diff, ghost ts: seq<DomTree>,
                  ghost d: Shot)
    returns (g': Outcome<Diff>)
    requires doc.Valid() && Diffing(d, doc.Now(), p, oldCh, ts, newCh, g) && g.newStart <= g.newEnd
    requires Available(g, g.oldStart) && Available(g, g.oldEnd) && g.oldStart < g.oldEnd
    requires SameVnode(oldCh[g.oldEnd], newCh[g.newStart])
    modifies doc
    ensures doc.Valid() && FateOf(g') == PatchFate(oldCh[g.oldEnd], newCh[g.newStart])
    ensures g'.Done? ==> CursorOf(g'.value) == CursorOf(g).(oldEnd := g.oldEnd - 1, newStart := g.newStart + 1)
    ensures g'.Done? ==> Diffing(d, doc.Now(), p, oldCh, ts, newCh, g'.value) && Measure(g'.value) < Measure(g)
    decreases newCh, 1
  {
    hide Row, IdsOf, HoldsAll, Roots, Forest, ValidDocument, Kept, Grown, RowSince, Arranged, Before, After, Left;
    hide Middle, Right;
    hide Render, Strip, SameVnode, Tracks, Filled, Match, KeysUnique, PatchFate;
    Bounds(d, doc.Now(), p, oldCh, ts, newCh, g);
    var patched := PatchSlot(doc, p, oldCh, newCh, g, g.oldEnd, g.newStart, ts, d);
    if patched.Broken? {
      return Broken(patched.fate);
    }
    var t := patched.value;
    var next := g.(made := g.made[g.newStart := Some(t)], oldEnd := g.oldEnd - 1, newStart := g.newStart + 1);
    GoesLeft(g, next, t);
    Move(doc, p, g.slots[g.oldEnd].value.id, Some(g.slots[g.oldStart].value.id), t, Before(g, g.oldEnd),
         After(g, g.oldEnd),
         Left(g), Middle(next) + Right(g), d, IdsOf(ts));
    ReuseTracked(g, next, oldCh, ts, newCh, d.kids.Keys, g.newStart, g.oldEnd, t);
    g' := Done(next);
  }

  // Old child j is the first new one: its slot is emptied and it moves in front of the first old one.
  method PullLeft(doc: Document, p: nat, oldCh: seq<VNode>, newCh: seq<VNode>, g: Diff, j: nat, ghost ts: seq<DomTree>,
                  ghost d: Shot)
    returns (g': Outcome<Diff>)
    requires doc.Valid() && Diffing(d, doc.Now(), p, oldCh, ts, newCh, g) && g.newStart <= g.newEnd
    requires Available(g, g.oldStart) && Available(g, j) && g.oldStart < j && SameVnode(oldCh[j], newCh[g.newStart])
    modifies doc
    ensures doc.Valid() && FateOf(g') == PatchFate(oldCh[j], newCh[g.newStart])
    ensures g'.Done? ==> CursorOf(g'.value) == CursorOf(g).(left := LeftOf(g.slots)[j := false], newStart := g.newStart + 1)
    ensures g'.Done? ==> Diffing(d, doc.Now(), p, oldCh, ts, newCh, g'.value) && Measure(g'.value) < Measure(g)
    decreases newCh, 1
  {
    hide Row, IdsOf, HoldsAll, Roots, Forest, ValidDocument, Kept, Grown, RowSince, Arranged, Before, After, Left;
    hide Middle, Right;
    hide Render, Strip, SameVnode, Tracks, Filled, Match, KeysUnique, PatchFate;
    Bounds(d, doc.Now(), p, oldCh, ts, newCh, g);
    var patched := PatchSlot(doc, p, oldCh, newCh, g, j, g.newStart, ts, d);
    if patched.Broken? {
      return Broken(patched.fate);
    }
    var t := patched.value;
    var next := g.(slots := g.slots[j := None], made := g.made[g.newStart := Some(t)], newStart := g.newStart + 1);
    PulledLeft(g, next, j, t);
    Move(doc, p, g.slots[j].value.id, Some(g.slots[g.oldStart].value.id), t, Before(g, j), After(g, j),
         Left(g), Middle(next) + Right(g), d, IdsOf(ts));
    ReuseTracked(g, next, oldCh, ts, newCh, d.kids.Keys, g.newStart, j, t);
    assert LeftOf(next.slots) == LeftOf(g.slots)[j := false];
    g' := Done(next);
  }

  // No old child will do: a new element, in front of the first old one.
  method CreateStart(doc: Document, p: nat, oldCh: seq<VNode>, newCh: seq<VNode>, g: Diff, ghost ts: seq<DomTree>,
                     ghost d: Shot)
    returns (g': Diff)
    requires doc.Valid() && Diffing(d, doc.Now(), p, oldCh, ts, newCh, g) && g.newStart <= g.newEnd
    requires Available(g, g.oldStart)
    requires forall j :: Available(g, j) ==> !Servable(oldCh, newCh, g.newStart, j)
    modifies doc
    ensures doc.Valid() && Diffing(d, doc.Now(), p, oldCh, ts, newCh, g') && Measure(g') < Measure(g)
    ensures CursorOf(g') == CursorOf(g).(newStart := g.newStart + 1)
    decreases newCh, 1
  {
    hide Row, IdsOf, HoldsAll, Roots, Forest, ValidDocument, Kept, Grown, RowSince, Arranged, Before, After, Left;
    hide Middle, Right;
    hide Render, Strip, SameVnode, Tracks, Filled, Match, KeysUnique;
    ghost var d1, parent1, next1 := doc.Now(), doc.parent, doc.next;
    Bounds(d, d1, p, oldCh, ts, newCh, g);
    ghost var t0 := g.slots[g.oldStart].value;
    PutLeft(g, g.(made := g.made[g.newStart := Some(t0)], newStart := g.newStart + 1), t0);
    ReferenceIsThere(d, d1, p, Left(g), Middle(g) + Right(g), IdsOf(ts));
    var t := CreateElm(doc, newCh[g.newStart], Some(p), Some(g.slots[g.oldStart].value.id));
    ChildBuilt(d, d1, parent1, next1, doc.Now(), p, newCh[g.newStart], Left(g), Middle(g) + Right(g), t, IdsOf(ts));
    BuiltInside(d1, doc.Now(), p, newCh[g.newStart], t);
    g' := g.(made := g.made[g.newStart := Some(t)], newStart := g.newStart + 1);
    PutLeft(g, g', t);
    RowSinceKeys(d, d1, p, Arranged(g), IdsOf(ts));
    CreateTracked(g, g', oldCh, ts, newCh, d.kids.Keys, g.newStart, t);
  }

  lemma SiblingInRow(d: Shot, now: Shot, parent: map<nat, nat>, next: nat, p: nat, a: seq<DomTree>, x: DomTree,
                     f: seq<DomTree>,
                     s: set<nat>)
    requires RowSince(d, now, p, a + [x] + f, s) && ValidDocument(now.kinds, now.kids, parent, next)
    ensures x.id in parent && parent[x.id] == p && p in now.kids && |now.kids[p]| == |a| + 1 + |f|
    ensures now.kids[p][|a|] == x.id
    ensures First(f) == Following(now.kids[p], |a|)
  {
    DetachedChild(now, parent, next, p, a, x, f);
    assert (a + [x] + f)[|a|] == x;
  }

  // The sibling behind the last old child that is left is the first settled one on the right.
  lemma BehindLast(d: Shot, now: Shot, parent: map<nat, nat>, next: nat, p: nat, g: Diff, t: DomTree,
                   s: set<nat>) returns (i: nat)
    requires Windows(g) && Available(g, g.oldStart) && Available(g, g.oldEnd) && t.id == g.slots[g.oldStart].value.id
    requires RowSince(d, now, p, Before(g, g.oldStart) + [t] + After(g, g.oldStart), s)
    requires ValidDocument(now.kinds, now.kids, parent, next)
    ensures var e := g.slots[g.oldEnd].value.id;
            && e in parent && parent[e] == p && p in now.kids && i < |now.kids[p]| && now.kids[p][i] == e
            && First(Right(g)) == Following(now.kids[p], i)
  {
    hide RowSince, ValidDocument, Left, Right, Filled;
    NothingFilled();
    assert g.slots[g.oldStart..g.oldStart] == [];
    var now' := Before(g, g.oldStart) + [t] + After(g, g.oldStart);
    if g.oldStart == g.oldEnd {
      assert g.slots[g.oldStart + 1..g.oldEnd + 1] == [];
      assert now' == Left(g) + [t] + Right(g);
      i := |Left(g)|;
      SiblingInRow(d, now, parent, next, p, Left(g), t, Right(g), s);
    } else {
      var u := Filled(g.slots[g.oldStart + 1..g.oldEnd]);
      FilledAt(g.slots, g.oldStart + 1, g.oldEnd, g.oldEnd + 1);
      assert g.slots[g.oldEnd + 1..g.oldEnd + 1] == [];
      assert now' == (Left(g) + [t] + u) + [g.slots[g.oldEnd].value] + Right(g);
      i := |Left(g) + [t] + u|;
      SiblingInRow(d, now, parent, next, p, Left(g) + [t] + u, g.slots[g.oldEnd].value, Right(g), s);
    }
  }

  // Looks for an old child to use for the first new one: by key, or else by comparing with each.
  method FindOld(oldCh: seq<VNode>, newCh: seq<VNode>, g: Diff, ghost ts: seq<DomTree>, ghost was: set<nat>)
    returns (g': Diff, found: Lookup)
    requires Inputs(oldCh, ts, newCh) && Tracks(g, oldCh, ts, newCh, was)
    requires g.newStart <= g.newEnd && Available(g, g.oldStart) && !SameVnode(oldCh[g.oldStart], newCh[g.newStart])
    ensures Tracks(g', oldCh, ts, newCh, was) && g' == g.(keyToIdx := g'.keyToIdx)
    ensures CursorOf(g') == Indexed(CursorOf(g), oldCh) && InBounds(CursorOf(g'), oldCh, newCh)
    ensures found == LookupOf(CursorOf(g'), oldCh, newCh[g.newStart])
    ensures found.Free? ==>
              && Available(g, found.idx)
              && (SameVnode(oldCh[found.idx], newCh[g.newStart]) ==> found.idx > g.oldStart)
    ensures found.Used? ==> !KeysUnique(newCh)
    ensures newCh[g.newStart].key.Some? && KeysUnique(oldCh) ==>
              forall j :: Available(g, j) && SameVnode(oldCh[j], newCh[g.newStart]) ==> found == Free(j)
    ensures newCh[g.newStart].key.None? && found.Nothing? ==>
              forall j :: Available(g, j) && j < g.oldEnd ==> !SameVnode(oldCh[j], newCh[g.newStart])
    ensures newCh[g.newStart].key.None? && found.Free? ==> SameVnode(oldCh[found.idx], newCh[g.newStart])
  {
    hide Filled, Render, Strip, WellFormed, Accounted, Sourced, KeyedReuse, KeyIndexOf, FirstMatch;
    g' := BuildIndex(oldCh, newCh, g, ts, was);
    var newStartVnode := newCh[g.newStart];
    if newStartVnode.key.Some? {
      found := FindByKey(oldCh, newStartVnode, g');
      hide LookupOf;
      if found.Used? && KeysUnique(newCh) {
        IndexIsLive(g', oldCh, ts, newCh, was, g.newStart, g'.keyToIdx.value[newStartVnode.key.value]);
      }
    } else {
      var idx := FindIdxInOld(newStartVnode, oldCh, g.slots, g.oldStart, g.oldEnd);
      FirstMatchMeans(newStartVnode, oldCh, LeftOf(g.slots), g.oldStart, g.oldEnd);
      forall j | 0 <= j < |oldCh| ensures SameVnode(oldCh[j], newStartVnode) <==> SameVnode(newStartVnode, oldCh[j]) {
        SameVnodeEitherWay(oldCh[j], newStartVnode);
      }
      found := if idx.Some? then Free(idx.value) else Nothing;
    }
  }

  method BuildIndex(oldCh: seq<VNode>, newCh: seq<VNode>, g: Diff, ghost ts: seq<DomTree>, ghost was: set<nat>)
    returns (g': Diff)
    requires Inputs(oldCh, ts, newCh) && Tracks(g, oldCh, ts, newCh, was) && Available(g, g.oldStart)
    ensures Tracks(g', oldCh, ts, newCh, was) && g' == g.(keyToIdx := g'.keyToIdx)
    ensures CursorOf(g') == Indexed(CursorOf(g), oldCh) && InBounds(CursorOf(g'), oldCh, newCh)
  {
    hide Filled, Render, Strip, WellFormed, Accounted, Sourced, KeyedReuse;
    g' := g;
    if g.keyToIdx.None? {
      var m := CreateKeyToOldIdx(oldCh, g.oldStart, g.oldEnd);
      g' := g.(keyToIdx := Some(m));
      SameTracked(g, g', oldCh, ts, newCh, was);
    }
  }

  // oldKeyToIdx[key], and what stands at that index now.
  method FindByKey(oldCh: seq<VNode>, newStartVnode: VNode, g: Diff) returns (found: Lookup)
    requires newStartVnode.key.Some? && g.keyToIdx.Some? && |g.slots| == |oldCh| && KeyIndex(g, oldCh)
    requires 0 <= g.oldStart <= g.oldEnd < |oldCh|
    ensures found == LookupOf(CursorOf(g), oldCh, newStartVnode)
    ensures found.Free? ==> Available(g, found.idx)
    ensures found.Used? ==> newStartVnode.key.value in g.keyToIdx.value
    ensures newStartVnode.key.value in g.keyToIdx.value ==>
              var idx := g.keyToIdx.value[newStartVnode.key.value];
              if Available(g, idx) then found == Free(idx) else !found.Free?
    ensures newStartVnode.key.value !in g.keyToIdx.value ==> found == Nothing
  {
    hide SameVnode;
    var key := newStartVnode.key.value;
    if key !in g.keyToIdx.value {
      return Nothing;
    }
    var idx := g.keyToIdx.value[key];
    if g.slots[idx].None? {
      return Used(Throws);
    }
    if g.oldStart <= idx <= g.oldEnd {
      return Free(idx);
    }
    found := if SameVnode(oldCh[idx], newStartVnode) then Used(Reuses) else Nothing;
  }

  // The diff did, or ended in, what this turn of the loop does.
  ghost predicate Turned(g: Diff, out: Outcome<Diff>, oldCh: seq<VNode>, newCh: seq<VNode>) {
    && InBounds(CursorOf(g), oldCh, newCh) && Turning(CursorOf(g))
    && var r := TurnOf(CursorOf(g), oldCh, newCh);
       if r.Stop? then out == Broken(r.fate)
       else
         && (out.Done? ==> CursorOf(out.value) == r.next)
         && FateOf(out) == if r.Use? then PatchFate(oldCh[r.j], newCh[r.i]) else Fine
  }

  // How an update that has come to g ends is decided by how this turn ends, and then by how the rest ends.
  ghost predicate Follows(g: Diff, out: Outcome<Diff>, oldCh: seq<VNode>, newCh: seq<VNode>) {
    && InBounds(CursorOf(g), oldCh, newCh)
    && (out.Done? ==>
          InBounds(CursorOf(out.value), oldCh, newCh)
          && RunFate(CursorOf(g), oldCh, newCh) == RunFate(CursorOf(out.value), oldCh, newCh))
    && (out.Broken? ==> RunFate(CursorOf(g), oldCh, newCh) == out.fate)
  }

  lemma TurnFollows(g: Diff, out: Outcome<Diff>, oldCh: seq<VNode>, newCh: seq<VNode>)
    requires Turned(g, out, oldCh, newCh)
    ensures Follows(g, out, oldCh, newCh)
  {
    hide TurnOf, PatchFate;
  }

  // The last branch of the loop.
  method PlaceStart(doc: Document, p: nat, oldCh: seq<VNode>, newCh: seq<VNode>, g: Diff, ghost ts: seq<DomTree>,
                    ghost d: Shot)
    returns (g': Outcome<Diff>)
    requires doc.Valid() && Diffing(d, doc.Now(), p, oldCh, ts, newCh, g)
    requires g.newStart <= g.newEnd && Available(g, g.oldStart) && Available(g, g.oldEnd)
    requires !SameVnode(oldCh[g.oldStart], newCh[g.newStart]) && !SameVnode(oldCh[g.oldEnd], newCh[g.newEnd])
    requires !SameVnode(oldCh[g.oldStart], newCh[g.newEnd]) && !SameVnode(oldCh[g.oldEnd], newCh[g.newStart])
    modifies doc
    ensures doc.Valid() && Turned(g, g', oldCh, newCh)
    ensures g'.Done? ==> Diffing(d, doc.Now(), p, oldCh, ts, newCh, g'.value) && Measure(g'.value) < Measure(g)
    decreases newCh, 2
  {
    hide Row, IdsOf, HoldsAll, Roots, Forest, ValidDocument, Kept, Grown, RowSince, Arranged, Before, After, Left;
    hide Middle, Right;
    hide Render, Strip, Tracks, Filled, Match, KeysUnique, PatchFate, LookupOf, KeyIndexOf, FirstMatch;
    hide SameVnode;
    var h, found := FindOld(oldCh, newCh, g, ts, d.kids.Keys);
    Bounds(d, doc.Now(), p, oldCh, ts, newCh, g);
    ArrangedParts(g, h);
    Bounds(d, doc.Now(), p, oldCh, ts, newCh, h);
    if found.Used? {
      g' := Broken(found.fate);
    } else if found.Free? && SameVnode(oldCh[found.idx], newCh[g.newStart]) {
      g' := PullLeft(doc, p, oldCh, newCh, h, found.idx, ts, d);
    } else {
      // also for the same key but a different element
      var next := CreateStart(doc, p, oldCh, newCh, h, ts, d);
      g' := Done(next);
    }
  }

  // updateChildren, and exactly when it breaks.
  method UpdateChildren(doc: Document, parentElm: nat, oldCh: seq<VNode>, ts: seq<DomTree>, newCh: seq<VNode>)
    returns (out: Outcome<seq<DomTree>>)
    requires doc.Valid() && Inputs(oldCh, ts, newCh) && Row(doc.Now(), parentElm, ts)
    modifies doc
    ensures doc.Valid() && FateOf(out) == ListFate(oldCh, newCh)
    ensures out.Done? ==>
              && RowSince(old(doc.Now()), doc.Now(), parentElm, out.value, IdsOf(ts)) && Match(out.value, newCh)
              && Carried(oldCh, ts, newCh, out.value, old(doc.kids.Keys))
    // what there is to read in the children is what the new list says
    ensures out.Done? ==>
              && TextsInAll(out.value) == TextsOfAll(newCh) && CommentsInAll(out.value) == CommentsOfAll(newCh)
              && ElementsInAll(out.value) == ElementsOfAll(newCh)
    decreases newCh, 4
  {
    hide Row, IdsOf, HoldsAll, Roots, Forest, ValidDocument, Kept, Grown, RowSince, Arranged, Before, After, Left;
    hide Middle, Right;
    hide Render, Strip, Tracks, Filled, Match, KeysUnique, TurnOf, RunFate;
    hide SameVnode, Carried;
    ghost var d := doc.Now();
    var g := Begin(ts, |newCh|);
    MatchFacts(oldCh, ts, newCh);
    BeginTracked(oldCh, ts, newCh, d.kids.Keys);
    BeginArranged(ts, |newCh|);
    RowSinceNow(d, parentElm, ts);
    assert CursorOf(g) == Beginning(|oldCh|, |newCh|);
    while g.oldStart <= g.oldEnd && g.newStart <= g.newEnd
      invariant doc.Valid() && Diffing(d, doc.Now(), parentElm, oldCh, ts, newCh, g)
      invariant InBounds(CursorOf(g), oldCh, newCh)
      invariant RunFate(CursorOf(g), oldCh, newCh) == ListFate(oldCh, newCh)
      decreases Measure(g) + 2
    {
      var next := DiffStep(doc, parentElm, oldCh, newCh, g, ts, d);
      if next.Broken? {
        return Broken(next.fate);
      }
      g := next.value;
    }
    RunEnds(CursorOf(g), oldCh, newCh);
    Bounds(d, doc.Now(), parentElm, oldCh, ts, newCh, g);
    var list;
    if g.oldStart > g.oldEnd {
      list := AddTheRest(doc, parentElm, oldCh, newCh, g, ts, d);
    } else {
      list := RemoveTheRest(doc, parentElm, oldCh, newCh, g, ts, d);
    }
    AllReadAs(list, newCh);
    out := Done(list);
  }

  lemma RunEnds(c: Cursor, oldCh: seq<VNode>, newCh: seq<VNode>)
    requires InBounds(c, oldCh, newCh) && !Turning(c)
    ensures RunFate(c, oldCh, newCh) == Fine
  {
  }

  // The body of the loop.
  method DiffStep(doc: Document, p: nat, oldCh: seq<VNode>, newCh: seq<VNode>, g: Diff, ghost ts: seq<DomTree>,
                  ghost d: Shot)
    returns (g': Outcome<Diff>)
    requires doc.Valid() && Diffing(d, doc.Now(), p, oldCh, ts, newCh, g) && g.oldStart <= g.oldEnd
    requires g.newStart <= g.newEnd
    modifies doc
    ensures doc.Valid() && Follows(g, g', oldCh, newCh)
    ensures g'.Done? ==> Diffing(d, doc.Now(), p, oldCh, ts, newCh, g'.value) && Measure(g'.value) < Measure(g)
    decreases newCh, 3
  {
    hide Row, IdsOf, HoldsAll, Roots, Forest, ValidDocument, Kept, Grown, RowSince, Arranged, Before, After, Left;
    hide Middle, Right;
    hide Render, Strip, Tracks, Filled, Match, KeysUnique, PatchFate, LookupOf, KeyIndexOf, FirstMatch, Follows;
    hide SameVnode, KeyIndex;
    Bounds(d, doc.Now(), p, oldCh, ts, newCh, g);
    if g.slots[g.oldStart].None? {
      var next := g.(oldStart := g.oldStart + 1);
      SkipFirst(g, next);
      SkipTracked(g, next, oldCh, ts, newCh, d.kids.Keys);
      g' := Done(next);
    } else if g.slots[g.oldEnd].None? {
      var next := g.(oldEnd := g.oldEnd - 1);
      SkipLast(g, next);
      SkipTracked(g, next, oldCh, ts, newCh, d.kids.Keys);
      g' := Done(next);
    } else if SameVnode(oldCh[g.oldStart], newCh[g.newStart]) {
      g' := PatchStart(doc, p, oldCh, newCh, g, ts, d);
    } else if SameVnode(oldCh[g.oldEnd], newCh[g.newEnd]) {
      g' := PatchEnd(doc, p, oldCh, newCh, g, ts, d);
    } else if SameVnode(oldCh[g.oldStart], newCh[g.newEnd]) {
      g' := MoveRight(doc, p, oldCh, newCh, g, ts, d);
    } else if SameVnode(oldCh[g.oldEnd], newCh[g.newStart]) {
      g' := MoveLeft(doc, p, oldCh, newCh, g, ts, d);
    } else {
      g' := PlaceStart(doc, p, oldCh, newCh, g, ts, d);
    }
    TurnFollows(g, g', oldCh, newCh);
  }

  lemma SkipTracked(g: Diff, g': Diff, oldCh: seq<VNode>, ts: seq<DomTree>, newCh: seq<VNode>, was: set<nat>)
    requires WellFormedAll(newCh) && Tracks(g, oldCh, ts, newCh, was) && Windows(g')
    requires g' == g.(oldStart := g'.oldStart, oldEnd := g'.oldEnd) && forall j :: Available(g', j) <==> Available(g, j)
    ensures Tracks(g', oldCh, ts, newCh, was)
  {
    SameTracked(g, g', oldCh, ts, newCh, was);
  }

  method AddTheRest(doc: Document, p: nat, oldCh: seq<VNode>, newCh: seq<VNode>, g: Diff, ghost ts: seq<DomTree>,
                    ghost d: Shot)
    returns (out: seq<DomTree>)
    requires doc.Valid() && Diffing(d, doc.Now(), p, oldCh, ts, newCh, g) && g.oldStart > g.oldEnd
    modifies doc
    ensures doc.Valid() && RowSince(d, doc.Now(), p, out, IdsOf(ts)) && Match(out, newCh)
    ensures Carried(oldCh, ts, newCh, out, d.kids.Keys)
  {
    hide Row, IdsOf, HoldsAll, Roots, Forest, ValidDocument, Kept, Grown, RowSince, Arranged, Before, After, Left;
    hide Middle, Right;
    hide Render, Strip, Tracks, Filled, Match, KeysUnique;
    hide SameVnode, Carried;
    Bounds(d, doc.Now(), p, oldCh, ts, newCh, g);
    RowSinceKeys(d, doc.Now(), p, Arranged(g), IdsOf(ts));
    NoMiddle(g);
    var refElm := if g.newEnd + 1 < |newCh| then Some(g.made[g.newEnd + 1].value.id) else None;
    FirstOnRight(g);
    var xs := AddVnodes(doc, p, refElm, newCh, g.newStart, g.newEnd, d, Left(g), Right(g), IdsOf(ts));
    out := Left(g) + xs + Right(g);
    Finished(g, oldCh, ts, newCh, d.kids.Keys, xs);
  }

  method RemoveTheRest(doc: Document, p: nat, oldCh: seq<VNode>, newCh: seq<VNode>, g: Diff, ghost ts: seq<DomTree>,
                       ghost d: Shot)
    returns (out: seq<DomTree>)
    requires doc.Valid() && Diffing(d, doc.Now(), p, oldCh, ts, newCh, g) && g.newStart > g.newEnd
    modifies doc
    ensures doc.Valid() && RowSince(d, doc.Now(), p, out, IdsOf(ts)) && Match(out, newCh)
    ensures Carried(oldCh, ts, newCh, out, d.kids.Keys)
  {
    hide Row, IdsOf, HoldsAll, Roots, Forest, ValidDocument, Kept, Grown, RowSince, Arranged, Before, After, Left;
    hide Middle, Right;
    hide Render, Strip, Tracks, Filled, Match, KeysUnique;
    hide SameVnode, Carried;
    Bounds(d, doc.Now(), p, oldCh, ts, newCh, g);
    ArrangedParts(g, g);
    RemoveVnodes(doc, p, g.slots, g.oldStart, g.oldEnd, d, Left(g), Right(g), IdsOf(ts));
    MatchFacts(oldCh, ts, newCh);
    assert newCh[g.newStart..g.newEnd + 1] == [];
    out := Left(g) + [] + Right(g);
    assert Left(g) + [] + Right(g) == Left(g) + Right(g);
    Finished(g, oldCh, ts, newCh, d.kids.Keys, []);
  }

  lemma NoMiddle(g: Diff)
    requires Windows(g) && g.oldStart > g.oldEnd
    ensures Arranged(g) == Left(g) + Right(g)
  {
    assert g.slots[g.oldStart..g.oldEnd + 1] == [];
    assert Left(g) + [] + Right(g) == Left(g) + Right(g);
  }

  lemma FirstOnRight(g: Diff)
    requires Windows(g) && g.newStart <= g.newEnd + 1 && forall i :: 0 <= i < |g.made| ==> (g.made[i].None? <==> Waiting(g, i))
    ensures g.newEnd + 1 < |g.made| ==>
              g.made[g.newEnd + 1].Some? && First(Right(g)) == Some(g.made[g.newEnd + 1].value.id)
    ensures g.newEnd + 1 == |g.made| ==> First(Right(g)) == None
  {
    FilledAll(g.made[g.newEnd + 1..]);
  }

  // ---- patchVnode ----

  // An element: its data, then its children.
  lemma ElementPatched(d: Shot, d1: Shot, d2: Shot, oldVnode: VNode, v: VNode, t: DomTree, kids: seq<DomTree>)
    requires WellFormed(oldVnode) && WellFormed(v) && SameVnode(oldVnode, v) && v.tag.Some?
    requires Sound(t) && Holds(d, t) && Strip(t) == Render(oldVnode)
    requires d1.kids == d.kids && d1.kinds == d.kinds[t.id := KindOf(v)]
    requires RowSince(d1, d2, t.id, kids, IdsOf(t.kids)) && StripAll(kids) == Render(v).kids
    ensures Patched(d, d2, v, t, Node(t.id, KindOf(v), kids))
  {
    hide IdsOf, Forest, HoldsAll, Roots, Render, StripAll, WellFormed;
    RenderKind(v);
    forall x | (x in d.kinds || x in d.kids) && x !in Ids(t) ensures SameAt(d, d2, x) {
      assert SameAt(d, d1, x);
      assert SameAt(d1, d2, x);
    }
  }

  lemma KidsRow(d: Shot, d1: Shot, t: DomTree, kind: Kind)
    requires Sound(t) && Holds(d, t) && d1.kids == d.kids && d1.kinds == d.kinds[t.id := kind]
    ensures Row(d1, t.id, t.kids)
  {
    HoldsAllFrame(d, d1, t.kids);
  }

  lemma LeafPatched(d: Shot, d2: Shot, oldVnode: VNode, v: VNode, t: DomTree)
    requires WellFormed(oldVnode) && WellFormed(v) && SameVnode(oldVnode, v) && v.tag.None?
    requires Sound(t) && Holds(d, t) && Strip(t) == Render(oldVnode)
    requires d2.kids == d.kids && d2.kinds == d.kinds[t.id := KindOf(v)]
    ensures Patched(d, d2, v, t, Node(t.id, KindOf(v), []))
  {
    assert StripAll(t.kids) == [];
  }

  lemma KindAgrees(oldVnode: VNode, v: VNode, t: DomTree)
    requires WellFormed(oldVnode) && WellFormed(v) && SameVnode(oldVnode, v) && Strip(t) == Render(oldVnode)
    ensures t.kind == KindOf(oldVnode) && (v.tag.Some? ==> t.kind.Element? && KindOf(v) == Element(t.kind.tag, v.data))
    ensures v.tag.Some? && v.data.None? ==> t.kind == KindOf(v)
    ensures v.tag.None? ==> !t.kind.Element? && KindOf(v) == if t.kind.Text? then Text(v.text.value) else Comment(v.text.value)
    ensures v.tag.None? && v.text == oldVnode.text ==> t.kind == KindOf(v)
    ensures StripAll(t.kids) == Render(oldVnode).kids
  {
  }

  lemma EmptiedRow(d: Shot, d1: Shot, p: nat, ts: seq<DomTree>)
    requires Row(d, p, ts) && d1 == d.(kids := d.kids[p := []])
    ensures RowSince(d, d1, p, [], IdsOf(ts))
  {
    HeldIdsExist(d, ts);
  }

  lemma TextRow(d: Shot, d1: Shot, p: nat, ts: seq<DomTree>, child: nat, text: string)
    requires Row(d, p, ts) && child !in d.kids && child !in d.kinds
    requires d1 == Shot(d.kinds[child := Text(text)], d.kids[child := []][p := [child]])
    ensures RowSince(d, d1, p, [Node(child, Text(text), [])], IdsOf(ts))
  {
    HeldIdsExist(d, ts);
    OneTree(d1, Node(child, Text(text), []));
  }

  // The children that an element without text or children shows, and those with text.
  lemma KidsOf(v: VNode, ts: seq<DomTree>)
    requires WellFormed(v) && v.tag.Some?
    ensures v.children.Absent? && v.text.None? ==> (StripAll(ts) == Render(v).kids <==> ts == [])
    ensures forall id :: v.text.Some? ==> StripAll([Node(id, Text(v.text.value), [])]) == Render(v).kids
    ensures v.children.Present? ==> Render(v).kids == RenderAll(v.children.list)
  {
  }

  // patchVnode, and exactly when the update of some child list on the way breaks.
  method PatchVnode(doc: Document, oldVnode: VNode, t: DomTree, vnode: VNode) returns (t': Outcome<DomTree>)
    requires doc.Valid() && WellFormed(oldVnode) && WellFormed(vnode) && SameVnode(oldVnode, vnode)
    requires Sound(t) && Holds(doc.Now(), t) && Strip(t) == Render(oldVnode)
    modifies doc
    ensures doc.Valid() && FateOf(t') == PatchFate(oldVnode, vnode)
    ensures t'.Done? ==> Patched(old(doc.Now()), doc.Now(), vnode, t, t'.value)
    // what there is to read in it is what the new vnode says
    ensures t'.Done? ==>
              && TextsIn(t'.value) == TextsOf(vnode) && CommentsIn(t'.value) == CommentsOf(vnode)
              && ElementsIn(t'.value) == ElementsOf(vnode)
    decreases vnode, 9
  {
    assert vnode.text.None? ==> vnode.tag.Some?;
    assert vnode.text.Some? ==> PatchFate(oldVnode, vnode) == Fine;
    hide IdsOf, Ids, Forest, HoldsAll, Roots, Render, StripAll, Strip, WellFormed, Patched, ValidDocument, RowSince;
    hide Row, Sound, KindOf, PatchFate;
    ghost var d := doc.Now();
    var elm := t.id;
    KindAgrees(oldVnode, vnode, t);
    if vnode.data.Some? && vnode.tag.Some? {
      doc.SetAttributes(elm, vnode.data);
    }
    ghost var d1 := doc.Now();
    KidsRow(d, d1, t, d1.kinds[elm]);
    var kids := t.kids;
    if vnode.text.None? {
      var updated := PatchChildren(doc, oldVnode, t, vnode);
      if updated.Broken? {
        return Broken(updated.fate);
      }
      kids := updated.value;
    } else if oldVnode.text != vnode.text {
      if vnode.tag.Some? {
        kids := ReplaceByText(doc, t, vnode);
      } else {
        doc.SetData(elm, vnode.text.value);
      }
    } else if vnode.tag.Some? {
      SameText(oldVnode, vnode);
      RowSinceNow(d1, elm, t.kids);
    }
    var node := Node(elm, KindOf(vnode), if vnode.tag.Some? then kids else []);
    if vnode.tag.Some? {
      ElementPatched(d, d1, doc.Now(), oldVnode, vnode, t, kids);
    } else {
      LeafPatched(d, doc.Now(), oldVnode, vnode, t);
    }
    PatchedReads(d, doc.Now(), vnode, t, node);
    t' := Done(node);
  }

  lemma PatchedReads(d: Shot, d': Shot, v: VNode, t: DomTree, t': DomTree)
    requires WellFormed(v) && Patched(d, d', v, t, t')
    ensures TextsIn(t') == TextsOf(v) && CommentsIn(t') == CommentsOf(v) && ElementsIn(t') == ElementsOf(v)
  {
    ReadsAs(t', v);
  }

  lemma SameText(oldVnode: VNode, v: VNode)
    requires WellFormed(oldVnode) && WellFormed(v) && v.tag.Some? && oldVnode.tag == v.tag && v.text.Some?
    requires oldVnode.text == v.text
    ensures Render(v).kids == Render(oldVnode).kids
  {
  }

  // setTextContent on an element.
  method ReplaceByText(doc: Document, t: DomTree, vnode: VNode) returns (kids: seq<DomTree>)
    requires doc.Valid() && WellFormed(vnode) && vnode.tag.Some? && vnode.text.Some?
    requires Row(doc.Now(), t.id, t.kids) && doc.kinds[t.id].Element?
    modifies doc
    ensures doc.Valid() && RowSince(old(doc.Now()), doc.Now(), t.id, kids, IdsOf(t.kids))
    ensures StripAll(kids) == Render(vnode).kids
  {
    hide IdsOf, Forest, HoldsAll, Render, StripAll, RowSince, ValidDocument, Roots;
    doc.Fresh();
    assert vnode.text.value != "";
    var child := doc.SetTextContent(t.id, vnode.text.value);
    kids := [Node(child.value, Text(vnode.text.value), [])];
    TextRow(old(doc.Now()), doc.Now(), t.id, t.kids, child.value, vnode.text.value);
    KidsOf(vnode, kids);
  }

  // A vnode without text: its children take the place of the old children or the old text.
  method PatchChildren(doc: Document, oldVnode: VNode, t: DomTree, vnode: VNode)
    returns (kids: Outcome<seq<DomTree>>)
    requires doc.Valid() && WellFormed(oldVnode) && WellFormed(vnode) && vnode.text.None? && oldVnode.tag.Some?
    requires vnode.tag.Some?
    requires Row(doc.Now(), t.id, t.kids) && StripAll(t.kids) == Render(oldVnode).kids && doc.kinds[t.id].Element?
    modifies doc
    ensures doc.Valid() && FateOf(kids) == PatchFate(oldVnode, vnode)
    ensures kids.Done? ==> RowSince(old(doc.Now()), doc.Now(), t.id, kids.value, IdsOf(t.kids))
    ensures kids.Done? ==> StripAll(kids.value) == Render(vnode).kids
    decreases vnode, 5
  {
    hide IdsOf, Forest, HoldsAll, Render, StripAll, RowSince, ValidDocument, Roots, ListFate;
    ghost var d := doc.Now();
    var elm, oldCh, ch := t.id, oldVnode.children, vnode.children;
    ghost var nothing: seq<DomTree> := [];
    KidsOf(oldVnode, t.kids);
    RowSinceNow(d, elm, t.kids);
    var list := [];
    if oldCh.Present? && ch.Present? {
      MatchAll(t.kids, oldCh.list);
      var updated := UpdateChildren(doc, elm, oldCh.list, t.kids, ch.list);
      if updated.Broken? {
        return Broken(updated.fate);
      }
      list := updated.value;
      MatchAll(list, ch.list);
    } else if ch.Present? {
      if oldVnode.text.Some? {
        var none := doc.SetTextContent(elm, "");
        EmptiedRow(d, doc.Now(), elm, t.kids);
      } else {
        assert t.kids == [];
      }
      assert nothing + nothing == nothing;
      list := AddVnodes(doc, elm, None, ch.list, 0, |ch.list| - 1, d, nothing, nothing, IdsOf(t.kids));
      assert nothing + list + nothing == list && ch.list[0..|ch.list|] == ch.list;
      MatchAll(list, ch.list);
    } else if oldCh.Present? {
      var slots := seq(|t.kids|, i requires 0 <= i < |t.kids| => Some(t.kids[i]));
      FilledAll(slots);
      assert slots[0..|t.kids|] == slots && nothing + Filled(slots) + nothing == t.kids;
      RemoveVnodes(doc, elm, slots, 0, |t.kids| - 1, d, nothing, nothing, IdsOf(t.kids));
      assert nothing + nothing == nothing;
    } else if oldVnode.text.Some? {
      var none := doc.SetTextContent(elm, "");
      EmptiedRow(d, doc.Now(), elm, t.kids);
    }
    KidsOf(vnode, list);
    kids := Done(list);
  }
}
