// The root of a patch, and what a patched document shows.
module VdomResult {
  import opened Lists
  import opened Wrappers
  import opened VdomTrees
  import opened VdomDocument
  import opened VdomRows
  import opened VdomCreate
  import opened VdomDiff
  import opened VdomFate
  import opened VdomPatch
  import opened VdomVisible

  // patch, for a mounted root among its siblings: the root is patched or replaced, the siblings stay. Replacing never
  // breaks, and patching exactly if PatchFate says so.
  method Patch(doc: Document, oldVnode: VNode, t: DomTree, vnode: VNode, ghost p: nat, ghost a: seq<DomTree>,
               ghost b: seq<DomTree>)
    returns (t': Outcome<DomTree>)
    requires doc.Valid() && WellFormed(oldVnode) && WellFormed(vnode)
    requires Row(doc.Now(), p, a + [t] + b) && Strip(t) == Render(oldVnode)
    modifies doc
    ensures doc.Valid()
    ensures FateOf(t') == if SameVnode(oldVnode, vnode) then PatchFate(oldVnode, vnode) else Fine
    ensures t'.Done? ==>
              && RowSince(old(doc.Now()), doc.Now(), p, a + [t'.value] + b, IdsOf(a + [t] + b))
              && Strip(t'.value) == Render(vnode) && Shows(doc.Now(), t'.value.id, Render(vnode))
              && (t'.value.id == t.id <==> Fits(oldVnode, vnode))
    // what there is to read in it is what the new vnode says
    ensures t'.Done? ==>
              && TextsIn(t'.value) == TextsOf(vnode) && CommentsIn(t'.value) == CommentsOf(vnode)
              && ElementsIn(t'.value) == ElementsOf(vnode)
  {
    hide Row, IdsOf, HoldsAll, Roots, Forest, ValidDocument, Kept, Grown, RowSince, Render, Strip, SameVnode, Detached;
    hide Shows, PatchFate, Fits;
    ghost var d, s := doc.Now(), IdsOf(a + [t] + b);
    SameVnodeFits(oldVnode, vnode);
    RowSinceNow(d, p, a + [t] + b);
    ChildOfRow(d, d, p, a, t, b, s);
    if SameVnode(oldVnode, vnode) {
      t' := PatchVnode(doc, oldVnode, t, vnode);
      if t'.Broken? {
        return;
      }
      PatchedRowSince(d, d, doc.Now(), p, a, t, b, t'.value, s);
    } else {
      SiblingInRow(d, d, doc.parent, doc.next, p, a, t, b, s);
      var oldElm := t.id;
      var parentElm := doc.parent[oldElm];
      var sibling := doc.NextSibling(oldElm);
      assert doc.kids[doc.parent[oldElm]][|a|] == oldElm;
      var node := ReplaceRoot(doc, t, vnode, parentElm, sibling, a, b, d, s);
      t' := Done(node);
    }
    ChildOfRow(d, doc.Now(), p, a, t'.value, b, s);
    HeldShows(doc.Now(), t'.value);
    ReadsAs(t'.value, vnode);
  }

  method ReplaceRoot(doc: Document, t: DomTree, vnode: VNode, p: nat, sibling: Option<nat>, ghost a: seq<DomTree>,
                     ghost b: seq<DomTree>, ghost d: Shot, ghost s: set<nat>)
    returns (t': DomTree)
    requires doc.Valid() && WellFormed(vnode) && RowSince(d, doc.Now(), p, a + [t] + b, s) && sibling == First(b)
    modifies doc
    ensures doc.Valid() && RowSince(d, doc.Now(), p, a + [t'] + b, s) && Strip(t') == Render(vnode) && t'.id != t.id
  {
    hide Row, IdsOf, HoldsAll, Roots, Forest, ValidDocument, Kept, Grown, RowSince, Render, Strip, Detached;
    ghost var d1, parent1, next1 := doc.Now(), doc.parent, doc.next;
    ReferenceIsThere(d, d1, p, a + [t], b, s);
    ChildOfRow(d, d1, p, a, t, b, s);
    t' := CreateElm(doc, vnode, Some(p), sibling);
    ChildBuilt(d, d1, parent1, next1, doc.Now(), p, vnode, a + [t], b, t', s);
    BuiltInside(d1, doc.Now(), p, vnode, t');
    assert a + [t] + [t'] + b == a + [t] + ([t'] + b);
    ghost var d2, parent2 := doc.Now(), doc.parent;
    RemovedChild(d, d2, parent2, doc.next, p, a, t, [t'] + b, s);
    doc.RemoveNode(t.id);
    assert doc.Now() == d2.(kids := Detached(d2.kids, parent2, t.id));
    assert a + ([t'] + b) == a + [t'] + b;
  }

  // What a patched node shows is what a node built from nothing shows, whatever it showed before.
  lemma PatchedLikeFresh(d: Shot, d': Shot, v: VNode, t: DomTree, t': DomTree, e: Shot, e': Shot, s: set<nat>,
                         u: DomTree, tree: Tree)
    requires WellFormed(v) && Patched(d, d', v, t, t') && Built(e, e', s, v, u)
    ensures Shows(d', t.id, tree) <==> Shows(e', u.id, tree)
  {
    HeldShows(d', t');
    HeldShows(e', u);
    if Shows(d', t.id, tree) {
      ShowsUnique(d', t.id, tree, Render(v));
    }
    if Shows(e', u.id, tree) {
      ShowsUnique(e', u.id, tree, Render(v));
    }
  }

  // Nodes outside the patched tree show what they showed.
  lemma PatchIsLocal(d: Shot, d': Shot, v: VNode, t: DomTree, t': DomTree, u: DomTree)
    requires WellFormed(v) && Patched(d, d', v, t, t') && Holds(d, u) && Ids(u) !! Ids(t)
    ensures Shows(d', u.id, Strip(u))
  {
    HeldIdsExist(d, [u]);
    OneTree(d, u);
    HoldsFrame(d, d', u);
    HeldShows(d', u);
  }

  // After an update p's list is exactly the elements of the new
  // children, each once, and every one of them shows its vnode.
  lemma UpdatedList(d: Shot, d': Shot, p: nat, oldCh: seq<VNode>, ts: seq<DomTree>, newCh: seq<VNode>,
                    out: seq<DomTree>)
    requires WellFormedAll(newCh) && Match(out, newCh) && RowSince(d, d', p, out, IdsOf(ts))
    ensures p in d'.kids && |d'.kids[p]| == |newCh| && Distinct(d'.kids[p])
    ensures forall i :: 0 <= i < |newCh| ==> Shows(d', d'.kids[p][i], Render(newCh[i]))
  {
    ForestRootsDistinct(out);
    forall i | 0 <= i < |newCh| ensures Shows(d', d'.kids[p][i], Render(newCh[i])) {
      HeldAt(d', out, i);
      HeldShows(d', out[i]);
    }
  }

  // The node of one vnode may become that of the other: same key, same tag, both with or both without data, and an
  // input keeps its type or takes text before and after.
  predicate Fits(a: VNode, b: VNode) {
    && a.key == b.key && a.tag == b.tag && a.isComment == b.isComment && a.data.Some? == b.data.Some?
    && (a.tag == Some("input") ==>
          || (HasAttributes(a) == HasAttributes(b) && TypeAttribute(a) == TypeAttribute(b))
          || (TakesText(a) && TakesText(b)))
  }

  predicate HasAttributes(v: VNode) { v.data.Some? && v.data.value.attrs.Some? }

  function TypeAttribute(v: VNode): Option<string> {
    if HasAttributes(v) && "type" in v.data.value.attrs.value then Some(v.data.value.attrs.value["type"]) else None
  }

  predicate TakesText(v: VNode) {
    TypeAttribute(v).Some?
    && TypeAttribute(v).value in {"text", "number", "password", "search", "email", "tel", "url"}
  }

  lemma SameVnodeFits(a: VNode, b: VNode)
    ensures SameVnode(a, b) <==> Fits(a, b)
  {
  }

  // An element that lives on belongs to an old child that fits.
  lemma ReusedElementFits(oldCh: seq<VNode>, ts: seq<DomTree>, newCh: seq<VNode>, out: seq<DomTree>, was: set<nat>,
                          i: nat)
    requires Carried(oldCh, ts, newCh, out, was) && i < |newCh| && out[i].id in was
    ensures exists j :: 0 <= j < |oldCh| && out[i].id == ts[j].id && Fits(oldCh[j], newCh[i])
  {
    var j :| LivesOn(oldCh, ts, newCh, out, i, j);
    SameVnodeFits(oldCh[j], newCh[i]);
  }

  // New child i has the key of old child j, and they match.
  predicate Pairs(oldCh: seq<VNode>, newCh: seq<VNode>, i: int, j: int) {
    0 <= i < |newCh| && 0 <= j < |oldCh| && newCh[i].key.Some? && Fits(oldCh[j], newCh[i])
  }

  ghost predicate HasOld(oldCh: seq<VNode>, newCh: seq<VNode>, i: int) { exists j :: Pairs(oldCh, newCh, i, j) }

  ghost predicate HasNew(oldCh: seq<VNode>, newCh: seq<VNode>, j: int) { exists i :: Pairs(oldCh, newCh, i, j) }

  // A keyed child has a new element exactly if no old child pairs with it.
  lemma NewElementsOfKeyed(oldCh: seq<VNode>, ts: seq<DomTree>, newCh: seq<VNode>, out: seq<DomTree>, was: set<nat>,
                           i: nat)
    requires Carried(oldCh, ts, newCh, out, was) && KeysUnique(oldCh) && KeysUnique(newCh)
    requires i < |newCh| && newCh[i].key.Some?
    requires forall j :: 0 <= j < |ts| ==> ts[j].id in was
    ensures out[i].id in was <==> HasOld(oldCh, newCh, i)
  {
    if out[i].id in was {
      var j :| LivesOn(oldCh, ts, newCh, out, i, j);
      SameVnodeFits(oldCh[j], newCh[i]);
      assert Pairs(oldCh, newCh, i, j);
    }
    forall j | Pairs(oldCh, newCh, i, j) ensures out[i].id in was {
      SameVnodeFits(oldCh[j], newCh[i]);
      assert out[i].id == ts[j].id;
    }
  }

  // No element is removed as long as a new one is made for a child that it could serve; with keys, if the old ones are
  // unique.
  lemma NothingGoesToWaste(oldCh: seq<VNode>, ts: seq<DomTree>, newCh: seq<VNode>, out: seq<DomTree>, was: set<nat>,
                           i: nat, j: nat)
    requires Carried(oldCh, ts, newCh, out, was) && i < |newCh| && j < |oldCh| && Fits(oldCh[j], newCh[i])
    requires newCh[i].key.None? || KeysUnique(oldCh)
    ensures out[i].id in Roots(ts) || ts[j].id in Roots(out)
  {
    SameVnodeFits(oldCh[j], newCh[i]);
    assert Servable(oldCh, newCh, i, j);
    if k :| LivesOn(oldCh, ts, newCh, out, i, k) {
      assert Roots(ts)[k] == out[i].id;
    } else {
      var k :| LivesOn(oldCh, ts, newCh, out, k, j);
      assert Roots(out)[k] == ts[j].id;
    }
  }

  // Reordering keyed children neither creates nor removes an element.
  lemma ReorderKeepsElements(oldCh: seq<VNode>, ts: seq<DomTree>, newCh: seq<VNode>, out: seq<DomTree>, was: set<nat>,
                             e: nat)
    requires Carried(oldCh, ts, newCh, out, was) && KeysUnique(oldCh) && KeysUnique(newCh)
    requires forall i :: 0 <= i < |newCh| ==> HasOld(oldCh, newCh, i)
    requires forall j :: 0 <= j < |oldCh| ==> HasNew(oldCh, newCh, j)
    ensures e in Roots(out) <==> e in Roots(ts)
  {
    if e in Roots(out) {
      var i :| 0 <= i < |out| && Roots(out)[i] == e;
      assert HasOld(oldCh, newCh, i);
      var j :| Pairs(oldCh, newCh, i, j);
      SameVnodeFits(oldCh[j], newCh[i]);
      assert Roots(ts)[j] == e;
    }
    if e in Roots(ts) {
      var j :| 0 <= j < |ts| && Roots(ts)[j] == e;
      assert HasNew(oldCh, newCh, j);
      var i :| Pairs(oldCh, newCh, i, j);
      SameVnodeFits(oldCh[j], newCh[i]);
      assert Roots(out)[i] == e;
    }
  }
}
