// Building live nodes from virtual ones, and removing them.
module VdomCreate {
  import opened Wrappers
  import opened VdomTrees
  import opened VdomDocument
  import opened VdomRows
  import opened VdomVisible

  // insert: a reference whose parent is another node is ignored, and so is the insertion.
  function Placed(kids: map<nat, seq<nat>>, parent: map<nat, nat>, parentElm: Option<nat>, e: nat, ref: Option<nat>)
    : map<nat, seq<nat>>
  {
    if parentElm.None? || parentElm.value !in kids then kids
    else if ref.Some? && !(ref.value in parent && parent[ref.value] == parentElm.value) then kids
    else Inserted(kids, parent, parentElm.value, e, ref)
  }

  function Touched(parentElm: Option<nat>): set<nat> { if parentElm.Some? then {parentElm.value} else {} }

  ghost predicate KeptParents(d: Shot, parent: map<nat, nat>, parent': map<nat, nat>) {
    forall c :: c in d.kids ==> (c in parent' <==> c in parent) && (c in parent ==> parent'[c] == parent[c])
  }

  method Insert(doc: Document, parentElm: Option<nat>, elm: nat, ref: Option<nat>)
    requires doc.Valid() && elm in doc.kids && elm !in doc.parent
    requires parentElm.Some? ==> parentElm.value in doc.kids
    modifies doc
    ensures doc.Valid() && doc.kinds == old(doc.kinds) && doc.next == old(doc.next)
    ensures doc.kids == Placed(old(doc.kids), old(doc.parent), parentElm, elm, ref)
    ensures forall c :: c != elm ==> (c in doc.parent <==> c in old(doc.parent)) && (c in doc.parent ==> doc.parent[c] == old(doc.parent)[c])
  {
    if parentElm.Some? {
      if ref.Some? {
        if ref.value in doc.parent && doc.parent[ref.value] == parentElm.value {
          doc.InsertBefore(parentElm.value, elm, ref);
        }
      } else {
        doc.AppendChild(parentElm.value, elm);
      }
    }
  }

  // The document gained exactly this tree, which shows v.
  ghost predicate Built(d: Shot, d': Shot, touched: set<nat>, v: VNode, t: DomTree)
    requires WellFormed(v)
  {
    Strip(t) == Render(v) && Sound(t) && Holds(d', t) && Grown(d, Ids(t), {}) && Kept(d, d', touched)
  }

  // What CreateNode leaves.
  ghost predicate NodeAdded(d: Shot, d': Shot, e: nat, kind: Kind) {
    e !in d.kinds && e !in d.kids && d' == Shot(d.kinds[e := kind], d.kids[e := []])
  }

  lemma EmptyRow(d: Shot, d1: Shot, e: nat, kind: Kind)
    requires NodeAdded(d, d1, e, kind)
    ensures Row(d1, e, []) && Kept(d, d1, {}) && Grown(d, {e}, {})
  {
  }

  lemma LeafBuilt(d: Shot, d1: Shot, e: nat, v: VNode)
    requires WellFormed(v) && v.tag.None? && NodeAdded(d, d1, e, KindOf(v))
    ensures Built(d, d1, {}, v, Node(e, KindOf(v), []))
  {
  }

  // An element whose children are in place, once it shows its data.
  lemma ElementBuilt(d: Shot, d1: Shot, d2: Shot, d3: Shot, e: nat, kind: Kind, v: VNode, kids: seq<DomTree>)
    requires WellFormed(v) && NodeAdded(d, d1, e, kind)
    requires ChildrenBuilt(d1, d2, e, v, kids)
    requires d3.kids == d2.kids && d3.kinds == d2.kinds[e := KindOf(v)]
    ensures Built(d, d3, {}, v, Node(e, KindOf(v), kids))
  {
    hide Render, KindOf, IdsOf, HoldsAll, Roots, StripAll, Forest;
    assert Kept(d, d3, {}) by {
      forall x | x in d.kinds || x in d.kids ensures SameAt(d, d3, x) {
        assert SameAt(d1, d2, x);
      }
    }
    forall x | x in IdsOf(kids) ensures SameAt(d2, d3, x) {
    }
    HoldsAllFrame(d2, d3, kids);
    RenderKind(v);
  }

  // e has exactly the children that v describes, all new.
  ghost predicate ChildrenBuilt(d: Shot, d': Shot, e: nat, v: VNode, kids: seq<DomTree>)
    requires WellFormed(v)
  {
    RowSince(d, d', e, kids, {}) && StripAll(kids) == Render(v).kids
  }

  lemma MatchMore(ts: seq<DomTree>, vs: seq<VNode>, i: nat, t: DomTree)
    requires WellFormedAll(vs) && i < |vs| && Match(ts, vs[..i]) && Strip(t) == Render(vs[i])
    ensures Match(ts + [t], vs[..i + 1])
  {
  }

  // One more child, in front of b.
  lemma ChildBuilt(d: Shot, d1: Shot, parent: map<nat, nat>, next: nat, d2: Shot, p: nat, v: VNode, a: seq<DomTree>,
                   b: seq<DomTree>, child: DomTree, s: set<nat>)
    requires WellFormed(v) && RowSince(d, d1, p, a + b, s) && ValidDocument(d1.kinds, d1.kids, parent, next)
    requires Built(d1, d2, {p}, v, child) && SameKind(d1, d2, p)
    requires d2.kids[p] == Placed(d1.kids, parent, Some(p), child.id, First(b))[p]
    ensures RowSince(d, d2, p, a + [child] + b, s)
  {
    hide Row, IdsOf, HoldsAll, StripAll, Forest, ValidDocument, Strip, Render, Sound, Holds, Kept, Roots, Inserted;
    ChildFresh(d1, parent, next, d2, p, v, child);
    NewBefore(d1, parent, next, p, a, b, child);
    AddedRow(d, d1, d2, p, a, child, b, s);
  }

  lemma ChildFresh(d: Shot, parent: map<nat, nat>, next: nat, d': Shot, e: nat, v: VNode, child: DomTree)
    requires WellFormed(v) && ValidDocument(d.kinds, d.kids, parent, next) && Built(d, d', {e}, v, child)
    ensures child.id !in parent && child.id !in d.kids
  {
    assert child.id in Ids(child);
  }

  lemma Attached(d: Shot, parent: map<nat, nat>, d3: Shot, parent3: map<nat, nat>, d4: Shot, parentElm: Option<nat>,
                 ref: Option<nat>, v: VNode, t: DomTree)
    requires WellFormed(v) && Built(d, d3, {}, v, t) && KeptParents(d, parent, parent3)
    requires d4.kinds == d3.kinds && d4.kids == Placed(d3.kids, parent3, parentElm, t.id, ref)
    requires t.id !in parent3 && t.id !in parent
    requires (parentElm.Some? ==> parentElm.value in d.kids && parentElm.value in d.kinds)
    requires (ref.Some? ==> ref.value in d.kids)
    ensures Built(d, d4, Touched(parentElm), v, t)
    ensures parentElm.Some? ==>
              && parentElm.value in d4.kids
              && d4.kids[parentElm.value] == Placed(d.kids, parent, parentElm, t.id, ref)[parentElm.value]
              && SameKind(d, d4, parentElm.value)
  {
    hide Render, KindOf, IdsOf, Holds, Sound, Ids, Strip;
    if parentElm.Some? {
      var p := parentElm.value;
      assert SameAt(d, d3, p);
      forall x | x in Ids(t) ensures SameAt(d3, d4, x) {
      }
      HoldsFrame(d3, d4, t);
      forall x | (x in d.kinds || x in d.kids) && x != p ensures SameAt(d, d4, x) {
        assert SameAt(d, d3, x);
      }
    }
  }

  lemma TextChild(d: Shot, parent: map<nat, nat>, next: nat, d': Shot, e: nat, v: VNode, child: nat)
    requires WellFormed(v) && v.tag.Some? && v.children.Absent? && v.text.Some? && Row(d, e, [])
    requires ValidDocument(d.kinds, d.kids, parent, next) && child !in d.kids
    requires d' == Shot(d.kinds[child := Text(v.text.value)], Appended(d.kids[child := []], parent, e, child))
    ensures ChildrenBuilt(d, d', e, v, [Node(child, Text(v.text.value), [])])
  {
    var t := Node(child, Text(v.text.value), []);
    assert d'.kids[e] == [child] && d'.kids[child] == [];
    OneTree(d', t);
  }

  lemma KeptParentsTrans(a: Shot, pa: map<nat, nat>, b: Shot, pb: map<nat, nat>, pc: map<nat, nat>)
    requires KeptParents(a, pa, pb) && KeptParents(b, pb, pc)
    requires forall c :: c in a.kids ==> c in b.kids
    ensures KeptParents(a, pa, pc)
  {
  }

  lemma StillThere(d: Shot, d': Shot, e: nat, kids: seq<DomTree>)
    requires RowSince(d, d', e, kids, {})
    ensures d.kids.Keys <= d'.kids.Keys
  {
    forall c | c in d.kids ensures c in d'.kids {
      assert c == e || SameAt(d, d', c);
    }
  }

  lemma BuiltApart(d: Shot, d': Shot, v: VNode, t: DomTree)
    requires WellFormed(v) && Built(d, d', {}, v, t)
    ensures t.id !in d.kids && t.id in d'.kids && d.kids.Keys <= d'.kids.Keys
  {
    assert t.id in Ids(t);
    forall c | c in d.kids ensures c in d'.kids {
      assert SameAt(d, d', c);
    }
  }

  lemma BuiltReads(d: Shot, d': Shot, touched: set<nat>, v: VNode, t: DomTree)
    requires WellFormed(v) && Built(d, d', touched, v, t)
    ensures TextsIn(t) == TextsOf(v) && CommentsIn(t) == CommentsOf(v) && ElementsIn(t) == ElementsOf(v)
  {
    ReadsAs(t, v);
  }

  method CreateElm(doc: Document, vnode: VNode, parentElm: Option<nat>, refElm: Option<nat>) returns (t: DomTree)
    requires doc.Valid() && WellFormed(vnode)
    requires (parentElm.Some? ==> parentElm.value in doc.kids && parentElm.value in doc.kinds)
    requires (refElm.Some? ==> refElm.value in doc.kids)
    modifies doc
    ensures doc.Valid() && KeptParents(old(doc.Now()), old(doc.parent), doc.parent)
    ensures Built(old(doc.Now()), doc.Now(), Touched(parentElm), vnode, t)
    // what there is to read in it is what the vnode says
    ensures TextsIn(t) == TextsOf(vnode) && CommentsIn(t) == CommentsOf(vnode) && ElementsIn(t) == ElementsOf(vnode)
    ensures parentElm.Some? ==>
              && parentElm.value in doc.kids
              && doc.kids[parentElm.value] == Placed(old(doc.kids), old(doc.parent), parentElm, t.id, refElm)[parentElm.value]
              && SameKind(old(doc.Now()), doc.Now(), parentElm.value)
    decreases vnode, 2
  {
    hide Row, Render, IdsOf, HoldsAll, Roots, StripAll, Forest, ValidDocument, Kept, Grown, Built, Sound, Holds;
    ghost var d, parent := doc.Now(), doc.parent;
    if vnode.tag.Some? {
      t := CreateElement(doc, vnode);
    } else {
      t := CreateLeaf(doc, vnode);
    }
    ghost var d3, parent3 := doc.Now(), doc.parent;
    Insert(doc, parentElm, t.id, refElm);
    Attached(d, parent, d3, parent3, doc.Now(), parentElm, refElm, vnode, t);
    BuiltReads(d, doc.Now(), Touched(parentElm), vnode, t);
  }

  method CreateLeaf(doc: Document, vnode: VNode) returns (t: DomTree)
    requires doc.Valid() && WellFormed(vnode) && vnode.tag.None?
    modifies doc
    ensures doc.Valid() && KeptParents(old(doc.Now()), old(doc.parent), doc.parent)
    ensures Built(old(doc.Now()), doc.Now(), {}, vnode, t) && t.id !in doc.parent
    ensures t.id !in old(doc.parent) && t.id !in old(doc.kids) && t.id in doc.kids
    ensures doc.kids.Keys >= old(doc.kids.Keys)
  {
    hide Row, Render, IdsOf, HoldsAll, Roots, StripAll, Forest, ValidDocument, Kept, Grown, Built;
    ghost var d := doc.Now();
    doc.Fresh();
    var kind := if vnode.isComment then Comment(vnode.text.value) else Text(vnode.text.value);
    var elm := doc.CreateNode(kind);
    t := Node(elm, kind, []);
    LeafBuilt(d, doc.Now(), elm, vnode);
    BuiltApart(d, doc.Now(), vnode, t);
  }

  method CreateElement(doc: Document, vnode: VNode) returns (t: DomTree)
    requires doc.Valid() && WellFormed(vnode) && vnode.tag.Some?
    modifies doc
    ensures doc.Valid() && KeptParents(old(doc.Now()), old(doc.parent), doc.parent)
    ensures Built(old(doc.Now()), doc.Now(), {}, vnode, t) && t.id !in doc.parent
    ensures t.id !in old(doc.parent) && t.id !in old(doc.kids) && t.id in doc.kids
    ensures doc.kids.Keys >= old(doc.kids.Keys)
    decreases vnode, 1
  {
    hide Row, Render, IdsOf, HoldsAll, Roots, StripAll, Forest, ValidDocument, Kept, Grown, Built;
    ghost var d, parent := doc.Now(), doc.parent;
    doc.Fresh();
    var elm := doc.CreateNode(Element(vnode.tag.value, None));
    ghost var d1, parent1 := doc.Now(), doc.parent;
    EmptyRow(d, d1, elm, Element(vnode.tag.value, None));
    var kids := CreateChildren(doc, elm, vnode);
    ghost var d2 := doc.Now();
    if vnode.data.Some? {
      doc.SetAttributes(elm, vnode.data);
    }
    t := Node(elm, Element(vnode.tag.value, vnode.data), kids);
    ElementBuilt(d, d1, d2, doc.Now(), elm, Element(vnode.tag.value, None), vnode, kids);
    BuiltApart(d, doc.Now(), vnode, t);
    KeptParentsTrans(d, parent, d1, parent1, doc.parent);
  }

  method CreateChildren(doc: Document, elm: nat, vnode: VNode) returns (kids: seq<DomTree>)
    requires doc.Valid() && WellFormed(vnode) && vnode.tag.Some? && Row(doc.Now(), elm, [])
    modifies doc
    ensures doc.Valid() && KeptParents(old(doc.Now()), old(doc.parent), doc.parent)
    ensures ChildrenBuilt(old(doc.Now()), doc.Now(), elm, vnode, kids)
    decreases vnode, 0
  {
    hide Row, Render, IdsOf, HoldsAll, Roots, Forest, ValidDocument, Built, Kept, Grown;
    hide TextsIn, TextsOf, CommentsIn, CommentsOf, ElementsIn, ElementsOf;
    ghost var d, parent := doc.Now(), doc.parent;
    RowSinceNow(d, elm, []);
    NoIds();
    RenderKind(vnode);
    kids := [];
    if vnode.children.Present? {
      var children := vnode.children.list;
      for i := 0 to |children|
        invariant doc.Valid() && KeptParents(d, parent, doc.parent)
        invariant RowSince(d, doc.Now(), elm, kids, {}) && Match(kids, children[..i])
      {
        ghost var d1, parent1, next1 := doc.Now(), doc.parent, doc.next;
        var child := CreateElm(doc, children[i], Some(elm), None);
        assert kids + [] == kids && kids + [child] + [] == kids + [child];
        ChildBuilt(d, d1, parent1, next1, doc.Now(), elm, children[i], kids, [], child, {});
        StillThere(d, d1, elm, kids);
        KeptParentsTrans(d, parent, d1, parent1, doc.parent);
        BuiltInside(d1, doc.Now(), elm, children[i], child);
        MatchMore(kids, children, i, child);
        kids := kids + [child];
      }
      assert children[..|children|] == children;
      MatchAll(kids, children);
    } else if vnode.text.Some? {
      var child := doc.CreateNode(Text(vnode.text.value));
      doc.AppendChild(elm, child);
      kids := [Node(child, Text(vnode.text.value), [])];
      TextChild(d, parent, old(doc.next), doc.Now(), elm, vnode, child);
    }
  }

  // Creates vnodes[startIdx..endIdx] in front of the trees b.
  method AddVnodes(doc: Document, parentElm: nat, refElm: Option<nat>, vnodes: seq<VNode>, startIdx: nat, endIdx: int,
                   ghost d: Shot, ghost a: seq<DomTree>, ghost b: seq<DomTree>, ghost s: set<nat>)
    returns (ts: seq<DomTree>)
    requires doc.Valid() && WellFormedAll(vnodes) && startIdx <= endIdx + 1 <= |vnodes|
    requires RowSince(d, doc.Now(), parentElm, a + b, s) && refElm == First(b)
    modifies doc
    ensures doc.Valid() && RowSince(d, doc.Now(), parentElm, a + ts + b, s)
    ensures Match(ts, vnodes[startIdx..endIdx + 1])
    ensures forall i :: 0 <= i < |ts| ==> ts[i].id !in old(doc.kids)
  {
    hide Row, Render, IdsOf, HoldsAll, Roots, Forest, ValidDocument, Kept, Grown, RowSince, Inserted;
    hide TextsIn, TextsOf, CommentsIn, CommentsOf, ElementsIn, ElementsOf;
    ts := [];
    assert a + [] + b == a + b;
    var i := startIdx;
    while i <= endIdx
      invariant startIdx <= i <= endIdx + 1
      invariant doc.Valid() && RowSince(d, doc.Now(), parentElm, a + ts + b, s)
      invariant |ts| == i - startIdx && forall j :: 0 <= j < |ts| ==> Strip(ts[j]) == Render(vnodes[startIdx + j])
      invariant old(doc.kids.Keys) <= doc.kids.Keys && forall j :: 0 <= j < |ts| ==> ts[j].id !in old(doc.kids)
    {
      ghost var d1, parent1, next1 := doc.Now(), doc.parent, doc.next;
      ReferenceIsThere(d, d1, parentElm, a + ts, b, s);
      var child := CreateElm(doc, vnodes[i], Some(parentElm), refElm);
      assert ts + [child] == ts + [child] && a + (ts + [child]) + b == (a + ts) + [child] + b;
      ChildBuilt(d, d1, parent1, next1, doc.Now(), parentElm, vnodes[i], a + ts, b, child, s);
      BuiltInside(d1, doc.Now(), parentElm, vnodes[i], child);
      ts := ts + [child];
      i := i + 1;
    }
  }

  lemma ReferenceIsThere(d: Shot, d1: Shot, p: nat, a: seq<DomTree>, b: seq<DomTree>, s: set<nat>)
    requires RowSince(d, d1, p, a + b, s)
    ensures p in d1.kids && p in d1.kinds && (First(b).Some? ==> First(b).value in d1.kids)
  {
    RowSplit(d1, p, a, b);
    HeldIdsExist(d1, b);
    RootsAreIds(b);
  }

  lemma BuiltInside(d: Shot, d': Shot, p: nat, v: VNode, t: DomTree)
    requires WellFormed(v) && Built(d, d', {p}, v, t) && SameKind(d, d', p)
    ensures t.id !in d.kids && d.kids.Keys <= d'.kids.Keys && Strip(t) == Render(v)
  {
    assert t.id in Ids(t);
    forall c | c in d.kids ensures c in d'.kids {
      assert c == p || SameAt(d, d', c);
    }
  }
}
