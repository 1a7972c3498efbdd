// Virtual nodes, the trees they describe, and trees of live DOM nodes.
module VdomTrees {
  import opened Wrappers

  // Attributes and the rest of vnode.data; the update modules together make an element show its whole data.
  datatype Data = Data(attrs: Option<map<string, string>>, rest: string)

  datatype VNode = VNode(
    key: Option<string>,
    tag: Option<string>,
    isComment: bool,
    data: Option<Data>,
    text: Option<string>,
    children: Children)

  // vnode.children: undefined or an array.
  datatype Children = Absent | Present(list: seq<VNode>)

  datatype Kind = Element(tag: string, data: Option<Data>) | Text(text: string) | Comment(text: string)

  // What the document shows below one node.
  datatype Tree = Tree(kind: Kind, kids: seq<Tree>)

  // The same with the identity of each live node; node.id is vnode.elm.
  datatype DomTree = Node(id: nat, kind: Kind, kids: seq<DomTree>)

  function KindOf(v: VNode): Kind
    requires v.tag.Some? || v.text.Some?
  {
    if v.tag.Some? then Element(v.tag.value, v.data)
    else if v.isComment then Comment(v.text.value)
    else Text(v.text.value)
  }

  function KeysUnique(vs: seq<VNode>): bool {
    forall i, j :: 0 <= i < j < |vs| && vs[i].key.Some? ==> vs[i].key != vs[j].key
  }

  // Text xor children. An element may have an own text, but not the empty string; vue.js itself makes elements without.
  predicate WellFormed(v: VNode)
    decreases v, 1
  {
    && (v.tag.None? ==> v.text.Some? && v.children.Absent?)
    && (v.tag.Some? && v.text.Some? ==> v.children.Absent? && v.text.value != "")
    && (v.children.Present? ==> WellFormedAll(v.children.list))
  }

  predicate WellFormedAll(vs: seq<VNode>)
    decreases vs, 0
  {
    forall i :: 0 <= i < |vs| ==> WellFormed(vs[i])
  }

  // No two siblings below v share a key, on any level.
  ghost predicate KeyedWell(v: VNode)
    decreases v, 1
  {
    v.children.Present? ==> KeyedWellAll(v.children.list)
  }

  ghost predicate KeyedWellAll(vs: seq<VNode>)
    decreases vs, 0
  {
    KeysUnique(vs) && forall i :: 0 <= i < |vs| ==> KeyedWell(vs[i])
  }

  // The tree that createElm builds from a vnode, from nothing.
  function Render(v: VNode): Tree
    requires WellFormed(v)
    decreases v, 1
  {
    Tree(KindOf(v),
         if v.tag.None? then []
         else if v.children.Present? then RenderAll(v.children.list)
         else if v.text.Some? then [Tree(Text(v.text.value), [])]
         else [])
  }

  function RenderAll(vs: seq<VNode>): (ts: seq<Tree>)
    requires WellFormedAll(vs)
    ensures |ts| == |vs| && forall i :: 0 <= i < |vs| ==> ts[i] == Render(vs[i])
    decreases vs, 0
  {
    if vs == [] then [] else [Render(vs[0])] + RenderAll(vs[1..])
  }

  lemma RenderKind(v: VNode)
    requires WellFormed(v)
    ensures Render(v).kind == KindOf(v)
    ensures v.tag.Some? && v.children.Absent? && v.text.None? ==> Render(v).kids == []
    ensures v.tag.Some? && v.children.Present? ==> Render(v).kids == RenderAll(v.children.list)
  {
  }

  // ---- trees of live nodes ----

  function Strip(t: DomTree): Tree { Tree(t.kind, StripAll(t.kids)) }

  function StripAll(ts: seq<DomTree>): (r: seq<Tree>)
    ensures |r| == |ts| && forall i :: 0 <= i < |ts| ==> r[i] == Strip(ts[i])
  {
    if ts == [] then [] else [Strip(ts[0])] + StripAll(ts[1..])
  }

  function Roots(ts: seq<DomTree>): (r: seq<nat>)
    ensures |r| == |ts| && forall i :: 0 <= i < |ts| ==> r[i] == ts[i].id
  {
    seq(|ts|, i requires 0 <= i < |ts| => ts[i].id)
  }

  // Live trees that are what createElm builds from these vnodes, one by one.
  ghost predicate Match(ts: seq<DomTree>, vs: seq<VNode>)
    requires WellFormedAll(vs)
  {
    |ts| == |vs| && forall i :: 0 <= i < |vs| ==> Strip(ts[i]) == Render(vs[i])
  }

  lemma MatchAll(ts: seq<DomTree>, vs: seq<VNode>)
    requires WellFormedAll(vs)
    ensures Match(ts, vs) <==> StripAll(ts) == RenderAll(vs)
  {
    if StripAll(ts) == RenderAll(vs) {
      forall i | 0 <= i < |vs| ensures Strip(ts[i]) == Render(vs[i]) {
        assert StripAll(ts)[i] == RenderAll(vs)[i];
      }
    }
  }

  ghost function Ids(t: DomTree): set<nat> { {t.id} + IdsOf(t.kids) }

  ghost function IdsOf(ts: seq<DomTree>): set<nat> {
    if ts == [] then {} else Ids(ts[0]) + IdsOf(ts[1..])
  }

  // No node occurs twice.
  ghost predicate Sound(t: DomTree) { t.id !in IdsOf(t.kids) && Forest(t.kids) }

  ghost predicate Forest(ts: seq<DomTree>) {
    ts != [] ==> Sound(ts[0]) && Ids(ts[0]) !! IdsOf(ts[1..]) && Forest(ts[1..])
  }

  // The document at one moment: node kinds and child lists.
  datatype Shot = Shot(kinds: map<nat, Kind>, kids: map<nat, seq<nat>>)

  // The document contains the tree.
  ghost predicate Holds(d: Shot, t: DomTree) {
    && t.id in d.kinds && t.id in d.kids && d.kinds[t.id] == t.kind && d.kids[t.id] == Roots(t.kids)
    && HoldsAll(d, t.kids)
  }

  ghost predicate HoldsAll(d: Shot, ts: seq<DomTree>) {
    ts != [] ==> Holds(d, ts[0]) && HoldsAll(d, ts[1..])
  }

  // ---- concatenation ----

  lemma {:induction false} IdsConcat(a: seq<DomTree>, b: seq<DomTree>)
    ensures IdsOf(a + b) == IdsOf(a) + IdsOf(b)
  {
    if a == [] {
      assert a + b == b;
    } else {
      IdsConcat(a[1..], b);
      assert (a + b)[1..] == a[1..] + b;
    }
  }

  lemma {:induction false} ForestConcat(a: seq<DomTree>, b: seq<DomTree>)
    ensures Forest(a + b) <==> Forest(a) && Forest(b) && IdsOf(a) !! IdsOf(b)
  {
    if a == [] {
      assert a + b == b;
    } else {
      ForestConcat(a[1..], b);
      IdsConcat(a[1..], b);
      assert (a + b)[1..] == a[1..] + b;
    }
  }

  lemma {:induction false} HoldsConcat(d: Shot, a: seq<DomTree>, b: seq<DomTree>)
    ensures HoldsAll(d, a + b) <==> HoldsAll(d, a) && HoldsAll(d, b)
  {
    if a == [] {
      assert a + b == b;
    } else {
      HoldsConcat(d, a[1..], b);
      assert (a + b)[1..] == a[1..] + b;
    }
  }

  lemma NoIds()
    ensures IdsOf([]) == {}
  {
  }

  lemma OneTree(d: Shot, t: DomTree)
    ensures IdsOf([t]) == Ids(t)
    ensures Forest([t]) <==> Sound(t)
    ensures HoldsAll(d, [t]) <==> Holds(d, t)
  {
    assert [t][1..] == [];
  }

  // ---- frames ----

  ghost predicate SameAt(d: Shot, d': Shot, x: nat) {
    && (x in d.kinds ==> x in d'.kinds && d'.kinds[x] == d.kinds[x])
    && (x in d.kids ==> x in d'.kids && d'.kids[x] == d.kids[x])
  }

  lemma {:induction false} HoldsFrame(d: Shot, d': Shot, t: DomTree)
    requires Holds(d, t) && forall x :: x in Ids(t) ==> SameAt(d, d', x)
    ensures Holds(d', t)
    decreases t, 1
  {
    HoldsAllFrame(d, d', t.kids);
    assert SameAt(d, d', t.id);
  }

  lemma {:induction false} HoldsAllFrame(d: Shot, d': Shot, ts: seq<DomTree>)
    requires HoldsAll(d, ts) && forall x :: x in IdsOf(ts) ==> SameAt(d, d', x)
    ensures HoldsAll(d', ts)
    decreases ts, 0
  {
    if ts != [] {
      HoldsFrame(d, d', ts[0]);
      HoldsAllFrame(d, d', ts[1..]);
    }
  }

  lemma {:induction false} HeldIdsExist(d: Shot, ts: seq<DomTree>)
    requires HoldsAll(d, ts)
    ensures forall x :: x in IdsOf(ts) ==> x in d.kinds && x in d.kids
    decreases ts
  {
    if ts != [] {
      HeldIdsExist(d, ts[0].kids);
      HeldIdsExist(d, ts[1..]);
    }
  }

  lemma {:induction false} RootsAreIds(ts: seq<DomTree>)
    ensures forall i :: 0 <= i < |ts| ==> ts[i].id in IdsOf(ts)
  {
    if ts != [] {
      RootsAreIds(ts[1..]);
      forall i | 0 < i < |ts| ensures ts[i].id in IdsOf(ts) {
        assert ts[i] == ts[1..][i - 1];
      }
    }
  }

  lemma {:induction false} ForestRootsDistinct(ts: seq<DomTree>)
    requires Forest(ts)
    ensures forall i, j :: 0 <= i < j < |ts| ==> ts[i].id != ts[j].id
  {
    if ts != [] {
      ForestRootsDistinct(ts[1..]);
      RootsAreIds(ts[1..]);
      forall i, j | 0 <= i < j < |ts| ensures ts[i].id != ts[j].id {
        assert ts[j] == ts[1..][j - 1];
        assert i > 0 ==> ts[i] == ts[1..][i - 1];
      }
    }
  }

  // ---- what the document shows, without reference to a DomTree ----

  ghost predicate Shows(d: Shot, id: nat, tree: Tree)
    decreases tree
  {
    && id in d.kinds && id in d.kids && d.kinds[id] == tree.kind && |d.kids[id]| == |tree.kids|
    && forall i :: 0 <= i < |tree.kids| ==> Shows(d, d.kids[id][i], tree.kids[i])
  }

  lemma {:induction false} HeldShows(d: Shot, t: DomTree)
    requires Holds(d, t)
    ensures Shows(d, t.id, Strip(t))
    decreases t
  {
    forall i | 0 <= i < |t.kids| ensures Shows(d, d.kids[t.id][i], Strip(t).kids[i]) {
      HeldAt(d, t.kids, i);
      HeldShows(d, t.kids[i]);
    }
  }

  lemma {:induction false} HeldAt(d: Shot, ts: seq<DomTree>, i: nat)
    requires HoldsAll(d, ts) && i < |ts|
    ensures Holds(d, ts[i])
  {
    if i > 0 {
      HeldAt(d, ts[1..], i - 1);
    }
  }

  // A node shows one tree only.
  lemma {:induction false} ShowsUnique(d: Shot, id: nat, a: Tree, b: Tree)
    requires Shows(d, id, a) && Shows(d, id, b)
    ensures a == b
    decreases a
  {
    forall i | 0 <= i < |a.kids| ensures a.kids[i] == b.kids[i] {
      ShowsUnique(d, d.kids[id][i], a.kids[i], b.kids[i]);
    }
    assert a.kids == b.kids;
  }
}
