// A parent node and its row of child trees, under the moves of the patcher.
module VdomRows {
  import opened Lists
  import opened Wrappers
  import opened VdomTrees
  import opened VdomDocument

  // The child list of p is exactly the roots of these trees, which share no node.
  ghost predicate Row(d: Shot, p: nat, ts: seq<DomTree>) {
    && p in d.kinds && p in d.kids && d.kids[p] == Roots(ts)
    && Forest(ts) && HoldsAll(d, ts) && p !in IdsOf(ts)
  }

  // Every node that existed and is not touched is as it was.
  ghost predicate Kept(d: Shot, d': Shot, touched: set<nat>) {
    forall x :: (x in d.kinds || x in d.kids) && x !in touched ==> SameAt(d, d', x)
  }

  // All nodes of the tree were touched or are new.
  ghost predicate Grown(d: Shot, ids: set<nat>, touched: set<nat>) {
    forall x :: x in ids && x !in touched ==> x !in d.kids && x !in d.kinds
  }

  lemma KeptTrans(a: Shot, b: Shot, c: Shot, s: set<nat>, t: set<nat>)
    requires Kept(a, b, s) && Kept(b, c, t)
    requires forall x :: x in t ==> x in s || (x !in a.kinds && x !in a.kids)
    ensures Kept(a, c, s)
  {
    forall x | (x in a.kinds || x in a.kids) && x !in s ensures SameAt(a, c, x) {
      assert SameAt(a, b, x);
      assert SameAt(b, c, x);
    }
  }

  // p's row seen around one of its trees.
  ghost predicate Around(d: Shot, p: nat, a: seq<DomTree>, x: DomTree, b: seq<DomTree>) {
    && p in d.kinds && p in d.kids && d.kids[p] == Roots(a + [x] + b)
    && Forest(a) && Forest(b) && Sound(x) && HoldsAll(d, a) && HoldsAll(d, b) && Holds(d, x)
    && IdsOf(a) !! Ids(x) && IdsOf(a) !! IdsOf(b) && Ids(x) !! IdsOf(b)
    && p !in IdsOf(a) && p !in IdsOf(b) && p !in Ids(x)
  }

  lemma RowAround(d: Shot, p: nat, a: seq<DomTree>, x: DomTree, b: seq<DomTree>)
    ensures Row(d, p, a + [x] + b) <==> Around(d, p, a, x, b)
    ensures IdsOf(a + [x] + b) == IdsOf(a) + Ids(x) + IdsOf(b)
  {
    OneTree(d, x);
    IdsConcat(a, [x]);
    IdsConcat(a + [x], b);
    ForestConcat(a, [x]);
    ForestConcat(a + [x], b);
    HoldsConcat(d, a, [x]);
    HoldsConcat(d, a + [x], b);
  }

  lemma RowSplit(d: Shot, p: nat, a: seq<DomTree>, b: seq<DomTree>)
    requires Row(d, p, a + b)
    ensures Forest(a) && Forest(b) && HoldsAll(d, a) && HoldsAll(d, b) && IdsOf(a) !! IdsOf(b)
    ensures p !in IdsOf(a) && p !in IdsOf(b) && IdsOf(a + b) == IdsOf(a) + IdsOf(b)
  {
    IdsConcat(a, b);
    ForestConcat(a, b);
    HoldsConcat(d, a, b);
  }

  // One tree of the row was patched in place.
  lemma PatchedRow(d: Shot, d': Shot, p: nat, a: seq<DomTree>, x: DomTree, b: seq<DomTree>, x': DomTree)
    requires Row(d, p, a + [x] + b) && Kept(d, d', Ids(x))
    requires Holds(d', x') && Sound(x') && x'.id == x.id && Grown(d, Ids(x'), Ids(x))
    ensures Row(d', p, a + [x'] + b) && Grown(d, IdsOf(a + [x'] + b), IdsOf(a + [x] + b))
  {
    hide Row, Forest, Sound, Holds, HoldsAll, Ids, IdsOf;
    RowAround(d, p, a, x, b);
    HeldIdsExist(d, a);
    HeldIdsExist(d, b);
    HoldsAllFrame(d, d', a);
    HoldsAllFrame(d, d', b);
    assert SameAt(d, d', p);
    assert Roots(a + [x'] + b) == Roots(a + [x] + b);
    RowAround(d', p, a, x', b);
  }

  // What surrounds one tree, as one sequence.
  ghost predicate Rest(d: Shot, p: nat, x: DomTree, rest: seq<DomTree>) {
    && Forest(rest) && HoldsAll(d, rest) && Sound(x) && Holds(d, x)
    && IdsOf(rest) !! Ids(x) && p !in IdsOf(rest) && p !in Ids(x)
  }

  // list is rest with x somewhere in it.
  ghost predicate Split(list: seq<DomTree>, a: seq<DomTree>, x: DomTree, b: seq<DomTree>, rest: seq<DomTree>) {
    list == a + [x] + b && rest == a + b
  }

  lemma RowRest(d: Shot, p: nat, list: seq<DomTree>, a: seq<DomTree>, x: DomTree, b: seq<DomTree>, rest: seq<DomTree>)
    requires Split(list, a, x, b, rest)
    ensures Row(d, p, list) <==> p in d.kinds && p in d.kids && d.kids[p] == Roots(list) && Rest(d, p, x, rest)
    ensures IdsOf(list) == IdsOf(rest) + Ids(x)
  {
    hide Row, Forest, Sound, Holds, HoldsAll, Ids, IdsOf;
    RowAround(d, p, a, x, b);
    IdsConcat(a, b);
    ForestConcat(a, b);
    HoldsConcat(d, a, b);
  }

  lemma RestFrame(d: Shot, d': Shot, p: nat, x: DomTree, rest: seq<DomTree>, list: seq<nat>)
    requires Rest(d, p, x, rest) && d' == d.(kids := d.kids[p := list])
    ensures Rest(d', p, x, rest)
  {
    HoldsAllFrame(d, d', rest);
    HoldsFrame(d, d', x);
  }

  // One tree of the row moved to another place.
  lemma MovedRow(d: Shot, d': Shot, p: nat, x: DomTree, rest: seq<DomTree>,
                 was: seq<DomTree>, a: seq<DomTree>, b: seq<DomTree>, now: seq<DomTree>, e: seq<DomTree>, f: seq<DomTree>)
    requires Split(was, a, x, b, rest) && Split(now, e, x, f, rest) && Row(d, p, was)
    requires p in d.kids && d' == d.(kids := d.kids[p := Roots(now)])
    ensures Row(d', p, now) && IdsOf(now) == IdsOf(was)
  {
    hide *;
    RowRest(d, p, was, a, x, b, rest);
    RestFrame(d, d', p, x, rest, Roots(now));
    RowRest(d', p, now, e, x, f, rest);
  }

  // A new tree entered the row.
  lemma InsertedRow(d: Shot, d': Shot, p: nat, a: seq<DomTree>, x: DomTree, b: seq<DomTree>)
    requires Row(d, p, a + b) && Kept(d, d', {p})
    requires Holds(d', x) && Sound(x) && Grown(d, Ids(x), {})
    requires p in d'.kinds && p in d'.kids && d'.kids[p] == Roots(a + [x] + b)
    ensures Row(d', p, a + [x] + b) && Grown(d, IdsOf(a + [x] + b), IdsOf(a + b))
  {
    RowSplit(d, p, a, b);
    HeldIdsExist(d, a);
    HeldIdsExist(d, b);
    HoldsAllFrame(d, d', a);
    HoldsAllFrame(d, d', b);
    RowAround(d', p, a, x, b);
  }

  // One tree left the row.
  lemma RemovedRow(d: Shot, d': Shot, p: nat, a: seq<DomTree>, x: DomTree, b: seq<DomTree>)
    requires Row(d, p, a + [x] + b) && d' == d.(kids := d.kids[p := Roots(a + b)])
    ensures Row(d', p, a + b) && IdsOf(a + b) <= IdsOf(a + [x] + b) && Kept(d, d', {p})
  {
    RowAround(d, p, a, x, b);
    IdsConcat(a, b);
    ForestConcat(a, b);
    HoldsAllFrame(d, d', a);
    HoldsAllFrame(d, d', b);
    HoldsConcat(d', a, b);
  }

  // ---- what the node operations do to a row ----

  lemma RootsConcat(a: seq<DomTree>, x: DomTree, b: seq<DomTree>)
    ensures Roots(a + [x] + b) == Roots(a) + [x.id] + Roots(b) && Roots(a + b) == Roots(a) + Roots(b)
  {
  }

  lemma RootAbsent(d: Shot, p: nat, a: seq<DomTree>, x: DomTree, b: seq<DomTree>)
    requires Row(d, p, a + [x] + b)
    ensures x.id !in Roots(a) && x.id !in Roots(b)
  {
    RowAround(d, p, a, x, b);
    RootsAreIds(a);
    RootsAreIds(b);
  }

  lemma DetachedChild(d: Shot, parent: map<nat, nat>, next: nat, p: nat, a: seq<DomTree>, x: DomTree, b: seq<DomTree>)
    requires Row(d, p, a + [x] + b) && ValidDocument(d.kinds, d.kids, parent, next)
    ensures x.id in parent && parent[x.id] == p && x.id in d.kids && x.id != p
    ensures Detached(d.kids, parent, x.id) == d.kids[p := Roots(a + b)]
  {
    RootsConcat(a, x, b);
    RootAbsent(d, p, a, x, b);
    assert x.id in d.kids[p];
    WithoutSplit(Roots(a), x.id, Roots(b));
    RowAround(d, p, a, x, b);
  }

  lemma MiddleAbsent(a: seq<nat>, y: nat, b: seq<nat>)
    requires Distinct(a + [y] + b)
    ensures y !in a
  {
    var s := a + [y] + b;
    forall i | 0 <= i < |a| ensures a[i] != y {
      assert s[i] != s[|a|];
    }
  }

  // The child list without x, and y in it.
  lemma ListRest(d: Shot, parent: map<nat, nat>, next: nat, p: nat, a: seq<DomTree>, x: DomTree, b: seq<DomTree>)
    requires Row(d, p, a + [x] + b) && ValidDocument(d.kinds, d.kids, parent, next)
    ensures Distinct(Roots(a + b))
    ensures forall z :: z in Roots(a + b) ==> z in d.kids[p] && z != x.id
  {
    DetachedChild(d, parent, next, p, a, x, b);
    WithoutMembers(d.kids[p], x.id);
    RootAbsent(d, p, a, x, b);
    RootsConcat(a, x, b);
    WithoutSplit(Roots(a), x.id, Roots(b));
  }

  lemma InsertedInRoots(e: seq<DomTree>, y: DomTree, f: seq<DomTree>, x: DomTree)
    requires Distinct(Roots(e + [y] + f))
    ensures InsertedBefore(Roots(e + [y] + f), x.id, y.id) == Roots(e + [x] + ([y] + f))
    ensures y.id in Roots(e + [y] + f)
  {
    RootsConcat(e, y, f);
    MiddleAbsent(Roots(e), y.id, Roots(f));
    InsertedSplit(Roots(e), y.id, Roots(f), x.id);
    assert Roots(e + [x] + ([y] + f)) == Roots(e) + [x.id] + ([y.id] + Roots(f));
    assert (e + [y] + f)[|e|] == y;
  }

  // The node that insertBefore is given to put something in front of this row.
  function First(ts: seq<DomTree>): Option<nat> { if ts == [] then None else Some(ts[0].id) }

  // insertBefore of a child of p in front of other children of p.
  lemma MoveBefore(d: Shot, parent: map<nat, nat>, next: nat, p: nat, a: seq<DomTree>, x: DomTree, b: seq<DomTree>,
                   e: seq<DomTree>, f: seq<DomTree>)
    requires Row(d, p, a + [x] + b) && ValidDocument(d.kinds, d.kids, parent, next)
    requires a + b == e + f
    ensures x.id in d.kids && p in d.kids && (f != [] ==> f[0].id in parent && parent[f[0].id] == p && f[0].id != x.id)
    ensures Inserted(d.kids, parent, p, x.id, First(f)) == d.kids[p := Roots(e + [x] + f)]
  {
    ListRest(d, parent, next, p, a, x, b);
    DetachedChild(d, parent, next, p, a, x, b);
    hide Row, Roots;
    if f == [] {
      assert e + [x] + f == e + [x] && e + f == e;
      assert Roots(e + [x]) == Roots(e) + [x.id] by {
        RootsConcat(e, x, []);
        assert e + [x] + [] == e + [x] && Roots([]) == [];
      }
    } else {
      var y, g := f[0], f[1..];
      assert f == [y] + g;
      assert e + f == e + [y] + g;
      InsertedInRoots(e, y, g, x);
    }
  }

  // insertBefore of a new node in front of children of p.
  lemma NewBefore(d: Shot, parent: map<nat, nat>, next: nat, p: nat, e: seq<DomTree>, f: seq<DomTree>, x: DomTree)
    requires Row(d, p, e + f) && ValidDocument(d.kinds, d.kids, parent, next) && x.id !in parent
    ensures f != [] ==> f[0].id in parent && parent[f[0].id] == p && f[0].id != x.id
    ensures Inserted(d.kids, parent, p, x.id, First(f)) == d.kids[p := Roots(e + [x] + f)]
  {
    if f == [] {
      assert e + [x] + f == e + [x] && e + f == e;
      assert Roots(e + [x]) == Roots(e) + [x.id];
    } else {
      var y, g := f[0], f[1..];
      assert f == [y] + g;
      assert e + f == e + [y] + g;
      RootsConcat(e, y, g);
      RootAbsent(d, p, e, y, g);
      assert y.id in d.kids[p];
      InsertedSplit(Roots(e), y.id, Roots(g), x.id);
      assert Roots(e + [x] + ([y] + g)) == Roots(e) + [x.id] + ([y.id] + Roots(g));
    }
  }

  // ---- a row over a whole update ----

  ghost predicate SameKind(d: Shot, d': Shot, e: nat) {
    e in d.kinds && e in d'.kinds && d'.kinds[e] == d.kinds[e] && e in d.kids && e in d'.kids
  }

  // Since d, only p's child list and the nodes in s (then below p) changed, and p's row is now ts.
  ghost predicate RowSince(d: Shot, d': Shot, p: nat, ts: seq<DomTree>, s: set<nat>) {
    && Row(d', p, ts) && Kept(d, d', s + {p}) && Grown(d, IdsOf(ts), s) && SameKind(d, d', p)
    && p !in s && s <= d.kids.Keys <= d'.kids.Keys
  }

  lemma RowSinceNow(d: Shot, p: nat, ts: seq<DomTree>)
    requires Row(d, p, ts)
    ensures RowSince(d, d, p, ts, IdsOf(ts))
  {
    HeldIdsExist(d, ts);
  }

  lemma RowSinceKeys(d: Shot, d1: Shot, p: nat, ts: seq<DomTree>, s: set<nat>)
    requires RowSince(d, d1, p, ts, s)
    ensures d.kids.Keys <= d1.kids.Keys && p in d1.kids && Row(d1, p, ts)
  {
  }

  // A tree that was built inside the row.
  lemma AddedRow(d: Shot, d1: Shot, d2: Shot, p: nat, a: seq<DomTree>, x: DomTree, b: seq<DomTree>, s: set<nat>)
    requires RowSince(d, d1, p, a + b, s) && Kept(d1, d2, {p})
    requires Sound(x) && Holds(d2, x) && Grown(d1, Ids(x), {}) && SameKind(d1, d2, p)
    requires d2.kids[p] == Roots(a + [x] + b)
    ensures RowSince(d, d2, p, a + [x] + b, s)
  {
    hide Row, Forest, Sound, Holds, HoldsAll, Ids, IdsOf;
    InsertedRow(d1, d2, p, a, x, b);
    KeptTrans(d, d1, d2, s + {p}, {p});
    forall y | y in d1.kids ensures y in d2.kids {
      assert y == p || SameAt(d1, d2, y);
    }
    forall y | y in d.kids || y in d.kinds ensures y in s || y in d1.kids || y in d1.kinds {
      assert y in s || y == p || SameAt(d, d1, y);
    }
  }

  lemma PatchedRowSince(d: Shot, d1: Shot, d2: Shot, p: nat, a: seq<DomTree>, x: DomTree, b: seq<DomTree>, x': DomTree,
                        s: set<nat>)
    requires RowSince(d, d1, p, a + [x] + b, s) && Kept(d1, d2, Ids(x))
    requires Holds(d2, x') && Sound(x') && x'.id == x.id && Grown(d1, Ids(x'), Ids(x)) && d1.kids.Keys <= d2.kids.Keys
    ensures RowSince(d, d2, p, a + [x'] + b, s)
  {
    hide Row, Forest, Sound, Holds, HoldsAll, Ids, IdsOf;
    PatchedRow(d1, d2, p, a, x, b, x');
    assert p !in Ids(x) && Ids(x) <= IdsOf(a + [x] + b) by { RowAround(d1, p, a, x, b); }
    KeptTrans(d, d1, d2, s + {p}, Ids(x));
    assert SameAt(d1, d2, p);
    forall y | y in d.kids || y in d.kinds ensures y in s || y in d1.kids || y in d1.kinds {
      assert y in s || y == p || SameAt(d, d1, y);
    }
  }

  lemma MovedRowSince(d: Shot, d1: Shot, d2: Shot, p: nat, x: DomTree, rest: seq<DomTree>, was: seq<DomTree>,
                      a: seq<DomTree>, b: seq<DomTree>, now: seq<DomTree>, e: seq<DomTree>, f: seq<DomTree>, s: set<nat>)
    requires Split(was, a, x, b, rest) && Split(now, e, x, f, rest) && RowSince(d, d1, p, was, s)
    requires p in d1.kids && d2 == d1.(kids := d1.kids[p := Roots(now)])
    ensures RowSince(d, d2, p, now, s)
  {
    hide Row, IdsOf, Roots, Split;
    MovedRow(d1, d2, p, x, rest, was, a, b, now, e, f);
    KeptTrans(d, d1, d2, s + {p}, {p});
  }

  lemma RemovedRowSince(d: Shot, d1: Shot, d2: Shot, p: nat, a: seq<DomTree>, x: DomTree, b: seq<DomTree>, s: set<nat>)
    requires RowSince(d, d1, p, a + [x] + b, s) && p in d1.kids && d2 == d1.(kids := d1.kids[p := Roots(a + b)])
    ensures RowSince(d, d2, p, a + b, s)
  {
    hide Row, IdsOf, Roots;
    RemovedRow(d1, d2, p, a, x, b);
    KeptTrans(d, d1, d2, s + {p}, {p});
  }
}
