// The live document: node kinds, ordered child lists and parent links, with the node operations that the patcher uses.
module VdomDocument {
  import opened Lists
  import opened Wrappers
  import opened VdomTrees

  // ---- child lists ----

  function InsertedBefore(s: seq<nat>, e: nat, ref: nat): seq<nat> {
    if s == [] then [e] else if s[0] == ref then [e] + s else [s[0]] + InsertedBefore(s[1..], e, ref)
  }

  lemma {:induction false} InsertedSplit(a: seq<nat>, ref: nat, b: seq<nat>, e: nat)
    requires ref !in a
    ensures InsertedBefore(a + [ref] + b, e, ref) == a + [e] + ([ref] + b)
  {
    var s := a + [ref] + b;
    if a != [] {
      InsertedSplit(a[1..], ref, b, e);
      assert s[1..] == a[1..] + [ref] + b;
    }
  }

  lemma {:induction false} InsertedMembers(s: seq<nat>, e: nat, ref: nat)
    requires Distinct(s) && e !in s
    ensures Distinct(InsertedBefore(s, e, ref))
    ensures forall x :: x in InsertedBefore(s, e, ref) <==> x in s || x == e
  {
    if s != [] {
      assert s[0] !in s[1..];
      InsertedMembers(s[1..], e, ref);
    }
  }

  function Following(s: seq<nat>, i: nat): Option<nat> { if i + 1 < |s| then Some(s[i + 1]) else None }

  // ---- well-formed documents ----

  // A node is in the child list of its parent, once, and in no other list; node ids are below `next`.
  ghost predicate ValidDocument(kinds: map<nat, Kind>, kids: map<nat, seq<nat>>, parent: map<nat, nat>, next: nat) {
    && kinds.Keys == kids.Keys
    && (forall x :: x in kids ==> x < next)
    && (forall p :: p in kids ==> Distinct(kids[p]))
    && (forall p, c :: p in kids ==> (c in kids[p] <==> c in parent && parent[c] == p))
    && (forall c :: c in parent ==> c in kids && parent[c] in kids)
  }

  // Removing e from the list of its parent, if it has one.
  function Detached(kids: map<nat, seq<nat>>, parent: map<nat, nat>, e: nat): map<nat, seq<nat>> {
    if e in parent && parent[e] in kids then kids[parent[e] := Without(kids[parent[e]], e)] else kids
  }

  lemma DetachedValid(kinds: map<nat, Kind>, kids: map<nat, seq<nat>>, parent: map<nat, nat>, next: nat, e: nat)
    requires ValidDocument(kinds, kids, parent, next)
    ensures ValidDocument(kinds, Detached(kids, parent, e), parent - {e}, next)
  {
    if e in parent {
      WithoutMembers(kids[parent[e]], e);
    }
  }

  lemma AttachedValid(kinds: map<nat, Kind>, kids: map<nat, seq<nat>>, parent: map<nat, nat>, next: nat, p: nat, e: nat,
                      list: seq<nat>)
    requires ValidDocument(kinds, kids, parent, next) && p in kids && e in kids && e !in parent
    requires Distinct(list) && forall x :: x in list <==> x in kids[p] || x == e
    ensures ValidDocument(kinds, kids[p := list], parent[e := p], next)
  {
  }

  function Appended(kids: map<nat, seq<nat>>, parent: map<nat, nat>, p: nat, e: nat): map<nat, seq<nat>>
    requires p in kids
  {
    var rest := Detached(kids, parent, e);
    rest[p := rest[p] + [e]]
  }

  function Inserted(kids: map<nat, seq<nat>>, parent: map<nat, nat>, p: nat, e: nat, ref: Option<nat>)
    : map<nat, seq<nat>>
    requires p in kids
  {
    if ref.None? then Appended(kids, parent, p, e)
    else
      var rest := Detached(kids, parent, e);
      rest[p := InsertedBefore(rest[p], e, ref.value)]
  }

  lemma InsertedValid(kinds: map<nat, Kind>, kids: map<nat, seq<nat>>, parent: map<nat, nat>, next: nat, p: nat, e: nat,
                      ref: nat)
    requires ValidDocument(kinds, kids, parent, next) && p in kids && e in kids
    ensures ValidDocument(kinds, Inserted(kids, parent, p, e, Some(ref)), parent[e := p], next)
  {
    DetachedValid(kinds, kids, parent, next, e);
    var rest := Detached(kids, parent, e);
    assert e !in parent - {e} && e !in rest[p];
    InsertedMembers(rest[p], e, ref);
    AttachedValid(kinds, rest, parent - {e}, next, p, e, InsertedBefore(rest[p], e, ref));
    hide ValidDocument;
    assert (parent - {e})[e := p] == parent[e := p];
  }

  lemma AppendedValid(kinds: map<nat, Kind>, kids: map<nat, seq<nat>>, parent: map<nat, nat>, next: nat, p: nat, e: nat)
    requires ValidDocument(kinds, kids, parent, next) && p in kids && e in kids
    ensures ValidDocument(kinds, Appended(kids, parent, p, e), parent[e := p], next)
  {
    DetachedValid(kinds, kids, parent, next, e);
    var rest := Detached(kids, parent, e);
    AttachedValid(kinds, rest, parent - {e}, next, p, e, rest[p] + [e]);
    hide ValidDocument;
    assert (parent - {e})[e := p] == parent[e := p];
  }

  lemma EmptiedValid(kinds: map<nat, Kind>, kids: map<nat, seq<nat>>, parent: map<nat, nat>, next: nat, e: nat)
    requires ValidDocument(kinds, kids, parent, next) && e in kids
    ensures ValidDocument(kinds, kids[e := []], map c | c in parent && parent[c] != e :: parent[c], next)
  {
  }

  lemma OnlyChild(kids: map<nat, seq<nat>>, parent: map<nat, nat>, e: nat, id: nat)
    requires e in kids && id !in kids && id !in parent
    ensures Appended(kids[e := []][id := []], parent, e, id) == kids[id := []][e := [id]]
  {
    assert [] + [id] == [id];
  }

  // ---- the document ----

  class Document {
    var kinds: map<nat, Kind>
    var kids: map<nat, seq<nat>>
    var parent: map<nat, nat>
    var next: nat

    ghost predicate Valid()
      reads this
    {
      ValidDocument(kinds, kids, parent, next)
    }

    ghost function Now(): Shot
      reads this
    {
      Shot(kinds, kids)
    }

    constructor ()
      ensures Valid() && kinds == map[]
    {
      kinds, kids, parent, next := map[], map[], map[], 0;
    }

    // nodeOps.createElement, createTextNode, createComment
    method CreateNode(kind: Kind) returns (id: nat)
      requires Valid()
      modifies this
      ensures Valid() && id == old(next) && next == id + 1 && id !in old(kids)
      ensures kinds == old(kinds)[id := kind] && kids == old(kids)[id := []] && parent == old(parent)
    {
      id := next;
      kinds, kids, next := kinds[id := kind], kids[id := []], next + 1;
    }

    // nodeOps.insertBefore: moves a node that already has a parent; without a reference it appends, and a reference
    // outside p is a DOM exception.
    method InsertBefore(p: nat, e: nat, ref: Option<nat>)
      requires Valid() && p in kids && e in kids
      requires ref.Some? ==> ref.value in parent && parent[ref.value] == p && ref.value != e
      modifies this
      ensures Valid() && kinds == old(kinds) && next == old(next) && parent == old(parent)[e := p]
      ensures kids == Inserted(old(kids), old(parent), p, e, ref)
    {
      hide ValidDocument;
      if ref.Some? {
        InsertedValid(kinds, kids, parent, next, p, e, ref.value);
        kids := Detached(kids, parent, e);
        kids, parent := kids[p := InsertedBefore(kids[p], e, ref.value)], parent[e := p];
      } else {
        AppendChild(p, e);
      }
    }

    method AppendChild(p: nat, e: nat)
      requires Valid() && p in kids && e in kids
      modifies this
      ensures Valid() && kinds == old(kinds) && next == old(next) && parent == old(parent)[e := p]
      ensures kids == Appended(old(kids), old(parent), p, e)
    {
      hide ValidDocument;
      AppendedValid(kinds, kids, parent, next, p, e);
      kids := Detached(kids, parent, e);
      kids, parent := kids[p := kids[p] + [e]], parent[e := p];
    }

    // removeNode: nothing to do for a node without a parent.
    method RemoveNode(e: nat)
      requires Valid()
      modifies this
      ensures Valid() && kinds == old(kinds) && next == old(next)
      ensures kids == Detached(old(kids), old(parent), e)
    {
      DetachedValid(kinds, kids, parent, next, e);
      if e in parent {
        kids, parent := kids[parent[e] := Without(kids[parent[e]], e)], parent - {e};
      } else {
        assert parent - {e} == parent;
      }
    }

    method NextSibling(e: nat) returns (sibling: Option<nat>)
      requires Valid() && e in parent
      ensures parent[e] in kids
      ensures forall i :: 0 <= i < |kids[parent[e]]| && kids[parent[e]][i] == e ==> sibling == Following(kids[parent[e]], i)
    {
      var s := kids[parent[e]];
      var i := 0;
      while i < |s| && s[i] != e
        invariant 0 <= i <= |s| && forall j :: 0 <= j < i ==> s[j] != e
      {
        i := i + 1;
      }
      sibling := if i < |s| then Following(s, i) else None;
    }

    // What the create and update modules do to an element: it shows all of the vnode's data.
    method SetAttributes(e: nat, data: Option<Data>)
      requires Valid() && e in kids && kinds[e].Element?
      modifies this
      ensures Valid() && next == old(next) && kids == old(kids) && parent == old(parent)
      ensures kinds == old(kinds)[e := Element(old(kinds)[e].tag, data)]
    {
      kinds := kinds[e := Element(kinds[e].tag, data)];
    }

    // nodeOps.setTextContent on a text or comment node sets its data.
    method SetData(e: nat, text: string)
      requires Valid() && e in kids && !kinds[e].Element?
      modifies this
      ensures Valid() && next == old(next) && kids == old(kids) && parent == old(parent)
      ensures kinds == old(kinds)[e := if old(kinds)[e].Text? then Text(text) else Comment(text)]
    {
      kinds := kinds[e := if kinds[e].Text? then Text(text) else Comment(text)];
    }

    // nodeOps.setTextContent on an element replaces all children by at most one text node.
    method SetTextContent(e: nat, text: string) returns (child: Option<nat>)
      requires Valid() && e in kids && kinds[e].Element?
      modifies this
      ensures Valid() && next >= old(next)
      ensures text == "" ==> child == None && kinds == old(kinds) && kids == old(kids)[e := []] && next == old(next)
      ensures text != "" ==>
                && child == Some(old(next)) && old(next) !in old(kids) && next == old(next) + 1
                && kinds == old(kinds)[old(next) := Text(text)] && kids == old(kids)[old(next) := []][e := [old(next)]]
    {
      EmptiedValid(kinds, kids, parent, next, e);
      Fresh();
      ghost var orphans := map c | c in parent && parent[c] != e :: parent[c];
      OnlyChild(kids, orphans, e, next);
      hide ValidDocument, Appended, Detached;
      parent := map c | c in parent && parent[c] != e :: parent[c];
      kids := kids[e := []];
      child := None;
      if text != "" {
        var id := CreateNode(Text(text));
        AppendChild(e, id);
        child := Some(id);
      }
    }

    lemma Fresh()
      requires Valid()
      ensures next !in kids && next !in kinds && next !in parent
    {
    }
  }
}
