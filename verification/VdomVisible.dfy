// What a reader finds in live nodes and in vnodes, list by list: the texts, the comments and the elements, each in
// document order. Neither side is defined through the tree that a vnode describes.
module VdomVisible {
  import opened Wrappers
  import opened VdomTrees

  // ---- in live nodes ----

  ghost function TextsIn(t: DomTree): seq<string> {
    (if t.kind.Text? then [t.kind.text] else []) + TextsInAll(t.kids)
  }

  ghost function TextsInAll(ts: seq<DomTree>): seq<string> {
    if ts == [] then [] else TextsIn(ts[0]) + TextsInAll(ts[1..])
  }

  ghost function CommentsIn(t: DomTree): seq<string> {
    (if t.kind.Comment? then [t.kind.text] else []) + CommentsInAll(t.kids)
  }

  ghost function CommentsInAll(ts: seq<DomTree>): seq<string> {
    if ts == [] then [] else CommentsIn(ts[0]) + CommentsInAll(ts[1..])
  }

  // Tag and data of each element, a parent before its children.
  ghost function ElementsIn(t: DomTree): seq<(string, Option<Data>)> {
    (if t.kind.Element? then [(t.kind.tag, t.kind.data)] else []) + ElementsInAll(t.kids)
  }

  ghost function ElementsInAll(ts: seq<DomTree>): seq<(string, Option<Data>)> {
    if ts == [] then [] else ElementsIn(ts[0]) + ElementsInAll(ts[1..])
  }

  // ---- in vnodes ----

  // A vnode that is neither an element nor a comment is a text; an element has an own text or children.
  ghost function TextsOf(v: VNode): seq<string>
    decreases v, 1
  {
    if v.isComment && v.tag.None? then []
    else (if v.text.Some? then [v.text.value] else []) + (if v.children.Present? then TextsOfAll(v.children.list) else [])
  }

  ghost function TextsOfAll(vs: seq<VNode>): seq<string>
    decreases vs, 0
  {
    if vs == [] then [] else TextsOf(vs[0]) + TextsOfAll(vs[1..])
  }

  ghost function CommentsOf(v: VNode): seq<string>
    decreases v, 1
  {
    if v.tag.None? then (if v.isComment && v.text.Some? then [v.text.value] else [])
    else if v.children.Present? then CommentsOfAll(v.children.list)
    else []
  }

  ghost function CommentsOfAll(vs: seq<VNode>): seq<string>
    decreases vs, 0
  {
    if vs == [] then [] else CommentsOf(vs[0]) + CommentsOfAll(vs[1..])
  }

  ghost function ElementsOf(v: VNode): seq<(string, Option<Data>)>
    decreases v, 1
  {
    if v.tag.None? then []
    else [(v.tag.value, v.data)] + (if v.children.Present? then ElementsOfAll(v.children.list) else [])
  }

  ghost function ElementsOfAll(vs: seq<VNode>): seq<(string, Option<Data>)>
    decreases vs, 0
  {
    if vs == [] then [] else ElementsOf(vs[0]) + ElementsOfAll(vs[1..])
  }

  // ---- the two agree ----

  lemma {:induction false} ReadsAs(t: DomTree, v: VNode)
    requires WellFormed(v) && Strip(t) == Render(v)
    ensures TextsIn(t) == TextsOf(v)
    ensures CommentsIn(t) == CommentsOf(v)
    ensures ElementsIn(t) == ElementsOf(v)
    decreases v, 1
  {
    assert StripAll(t.kids) == Render(v).kids;
    if v.children.Present? {
      MatchAll(t.kids, v.children.list);
      AllReadAs(t.kids, v.children.list);
    } else if v.tag.Some? && v.text.Some? {
      assert StripAll(t.kids)[0] == Tree(Text(v.text.value), []);
      OnlyText(t.kids, v.text.value);
    }
  }

  lemma OnlyText(ts: seq<DomTree>, text: string)
    requires StripAll(ts) == [Tree(Text(text), [])]
    ensures TextsInAll(ts) == [text] && CommentsInAll(ts) == [] && ElementsInAll(ts) == []
  {
    assert Strip(ts[0]) == StripAll(ts)[0];
    assert ts == [ts[0]] && ts[1..] == [];
    assert StripAll(ts[0].kids) == [] && ts[0].kids == [];
  }

  lemma {:induction false} AllReadAs(ts: seq<DomTree>, vs: seq<VNode>)
    requires WellFormedAll(vs) && Match(ts, vs)
    ensures TextsInAll(ts) == TextsOfAll(vs)
    ensures CommentsInAll(ts) == CommentsOfAll(vs)
    ensures ElementsInAll(ts) == ElementsOfAll(vs)
    decreases vs, 0
  {
    if vs != [] {
      ReadsAs(ts[0], vs[0]);
      AllReadAs(ts[1..], vs[1..]);
    }
  }
}
