// Lists without repetition.
module Lists {
  ghost predicate Distinct<T>(s: seq<T>) { forall i, j :: 0 <= i < j < |s| ==> s[i] != s[j] }

  ghost function Elements<T>(s: seq<T>): set<T> { set x | x in s }

  // The first occurrence of e goes.
  function Without<T(==)>(s: seq<T>, e: T): seq<T> {
    if s == [] then [] else if s[0] == e then s[1..] else [s[0]] + Without(s[1..], e)
  }

  lemma {:induction false} WithoutOne<T>(s: seq<T>, e: T)
    requires e in s
    ensures multiset(Without(s, e)) == multiset(s) - multiset{e}
  {
    assert s == [s[0]] + s[1..];
    if s[0] != e {
      WithoutOne(s[1..], e);
    }
  }

  lemma {:induction false} WithoutSplit<T>(a: seq<T>, e: T, b: seq<T>)
    requires e !in a
    ensures Without(a + [e] + b, e) == a + b
  {
    var s := a + [e] + b;
    if a != [] {
      WithoutSplit(a[1..], e, b);
      assert s[1..] == a[1..] + [e] + b;
    }
  }

  lemma {:induction false} WithoutMembers<T>(s: seq<T>, e: T)
    requires Distinct(s)
    ensures Distinct(Without(s, e))
    ensures forall x :: x in Without(s, e) <==> x in s && x != e
  {
    if s != [] {
      assert s[0] !in s[1..];
      WithoutMembers(s[1..], e);
    }
  }
}
