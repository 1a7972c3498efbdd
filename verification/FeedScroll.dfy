// The scroll cursor of the followed-blogs feed: an inbox sorted by descending time, read two entries at a time.
module FeedScroll {
  import opened Wrappers

  const PAGE := 2

  datatype Item = Item(blog: int, time: int)

  // The sorted set from the newest to the oldest entry; times are positive.
  ghost predicate Inbox(s: seq<Item>) {
    && (forall i, j :: 0 <= i < j < |s| ==> s[i].time >= s[j].time)
    && (forall i :: 0 <= i < |s| ==> s[i].time > 0)
  }

  // How many entries are newer than max.
  function Newer(s: seq<Item>, max: int): (n: nat)
    ensures n <= |s|
  {
    if s == [] || s[0].time <= max then 0 else 1 + Newer(s[1..], max)
  }

  lemma {:induction false} NewerSplits(s: seq<Item>, max: int)
    requires Inbox(s)
    ensures forall i :: 0 <= i < |s| ==> (s[i].time > max <==> i < Newer(s, max))
  {
    if s != [] {
      if s[0].time > max {
        NewerSplits(s[1..], max);
        forall i | 0 < i < |s| ensures s[i].time > max <==> i < Newer(s, max) {
          assert s[i] == s[1..][i - 1];
        }
      } else {
        forall i | 0 <= i < |s| ensures s[i].time <= max {
          assert i == 0 || s[0].time >= s[i].time;
        }
      }
    }
  }

  // ZREVRANGEBYSCORE key max 0 LIMIT offset 2
  function Range(s: seq<Item>, max: int, offset: nat): seq<Item> {
    var from := Newer(s, max) + offset;
    if from >= |s| then [] else s[from..if from + PAGE <= |s| then from + PAGE else |s|]
  }

  datatype Scroll = Scroll(blogs: seq<int>, minTime: int, offset: nat)

  // How many entries at the end of the page share its last time.
  ghost function TiesAtEnd(page: seq<Item>): nat {
    if page == [] then 0
    else if |page| > 1 && page[|page| - 2].time == page[|page| - 1].time then 1 + TiesAtEnd(page[..|page| - 1])
    else 1
  }

  // queryBlogOfFollow: the page and the cursor for the next one; None is the empty answer.
  method QueryBlogOfFollow(inbox: seq<Item>, max: int, offset: nat) returns (r: Option<Scroll>)
    requires Inbox(inbox)
    ensures r.None? <==> Range(inbox, max, offset) == []
    ensures r.Some? ==>
              var page := Range(inbox, max, offset);
              && |r.value.blogs| == |page| && (forall i :: 0 <= i < |page| ==> r.value.blogs[i] == page[i].blog)
              && r.value.minTime == page[|page| - 1].time && r.value.offset == TiesAtEnd(page)
  {
    var tuples := Range(inbox, max, offset);
    if tuples == [] {
      return None;
    }
    var ids, minTime, os := [], 0, 1;
    for k := 0 to |tuples|
      invariant |ids| == k && forall i :: 0 <= i < k ==> ids[i] == tuples[i].blog
      invariant if k == 0 then minTime == 0 && os == 1
                else minTime == tuples[k - 1].time && os == TiesAtEnd(tuples[..k])
    {
      assert tuples[k] in inbox;
      assert tuples[..k + 1][..k] == tuples[..k];
      ids := ids + [tuples[k].blog];
      if tuples[k].time == minTime {
        os := os + 1;
      } else {
        minTime, os := tuples[k].time, 1;
      }
    }
    assert tuples[..|tuples|] == tuples;
    r := Some(Scroll(ids, minTime, os));
  }

  // ---- what a cursor means ----

  // The number of entries that a reader with this cursor has passed.
  function Position(s: seq<Item>, max: int, offset: nat): nat { Newer(s, max) + offset }

  // All skipped entries are tied at max: the offset counts within one tie group.
  ghost predicate ValidCursor(s: seq<Item>, max: int, offset: nat) {
    Position(s, max, offset) <= |s| && forall i :: Newer(s, max) <= i < Position(s, max, offset) ==> s[i].time == max
  }

  // Entries that are tied with the last one of the page, counted from the first of them.
  lemma {:induction false} TiesReach(s: seq<Item>, from: nat, end: nat)
    requires Inbox(s) && from < end <= |s|
    ensures var last := s[end - 1].time; var first := Newer(s, last);
            TiesAtEnd(s[from..end]) == if first >= from then end - first else end - from
    decreases end
  {
    var page := s[from..end];
    var last := s[end - 1].time;
    NewerSplits(s, last);
    if end - from > 1 {
      assert page[..|page| - 1] == s[from..end - 1];
      if s[end - 2].time == last {
        TiesReach(s, from, end - 1);
      }
    }
  }

  // How many entries are not older than max: where the group that is tied at max ends.
  function TiesEnd(s: seq<Item>, max: int): nat { Newer(s, max - 1) }

  // The returned cursor is valid, and it stands for the end of the page exactly if the group tied at max ends inside
  // the page, or the page was not continued inside that group.
  lemma CursorMovesToPageEnd(s: seq<Item>, max: int, offset: nat)
    requires Inbox(s) && ValidCursor(s, max, offset) && Range(s, max, offset) != []
    ensures var page := Range(s, max, offset); var minTime := page[|page| - 1].time;
            var end := Position(s, max, offset) + |page|;
            && ValidCursor(s, minTime, TiesAtEnd(page))
            && (Position(s, minTime, TiesAtEnd(page)) == end <==> TiesEnd(s, max) < end || offset == 0)
            && (TiesEnd(s, max) < end <==> minTime < max)
  {
    var from := Position(s, max, offset);
    var page := Range(s, max, offset);
    var end := from + |page|;
    assert page == s[from..end];
    var minTime := s[end - 1].time;
    NewerSplits(s, max);
    NewerSplits(s, max - 1);
    NewerSplits(s, minTime);
    TiesReach(s, from, end);
    assert minTime <= max;
    if from > 0 {
      assert s[from - 1].time >= max;
    }
    assert minTime < max ==> Newer(s, minTime) >= from;
  }

  // ---- whole scrolls ----

  ghost predicate DistinctTimes(s: seq<Item>) { forall i, j :: 0 <= i < j < |s| ==> s[i].time > s[j].time }

  function Blogs(s: seq<Item>): seq<int> { seq(|s|, i requires 0 <= i < |s| => s[i].blog) }

  // A reader that starts above everything and follows the cursors
  // sees every entry exactly once, newest first, and stops.
  method ReadAll(inbox: seq<Item>, start: int) returns (seen: seq<int>)
    requires Inbox(inbox) && DistinctTimes(inbox) && forall i :: 0 <= i < |inbox| ==> inbox[i].time <= start
    ensures seen == Blogs(inbox)
  {
    NewerSplits(inbox, start);
    seen := [];
    var max, offset := start, 0;
    assert Blogs(inbox[..0]) == [];
    var r := QueryBlogOfFollow(inbox, max, offset);
    while r.Some?
      invariant ValidCursor(inbox, max, offset)
      invariant seen == Blogs(inbox[..Position(inbox, max, offset)])
      invariant r.None? <==> Range(inbox, max, offset) == []
      invariant r.Some? ==>
                  var page := Range(inbox, max, offset);
                  && |r.value.blogs| == |page| && (forall i :: 0 <= i < |page| ==> r.value.blogs[i] == page[i].blog)
                  && r.value.minTime == page[|page| - 1].time && r.value.offset == TiesAtEnd(page)
      invariant offset == 0 || Range(inbox, max, offset) == [] || Range(inbox, max, offset)[|Range(inbox, max, offset)| - 1].time < max
      decreases |inbox| - Position(inbox, max, offset)
    {
      ghost var from, page := Position(inbox, max, offset), Range(inbox, max, offset);
      CursorMovesToPageEnd(inbox, max, offset);
      assert Blogs(inbox[..from + |page|]) == Blogs(inbox[..from]) + r.value.blogs;
      seen := seen + r.value.blogs;
      max, offset := r.value.minTime, r.value.offset;
      NextIsOlder(inbox, max, offset);
      r := QueryBlogOfFollow(inbox, max, offset);
    }
    assert inbox[..|inbox|] == inbox;
  }

  lemma NextIsOlder(s: seq<Item>, max: int, offset: nat)
    requires Inbox(s) && DistinctTimes(s) && ValidCursor(s, max, offset) && offset >= 1
    ensures Range(s, max, offset) == [] || Range(s, max, offset)[|Range(s, max, offset)| - 1].time < max
  {
    NewerSplits(s, max);
    var from, page := Position(s, max, offset), Range(s, max, offset);
    if page != [] {
      assert s[Newer(s, max)].time == max;
      assert page[|page| - 1] == s[from + |page| - 1];
    }
  }

  // Three entries with one time: the first page, asked for at any later time, sends the reader into the group, the next
  // one inside it, and from there the pages alternate: the reader never gets past the group.
  lemma TieGroupRepeats(t: int, now: int)
    requires 0 < t < now
    ensures var s := [Item(1, t), Item(2, t), Item(3, t)];
            && Inbox(s)
            && Range(s, now, 0) == [Item(1, t), Item(2, t)] && TiesAtEnd(Range(s, now, 0)) == 2
            && Range(s, t, 2) == [Item(3, t)] && TiesAtEnd(Range(s, t, 2)) == 1
            && Range(s, t, 1) == [Item(2, t), Item(3, t)] && TiesAtEnd(Range(s, t, 1)) == 2
  {
    var s := [Item(1, t), Item(2, t), Item(3, t)];
    assert Newer(s, t) == 0 && Newer(s, now) == 0;
    assert Range(s, now, 0) == s[0..2] == [Item(1, t), Item(2, t)];
    assert Range(s, t, 2) == s[2..3] == [Item(3, t)];
    assert Range(s, t, 1) == s[1..3] == [Item(2, t), Item(3, t)];
    assert [Item(1, t), Item(2, t)][..1] == [Item(1, t)];
    assert [Item(2, t), Item(3, t)][..1] == [Item(2, t)];
  }
}
