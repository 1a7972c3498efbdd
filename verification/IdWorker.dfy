// The id generator: a second count since 2022 in the high half of a 64-bit word, a daily counter in the low half.
module IdWorker {
  const BEGIN_TIMESTAMP := 1640995200
  const COUNT_BITS := 32
  const LIMIT := 0x1_0000_0000
  const WORD := 0x1_0000_0000_0000_0000

  // ---- long arithmetic, on bit patterns 0 <= p < 2^64 ----

  function Pattern(x: int): nat { x % WORD }

  function Signed(p: nat): int { if p < 0x8000_0000_0000_0000 then p else p - WORD }

  function ShiftLeft32(p: nat): nat { (p * LIMIT) % WORD }

  // Bitwise or, digit by binary digit.
  function Or(a: nat, b: nat): nat {
    if a == 0 && b == 0 then 0
    else (if a % 2 == 1 || b % 2 == 1 then 1 else 0) + 2 * Or(a / 2, b / 2)
  }

  // timestamp << 32 | count
  function Id(timestamp: int, count: int): int {
    Signed(Or(ShiftLeft32(Pattern(timestamp)), Pattern(count)))
  }

  function Pow2(k: nat): nat { if k == 0 then 1 else 2 * Pow2(k - 1) }

  lemma {:induction false} OrZero(a: nat)
    ensures Or(a, 0) == a
  {
    if a > 0 {
      OrZero(a / 2);
    }
  }

  // With no common bits, or is addition.
  lemma {:induction false} OrDisjoint(a: nat, b: nat, k: nat)
    requires b < Pow2(k)
    ensures Or(a * Pow2(k), b) == a * Pow2(k) + b
  {
    if k == 0 {
      OrZero(a);
    } else {
      var half := a * Pow2(k - 1);
      assert a * Pow2(k) == 2 * half;
      OrDisjoint(a, b / 2, k - 1);
      if half > 0 || b > 0 {
        assert (2 * half) % 2 == 0 && (2 * half) / 2 == half;
      }
    }
  }

  lemma Pow32()
    ensures Pow2(32) == LIMIT
  {
    assert Pow2(8) == 256;
    assert Pow2(16) == 65536;
    assert Pow2(24) == 16777216;
  }

  predicate InRange(timestamp: int, count: int) { 0 <= timestamp < 0x8000_0000 && 0 <= count < LIMIT }

  // In range, the id is positive and decodes to the timestamp and the count.
  lemma Decodes(timestamp: int, count: int)
    requires InRange(timestamp, count)
    ensures Id(timestamp, count) == timestamp * LIMIT + count
    ensures Id(timestamp, count) / LIMIT == timestamp && Id(timestamp, count) % LIMIT == count
  {
    Pow32();
    assert Pattern(timestamp) == timestamp && Pattern(count) == count;
    assert ShiftLeft32(timestamp) == timestamp * LIMIT;
    OrDisjoint(timestamp, count, 32);
  }

  lemma {:induction false} OrBound(a: nat, b: nat, k: nat)
    requires a < Pow2(k) && b < Pow2(k)
    ensures Or(a, b) < Pow2(k)
  {
    if k > 0 {
      OrBound(a / 2, b / 2, k - 1);
    }
  }

  // The digits r below k pass through, those above meet the digits of a.
  lemma {:induction false} OrSplit(a: nat, q: nat, r: nat, k: nat)
    requires r < Pow2(k)
    ensures Or(a * Pow2(k), q * Pow2(k) + r) == Or(a, q) * Pow2(k) + r
  {
    hide Or;
    if k == 0 {
      assert a * Pow2(k) == a && q * Pow2(k) == q && Or(a, q) * Pow2(k) == Or(a, q);
    } else {
      var p := Pow2(k - 1);
      OrSplit(a, q, r / 2, k - 1);
      Doubled(a, p);
      Doubled(q, p);
      Doubled(Or(a, q), p);
      OrDigit(a * p, q * p + r / 2, r % 2);
    }
  }

  lemma OrDigit(h: nat, b: nat, digit: nat)
    requires digit < 2
    ensures Or(2 * h, 2 * b + digit) == 2 * Or(h, b) + digit
  {
  }

  lemma Doubled(x: nat, p: nat)
    ensures x * (2 * p) == 2 * (x * p)
  {
  }

  predicate Representable(timestamp: int,
                          count: int) { 0 <= timestamp < 0x8000_0000 && 0 <= count < 0x8000_0000_0000_0000 }

  lemma IdSplit(timestamp: int, count: int)
    requires Representable(timestamp, count)
    ensures Id(timestamp, count) == Or(timestamp, count / LIMIT) * LIMIT + count % LIMIT
  {
    hide Or;
    Pow32();
    assert Pattern(timestamp) == timestamp && Pattern(count) == count;
    assert ShiftLeft32(timestamp) == timestamp * LIMIT;
    OrSplit(timestamp, count / LIMIT, count % LIMIT, 32);
    assert Pow2(31) == 0x8000_0000;
    OrBound(timestamp, count / LIMIT, 31);
  }

  // Counts past 2^32 run into the timestamp: this is exactly when two ids are one.
  lemma SameId(t1: int, c1: int, t2: int, c2: int)
    requires Representable(t1, c1) && Representable(t2, c2)
    ensures Id(t1, c1) == Id(t2, c2) <==> c1 % LIMIT == c2 % LIMIT && Or(t1, c1 / LIMIT) == Or(t2, c2 / LIMIT)
  {
    hide Or, Id;
    IdSplit(t1, c1);
    IdSplit(t2, c2);
  }

  // ---- calls ----

  // One call: its key prefix, the second the clock showed, the count Redis returned, and the id.
  datatype Issue = Issue(prefix: string, second: int, count: nat, id: int)

  // The day number of a second; the key "icr:prefix:yyyyMMdd" is as fine as this.
  function Day(second: int): int { second / 86400 }

  function Key(i: Issue): (string, int) { (i.prefix, Day(i.second)) }

  // How many of these calls used the key.
  ghost function Calls(issued: seq<Issue>, key: (string, int)): nat {
    if issued == [] then 0
    else Calls(issued[..|issued| - 1], key) + if Key(issued[|issued| - 1]) == key then 1 else 0
  }

  // What any calls at any clock readings issue: counts of one key go up by one, whatever the clocks do.
  ghost predicate History(issued: seq<Issue>) {
    forall i :: 0 <= i < |issued| ==>
      && issued[i].count == Calls(issued[..i], Key(issued[i])) + 1
      && issued[i].id == Id(issued[i].second - BEGIN_TIMESTAMP, issued[i].count)
  }

  lemma CallsGrown(issued: seq<Issue>, next: Issue, key: (string, int))
    ensures Calls(issued + [next], key) == Calls(issued, key) + if key == Key(next) then 1 else 0
  {
    assert (issued + [next])[..|issued|] == issued;
  }

  lemma HistoryGrows(issued: seq<Issue>, next: Issue)
    requires History(issued) && next.count == Calls(issued, Key(next)) + 1
    requires next.id == Id(next.second - BEGIN_TIMESTAMP, next.count)
    ensures History(issued + [next])
  {
    hide Id, Calls, Key;
    var all := issued + [next];
    forall i | 0 <= i < |all|
      ensures all[i].count == Calls(all[..i], Key(all[i])) + 1
      ensures all[i].id == Id(all[i].second - BEGIN_TIMESTAMP, all[i].count)
    {
      assert all[..i] == issued[..i];
      assert i == |issued| ==> issued[..i] == issued;
    }
  }

  // How many of these calls have the prefix and fall into the seconds lo <= second < hi.
  ghost function CallsBetween(issued: seq<Issue>, prefix: string, lo: int, hi: int): nat {
    if issued == [] then 0
    else
      var last := issued[|issued| - 1];
      CallsBetween(issued[..|issued| - 1], prefix, lo, hi) + if last.prefix == prefix && lo <= last.second < hi then 1 else 0
  }

  // The calls of one key are those of the 86400 seconds of one day.
  lemma {:induction false} CallsOfDay(issued: seq<Issue>, prefix: string, second: int)
    ensures var midnight := second - second % 86400;
            Calls(issued, (prefix, Day(second))) == CallsBetween(issued, prefix, midnight, midnight + 86400)
  {
    if issued != [] {
      CallsOfDay(issued[..|issued| - 1], prefix, second);
    }
  }

  lemma {:induction false} CallsBetweenNone(issued: seq<Issue>, prefix: string, lo: int, hi: int)
    ensures CallsBetween(issued, prefix, lo, hi) == 0
            <==> forall i :: 0 <= i < |issued| && issued[i].prefix == prefix ==> !(lo <= issued[i].second < hi)
  {
    if issued != [] {
      var n := |issued| - 1;
      CallsBetweenNone(issued[..n], prefix, lo, hi);
      assert forall i :: 0 <= i < n ==> issued[..n][i] == issued[i];
    }
  }

  // Counts restart at midnight and only then: a call gets the count 1 if and only if it is the first of its prefix on its
  // day, whatever was issued on other days; and on one day they go up by one.
  lemma CountsRestartDaily(issued: seq<Issue>, i: nat)
    requires History(issued) && i < |issued|
    ensures var midnight := issued[i].second - issued[i].second % 86400;
            && issued[i].count == CallsBetween(issued[..i], issued[i].prefix, midnight, midnight + 86400) + 1
            && (issued[i].count == 1 <==>
                forall j :: 0 <= j < i && issued[j].prefix == issued[i].prefix ==>
                              !(midnight <= issued[j].second < midnight + 86400))
  {
    hide Id, Calls, Day;
    var midnight := issued[i].second - issued[i].second % 86400;
    assert Key(issued[i]) == (issued[i].prefix, Day(issued[i].second));
    CallsOfDay(issued[..i], issued[i].prefix, issued[i].second);
    CallsBetweenNone(issued[..i], issued[i].prefix, midnight, midnight + 86400);
    assert forall j :: 0 <= j < i ==> issued[..i][j] == issued[j];
  }

  class Worker {
    // INCR counters by prefix and day
    var counters: map<(string, int), nat>
    ghost var issued: seq<Issue>

    constructor ()
      ensures Valid() && issued == []
    {
      counters, issued := map[], [];
    }

    ghost predicate Valid()
      reads this
    {
      && History(issued)
      && (forall k :: k in counters ==> counters[k] == Calls(issued, k))
      && (forall k :: k !in counters ==> Calls(issued, k) == 0)
    }

    // nextId, for any clock reading.
    method NextId(prefix: string, second: int) returns (id: int)
      requires Valid()
      modifies this
      ensures Valid()
      ensures issued == old(issued) + [Issue(prefix, second, Calls(old(issued), (prefix, Day(second))) + 1, id)]
      // the seconds since 2022 stand in front of 32 bits for the count
      ensures 0 <= second - 1640995200 < 0x8000_0000 && issued[|old(issued)|].count < 0x1_0000_0000 ==>
                id == (second - 1640995200) * 0x1_0000_0000 + issued[|old(issued)|].count
    {
      hide Id, Calls, History;
      var timestamp := second - BEGIN_TIMESTAMP;
      var key := (prefix, Day(second));
      var count := if key in counters then counters[key] + 1 else 1;
      counters := counters[key := count];
      id := Id(timestamp, count);
      if InRange(timestamp, count) {
        Decodes(timestamp, count);
      }
      ghost var before := issued;
      issued := issued + [Issue(prefix, second, count, id)];
      HistoryGrows(before, issued[|before|]);
      forall k ensures Calls(issued, k) == Calls(before, k) + if k == key then 1 else 0 {
        CallsGrown(before, issued[|before|], k);
      }
    }
  }

  lemma {:induction false} CallsGrow(issued: seq<Issue>, i: nat, j: nat, key: (string, int))
    requires i <= j <= |issued|
    ensures Calls(issued[..i], key) <= Calls(issued[..j], key)
    decreases j - i
  {
    if i < j {
      assert issued[..j][..j - 1] == issued[..j - 1];
      CallsGrow(issued, i, j - 1, key);
    }
  }

  lemma CountsGrow(issued: seq<Issue>, i: nat, j: nat)
    requires History(issued) && i < j < |issued| && Key(issued[i]) == Key(issued[j])
    ensures issued[i].count < issued[j].count
  {
    assert issued[..i + 1][..i] == issued[..i];
    CallsGrow(issued, i + 1, j, Key(issued[i]));
  }

  ghost predicate AllInRange(issued: seq<Issue>) {
    forall i :: 0 <= i < |issued| ==> InRange(issued[i].second - BEGIN_TIMESTAMP, issued[i].count)
  }

  lemma HistoryIsDistinct(issued: seq<Issue>, i: nat, j: nat)
    requires History(issued) && AllInRange(issued) && i < j < |issued| && issued[i].prefix == issued[j].prefix
    ensures issued[i].id != issued[j].id
  {
    var a, b := issued[i], issued[j];
    Decodes(a.second - BEGIN_TIMESTAMP, a.count);
    Decodes(b.second - BEGIN_TIMESTAMP, b.count);
    if a.second == b.second {
      CountsGrow(issued, i, j);
    }
  }

  // Ids of one prefix never repeat, with clocks that may stand still or go back.
  lemma IdsAreDistinct(w: Worker, i: nat, j: nat)
    requires w.Valid() && AllInRange(w.issued) && i < j < |w.issued| && w.issued[i].prefix == w.issued[j].prefix
    ensures w.issued[i].id != w.issued[j].id
  {
    HistoryIsDistinct(w.issued, i, j);
  }

  // When the clock did not go back between two calls, the later id is larger.
  lemma IdsIncrease(w: Worker, i: nat, j: nat)
    requires w.Valid() && AllInRange(w.issued) && i < j < |w.issued| && w.issued[i].prefix == w.issued[j].prefix
    ensures w.issued[i].id < w.issued[j].id <==> w.issued[i].second <= w.issued[j].second
  {
    var a, b := w.issued[i], w.issued[j];
    Decodes(a.second - BEGIN_TIMESTAMP, a.count);
    Decodes(b.second - BEGIN_TIMESTAMP, b.count);
    if a.second == b.second {
      CountsGrow(w.issued, i, j);
    }
  }

  // Without the bound of 2^32 calls a day, this is exactly when two calls get one id.
  lemma IdsCoincide(w: Worker, i: nat, j: nat)
    requires w.Valid() && i < j < |w.issued|
    requires Representable(w.issued[i].second - BEGIN_TIMESTAMP, w.issued[i].count)
    requires Representable(w.issued[j].second - BEGIN_TIMESTAMP, w.issued[j].count)
    ensures var a, b := w.issued[i], w.issued[j];
            a.id == b.id <==>
            && a.count % LIMIT == b.count % LIMIT
            && Or(a.second - BEGIN_TIMESTAMP, a.count / LIMIT) == Or(b.second - BEGIN_TIMESTAMP, b.count / LIMIT)
  {
    hide Or, Id;
    var a, b := w.issued[i], w.issued[j];
    SameId(a.second - BEGIN_TIMESTAMP, a.count, b.second - BEGIN_TIMESTAMP, b.count);
  }

  // n calls in one second.
  ghost function Burst(prefix: string, second: int, n: nat): (issued: seq<Issue>)
    ensures |issued| == n
  {
    seq(n, i requires 0 <= i < n => Issue(prefix, second, i + 1, Id(second - BEGIN_TIMESTAMP, i + 1)))
  }

  lemma {:induction false} BurstCalls(prefix: string, second: int, n: nat, i: nat)
    requires i <= n
    ensures Calls(Burst(prefix, second, n)[..i], (prefix, Day(second))) == i
  {
    hide Id;
    if i > 0 {
      var b := Burst(prefix, second, n);
      assert b[..i][..i - 1] == b[..i - 1];
      BurstCalls(prefix, second, n, i - 1);
    }
  }

  lemma BurstHistory(prefix: string, second: int, n: nat)
    ensures History(Burst(prefix, second, n))
  {
    var issued := Burst(prefix, second, n);
    forall i | 0 <= i < n
      ensures issued[i].count == Calls(issued[..i], Key(issued[i])) + 1
    {
      BurstCalls(prefix, second, n, i);
    }
    hide Calls, Id;
  }

  lemma OddOrOne(t: nat)
    requires t % 2 == 1
    ensures Or(t, 0) == t && Or(t, 1) == t
  {
    OrZero(t / 2);
  }

  // It does happen: a history of 2^32 + 1 calls in one odd second issues its first id twice.
  lemma OverflowCollides(prefix: string, second: int) returns (issued: seq<Issue>)
    requires 0 <= second - BEGIN_TIMESTAMP < 0x8000_0000 && second % 2 == 1
    ensures History(issued) && |issued| == LIMIT + 1
    ensures forall i :: 0 <= i < |issued| ==> issued[i].prefix == prefix && issued[i].second == second
    ensures issued[0].id == issued[LIMIT].id
  {
    hide Or, Id, Calls, History;
    issued := Burst(prefix, second, LIMIT + 1);
    BurstHistory(prefix, second, LIMIT + 1);
    var t := second - BEGIN_TIMESTAMP;
    OddOrOne(t);
    SameId(t, 1, t, LIMIT + 1);
  }
}
