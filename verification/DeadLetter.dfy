// Dead letters: the payload text of a stream record, and the replay that reads it back.
module DeadLetter {
  import opened Wrappers
  import opened CouponStores
  import CouponSteps
  import Decimal

  const MAX_PAYLOAD := 1000

  datatype Field = Field(key: string, value: string)

  // ---- formatPayload ----

  function Pair(f: Field): string { f.key + "=" + f.value }

  function Joined(fs: seq<Field>): string {
    if fs == [] then ""
    else if |fs| == 1 then Pair(fs[0])
    else Joined(fs[..|fs| - 1]) + "," + Pair(fs[|fs| - 1])
  }

  // The fields in the order in which the map is iterated.
  method FormatPayload(fs: seq<Field>) returns (sb: string)
    ensures sb == Joined(fs)
  {
    sb := "";
    for i := 0 to |fs|
      invariant sb == Joined(fs[..i]) && (sb == "" <==> i == 0)
    {
      assert fs[..i + 1][..i] == fs[..i];
      if |sb| > 0 {
        sb := sb + ",";
      }
      sb := sb + fs[i].key + "=" + fs[i].value;
    }
    assert fs[..|fs|] == fs;
  }

  // ---- parsePayload ----

  function IndexOf(s: string, c: char): (i: int)
    ensures i == -1 ==> c !in s
    ensures i != -1 ==> 0 <= i < |s| && s[i] == c && c !in s[..i]
  {
    if s == "" then -1
    else if s[0] == c then 0
    else
      var i := IndexOf(s[1..], c);
      assert s == [s[0]] + s[1..];
      if i == -1 then -1 else assert s[..i + 1] == [s[0]] + s[1..][..i]; i + 1
  }

  // String.split(","), before trailing empty parts are dropped.
  function Parts(s: string): (r: seq<string>)
    ensures r != []
  {
    var i := IndexOf(s, ',');
    if i == -1 then [s] else [s[..i]] + Parts(s[i + 1..])
  }

  function WithoutTrailingEmpty(parts: seq<string>): seq<string> {
    if parts != [] && parts[|parts| - 1] == "" then WithoutTrailingEmpty(parts[..|parts| - 1]) else parts
  }

  // String.trim
  function Trim(s: string): string {
    if s != "" && s[0] <= ' ' then Trim(s[1..])
    else if s != "" && s[|s| - 1] <= ' ' then Trim(s[..|s| - 1])
    else s
  }

  predicate NoOuterBlanks(s: string) { s == "" || (s[0] > ' ' && s[|s| - 1] > ' ') }

  function Put(m: map<string, string>, part: string): map<string, string> {
    var eq := IndexOf(part, '=');
    if eq > 0 then m[Trim(part[..eq]) := Trim(part[eq + 1..])] else m
  }

  function PutAll(parts: seq<string>): map<string, string> {
    if parts == [] then map[] else Put(PutAll(parts[..|parts| - 1]), parts[|parts| - 1])
  }

  function Parse(payload: string): map<string, string> {
    if payload == "" then map[] else PutAll(WithoutTrailingEmpty(Parts(payload)))
  }

  method ParsePayload(payload: string) returns (m: map<string, string>)
    ensures m == Parse(payload)
  {
    m := map[];
    if payload == "" {
      return;
    }
    var parts := WithoutTrailingEmpty(Parts(payload));
    for i := 0 to |parts|
      invariant m == PutAll(parts[..i])
    {
      assert parts[..i + 1][..i] == parts[..i];
      var eq := IndexOf(parts[i], '=');
      if eq > 0 {
        m := m[Trim(parts[i][..eq]) := Trim(parts[i][eq + 1..])];
      }
    }
    assert parts[..|parts|] == parts;
  }

  // ---- what reading means ----

  function Glued(parts: seq<string>): string
    requires parts != []
  {
    if |parts| == 1 then parts[0] else parts[0] + "," + Glued(parts[1..])
  }

  // Splitting cuts at every comma and loses nothing.
  lemma {:induction false} SplitAtCommas(s: string)
    ensures Glued(Parts(s)) == s && forall i :: 0 <= i < |Parts(s)| ==> ',' !in Parts(s)[i]
    decreases |s|
  {
    var i := IndexOf(s, ',');
    if i != -1 {
      SplitAtCommas(s[i + 1..]);
      assert Parts(s)[1..] == Parts(s[i + 1..]);
      assert s == s[..i] + "," + s[i + 1..];
    }
  }

  // Trimming takes blanks off both ends, all of them and nothing else.
  lemma {:induction false} TrimMeans(s: string) returns (a: nat, b: nat)
    ensures a <= b <= |s| && Trim(s) == s[a..b] && NoOuterBlanks(Trim(s))
    ensures forall i :: 0 <= i < a || b <= i < |s| ==> s[i] <= ' '
    decreases |s|
  {
    if s != "" && s[0] <= ' ' {
      a, b := TrimMeans(s[1..]);
      a, b := a + 1, b + 1;
    } else if s != "" && s[|s| - 1] <= ' ' {
      a, b := TrimMeans(s[..|s| - 1]);
    } else {
      a, b := 0, |s|;
    }
  }

  // The part is "k=value" but for blanks; its first equals sign is at e, and there is a name in front of it.
  ghost predicate Assigns(part: string, k: string, e: int) {
    0 < e < |part| && part[e] == '=' && '=' !in part[..e] && Trim(part[..e]) == k
  }

  // What is read from a text: a key for every part with a name, with the value of the last part of that name.
  lemma {:induction false} PutAllMeans(parts: seq<string>, k: string)
    ensures k in PutAll(parts) <==> exists i, e :: 0 <= i < |parts| && Assigns(parts[i], k, e)
    ensures forall i, e :: 0 <= i < |parts| && Assigns(parts[i], k, e)
                           && (forall j, f :: i < j < |parts| ==> !Assigns(parts[j], k, f))
                           ==> k in PutAll(parts) && PutAll(parts)[k] == Trim(parts[i][e + 1..])
  {
    if parts != [] {
      var n := |parts| - 1;
      PutAllMeans(parts[..n], k);
      hide Trim;
      LastPart(PutAll(parts[..n]), parts[n], k);
      forall i, e | 0 <= i < n ensures Assigns(parts[i], k, e) <==> Assigns(parts[..n][i], k, e) {}
    }
  }

  lemma LastPart(m: map<string, string>, part: string, k: string)
    ensures (exists e :: Assigns(part, k, e)) ==> k in Put(m, part)
    ensures forall e :: Assigns(part, k, e) ==> Put(m, part)[k] == Trim(part[e + 1..])
    ensures !(exists e :: Assigns(part, k, e)) ==> (k in Put(m, part) <==> k in m) && (k in m ==> Put(m, part)[k] == m[k])
  {
    var eq := IndexOf(part, '=');
    forall e | Assigns(part, k, e) ensures e == eq {
      FirstIndex(part, '=', e);
    }
    if eq > 0 && Trim(part[..eq]) == k {
      assert Assigns(part, k, eq);
    }
  }

  lemma {:induction false} EmptyPartsNothing(parts: seq<string>)
    ensures PutAll(WithoutTrailingEmpty(parts)) == PutAll(parts)
  {
    if parts != [] && parts[|parts| - 1] == "" {
      EmptyPartsNothing(parts[..|parts| - 1]);
    }
  }

  lemma ParseMeans(text: string, k: string)
    ensures k in Parse(text) <==> exists i, e :: 0 <= i < |Parts(text)| && Assigns(Parts(text)[i], k, e)
    ensures forall i, e :: 0 <= i < |Parts(text)| && Assigns(Parts(text)[i], k, e)
                           && (forall j, f :: i < j < |Parts(text)| ==> !Assigns(Parts(text)[j], k, f))
                           ==> k in Parse(text) && Parse(text)[k] == Trim(Parts(text)[i][e + 1..])
  {
    hide *;
    ParseIsPutAll(text);
    PutAllMeans(Parts(text), k);
  }

  lemma ParseIsPutAll(text: string)
    ensures Parse(text) == PutAll(Parts(text))
  {
    EmptyPartsNothing(Parts(text));
    hide PutAll;
    if text == "" {
      NoParts();
    }
  }

  lemma NoParts()
    ensures PutAll(Parts("")) == map[]
  {
    assert Parts("") == [""] && [""][..0] == [];
  }

  function Truncate(s: string, max: nat): string { if |s| <= max then s else s[..max] }

  // ---- the round trip ----

  predicate CleanField(f: Field) {
    && f.key != "" && '=' !in f.key && ',' !in f.key && ',' !in f.value
    && NoOuterBlanks(f.key) && NoOuterBlanks(f.value)
  }

  predicate Clean(fs: seq<Field>) { forall i :: 0 <= i < |fs| ==> CleanField(fs[i]) }

  function Pairs(fs: seq<Field>): (r: seq<string>)
    ensures |r| == |fs| && forall i :: 0 <= i < |fs| ==> r[i] == Pair(fs[i])
  {
    seq(|fs|, i requires 0 <= i < |fs| => Pair(fs[i]))
  }

  lemma PartsFirst(s: string, i: nat)
    requires i < |s| && s[i] == ',' && ',' !in s[..i]
    ensures Parts(s) == [s[..i]] + Parts(s[i + 1..])
  {
    FirstIndex(s, ',', i);
  }

  lemma PartsOne(s: string)
    requires ',' !in s
    ensures Parts(s) == [s]
  {
    NoIndex(s, ',');
  }

  // Parts of a text that ends in a comma and a part without one.
  lemma {:induction false} PartsOfAppended(s: string, t: string)
    requires ',' !in t
    ensures Parts(s + "," + t) == Parts(s) + [t]
    decreases |s|
  {
    hide Parts;
    var whole := s + "," + t;
    var i := IndexOf(s, ',');
    PartsOne(t);
    if i == -1 {
      assert whole[..|s|] == s && whole[|s| + 1..] == t;
      PartsFirst(whole, |s|);
      PartsOne(s);
    } else {
      assert whole[..i] == s[..i] && whole[i + 1..] == s[i + 1..] + "," + t;
      PartsFirst(whole, i);
      PartsFirst(s, i);
      PartsOfAppended(s[i + 1..], t);
    }
  }

  lemma {:induction false} FirstIndex(s: string, c: char, i: nat)
    requires i < |s| && s[i] == c && c !in s[..i]
    ensures IndexOf(s, c) == i
  {
    if i > 0 {
      assert s[0] in s[..i] && s[1..][..i - 1] == s[..i][1..];
      FirstIndex(s[1..], c, i - 1);
    }
  }

  lemma {:induction false} NoIndex(s: string, c: char)
    requires c !in s
    ensures IndexOf(s, c) == -1
  {
    if s != "" {
      assert s[0] in s;
      NoIndex(s[1..], c);
    }
  }

  lemma JoinedStep(fs: seq<Field>)
    requires |fs| > 1
    ensures Joined(fs) == Joined(fs[..|fs| - 1]) + "," + Pair(fs[|fs| - 1])
  {
    hide Pair;
  }

  lemma PairsStep(fs: seq<Field>)
    requires fs != []
    ensures Pairs(fs) == Pairs(fs[..|fs| - 1]) + [Pair(fs[|fs| - 1])]
  {
    hide Pair;
  }

  lemma {:induction false} PartsOfJoined(fs: seq<Field>)
    requires fs != [] && Clean(fs)
    ensures Parts(Joined(fs)) == Pairs(fs)
  {
    var n := |fs| - 1;
    var last := Pair(fs[n]);
    assert ',' !in last;
    hide Parts, Pair, CleanField;
    if n == 0 {
      PartsOne(last);
      assert Pairs(fs) == [last];
    } else {
      hide Joined;
      PartsOfJoined(fs[..n]);
      PartsOfAppended(Joined(fs[..n]), last);
      JoinedStep(fs);
      PairsStep(fs);
    }
  }

  lemma PutPair(m: map<string, string>, f: Field)
    requires CleanField(f)
    ensures Put(m, Pair(f)) == m[f.key := f.value]
  {
    var part := Pair(f);
    assert part[|f.key|] == '=' && part[..|f.key|] == f.key && part[|f.key| + 1..] == f.value;
    FirstIndex(part, '=', |f.key|);
  }

  // What reading the fields in order puts into the map.
  ghost function MapOf(fs: seq<Field>): map<string, string> {
    if fs == [] then map[] else MapOf(fs[..|fs| - 1])[fs[|fs| - 1].key := fs[|fs| - 1].value]
  }

  lemma {:induction false} PutAllPairs(fs: seq<Field>)
    requires Clean(fs)
    ensures PutAll(Pairs(fs)) == MapOf(fs)
  {
    if fs != [] {
      var n := |fs| - 1;
      PutAllPairs(fs[..n]);
      assert Pairs(fs)[..n] == Pairs(fs[..n]);
      PutPair(PutAll(Pairs(fs[..n])), fs[n]);
    }
  }

  // One field for each key of m, in any order.
  ghost predicate Enumerates(fs: seq<Field>, m: map<string, string>) {
    && (forall k :: k in m ==> Field(k, m[k]) in fs)
    && (forall i :: 0 <= i < |fs| ==> fs[i].key in m && m[fs[i].key] == fs[i].value)
    && (forall i, j :: 0 <= i < j < |fs| ==> fs[i].key != fs[j].key)
  }

  lemma EnumerateRest(fs: seq<Field>, m: map<string, string>)
    requires Enumerates(fs, m) && fs != []
    ensures var last := fs[|fs| - 1];
            && Enumerates(fs[..|fs| - 1], m - {last.key}) && last.key in m
            && (m - {last.key})[last.key := last.value] == m
  {
    var n := |fs| - 1;
    var rest := m - {fs[n].key};
    forall k | k in rest ensures Field(k, rest[k]) in fs[..n] {
      assert fs == fs[..n] + [fs[n]];
    }
  }

  lemma {:induction false} MapOfEnumeration(fs: seq<Field>, m: map<string, string>)
    requires Enumerates(fs, m)
    ensures MapOf(fs) == m
    decreases |fs|
  {
    if fs == [] {
      assert m == map[];
    } else {
      var n := |fs| - 1;
      EnumerateRest(fs, m);
      MapOfEnumeration(fs[..n], m - {fs[n].key});
    }
  }

  lemma JoinedReadsBack(m: map<string, string>, fs: seq<Field>)
    requires Enumerates(fs, m) && Clean(fs)
    ensures Parse(Joined(fs)) == m
  {
    MapOfEnumeration(fs, m);
    if fs != [] {
      PartsOfJoined(fs);
      assert Pairs(fs)[|fs| - 1] == Pair(fs[|fs| - 1]) && Pair(fs[|fs| - 1]) != "";
      PutAllPairs(fs);
      JoinedNotEmpty(fs);
    }
  }

  lemma JoinedNotEmpty(fs: seq<Field>)
    requires fs != []
    ensures Joined(fs) != ""
  {
  }

  // ---- no shorter text reads back ----

  // The characters of the pairs, each with a comma.
  ghost function PairsLength(fs: seq<Field>): nat {
    if fs == [] then 0 else PairsLength(fs[..|fs| - 1]) + |Pair(fs[|fs| - 1])| + 1
  }

  ghost function PartsLength(parts: seq<string>): nat {
    if parts == [] then 0 else PartsLength(parts[..|parts| - 1]) + |parts[|parts| - 1]| + 1
  }

  lemma {:induction false} JoinedIsPairs(fs: seq<Field>)
    requires fs != []
    ensures |Joined(fs)| + 1 == PairsLength(fs)
  {
    hide Pair;
    if |fs| == 1 {
      assert fs[..0] == [];
    } else {
      JoinedIsPairs(fs[..|fs| - 1]);
    }
  }

  lemma {:induction false} PartsLengthFront(p: string, parts: seq<string>)
    ensures PartsLength([p] + parts) == |p| + 1 + PartsLength(parts)
  {
    var all := [p] + parts;
    if parts == [] {
      assert all[..0] == [];
    } else {
      assert all[..|all| - 1] == [p] + parts[..|parts| - 1];
      PartsLengthFront(p, parts[..|parts| - 1]);
    }
  }

  lemma {:induction false} PartsOfLength(s: string)
    ensures PartsLength(Parts(s)) == |s| + 1
  {
    var i := IndexOf(s, ',');
    if i == -1 {
      assert Parts(s)[..0] == [];
    } else {
      PartsOfLength(s[i + 1..]);
      PartsLengthFront(s[..i], Parts(s[i + 1..]));
    }
  }

  lemma {:induction false} DroppedLength(parts: seq<string>)
    ensures PartsLength(WithoutTrailingEmpty(parts)) <= PartsLength(parts)
  {
    if parts != [] && parts[|parts| - 1] == "" {
      DroppedLength(parts[..|parts| - 1]);
    }
  }

  lemma {:induction false} PairsLengthWithout(fs: seq<Field>, i: nat)
    requires i < |fs|
    ensures PairsLength(fs) == PairsLength(fs[..i] + fs[i + 1..]) + |Pair(fs[i])| + 1
    decreases |fs|
  {
    hide Pair;
    var n := |fs| - 1;
    var rest := fs[..i] + fs[i + 1..];
    if i == n {
      assert rest == fs[..n];
    } else {
      PairsLengthWithout(fs[..n], i);
      assert fs[..n][..i] + fs[..n][i + 1..] == rest[..|rest| - 1];
    }
  }

  // Without the field of a key, the fields enumerate the map without that key.
  lemma EnumerateWithout(fs: seq<Field>, m: map<string, string>, i: nat)
    requires Enumerates(fs, m) && i < |fs|
    ensures Enumerates(fs[..i] + fs[i + 1..], m - {fs[i].key})
  {
    var rest, less := fs[..i] + fs[i + 1..], m - {fs[i].key};
    forall k | k in less ensures Field(k, less[k]) in rest {
      assert fs == fs[..i] + [fs[i]] + fs[i + 1..];
    }
  }

  lemma EnumerateWith(fs: seq<Field>, m: map<string, string>, k: string)
    requires k in m && Enumerates(fs, m - {k})
    ensures Enumerates(fs + [Field(k, m[k])], m)
  {
    var f := Field(k, m[k]);
    forall x | x in m ensures Field(x, m[x]) in fs + [f] {
      assert (fs + [f])[|fs|] == f;
      assert x != k ==> x in m - {k} && Field(x, m[x]) in fs;
    }
  }

  // Fields of a map from which k may be missing.
  lemma EnumerateAll(fs: seq<Field>, m: map<string, string>, k: string) returns (all: seq<Field>)
    requires Enumerates(fs, m - {k})
    ensures Enumerates(all, m) && PairsLength(fs) <= PairsLength(all)
  {
    if k in m {
      EnumerateWith(fs, m, k);
      all := fs + [Field(k, m[k])];
      assert all[..|fs|] == fs;
    } else {
      assert m - {k} == m;
      all := fs;
    }
  }

  lemma {:induction false} TrimShortens(s: string)
    ensures |Trim(s)| <= |s|
    decreases |s|
  {
    if s != "" && s[0] <= ' ' {
      TrimShortens(s[1..]);
    } else if s != "" && s[|s| - 1] <= ' ' {
      TrimShortens(s[..|s| - 1]);
    }
  }

  // The field that a part put into the map took no fewer characters.
  lemma PutTakesPair(m: map<string, string>, part: string, fs: seq<Field>) returns (before: seq<Field>)
    requires Enumerates(fs, Put(m, part))
    ensures Enumerates(before, m) && PairsLength(fs) <= PairsLength(before) + |part| + 1
  {
    hide Enumerates, PairsLength, Trim;
    var eq := IndexOf(part, '=');
    if eq <= 0 {
      before := fs;
    } else {
      var f := Field(Trim(part[..eq]), Trim(part[eq + 1..]));
      var i := FieldOf(fs, Put(m, part), f.key);
      TrimShortens(part[..eq]);
      TrimShortens(part[eq + 1..]);
      PairsLengthWithout(fs, i);
      EnumerateWithout(fs, Put(m, part), i);
      assert Put(m, part) - {f.key} == m - {f.key};
      before := EnumerateAll(fs[..i] + fs[i + 1..], m, f.key);
    }
  }

  lemma FieldOf(fs: seq<Field>, m: map<string, string>, k: string) returns (i: nat)
    requires Enumerates(fs, m) && k in m
    ensures i < |fs| && fs[i] == Field(k, m[k])
  {
    assert Field(k, m[k]) in fs;
    i :| i < |fs| && fs[i] == Field(k, m[k]);
  }

  lemma {:induction false} ReadingTakesPairs(parts: seq<string>, fs: seq<Field>)
    requires Enumerates(fs, PutAll(parts))
    ensures PairsLength(fs) <= PartsLength(parts)
    decreases |parts|
  {
    if parts == [] {
      EnumerationSize(fs, map[]);
    } else {
      hide Enumerates, PairsLength, Put;
      var n := |parts| - 1;
      var before := PutTakesPair(PutAll(parts[..n]), parts[n], fs);
      ReadingTakesPairs(parts[..n], before);
    }
  }

  // A text that reads as a map is as long as the map's joined pairs, whatever the text and whatever the order.
  lemma NoShorterText(m: map<string, string>, fs: seq<Field>, text: string)
    requires Enumerates(fs, m) && Parse(text) == m
    ensures |Joined(fs)| <= |text|
  {
    if fs != [] {
      JoinedIsPairs(fs);
      assert fs[0].key in m;
      hide Enumerates, Joined;
      ReadingTakesPairs(WithoutTrailingEmpty(Parts(text)), fs);
      DroppedLength(Parts(text));
      PartsOfLength(text);
    }
  }

  // Whatever the iteration order, a clean map is read back as it was if and only if its text fits.
  lemma RoundTrip(m: map<string, string>, fs: seq<Field>)
    requires Enumerates(fs, m) && Clean(fs)
    ensures Parse(Truncate(Joined(fs), MAX_PAYLOAD)) == m <==> |Joined(fs)| <= 1000
  {
    JoinedReadsBack(m, fs);
    hide Parse, Joined, Enumerates, Clean;
    if Parse(Truncate(Joined(fs), MAX_PAYLOAD)) == m {
      NoShorterText(m, fs, Truncate(Joined(fs), MAX_PAYLOAD));
    }
  }

  // ---- what a longer text loses ----

  // Where the pair of field n starts.
  ghost function Start(fs: seq<Field>, n: nat): nat
    requires n < |fs|
  {
    if n == 0 then 0 else |Joined(fs[..n])| + 1
  }

  // The pair inside or right behind which a text is cut.
  lemma {:induction false} CutField(fs: seq<Field>, max: nat) returns (n: nat, j: nat)
    requires max < |Joined(fs)|
    ensures n < |fs| && j <= |Pair(fs[n])| && max == Start(fs, n) + j
    ensures Truncate(Joined(fs), max) == (if n == 0 then "" else Joined(fs[..n]) + ",") + Pair(fs[n])[..j]
    decreases |fs|
  {
    hide Pair;
    n := |fs| - 1;
    if n == 0 {
      j := max;
    } else {
      JoinedStep(fs);
      var front := Joined(fs[..n]);
      var whole := Joined(fs);
      if |front| < max {
        j := max - |front| - 1;
        assert whole[..max] == front + "," + Pair(fs[n])[..j];
      } else {
        assert whole[..max] == front[..max];
        if |front| == max {
          n, j := WholeFront(fs[..n]);
        } else {
          n, j := CutField(fs[..n], max);
        }
        assert fs[..|fs| - 1][..n] == fs[..n];
      }
    }
  }

  lemma WholeFront(fs: seq<Field>) returns (n: nat, j: nat)
    requires fs != []
    ensures n < |fs| && j == |Pair(fs[n])| && |Joined(fs)| == Start(fs, n) + j
    ensures Joined(fs) == (if n == 0 then "" else Joined(fs[..n]) + ",") + Pair(fs[n])[..j]
  {
    hide Pair;
    n := |fs| - 1;
    j := |Pair(fs[n])|;
    assert Pair(fs[n])[..j] == Pair(fs[n]);
  }

  lemma PutCut(m: map<string, string>, f: Field, j: nat)
    requires CleanField(f) && j <= |Pair(f)|
    ensures Put(m, Pair(f)[..j])
         == if j <= |f.key| then m else m[f.key := Trim(f.value[..j - |f.key| - 1])]
  {
    var part := Pair(f)[..j];
    if j <= |f.key| {
      assert part == f.key[..j];
      NoIndex(part, '=');
    } else {
      assert part[|f.key|] == '=' && part[..|f.key|] == f.key && part[|f.key| + 1..] == f.value[..j - |f.key| - 1];
      FirstIndex(part, '=', |f.key|);
    }
  }

  lemma PartsOfCut(whole: seq<Field>, cut: string)
    requires Clean(whole) && ',' !in cut
    ensures Parts((if whole == [] then "" else Joined(whole) + ",") + cut) == Pairs(whole) + [cut]
  {
    hide Parts;
    if whole == [] {
      PartsOne(cut);
      assert "" + cut == cut;
    } else {
      PartsOfJoined(whole);
      PartsOfAppended(Joined(whole), cut);
    }
  }

  lemma PutAllOfCut(whole: seq<Field>, cut: string)
    requires Clean(whole)
    ensures PutAll(WithoutTrailingEmpty(Pairs(whole) + [cut])) == Put(MapOf(whole), cut)
  {
    PutAllPairs(whole);
    hide Put, CleanField, MapOf;
    var parts := Pairs(whole) + [cut];
    assert parts[..|whole|] == Pairs(whole);
    if cut == "" {
      assert whole != [] ==> Pairs(whole)[|whole| - 1] != "";
      PutNothing(MapOf(whole));
    }
  }

  lemma PutNothing(m: map<string, string>)
    ensures Put(m, "") == m
  {
  }

  // A longer text keeps the fields before the cut, loses those behind it, and keeps of the field at the cut
  // the beginning of its value, or nothing when the cut is inside the key.
  lemma TruncationCuts(fs: seq<Field>) returns (n: nat, j: nat)
    requires Clean(fs) && |Joined(fs)| > MAX_PAYLOAD
    ensures n < |fs| && j <= |Pair(fs[n])| && MAX_PAYLOAD == Start(fs, n) + j
    ensures Parse(Truncate(Joined(fs), MAX_PAYLOAD))
         == if j <= |fs[n].key| then MapOf(fs[..n])
            else MapOf(fs[..n])[fs[n].key := Trim(fs[n].value[..j - |fs[n].key| - 1])]
  {
    n, j := CutField(fs, MAX_PAYLOAD);
    var cut := Pair(fs[n])[..j];
    assert ',' !in Pair(fs[n]);
    PutCut(MapOf(fs[..n]), fs[n], j);
    PutAllOfCut(fs[..n], cut);
    hide Joined, Pair, CleanField, MapOf, Put, Parts;
    PartsOfCut(fs[..n], cut);
  }

  // ---- isolate and replay ----

  // The columns and the payload of a row.
  datatype Row = Row(order: Option<int>, user: Option<int>, voucher: Option<int>, payload: string)

  // A stream record as seckill.lua wrote it.
  function Fields(e: Entry): map<string, string> {
    map["userId" := Decimal.Text(e.user), "voucherId" := Decimal.Text(e.voucher), "id" := Decimal.Text(e.id)]
  }

  // isolate, for a record that parsed: fs are its fields in iteration order.
  method Isolate(e: Entry, fs: seq<Field>) returns (row: Row)
    requires Enumerates(fs, Fields(e))
    ensures row == Row(Some(e.id), Some(e.user), Some(e.voucher), Truncate(Joined(fs), MAX_PAYLOAD))
  {
    var payload := FormatPayload(fs);
    row := Row(Some(e.id), Some(e.user), Some(e.voucher), Truncate(payload, MAX_PAYLOAD));
  }

  // replay: the fields of the record that is added to the stream; None when the payload is incomplete.
  method Replay(row: Row) returns (fields: Option<map<string, string>>)
    ensures fields == ReplayFields(row)
  {
    var m := ParsePayload(row.payload);
    if m == map[] {
      if row.user.Some? {
        m := m["userId" := Decimal.Text(row.user.value)];
      }
      if row.voucher.Some? {
        m := m["voucherId" := Decimal.Text(row.voucher.value)];
      }
      if row.order.Some? {
        m := m["id" := Decimal.Text(row.order.value)];
      }
    }
    if "userId" !in m || "voucherId" !in m || "id" !in m {
      return None;
    }
    fields := Some(m);
  }

  function Columns(row: Row): map<string, string> {
    var a: map<string, string> := if row.user.Some? then map["userId" := Decimal.Text(row.user.value)] else map[];
    var b := if row.voucher.Some? then a["voucherId" := Decimal.Text(row.voucher.value)] else a;
    if row.order.Some? then b["id" := Decimal.Text(row.order.value)] else b
  }

  function ReplayFields(row: Row): Option<map<string, string>> {
    var m := if Parse(row.payload) == map[] then Columns(row) else Parse(row.payload);
    if "userId" in m && "voucherId" in m && "id" in m then Some(m) else None
  }

  // parseOrder on a record with the three fields.
  function ParseOrder(fields: map<string, string>): Option<Entry> {
    if "id" in fields && "userId" in fields && "voucherId" in fields
    then Some(Entry(Decimal.Number(fields["id"]), Decimal.Number(fields["userId"]), Decimal.Number(fields["voucherId"])))
    else None
  }

  predicate IsLong(n: int) { -0x8000_0000_0000_0000 <= n < 0x8000_0000_0000_0000 }

  lemma LongText(n: int)
    requires IsLong(n)
    ensures |Decimal.Text(n)| <= 20
    ensures NoOuterBlanks(Decimal.Text(n)) && ',' !in Decimal.Text(n)
  {
    Decimal.Pow19();
    Decimal.Digits(if n < 0 then -n else n, 19);
  }

  lemma {:induction false} JoinedLength(fs: seq<Field>, each: nat)
    requires forall i :: 0 <= i < |fs| ==> |Pair(fs[i])| <= each
    ensures |Joined(fs)| <= |fs| * (each + 1)
  {
    if |fs| > 1 {
      JoinedLength(fs[..|fs| - 1], each);
    }
  }

  // The three fields in some order.
  lemma ThreeFields(e: Entry, fs: seq<Field>)
    requires Enumerates(fs, Fields(e)) && IsLong(e.id) && IsLong(e.user) && IsLong(e.voucher)
    ensures |fs| <= 3 && Clean(fs) && forall i :: 0 <= i < |fs| ==> |Pair(fs[i])| <= 30
  {
    forall i | 0 <= i < |fs| ensures CleanField(fs[i]) && |Pair(fs[i])| <= 30 {
      OneField(e, fs, i);
    }
    EnumerationSize(fs, Fields(e));
    assert Fields(e).Keys == {"userId", "voucherId", "id"};
  }

  lemma OneField(e: Entry, fs: seq<Field>, i: nat)
    requires Enumerates(fs, Fields(e)) && i < |fs| && IsLong(e.id) && IsLong(e.user) && IsLong(e.voucher)
    ensures CleanField(fs[i]) && |Pair(fs[i])| <= 30
  {
    hide IsLong;
    LongText(e.id);
    LongText(e.user);
    LongText(e.voucher);
    assert fs[i].key == "userId" || fs[i].key == "voucherId" || fs[i].key == "id";
    CleanName(fs[i].key);
  }

  lemma CleanName(key: string)
    requires key == "userId" || key == "voucherId" || key == "id"
    ensures key != "" && '=' !in key && ',' !in key && NoOuterBlanks(key) && |key| <= 9
  {
  }

  lemma {:induction false} EnumerationSize(fs: seq<Field>, m: map<string, string>)
    requires Enumerates(fs, m)
    ensures |fs| == |m|
    decreases |fs|
  {
    if fs == [] {
      assert m == map[];
    } else {
      var n := |fs| - 1;
      EnumerateRest(fs, m);
      hide Enumerates;
      EnumerationSize(fs[..n], m - {fs[n].key});
      assert (m - {fs[n].key}).Keys == m.Keys - {fs[n].key};
    }
  }

  lemma ParsesBack(e: Entry)
    ensures ParseOrder(Fields(e)) == Some(e)
  {
    Decimal.NumberOfText(e.id);
    Decimal.NumberOfText(e.user);
    Decimal.NumberOfText(e.voucher);
  }

  lemma PayloadParses(e: Entry, fs: seq<Field>)
    requires Enumerates(fs, Fields(e)) && IsLong(e.id) && IsLong(e.user) && IsLong(e.voucher)
    ensures Parse(Truncate(Joined(fs), MAX_PAYLOAD)) == Fields(e)
  {
    hide Parse, Joined, Enumerates, Truncate, Fields, Pair, Clean, IsLong;
    ThreeFields(e, fs);
    JoinedLength(fs, 30);
    RoundTrip(Fields(e), fs);
  }

  lemma ReplayOfParsed(row: Row, m: map<string, string>)
    requires Parse(row.payload) == m && "userId" in m && "voucherId" in m && "id" in m
    ensures ReplayFields(row) == Some(m)
  {
    hide Parse, Columns;
  }

  // A dead-lettered purchase is replayed with its own fields and parses to the same order id, user and voucher.
  lemma ReplayRestores(e: Entry, fs: seq<Field>, row: Row)
    requires Enumerates(fs, Fields(e)) && IsLong(e.id) && IsLong(e.user) && IsLong(e.voucher)
    requires row.payload == Truncate(Joined(fs), MAX_PAYLOAD)
    ensures ReplayFields(row) == Some(Fields(e)) && ParseOrder(Fields(e)) == Some(e)
  {
    PayloadParses(e, fs);
    ParsesBack(e);
    hide Parse, Joined, Enumerates, Truncate, ReplayFields, ParseOrder, IsLong;
    ReplayOfParsed(row, Fields(e));
  }

  // Without a readable payload the columns are replayed: each as the field it belongs to, and only if none is missing.
  lemma ColumnsReplayed(row: Row)
    requires Parse(row.payload) == map[]
    ensures ReplayFields(row).Some? <==> row.order.Some? && row.user.Some? && row.voucher.Some?
    ensures row.order.Some? && row.user.Some? && row.voucher.Some? ==>
              ParseOrder(ReplayFields(row).value) == Some(Entry(row.order.value, row.user.value, row.voucher.value))
  {
    if row.order.Some? && row.user.Some? && row.voucher.Some? {
      ParsesBack(Entry(row.order.value, row.user.value, row.voucher.value));
    }
  }

  // The replay of a letter puts a record with the fields of its own purchase at the end of the stream, from which a
  // consumer reads that purchase again; nothing else changes.
  lemma ReplayedRecord(s: CouponSteps.State, t: int, letter: nat, fs: seq<Field>, row: Row)
    requires letter < |s.db.dead|
    requires Enumerates(fs, Fields(s.db.dead[letter].entry)) && row.payload == Truncate(Joined(fs), MAX_PAYLOAD)
    requires var e := s.db.dead[letter].entry; IsLong(e.id) && IsLong(e.user) && IsLong(e.voucher)
    ensures CouponSteps.Enabled(s, CouponSteps.Replay(t, letter))
    ensures var b := CouponSteps.Apply(s, CouponSteps.Replay(t, letter));
            && |b.redis.stream| == |s.redis.stream| + 1 && b.redis.stream[..|s.redis.stream|] == s.redis.stream
            && ReplayFields(row) == Some(Fields(b.redis.stream[|s.redis.stream|]))
            && ParseOrder(Fields(b.redis.stream[|s.redis.stream|])) == Some(s.db.dead[letter].entry)
            && b == s.(redis := s.redis.(stream := b.redis.stream))
  {
    hide Joined, Truncate, ReplayFields, ParseOrder, Enumerates, IsLong, Fields;
    ReplayStep(s, t, letter);
    ReplayRestores(s.db.dead[letter].entry, fs, row);
  }

  lemma ReplayStep(s: CouponSteps.State, t: int, letter: nat)
    requires letter < |s.db.dead|
    ensures CouponSteps.Enabled(s, CouponSteps.Replay(t, letter))
    ensures CouponSteps.Apply(s, CouponSteps.Replay(t, letter))
            == s.(redis := s.redis.(stream := s.redis.stream + [s.db.dead[letter].entry]))
  {
  }
}
