/** Device keys as text, and the composition of target keys from resolver scores. */
module TargetComposer {
  import opened Sorting
  import opened Wrappers

  // ---------- target keys ----------

  /** Index of the first "::", or the length when there is none. */
  function FirstSep(s: string): (n: nat)
    ensures n <= |s|
  {
    if s == "" then 0
    else if |s| >= 2 && s[0] == ':' && s[1] == ':' then 0
    else 1 + FirstSep(s[1..])
  }

  /** `s.split("::")`. */
  function Split(s: string): (parts: seq<string>)
    ensures |parts| >= 1
  {
    var n := FirstSep(s);
    if n + 2 > |s| then [s] else [s[..n]] + Split(s[n + 2..])
  }

  function Join(parts: seq<string>): string
    requires |parts| >= 1
  {
    if |parts| == 1 then parts[0] else parts[0] + "::" + Join(parts[1..])
  }

  function Key(area: string, entity: string, inst: string): string {
    area + "::" + entity + "::" + inst
  }

  /** No "::" anywhere. */
  predicate Unsplit(s: string) { FirstSep(s) == |s| }

  /** No "::" would arise, even with a separator appended. */
  predicate Clean(s: string) { Unsplit(s + ":") }

  lemma {:induction false} FirstSepFinds(s: string)
    ensures FirstSep(s) < |s| ==> FirstSep(s) + 2 <= |s| && s[FirstSep(s)] == ':' && s[FirstSep(s) + 1] == ':'
  {
    if s != "" && !(|s| >= 2 && s[0] == ':' && s[1] == ':') { FirstSepFinds(s[1..]); }
  }

  /** Joining the parts of a split gives the text back. */
  lemma {:induction false} JoinSplit(s: string)
    ensures Join(Split(s)) == s
  {
    var n := FirstSep(s);
    FirstSepFinds(s);
    hide FirstSep, Join;
    if n + 2 <= |s| {
      var t := s[n + 2..];
      JoinSplit(t);
      assert Split(s) == [s[..n]] + Split(t);
      JoinCons(s[..n], Split(t));
      CutAt(s, n);
    } else {
      JoinOne(s);
    }
  }

  lemma JoinCons(a: string, rest: seq<string>)
    requires rest != []
    ensures Join([a] + rest) == a + "::" + Join(rest)
  {
    assert ([a] + rest)[1..] == rest;
  }

  lemma JoinOne(a: string)
    ensures Join([a]) == a
  {}

  /** The first part is what stands before the separator exactly when that text is clean. */
  lemma {:induction false} FirstSepAfter(a: string, rest: string)
    ensures FirstSep(a + "::" + rest) == |a| <==> Clean(a)
    ensures FirstSep(a + "::" + rest) <= |a|
  {
    var s := a + "::" + rest;
    if a == "" {
      assert s[0] == ':' && s[1] == ':';
      assert "" + ":" == ":";
      assert FirstSep(":"[1..]) == 0;
    } else {
      FirstSepAfter(a[1..], rest);
      assert s[1..] == a[1..] + "::" + rest;
      assert (a + ":")[1..] == a[1..] + ":";
      assert s[0] == a[0] && s[1] == (a + ":")[1];
    }
  }

  lemma SplitAfter(a: string, rest: string)
    ensures Clean(a) ==> Split(a + "::" + rest) == [a] + Split(rest)
    ensures !Clean(a) ==> Split(a + "::" + rest)[0] != a
  {
    var s := a + "::" + rest;
    FirstSepAfter(a, rest);
    FirstSepFinds(s);
    assert s[|a| + 2..] == rest && s[..|a|] == a;
    assert |Split(s)[0]| == FirstSep(s);
  }

  lemma SplitCons(a: string, rest: string, tail: seq<string>)
    ensures Split(a + "::" + rest) == [a] + tail <==> Clean(a) && Split(rest) == tail
  {
    SplitAfter(a, rest);
    hide Split, Clean;
    assert ([a] + tail)[0] == a && ([a] + tail)[1..] == tail;
    assert ([a] + Split(rest))[1..] == Split(rest);
  }

  /** Parsing inverts key building exactly when the separator cannot arise inside or at the end of a part. */
  lemma KeyParses(a: string, e: string, i: string)
    ensures Split(Key(a, e, i)) == [a, e, i] <==> Clean(a) && Clean(e) && Unsplit(i)
  {
    assert Key(a, e, i) == a + "::" + (e + "::" + i);
    SplitCons(a, e + "::" + i, [e, i]);
    SplitCons(e, i, [i]);
    SplitOne(i);
    hide Split, Clean, Unsplit, Key;
    assert [a, e, i] == [a] + [e, i] && [e, i] == [e] + [i];
  }

  lemma SplitOne(i: string)
    ensures Split(i) == [i] <==> Unsplit(i)
  {
    FirstSepFinds(i);
    if !Unsplit(i) { assert |Split(i)| >= 2; }
  }

  // ---------- keys that belong to one device only ----------

  predicate SepAt(s: string, j: int) {
    0 <= j < |s| - 1 && s[j] == ':' && s[j + 1] == ':'
  }

  predicate StartsWithColon(s: string) { s != "" && s[0] == ':' }

  predicate EndsWithColon(s: string) { s != "" && s[|s| - 1] == ':' }

  /** No separator inside a part, and no colon next to the separators between them. */
  predicate Identifying(a: string, e: string, i: string) {
    && Unsplit(a) && Unsplit(e) && Unsplit(i)
    && !EndsWithColon(a) && !StartsWithColon(e) && !EndsWithColon(e) && !StartsWithColon(i)
  }

  lemma {:induction false} UnsplitMeans(s: string)
    ensures Unsplit(s) <==> forall j :: !SepAt(s, j)
  {
    if s == "" {
    } else if |s| >= 2 && s[0] == ':' && s[1] == ':' {
      assert SepAt(s, 0);
    } else {
      UnsplitMeans(s[1..]);
      forall j ensures SepAt(s, j) ==> SepAt(s[1..], j - 1) {}
      forall j ensures SepAt(s[1..], j) ==> SepAt(s, j + 1) {}
    }
  }

  /** A key with identifying parts has no separators but the two put in; between them an empty entity makes a third. */
  lemma SepsOfKey(a: string, e: string, i: string, j: int)
    requires Identifying(a, e, i) && SepAt(Key(a, e, i), j)
    ensures j == |a| || j == |a| + 2 + |e| || (e == "" && j == |a| + 1)
  {
    UnsplitMeans(a);
    UnsplitMeans(e);
    UnsplitMeans(i);
    hide Unsplit;
    assert !SepAt(a, j) && !SepAt(e, j - |a| - 2) && !SepAt(i, j - |a| - |e| - 4);
  }

  lemma OtherKeySeps(a: string, e: string, i: string)
    ensures SepAt(Key(a, e, i), |a|) && SepAt(Key(a, e, i), |a| + 2 + |e|)
  {}

  lemma SameLengths(a: string, e: string, i: string, x: string, y: string, z: string)
    requires Key(x, y, z) == Key(a, e, i) && |x| == |a| && |y| == |e|
    ensures x == a && y == e && z == i
  {
    var k := Key(a, e, i);
    assert k[..|a|] == a && k[..|x|] == x;
    assert k[|a| + 2..|a| + 2 + |e|] == e && k[|x| + 2..|x| + 2 + |y|] == y;
    assert k[|a| + |e| + 4..] == i && k[|x| + |y| + 4..] == z;
  }

  /** A text with a separator, or one next to its end, gives up what follows it to the next part. */
  lemma CutAt(s: string, j: int)
    requires SepAt(s, j)
    ensures s == s[..j] + "::" + s[j + 2..]
  {}

  lemma SplitArea(a: string, e: string, i: string) returns (x: string, y: string)
    requires !Unsplit(a) || EndsWithColon(a)
    ensures Key(x, y, i) == Key(a, e, i) && x != a
  {
    UnsplitMeans(a);
    if j :| SepAt(a, j) {
      CutAt(a, j);
      x, y := a[..j], a[j + 2..] + "::" + e;
    } else {
      x, y := a[..|a| - 1], ":" + e;
    }
  }

  lemma SplitEntity(a: string, e: string, i: string) returns (x: string, y: string, z: string)
    requires !Unsplit(e) || StartsWithColon(e) || EndsWithColon(e)
    ensures Key(x, y, z) == Key(a, e, i) && y != e
  {
    UnsplitMeans(e);
    if j :| SepAt(e, j) {
      CutAt(e, j);
      x, y, z := a, e[..j], e[j + 2..] + "::" + i;
    } else if StartsWithColon(e) {
      x, y, z := a + ":", e[1..], i;
    } else {
      x, y, z := a, e[..|e| - 1], ":" + i;
    }
  }

  lemma SplitInstance(a: string, e: string, i: string) returns (y: string, z: string)
    requires !Unsplit(i) || StartsWithColon(i)
    ensures Key(a, y, z) == Key(a, e, i) && z != i
  {
    UnsplitMeans(i);
    if j :| SepAt(i, j) {
      CutAt(i, j);
      y, z := e + "::" + i[..j], i[j + 2..];
    } else {
      y, z := e + ":", i[1..];
    }
  }

  /** A separator elsewhere in the key, or a colon next to one put in, splits the key in another way. */
  lemma OtherReading(a: string, e: string, i: string) returns (x: string, y: string, z: string)
    requires !Identifying(a, e, i)
    ensures Key(x, y, z) == Key(a, e, i) && (x != a || y != e || z != i)
  {
    hide Unsplit, Key, StartsWithColon, EndsWithColon;
    x, y, z := a, e, i;
    if !Unsplit(a) || EndsWithColon(a) {
      x, y := SplitArea(a, e, i);
    } else if !Unsplit(e) || StartsWithColon(e) || EndsWithColon(e) {
      x, y, z := SplitEntity(a, e, i);
    } else {
      y, z := SplitInstance(a, e, i);
    }
  }

  /** No other device has this key, exactly when its parts hold no separator and no colon next to one. */
  lemma KeyIdentifiesExactly(a: string, e: string, i: string)
    ensures (forall x, y, z :: Key(x, y, z) == Key(a, e, i) ==> x == a && y == e && z == i) <==> Identifying(a, e, i)
  {
    if Identifying(a, e, i) {
      forall x, y, z | Key(x, y, z) == Key(a, e, i) ensures x == a && y == e && z == i {
        OtherKeySeps(x, y, z);
        SepsOfKey(a, e, i, |x|);
        SepsOfKey(a, e, i, |x| + 2 + |y|);
        hide Key, Identifying;
        SameLengths(a, e, i, x, y, z);
      }
    } else {
      var x, y, z := OtherReading(a, e, i);
    }
  }

  // ---------- top-k ----------

  function Upto(n: nat): (r: seq<nat>)
    ensures |r| == n && forall i :: 0 <= i < n ==> r[i] == i
  {
    seq(n, i requires 0 <= i < n => i)
  }

  function Score(logits: seq<real>, i: nat): real {
    if i < |logits| then logits[i] else 0.0
  }

  /** Sort order of the indices: higher score first. */
  predicate Higher(logits: seq<real>, i: nat, j: nat) { Score(logits, i) >= Score(logits, j) }

  /** `sorted(range(n), key=..., reverse=True)`, which keeps ties in index order. */
  function Ranking(logits: seq<real>): seq<nat> {
    Sort(Upto(|logits|), (i: nat, j: nat) => Higher(logits, i, j))
  }

  /** `max(0, min(k, n))`. */
  function Clamp(k: int, n: nat): nat {
    if k < 0 then 0 else if k < n then k else n
  }

  lemma RankingIsOrder(logits: seq<real>)
    ensures |Ranking(logits)| == |logits|
    ensures forall i: nat :: i in Ranking(logits) <==> i < |logits|
    ensures Distinct(Ranking(logits))
  {
    var ids := Upto(|logits|);
    SortMembers(ids, (i: nat, j: nat) => Higher(logits, i, j));
    SortDistinct(ids, (i: nat, j: nat) => Higher(logits, i, j));
    forall i: nat ensures i in ids <==> i < |logits| { assert i < |logits| ==> ids[i] == i; }
  }

  function TopkMask(logits: seq<real>, k: int): (mask: seq<bool>)
    ensures |mask| == |logits|
  {
    RankingIsOrder(logits);
    var idx := Ranking(logits)[..Clamp(k, |logits|)];
    seq(|logits|, i requires 0 <= i < |logits| => i in idx)
  }

  function CountTrue(mask: seq<bool>): nat {
    if mask == [] then 0 else CountTrue(mask[..|mask| - 1]) + if mask[|mask| - 1] then 1 else 0
  }

  /** Strictly ahead in the ranking: a higher score, or the same score at a lower index. */
  predicate Beats(logits: seq<real>, i: nat, j: nat) {
    Score(logits, i) > Score(logits, j) || (Score(logits, i) == Score(logits, j) && i < j)
  }

  /** Exactly `count` selected, each ahead of every unselected one. */
  ghost predicate IsTop(logits: seq<real>, mask: seq<bool>, count: nat) {
    && |mask| == |logits| && CountTrue(mask) == count
    && forall i, j :: 0 <= i < |mask| && 0 <= j < |mask| && mask[i] && !mask[j] ==> Beats(logits, i, j)
  }

  lemma RankingAhead(logits: seq<real>, p: nat, q: nat)
    requires p < q < |Ranking(logits)|
    ensures Beats(logits, Ranking(logits)[p], Ranking(logits)[q])
  {
    var le := (i: nat, j: nat) => Higher(logits, i, j);
    var tie := (i: nat, j: nat) => i <= j;
    RankingIsOrder(logits);
    assert Sorted(Upto(|logits|), tie);
    SortStable(Upto(|logits|), le, tie);
    var r := Ranking(logits);
    assert Lex(r[p], r[q], le, tie);
    assert r[p] != r[q];
  }

  lemma {:induction false} CountTrueSet(mask: seq<bool>)
    ensures CountTrue(mask) == |set i: nat | i < |mask| && mask[i]|
  {
    if mask != [] {
      var n := |mask| - 1;
      CountTrueSet(mask[..n]);
      var small, all := set i: nat | i < n && mask[..n][i], set i: nat | i < |mask| && mask[i];
      assert all == small + if mask[n] then {n} else {};
    }
  }

  function SetOf(ids: seq<nat>): set<nat> {
    set i | i in ids
  }

  lemma {:induction false} DistinctSize(ids: seq<nat>)
    requires Distinct(ids)
    ensures |SetOf(ids)| == |ids|
  {
    if ids == [] {
      assert SetOf(ids) == {};
    } else {
      var n := |ids| - 1;
      DistinctSize(ids[..n]);
      assert ids == ids[..n] + [ids[n]];
      var small := SetOf(ids[..n]);
      assert ids[n] !in ids[..n] && ids[n] !in small;
      assert SetOf(ids) == small + {ids[n]};
    }
  }

  /** `topk_mask` selects exactly as many as asked for and possible, and none it selects is beaten by one it leaves. */
  lemma TopkSelectsTop(logits: seq<real>, k: int)
    ensures IsTop(logits, TopkMask(logits, k), Clamp(k, |logits|))
  {
    var mask, c, r := TopkMask(logits, k), Clamp(k, |logits|), Ranking(logits);
    RankingIsOrder(logits);
    CountTrueSet(mask);
    DistinctSize(r[..c]);
    assert (set i: nat | i < |mask| && mask[i]) == SetOf(r[..c]) by {
      forall i: nat | i in r[..c] ensures i < |mask| { assert i in r; }
    }
    hide Ranking, Beats;
    forall i: nat, j: nat | i < |mask| && j < |mask| && mask[i] && !mask[j] ensures Beats(logits, i, j) {
      var p :| 0 <= p < c && r[..c][p] == i;
      assert j in r;
      var q :| 0 <= q < |r| && r[q] == j;
      assert forall x :: 0 <= x < c ==> r[x] in r[..c];
      RankingAhead(logits, p, q);
    }
  }

  /** Nothing else meets that description. */
  lemma TopIsUnique(logits: seq<real>, a: seq<bool>, b: seq<bool>, count: nat)
    requires IsTop(logits, a, count) && IsTop(logits, b, count)
    ensures a == b
  {
    CountTrueSet(a);
    CountTrueSet(b);
    var x, y := set i: nat | i < |a| && a[i], set i: nat | i < |b| && b[i];
    if x <= y {
      SameSizeSubset(x, y);
    } else if y <= x {
      SameSizeSubset(y, x);
    } else {
      var i :| i in x && i !in y;
      var j :| j in y && j !in x;
      assert Beats(logits, i, j) && Beats(logits, j, i);
    }
    forall i: nat | i < |a| ensures a[i] == b[i] { assert i in x <==> i in y; }
  }

  lemma SameSizeSubset(x: set<nat>, y: set<nat>)
    requires x <= y && |x| == |y|
    ensures x == y
  {
    assert y == x + (y - x);
    assert |y| == |x| + |y - x|;
    assert y - x == {};
  }

  // ---------- composing targets ----------

  /** `ROOMS` and `ENTITIES` without their closing "NONE". */
  function RoomNames(): seq<string> { ["客厅", "主卧", "书房", "次卧"] }
  function EntityNames(): seq<string> { ["空调", "灯", "窗户", "窗帘"] }

  function Row(i: nat, m: nat): seq<(nat, nat)> {
    if m == 0 then [] else Row(i, m - 1) + [(i, m - 1)]
  }

  /** Every room-entity index pair, room by room. */
  function Cells(n: nat, m: nat): seq<(nat, nat)> {
    if n == 0 then [] else Cells(n - 1, m) + Row(n - 1, m)
  }

  function KeyAt(rooms: seq<string>, entities: seq<string>, c: (nat, nat)): string {
    if c.0 < |rooms| && c.1 < |entities| then Key(rooms[c.0], entities[c.1], "default") else ""
  }

  function KeysAt(rooms: seq<string>, entities: seq<string>, cs: seq<(nat, nat)>): (r: seq<string>)
    ensures |r| == |cs| && forall i :: 0 <= i < |cs| ==> r[i] == KeyAt(rooms, entities, cs[i])
  {
    seq(|cs|, i requires 0 <= i < |cs| => KeyAt(rooms, entities, cs[i]))
  }

  predicate Picked(rm: seq<bool>, em: seq<bool>, c: (nat, nat)) {
    c.0 < |rm| && rm[c.0] && c.1 < |em| && em[c.1]
  }

  /** The logits must cover the vocabulary; scores beyond it, the one for "NONE" included, only compete. */
  function Compose(roomLogits: seq<real>, entityLogits: seq<real>, roomCount: int, entityCount: int,
                   mounted: Option<set<string>>): seq<string>
    requires |roomLogits| >= |RoomNames()| && |entityLogits| >= |EntityNames()|
  {
    var rm, em := TopkMask(roomLogits, roomCount), TopkMask(entityLogits, entityCount);
    var chosen := Filter(Cells(|RoomNames()|, |EntityNames()|), (c: (nat, nat)) => Picked(rm, em, c));
    var candidates := KeysAt(RoomNames(), EntityNames(), chosen);
    if mounted.None? then candidates else Filter(candidates, (k: string) => k in mounted.value)
  }

  predicate Before(c: (nat, nat), d: (nat, nat)) { c.0 < d.0 || (c.0 == d.0 && c.1 < d.1) }

  lemma {:induction false} RowFacts(i: nat, m: nat)
    ensures forall c :: c in Row(i, m) <==> c.0 == i && c.1 < m
    ensures Sorted(Row(i, m), Before)
  {
    if m > 0 { RowFacts(i, m - 1); }
  }

  lemma {:induction false} CellsFacts(n: nat, m: nat)
    ensures forall c :: c in Cells(n, m) <==> c.0 < n && c.1 < m
    ensures Sorted(Cells(n, m), Before)
  {
    if n > 0 {
      CellsFacts(n - 1, m);
      RowFacts(n - 1, m);
      RowsApart(Cells(n - 1, m), Row(n - 1, m), n - 1, m);
      hide Row, Sorted;
    }
  }

  lemma RowsApart(a: seq<(nat, nat)>, b: seq<(nat, nat)>, n: nat, m: nat)
    requires Sorted(a, Before) && Sorted(b, Before)
    requires (forall c: (nat, nat) :: c in a <==> c.0 < n && c.1 < m)
    requires (forall c: (nat, nat) :: c in b <==> c.0 == n && c.1 < m)
    ensures Sorted(a + b, Before) && forall c: (nat, nat) :: c in a + b <==> c.0 < n + 1 && c.1 < m
  {
    forall i, j | 0 <= i < |a| && 0 <= j < |b| ensures Before(a[i], b[j]) { assert a[i] in a && b[j] in b; }
    hide Sorted;
    forall c: (nat, nat) ensures c in a + b <==> c.0 < n + 1 && c.1 < m { assert c in a + b <==> c in a || c in b; }
  }

  lemma {:induction false} ColonFree(s: string)
    requires ':' !in s
    ensures Clean(s) && Unsplit(s)
  {
    if s == "" {
      assert FirstSep(":"[1..]) == 0;
      assert "" + ":" == ":";
    } else {
      ColonFree(s[1..]);
      assert (s + ":")[1..] == s[1..] + ":";
    }
  }

  /** The names are colon-free and pairwise different, so distinct cells have distinct, parseable keys. */
  lemma Vocabulary()
    ensures forall i :: 0 <= i < |RoomNames()| ==> ':' !in RoomNames()[i]
    ensures forall i :: 0 <= i < |EntityNames()| ==> ':' !in EntityNames()[i]
    ensures Distinct(RoomNames()) && Distinct(EntityNames())
  {
    assert RoomNames()[0][0] == '客' && RoomNames()[1][0] == '主';
    assert RoomNames()[2][0] == '书' && RoomNames()[3][0] == '次';
    assert EntityNames()[0][0] == '空' && EntityNames()[1][0] == '灯' && EntityNames()[2][1] == '户'
        && EntityNames()[3][1] == '帘';
    assert |EntityNames()[1]| == 1 && |EntityNames()[2]| == |EntityNames()[3]| == 2;
  }

  predicate InVocabulary(c: (nat, nat)) { c.0 < |RoomNames()| && c.1 < |EntityNames()| }

  lemma KeyAtParses(c: (nat, nat))
    requires InVocabulary(c)
    ensures Split(KeyAt(RoomNames(), EntityNames(), c)) == [RoomNames()[c.0], EntityNames()[c.1], "default"]
  {
    Vocabulary();
    hide RoomNames, EntityNames, Split, Clean, Unsplit, Key;
    var r, e, d := RoomNames()[c.0], EntityNames()[c.1], "default";
    assert ':' !in d;
    ColonFree(r);
    ColonFree(e);
    ColonFree(d);
    KeyParses(r, e, d);
  }

  lemma KeyAtInjective(c: (nat, nat), d: (nat, nat))
    requires InVocabulary(c) && InVocabulary(d)
    requires KeyAt(RoomNames(), EntityNames(), c) == KeyAt(RoomNames(), EntityNames(), d)
    ensures c == d
  {
    Vocabulary();
    KeyAtParses(c);
    KeyAtParses(d);
    hide RoomNames, EntityNames, Split, KeyAt;
    var x, y := [RoomNames()[c.0], EntityNames()[c.1], "default"], [RoomNames()[d.0], EntityNames()[d.1], "default"];
    assert x[0] == y[0] && x[1] == y[1];
  }

  /** The cell whose room and entity are both selected, and whose key is mounted when a registry is given. */
  predicate Wanted(rm: seq<bool>, em: seq<bool>, mounted: Option<set<string>>, c: (nat, nat)) {
    InVocabulary(c) && Picked(rm, em, c) && (mounted.Some? ==> KeyAt(RoomNames(), EntityNames(), c) in mounted.value)
  }

  /** `x` stands before `y` in the room-major product. */
  ghost predicate Ahead(x: string, y: string) {
    exists c, d :: Before(c, d) && At(c, x) && At(d, y)
  }

  predicate At(c: (nat, nat), k: string) { InVocabulary(c) && KeyAt(RoomNames(), EntityNames(), c) == k }

  /** Keys in strict room-major order. */
  ghost predicate RoomMajor(ks: seq<string>) {
    forall i, j :: 0 <= i < j < |ks| ==> Ahead(ks[i], ks[j])
  }

  lemma AheadIsStrict(x: string, y: string)
    requires Ahead(x, y)
    ensures x != y
  {
    var c, d :| Before(c, d) && At(c, x) && At(d, y);
    hide KeyAt, RoomNames, EntityNames;
    if x == y { KeyAtInjective(c, d); }
  }

  lemma {:induction false} FilterRoomMajor(ks: seq<string>, p: string -> bool)
    requires RoomMajor(ks)
    ensures RoomMajor(Filter(ks, p))
  {
    if ks != [] {
      hide Ahead;
      var n := |ks| - 1;
      FilterRoomMajor(ks[..n], p);
      FilterMembers(ks[..n], p);
      var r := Filter(ks[..n], p);
      forall i | 0 <= i < |r| ensures Ahead(r[i], ks[n]) {
        assert r[i] in ks[..n];
        var k :| 0 <= k < n && ks[..n][k] == r[i];
      }
    }
  }

  lemma KeysRoomMajor(cs: seq<(nat, nat)>)
    requires Sorted(cs, Before) && forall c :: c in cs ==> InVocabulary(c)
    ensures RoomMajor(KeysAt(RoomNames(), EntityNames(), cs))
  {
    hide KeyAt, InVocabulary, Before, RoomNames, EntityNames;
    var ks := KeysAt(RoomNames(), EntityNames(), cs);
    forall i, j | 0 <= i < j < |ks| ensures Ahead(ks[i], ks[j]) {
      var c, d := cs[i], cs[j];
      assert c in cs && d in cs;
      assert Before(c, d) && At(c, ks[i]) && At(d, ks[j]);
    }
  }

  lemma ChosenFacts(rm: seq<bool>, em: seq<bool>)
    ensures var cs := Filter(Cells(|RoomNames()|, |EntityNames()|), (c: (nat, nat)) => Picked(rm, em, c));
            Sorted(cs, Before) && forall c :: c in cs <==> InVocabulary(c) && Picked(rm, em, c)
  {
    var all := Cells(|RoomNames()|, |EntityNames()|);
    CellsFacts(|RoomNames()|, |EntityNames()|);
    hide Cells, Picked, RoomNames, EntityNames, Before;
    FilterMembers(all, (c: (nat, nat)) => Picked(rm, em, c));
    FilterSorted(all, (c: (nat, nat)) => Picked(rm, em, c), Before);
  }

  lemma {:induction false} KeysMembers(cs: seq<(nat, nat)>, k: string)
    ensures k in KeysAt(RoomNames(), EntityNames(), cs)
        <==> exists c :: c in cs && KeyAt(RoomNames(), EntityNames(), c) == k
  {
    hide KeyAt, RoomNames, EntityNames;
    var ks := KeysAt(RoomNames(), EntityNames(), cs);
    if k in ks {
      var i :| 0 <= i < |ks| && ks[i] == k;
      assert cs[i] in cs;
    }
    if c :| c in cs && KeyAt(RoomNames(), EntityNames(), c) == k {
      var i :| 0 <= i < |cs| && cs[i] == c;
      assert ks[i] == k;
    }
  }

  lemma {:induction false} CandidatesMembers(rm: seq<bool>, em: seq<bool>, cs: seq<(nat, nat)>,
                                             mounted: Option<set<string>>, k: string)
    requires forall c :: c in cs <==> InVocabulary(c) && Picked(rm, em, c)
    ensures k in KeysAt(RoomNames(), EntityNames(), cs) && (mounted.Some? ==> k in mounted.value)
       <==> exists c :: Wanted(rm, em, mounted, c) && KeyAt(RoomNames(), EntityNames(), c) == k
  {
    KeysMembers(cs, k);
    hide KeyAt, KeysAt, RoomNames, EntityNames, Picked, InVocabulary;
  }

  /** `compose` is the room-major product of the selected rooms and entities, cut down to the mounted devices. */
  lemma {:induction false} ComposeIsProduct(roomLogits: seq<real>, entityLogits: seq<real>, roomCount: int,
                                            entityCount: int, mounted: Option<set<string>>)
    requires |roomLogits| >= |RoomNames()| && |entityLogits| >= |EntityNames()|
    ensures var ks := Compose(roomLogits, entityLogits, roomCount, entityCount, mounted);
            var rm, em := TopkMask(roomLogits, roomCount), TopkMask(entityLogits, entityCount);
            && RoomMajor(ks)
            && forall k :: k in ks
                 <==> exists c :: Wanted(rm, em, mounted, c) && KeyAt(RoomNames(), EntityNames(), c) == k
  {
    var rm, em := TopkMask(roomLogits, roomCount), TopkMask(entityLogits, entityCount);
    ChosenFacts(rm, em);
    var cs := Filter(Cells(|RoomNames()|, |EntityNames()|), (c: (nat, nat)) => Picked(rm, em, c));
    KeysRoomMajor(cs);
    var candidates := KeysAt(RoomNames(), EntityNames(), cs);
    var ks := Compose(roomLogits, entityLogits, roomCount, entityCount, mounted);
    if mounted.Some? {
      FilterMembers(candidates, (k: string) => k in mounted.value);
      FilterRoomMajor(candidates, (k: string) => k in mounted.value);
    }
    assert RoomMajor(ks);
    hide TopkMask, Cells, KeysAt, Wanted, RoomMajor, Picked;
    forall k ensures k in ks <==> exists c :: Wanted(rm, em, mounted, c) && KeyAt(RoomNames(), EntityNames(), c) == k {
      CandidatesMembers(rm, em, cs, mounted, k);
      assert k in ks <==> k in candidates && (mounted.Some? ==> k in mounted.value);
    }
  }

  /** Every composed key appears once and splits into its three parts. */
  lemma ComposedKeys(roomLogits: seq<real>, entityLogits: seq<real>, roomCount: int, entityCount: int,
                     mounted: Option<set<string>>)
    requires |roomLogits| >= |RoomNames()| && |entityLogits| >= |EntityNames()|
    ensures var ks := Compose(roomLogits, entityLogits, roomCount, entityCount, mounted);
            Distinct(ks) && forall k :: k in ks ==> |Split(k)| == 3 && (mounted.Some? ==> k in mounted.value)
  {
    ComposeIsProduct(roomLogits, entityLogits, roomCount, entityCount, mounted);
    var ks := Compose(roomLogits, entityLogits, roomCount, entityCount, mounted);
    var rm, em := TopkMask(roomLogits, roomCount), TopkMask(entityLogits, entityCount);
    hide Compose, TopkMask, Picked, Split, KeyAt, Ahead, RoomNames, EntityNames;
    forall i, j | 0 <= i < j < |ks| ensures ks[i] != ks[j] { AheadIsStrict(ks[i], ks[j]); }
    forall k | k in ks ensures |Split(k)| == 3 && (mounted.Some? ==> k in mounted.value) {
      var c :| Wanted(rm, em, mounted, c) && KeyAt(RoomNames(), EntityNames(), c) == k;
      KeyAtParses(c);
    }
  }
}
