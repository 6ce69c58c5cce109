/** The no-drift oracle and what its acceptance means on trees. */
module MinimalDelta {
  import opened Wrappers

  /** Leaf values; `Null` is what a missing key reads as. Two values are equal here exactly when the program's `!=`
      does not tell them apart, so 1, 1.0 and true are one value. */
  datatype Value = Null | Val(n: int)

  /** A JSON tree; a dictionary is its entries in order. */
  datatype Tree = Leaf(v: Value) | Dict(entries: Entries)
  datatype Entries = End | Entry(key: string, node: Tree, rest: Entries)

  type Flat = map<string, Value>

  // ---------- the program ----------

  /** `f"{p}.{k}" if p else str(k)`. */
  function Extend(p: string, k: string): string {
    if p == "" then k else p + "." + k
  }

  function FlatOf(x: Tree, p: string): Flat {
    match x
    case Leaf(v) => map[p := v]
    case Dict(es) => FlatEntries(es, p)
  }

  function FlatEntries(es: Entries, p: string): Flat {
    match es
    case End => map[]
    case Entry(k, node, rest) => FlatOf(node, Extend(p, k)) + FlatEntries(rest, p)
  }

  method Flatten(x: Tree, p: string) returns (out: Flat)
    ensures out == FlatOf(x, p)
    decreases x
  {
    if x.Leaf? { return map[p := x.v]; }
    out := map[];
    var es := x.entries;
    while es.Entry?
      invariant es == x.entries || es < x.entries
      invariant out + FlatEntries(es, p) == FlatEntries(x.entries, p)
      decreases es
    {
      var sub := Flatten(es.node, Extend(p, es.key));
      assert (out + sub) + FlatEntries(es.rest, p) == out + (sub + FlatEntries(es.rest, p));
      out := out + sub;
      es := es.rest;
    }
  }

  function Get(f: Flat, k: string): Value {
    if k in f then f[k] else Null
  }

  function Changed(before: Tree, after: Tree): set<string> {
    var a, b := FlatOf(before, ""), FlatOf(after, "");
    set k | k in a.Keys + b.Keys && Get(a, k) != Get(b, k)
  }

  /** `p == w or p.startswith(w + ".")`. */
  predicate Under(p: string, w: string) {
    p == w || w + "." <= p
  }

  function Leaked(before: Tree, after: Tree, writes: set<string>): set<string> {
    set p | p in Changed(before, after) && forall w :: w in writes ==> !Under(p, w)
  }

  /** `assert_minimal_delta` raises exactly when something leaked. */
  predicate Accepts(before: Tree, after: Tree, writes: set<string>) {
    Leaked(before, after, writes) == {}
  }

  // ---------- dotted paths ----------

  predicate Good(seg: string) {
    seg != "" && '.' !in seg
  }

  ghost predicate GoodPath(ps: seq<string>) {
    forall i :: 0 <= i < |ps| ==> Good(ps[i])
  }

  function Dotted(ps: seq<string>): string {
    if ps == [] then "" else if |ps| == 1 then ps[0] else ps[0] + "." + Dotted(ps[1..])
  }

  function FirstDot(s: string): (n: nat)
    ensures n <= |s|
  {
    if s == "" || s[0] == '.' then 0 else 1 + FirstDot(s[1..])
  }

  lemma {:induction false} FirstDotAfter(seg: string, rest: string)
    requires '.' !in seg && (rest == "" || rest[0] == '.')
    ensures FirstDot(seg + rest) == |seg|
  {
    if seg == "" { assert seg + rest == rest; }
    else {
      FirstDotAfter(seg[1..], rest);
      assert (seg + rest)[1..] == seg[1..] + rest;
    }
  }

  /** What follows the first segment of a dotted path. */
  function Tail(ps: seq<string>): string {
    if |ps| <= 1 then "" else "." + Dotted(ps[1..])
  }

  lemma HeadOf(ps: seq<string>)
    requires ps != [] && GoodPath(ps)
    ensures Dotted(ps) == ps[0] + Tail(ps) && FirstDot(Dotted(ps)) == |ps[0]| && |Dotted(ps)| > 0
  {
    assert Good(ps[0]);
    FirstDotAfter(ps[0], Tail(ps));
  }

  /** Two strings that start with dot-free text up to a dot or the end agree on that text. */
  lemma SameHead(a: string, ra: string, b: string, rb: string)
    requires '.' !in a && '.' !in b && (ra == "" || ra[0] == '.') && (rb == "" || rb[0] == '.') && a + ra == b + rb
    ensures a == b && ra == rb
  {
    FirstDotAfter(a, ra);
    FirstDotAfter(b, rb);
    assert a == (a + ra)[..|a|] && b == (b + rb)[..|b|];
    assert ra == (a + ra)[|a|..] && rb == (b + rb)[|b|..];
  }

  /** Distinct good paths have distinct dotted forms. */
  lemma {:induction false} DottedInjective(a: seq<string>, b: seq<string>)
    requires GoodPath(a) && GoodPath(b) && Dotted(a) == Dotted(b)
    ensures a == b
  {
    if a != [] && b != [] {
      HeadOf(a);
      HeadOf(b);
      assert Good(a[0]) && Good(b[0]);
      SameHead(a[0], Tail(a), b[0], Tail(b));
      if |a| > 1 && |b| > 1 {
        assert Tail(a)[1..] == Dotted(a[1..]) && Tail(b)[1..] == Dotted(b[1..]);
        DottedInjective(a[1..], b[1..]);
        assert a == [a[0]] + a[1..] && b == [b[0]] + b[1..];
      }
    } else if a != [] {
      HeadOf(a);
    } else if b != [] {
      HeadOf(b);
    }
  }

  lemma {:induction false} DottedConcat(a: seq<string>, b: seq<string>)
    requires a != [] && b != []
    ensures Dotted(a + b) == Dotted(a) + "." + Dotted(b)
  {
    if |a| == 1 {
      assert (a + b)[1..] == b;
    } else {
      DottedConcat(a[1..], b);
      assert (a + b)[1..] == a[1..] + b;
    }
  }

  /** The dotted prefix test is the segment-wise one. */
  lemma UnderIsPrefix(ps: seq<string>, ws: seq<string>)
    requires GoodPath(ps) && GoodPath(ws) && ws != []
    ensures Under(Dotted(ps), Dotted(ws)) <==> ws <= ps
  {
    if ws <= ps {
      if |ws| < |ps| {
        assert ps == ws + ps[|ws|..];
        DottedConcat(ws, ps[|ws|..]);
      } else {
        assert ws == ps;
      }
    }
    if Dotted(ps) == Dotted(ws) {
      DottedInjective(ps, ws);
    } else if Dotted(ws) + "." <= Dotted(ps) {
      PrefixBySegments(ps, ws);
    }
  }

  lemma {:induction false} PrefixBySegments(ps: seq<string>, ws: seq<string>)
    requires GoodPath(ps) && GoodPath(ws) && ws != [] && Dotted(ws) + "." <= Dotted(ps)
    ensures ws <= ps
  {
    assert ps != [];
    FirstSegment(ps, ws);
    if |ws| > 1 {
      assert |ps| > 1;
      RestOfSegments(ps, ws);
      hide Dotted;
      PrefixBySegments(ps[1..], ws[1..]);
      assert ps == [ps[0]] + ps[1..] && ws == [ws[0]] + ws[1..];
    }
  }

  /** The first segments agree, and the prefix relation passes to what follows them. */
  lemma {:induction false} FirstSegment(ps: seq<string>, ws: seq<string>)
    requires GoodPath(ps) && GoodPath(ws) && ps != [] && ws != [] && Dotted(ws) + "." <= Dotted(ps)
    ensures ps[0] == ws[0] && Tail(ws) + "." <= Tail(ps)
  {
    HeadOf(ps);
    HeadOf(ws);
    assert Good(ps[0]) && Good(ws[0]);
    hide Dotted, GoodPath;
    var t := Tail(ws) + ".";
    assert Dotted(ws) + "." == ws[0] + t;
    var rest := Dotted(ps)[|ws[0]|..];
    assert Dotted(ps) == ws[0] + rest by { assert ws[0] <= Dotted(ps); }
    CancelPrefix(ws[0], t, rest);
    assert t[0] == '.';
    SameHead(ps[0], Tail(ps), ws[0], rest);
  }

  lemma RestOfSegments(ps: seq<string>, ws: seq<string>)
    requires |ps| > 1 && |ws| > 1 && Tail(ws) + "." <= Tail(ps)
    ensures Dotted(ws[1..]) + "." <= Dotted(ps[1..])
  {
    hide Dotted;
    assert Tail(ws) + "." == "." + (Dotted(ws[1..]) + ".");
    CancelPrefix(".", Dotted(ws[1..]) + ".", Dotted(ps[1..]));
  }

  lemma CancelPrefix(h: string, a: string, b: string)
    requires h + a <= h + b
    ensures a <= b
  {
    assert a == (h + a)[|h|..] && b == (h + b)[|h|..];
    assert (h + b)[..|h + a|] == h + a;
    assert b[..|a|] == (h + b)[|h|..|h| + |a|];
  }

  // ---------- trees and their leaves ----------

  predicate HasKey(es: Entries, k: string) {
    match es case End => false case Entry(key, _, rest) => key == k || HasKey(rest, k)
  }

  /** Keys are nonempty, dot-free and distinct in every dictionary. */
  predicate WellKeyed(x: Tree) {
    match x case Leaf(_) => true case Dict(es) => WellKeyedEntries(es)
  }

  predicate WellKeyedEntries(es: Entries) {
    match es
    case End => true
    case Entry(k, node, rest) => Good(k) && !HasKey(rest, k) && WellKeyed(node) && WellKeyedEntries(rest)
  }

  /** What is reached by following a path of keys. */
  function SubtreeAt(x: Tree, ps: seq<string>): Option<Tree> {
    if ps == [] then Some(x) else if x.Leaf? then None else SubtreeIn(x.entries, ps)
  }

  function SubtreeIn(es: Entries, ps: seq<string>): Option<Tree>
    requires ps != []
  {
    match es
    case End => None
    case Entry(k, node, rest) => if k == ps[0] then SubtreeAt(node, ps[1..]) else SubtreeIn(rest, ps)
  }

  function LeafOf(t: Option<Tree>): Option<Value> {
    if t.Some? && t.value.Leaf? then Some(t.value.v) else None
  }

  function LeafAt(x: Tree, ps: seq<string>): Option<Value> {
    LeafOf(SubtreeAt(x, ps))
  }

  function LeafIn(es: Entries, ps: seq<string>): Option<Value>
    requires ps != []
  {
    LeafOf(SubtreeIn(es, ps))
  }

  /** The string under which a path below the prefix `p` is flattened. */
  function Below(p: string, ps: seq<string>): string {
    if ps == [] then p else if p == "" then Dotted(ps) else p + "." + Dotted(ps)
  }

  lemma BelowNext(p: string, ps: seq<string>)
    requires ps != [] && GoodPath(ps)
    ensures Below(p, ps) == Below(Extend(p, ps[0]), ps[1..])
  {
    assert Good(ps[0]);
    if |ps| > 1 { assert p + "." + (ps[0] + "." + Dotted(ps[1..])) == p + "." + ps[0] + "." + Dotted(ps[1..]); }
    else { assert ps[1..] == []; }
  }

  lemma BelowInjective(p: string, a: seq<string>, b: seq<string>)
    requires GoodPath(a) && GoodPath(b) && Below(p, a) == Below(p, b)
    ensures a == b
  {
    if a != [] { HeadOf(a); }
    if b != [] { HeadOf(b); }
    if a != [] && b != [] {
      if p != "" {
        assert Dotted(a) == (p + "." + Dotted(a))[|p| + 1..];
        assert Dotted(b) == (p + "." + Dotted(b))[|p| + 1..];
      }
      DottedInjective(a, b);
    }
  }

  lemma {:induction false} LeafPathGood(x: Tree, ps: seq<string>)
    requires WellKeyed(x) && LeafAt(x, ps).Some?
    ensures GoodPath(ps)
    decreases x
  {
    if x.Dict? { LeafInGood(x.entries, ps); }
  }

  lemma {:induction false} LeafInGood(es: Entries, ps: seq<string>)
    requires ps != [] && WellKeyedEntries(es) && LeafIn(es, ps).Some?
    ensures GoodPath(ps) && HasKey(es, ps[0])
    decreases es
  {
    if es.key == ps[0] {
      LeafPathGood(es.node, ps[1..]);
      forall i | 0 <= i < |ps| ensures Good(ps[i]) { if i > 0 { assert ps[i] == ps[1..][i - 1]; } }
    } else {
      LeafInGood(es.rest, ps);
    }
  }

  /** Every flattened entry is the leaf at some path. */
  lemma {:induction false} FlatHasPath(x: Tree, p: string, s: string) returns (ps: seq<string>)
    requires WellKeyed(x) && s in FlatOf(x, p)
    ensures s == Below(p, ps) && LeafAt(x, ps) == Some(FlatOf(x, p)[s])
    decreases x
  {
    if x.Leaf? { ps := []; }
    else { ps := FlatEntryHasPath(x.entries, p, s); }
  }

  lemma {:induction false} FlatEntryHasPath(es: Entries, p: string, s: string) returns (ps: seq<string>)
    requires WellKeyedEntries(es) && s in FlatEntries(es, p)
    ensures ps != [] && s == Below(p, ps) && LeafIn(es, ps) == Some(FlatEntries(es, p)[s])
    decreases es
  {
    if s in FlatEntries(es.rest, p) {
      ps := FlatEntryHasPath(es.rest, p, s);
      LeafInGood(es.rest, ps);
    } else {
      var t := FlatHasPath(es.node, Extend(p, es.key), s);
      LeafPathGood(es.node, t);
      ps := [es.key] + t;
      assert ps[1..] == t;
      forall i | 0 <= i < |ps| ensures Good(ps[i]) { if i > 0 { assert ps[i] == t[i - 1]; } }
      BelowNext(p, ps);
    }
  }

  /** Every leaf is flattened under its dotted path. */
  lemma {:induction false} PathIsFlat(x: Tree, p: string, ps: seq<string>)
    requires WellKeyed(x) && LeafAt(x, ps).Some?
    ensures Below(p, ps) in FlatOf(x, p) && FlatOf(x, p)[Below(p, ps)] == LeafAt(x, ps).value
    decreases x
  {
    if x.Dict? { PathInFlat(x.entries, p, ps); }
  }

  lemma {:induction false} PathInFlat(es: Entries, p: string, ps: seq<string>)
    requires ps != [] && WellKeyedEntries(es) && LeafIn(es, ps).Some?
    ensures Below(p, ps) in FlatEntries(es, p) && FlatEntries(es, p)[Below(p, ps)] == LeafIn(es, ps).value
    decreases es
  {
    LeafInGood(es, ps);
    if es.key == ps[0] {
      BelowNext(p, ps);
      PathIsFlat(es.node, Extend(p, es.key), ps[1..]);
      if Below(p, ps) in FlatEntries(es.rest, p) {
        var qs := FlatEntryHasPath(es.rest, p, Below(p, ps));
        LeafInGood(es.rest, qs);
        BelowInjective(p, ps, qs);
        assert false;
      }
    } else {
      PathInFlat(es.rest, p, ps);
    }
  }

  /** Reading a flattened tree at a dotted path is following the path, with a missing leaf read as null. */
  lemma FlatReadsLeaf(x: Tree, ps: seq<string>)
    requires WellKeyed(x) && GoodPath(ps)
    ensures Get(FlatOf(x, ""), Dotted(ps)) == if LeafAt(x, ps).Some? then LeafAt(x, ps).value else Null
    ensures Dotted(ps) in FlatOf(x, "") <==> LeafAt(x, ps).Some?
  {
    assert Below("", ps) == Dotted(ps);
    if LeafAt(x, ps).Some? { PathIsFlat(x, "", ps); }
    if Dotted(ps) in FlatOf(x, "") {
      var qs := FlatHasPath(x, "", Dotted(ps));
      LeafPathGood(x, qs);
      BelowInjective("", ps, qs);
    }
  }

  /** Equal flattenings have equal leaves at every path, and conversely. */
  lemma SameLeaves(x: Tree, y: Tree)
    requires WellKeyed(x) && WellKeyed(y)
    ensures FlatOf(x, "") == FlatOf(y, "") <==> forall ps :: LeafAt(x, ps) == LeafAt(y, ps)
  {
    if FlatOf(x, "") == FlatOf(y, "") {
      forall ps ensures LeafAt(x, ps) == LeafAt(y, ps) { LeafFromFlat(x, y, ps); }
    }
    if forall ps :: LeafAt(x, ps) == LeafAt(y, ps) {
      forall s ensures s in FlatOf(x, "") ==> s in FlatOf(y, "") && FlatOf(y, "")[s] == FlatOf(x, "")[s] {
        if s in FlatOf(x, "") {
          var ps := FlatHasPath(x, "", s);
          PathIsFlat(y, "", ps);
        }
      }
      forall s | s in FlatOf(y, "") ensures s in FlatOf(x, "") {
        var ps := FlatHasPath(y, "", s);
        PathIsFlat(x, "", ps);
      }
    }
  }

  lemma LeafFromFlat(x: Tree, y: Tree, ps: seq<string>)
    requires WellKeyed(x) && WellKeyed(y) && FlatOf(x, "") == FlatOf(y, "")
    ensures LeafAt(x, ps) == LeafAt(y, ps)
  {
    if LeafAt(x, ps).Some? || LeafAt(y, ps).Some? {
      if LeafAt(x, ps).Some? { LeafPathGood(x, ps); } else { LeafPathGood(y, ps); }
      FlatReadsLeaf(x, ps);
      FlatReadsLeaf(y, ps);
    }
  }

  // ---------- equality of trees up to key order ----------

  function Find(es: Entries, k: string): Option<Tree> {
    match es case End => None case Entry(key, node, rest) => if key == k then Some(node) else Find(rest, k)
  }

  ghost predicate SameTree(x: Tree, y: Tree) {
    match x
    case Leaf(_) => y == x
    case Dict(es) => y.Dict? && SubEntries(es, y.entries) && forall k :: HasKey(y.entries, k) ==> HasKey(es, k)
  }

  /** Every entry of `es` has a counterpart in `fs`. */
  ghost predicate SubEntries(es: Entries, fs: Entries) {
    match es
    case End => true
    case Entry(k, node, rest) => Find(fs, k).Some? && SameTree(node, Find(fs, k).value) && SubEntries(rest, fs)
  }

  /** Both absent, or both present and equal. */
  ghost predicate SameNode(a: Option<Tree>, b: Option<Tree>) {
    a.Some? == b.Some? && (a.Some? ==> SameTree(a.value, b.value))
  }

  /** Both absent, the same leaf, or both objects. */
  predicate Alike(a: Option<Tree>, b: Option<Tree>) {
    match a
    case None => b == None
    case Some(t) => b.Some? && if t.Leaf? then b.value == t else b.value.Dict?
  }

  lemma {:induction false} FindMeans(es: Entries, k: string)
    ensures Find(es, k).Some? <==> HasKey(es, k)
    ensures forall qs :: SubtreeIn(es, [k] + qs) == if Find(es, k).None? then None else SubtreeAt(Find(es, k).value, qs)
  {
    if es.Entry? && es.key != k { FindMeans(es.rest, k); }
    if es.Entry? && es.key == k {
      forall qs ensures SubtreeIn(es, [k] + qs) == SubtreeAt(es.node, qs) { assert ([k] + qs)[1..] == qs; }
    }
  }

  lemma {:induction false} SubEntriesFind(es: Entries, fs: Entries, k: string)
    requires SubEntries(es, fs) && Find(es, k).Some?
    ensures Find(fs, k).Some? && SameTree(Find(es, k).value, Find(fs, k).value)
  {
    if es.key != k { SubEntriesFind(es.rest, fs, k); }
  }

  /** Equal trees hold equal subtrees at every path. */
  lemma {:induction false} SameTreeAt(x: Tree, y: Tree, ps: seq<string>)
    requires SameTree(x, y)
    ensures SameNode(SubtreeAt(x, ps), SubtreeAt(y, ps))
    decreases |ps|
  {
    if ps != [] && x.Dict? {
      assert ps == [ps[0]] + ps[1..];
      FindMeans(x.entries, ps[0]);
      FindMeans(y.entries, ps[0]);
      assert SubtreeAt(x, ps) == SubtreeIn(x.entries, [ps[0]] + ps[1..]);
      assert SubtreeAt(y, ps) == SubtreeIn(y.entries, [ps[0]] + ps[1..]);
      if Find(x.entries, ps[0]).Some? {
        SubEntriesFind(x.entries, y.entries, ps[0]);
        SameTreeAt(Find(x.entries, ps[0]).value, Find(y.entries, ps[0]).value, ps[1..]);
      }
    }
  }

  /** Trees that are alike at every path are equal. */
  lemma {:induction false} AlikeEverywhere(x: Tree, y: Tree)
    requires WellKeyed(x) && forall ps :: Alike(SubtreeAt(x, ps), SubtreeAt(y, ps))
    ensures SameTree(x, y)
    decreases x
  {
    assert Alike(SubtreeAt(x, []), SubtreeAt(y, []));
    if x.Dict? {
      forall k, qs ensures Alike(SubtreeIn(x.entries, [k] + qs), SubtreeIn(y.entries, [k] + qs)) {
        assert Alike(SubtreeAt(x, [k] + qs), SubtreeAt(y, [k] + qs));
      }
      AlikeEntries(x.entries, x.entries, y.entries);
      forall k | HasKey(y.entries, k) ensures HasKey(x.entries, k) {
        FindMeans(y.entries, k);
        FindMeans(x.entries, k);
        assert Alike(SubtreeIn(x.entries, [k] + []), SubtreeIn(y.entries, [k] + []));
      }
    }
  }

  lemma {:induction false} AlikeEntries(all: Entries, es: Entries, fs: Entries)
    requires WellKeyedEntries(es) && forall k :: HasKey(es, k) ==> Find(all, k) == Find(es, k)
    requires forall k, qs :: Alike(SubtreeIn(all, [k] + qs), SubtreeIn(fs, [k] + qs))
    ensures SubEntries(es, fs)
    decreases es
  {
    if es.Entry? {
      var k := es.key;
      FindMeans(all, k);
      FindMeans(fs, k);
      assert Find(all, k) == Some(es.node) by { assert HasKey(es, k); }
      assert Alike(SubtreeIn(all, [k] + []), SubtreeIn(fs, [k] + []));
      forall qs ensures Alike(SubtreeAt(es.node, qs), SubtreeAt(Find(fs, k).value, qs)) {
        assert Alike(SubtreeIn(all, [k] + qs), SubtreeIn(fs, [k] + qs));
      }
      AlikeEverywhere(es.node, Find(fs, k).value);
      forall j | HasKey(es.rest, j) ensures Find(all, j) == Find(es.rest, j) { assert HasKey(es, j); }
      AlikeEntries(all, es.rest, fs);
    }
  }

  lemma {:induction false} SubtreeConcat(x: Tree, ps: seq<string>, qs: seq<string>)
    ensures SubtreeAt(x, ps + qs) == if SubtreeAt(x, ps).None? then None else SubtreeAt(SubtreeAt(x, ps).value, qs)
    decreases |ps|
  {
    if ps == [] {
      assert ps + qs == qs;
    } else if x.Dict? {
      FindMeans(x.entries, ps[0]);
      assert ps == [ps[0]] + ps[1..] && ps + qs == [ps[0]] + (ps[1..] + qs);
      assert SubtreeAt(x, ps) == SubtreeIn(x.entries, [ps[0]] + ps[1..]);
      assert SubtreeAt(x, ps + qs) == SubtreeIn(x.entries, [ps[0]] + (ps[1..] + qs));
      if Find(x.entries, ps[0]).Some? { SubtreeConcat(Find(x.entries, ps[0]).value, ps[1..], qs); }
    }
  }

  lemma {:induction false} SubtreeWellKeyed(x: Tree, ps: seq<string>)
    requires WellKeyed(x) && SubtreeAt(x, ps).Some?
    ensures WellKeyed(SubtreeAt(x, ps).value)
    decreases x
  {
    if ps != [] { SubtreeInWellKeyed(x.entries, ps); }
  }

  lemma {:induction false} SubtreeInWellKeyed(es: Entries, ps: seq<string>)
    requires ps != [] && WellKeyedEntries(es) && SubtreeIn(es, ps).Some?
    ensures WellKeyed(SubtreeIn(es, ps).value)
    decreases es
  {
    if es.key == ps[0] { SubtreeWellKeyed(es.node, ps[1..]); } else { SubtreeInWellKeyed(es.rest, ps); }
  }

  ghost predicate ObjectAt(x: Tree, ps: seq<string>) {
    SubtreeAt(x, ps).Some? && SubtreeAt(x, ps).value.Dict?
  }

  ghost predicate EmptyAt(x: Tree, ps: seq<string>) {
    SubtreeAt(x, ps) == Some(Dict(End))
  }

  /** Every tree ends somewhere: in a leaf or in an empty object. */
  lemma {:induction false} Ends(x: Tree) returns (r: seq<string>)
    ensures LeafAt(x, r).Some? || EmptyAt(x, r)
    decreases x
  {
    if x.Leaf? || x.entries.End? {
      r := [];
    } else {
      var t := Ends(x.entries.node);
      r := [x.entries.key] + t;
      assert r[1..] == t;
      assert SubtreeAt(x, r) == SubtreeAt(x.entries.node, t);
    }
  }

  /** A dot inside a key makes two different trees flatten alike. */
  lemma DottedKeyCollides()
    ensures FlatOf(Dict(Entry("a.b", Leaf(Val(1)), End)), "")
       == FlatOf(Dict(Entry("a", Dict(Entry("b", Leaf(Val(1)), End)), End)), "")
  {
    assert "a" + "." + "b" == "a.b";
  }

  // ---------- what acceptance means ----------

  ghost predicate Covered(ps: seq<string>, writes: set<seq<string>>) {
    exists ws :: ws in writes && ws <= ps
  }

  function DottedSet(writes: set<seq<string>>): set<string> {
    set ws | ws in writes :: Dotted(ws)
  }

  ghost predicate GoodWrites(writes: set<seq<string>>) {
    forall ws :: ws in writes ==> ws != [] && GoodPath(ws)
  }

  /** The two trees read alike at this path, a missing leaf reading as null. */
  ghost predicate ReadsAlike(x: Tree, y: Tree, ps: seq<string>) {
    (if LeafAt(x, ps).Some? then LeafAt(x, ps).value else Null)
        == (if LeafAt(y, ps).Some? then LeafAt(y, ps).value else Null)
  }

  lemma LeakedPath(before: Tree, after: Tree, writes: set<seq<string>>, ps: seq<string>)
    requires WellKeyed(before) && WellKeyed(after) && GoodWrites(writes) && GoodPath(ps)
    ensures Dotted(ps) in Leaked(before, after, DottedSet(writes))
        <==> !Covered(ps, writes) && !ReadsAlike(before, after, ps)
  {
    FlatReadsLeaf(before, ps);
    FlatReadsLeaf(after, ps);
    hide FlatOf, Dotted, GoodPath;
    forall ws | ws in writes ensures Under(Dotted(ps), Dotted(ws)) <==> ws <= ps { UnderIsPrefix(ps, ws); }
    hide Under;
    var d := DottedSet(writes);
    if Covered(ps, writes) {
      var ws :| ws in writes && ws <= ps;
      assert Dotted(ws) in d;
    }
  }

  /** Acceptance, exactly: every path outside the write-set reads the same before and after. */
  lemma AcceptsExactly(before: Tree, after: Tree, writes: set<seq<string>>)
    requires WellKeyed(before) && WellKeyed(after) && GoodWrites(writes)
    ensures Accepts(before, after, DottedSet(writes))
        <==> forall ps :: GoodPath(ps) && !Covered(ps, writes) ==> ReadsAlike(before, after, ps)
  {
    hide Leaked, ReadsAlike, Covered, GoodPath, Dotted, LeafAt;
    var leaked := Leaked(before, after, DottedSet(writes));
    if leaked == {} {
      forall ps | GoodPath(ps) && !Covered(ps, writes) ensures ReadsAlike(before, after, ps) {
        LeakedPath(before, after, writes, ps);
      }
    } else {
      var s :| s in leaked;
      var ps := LeakedHasPath(before, after, DottedSet(writes), s);
      LeakedPath(before, after, writes, ps);
    }
  }

  lemma LeakedHasPath(before: Tree, after: Tree, writes: set<string>, s: string) returns (ps: seq<string>)
    requires WellKeyed(before) && WellKeyed(after) && s in Leaked(before, after, writes)
    ensures GoodPath(ps) && Dotted(ps) == s
  {
    if s in FlatOf(before, "") {
      ps := FlatHasPath(before, "", s);
      LeafPathGood(before, ps);
    } else {
      ps := FlatHasPath(after, "", s);
      LeafPathGood(after, ps);
    }
  }

  /** The path leads towards a declared write. */
  ghost predicate Above(ps: seq<string>, writes: set<seq<string>>) {
    exists ws :: ws in writes && ps <= ws && ps != ws
  }

  /** Neither a declared write nor anything that contains one. */
  ghost predicate Outside(ps: seq<string>, writes: set<seq<string>>) {
    !Covered(ps, writes) && !Above(ps, writes)
  }

  /** Nothing outside the write-set changed: every subtree there is equal, present or absent alike, and so is every
      leaf, even one standing where a write would have to pass. */
  ghost predicate Untouched(before: Tree, after: Tree, writes: set<seq<string>>) {
    && (forall ps :: Outside(ps, writes) ==> SameNode(SubtreeAt(before, ps), SubtreeAt(after, ps)))
    && LeavesUntouched(before, after, writes)
  }

  ghost predicate LeavesUntouched(before: Tree, after: Tree, writes: set<seq<string>>) {
    forall ps :: !Covered(ps, writes) ==> LeafAt(before, ps) == LeafAt(after, ps)
  }

  /** Somewhere outside the write-set one side has an empty object and the other no object at all. */
  ghost predicate EmptyGap(before: Tree, after: Tree, writes: set<seq<string>>) {
    exists ps :: Outside(ps, writes) && (EmptyLost(before, after, ps) || EmptyLost(after, before, ps))
  }

  ghost predicate EmptyLost(x: Tree, y: Tree, ps: seq<string>) {
    EmptyAt(x, ps) && !ObjectAt(y, ps)
  }

  /** Some leaf outside the write-set is null on one side and missing on the other. */
  ghost predicate NullGap(before: Tree, after: Tree, writes: set<seq<string>>) {
    exists ps :: !Covered(ps, writes) && Gap(LeafAt(before, ps), LeafAt(after, ps))
  }

  predicate Gap(a: Option<Value>, b: Option<Value>) {
    (a == None && b == Some(Null)) || (a == Some(Null) && b == None)
  }

  lemma PathReads(before: Tree, after: Tree, ps: seq<string>)
    requires WellKeyed(before) && WellKeyed(after)
    ensures GoodPath(ps)
        ==> (ReadsAlike(before, after, ps)
            <==> LeafAt(before, ps) == LeafAt(after, ps) || Gap(LeafAt(before, ps), LeafAt(after, ps)))
    ensures !GoodPath(ps) ==> LeafAt(before, ps) == LeafAt(after, ps) == None
  {
    if LeafAt(before, ps).Some? { LeafPathGood(before, ps); }
    if LeafAt(after, ps).Some? { LeafPathGood(after, ps); }
  }

  lemma LeavesUntouchedExactly(before: Tree, after: Tree, writes: set<seq<string>>)
    requires WellKeyed(before) && WellKeyed(after) && GoodWrites(writes)
    ensures LeavesUntouched(before, after, writes)
        <==> Accepts(before, after, DottedSet(writes)) && !NullGap(before, after, writes)
  {
    AcceptsExactly(before, after, writes);
    hide Accepts, Covered, WellKeyed, ReadsAlike, LeafAt;
    forall ps
      ensures GoodPath(ps)
          ==> (ReadsAlike(before, after, ps)
              <==> LeafAt(before, ps) == LeafAt(after, ps) || Gap(LeafAt(before, ps), LeafAt(after, ps)))
      ensures !GoodPath(ps) ==> LeafAt(before, ps) == LeafAt(after, ps) == None
    {
      PathReads(before, after, ps);
    }
    hide GoodPath;
  }

  lemma OutsideBelow(ps: seq<string>, qs: seq<string>, writes: set<seq<string>>)
    requires Outside(ps, writes)
    ensures Outside(ps + qs, writes)
  {
    forall ws | ws in writes ensures !(ws <= ps + qs) && !(ps + qs <= ws && ps + qs != ws) {
      PrefixOfConcat(ws, ps, qs);
    }
  }

  lemma PrefixOfConcat(ws: seq<string>, ps: seq<string>, qs: seq<string>)
    ensures ws <= ps + qs ==> ws <= ps || (ps <= ws && ps != ws)
    ensures ps + qs <= ws ==> ws == ps || (ps <= ws && ps != ws)
  {
    if ws <= ps + qs && |ws| > |ps| { assert ps == ws[..|ps|] by { assert ws == (ps + qs)[..|ws|]; } }
    if ps + qs <= ws { assert ps == ws[..|ps|]; }
  }

  /** An object outside the write-set is still one, since whatever it ends in is. */
  lemma {:induction false} ObjectStays(x: Tree, y: Tree, writes: set<seq<string>>, ps: seq<string>)
    requires Outside(ps, writes) && ObjectAt(x, ps)
    requires LeavesUntouched(x, y, writes) && forall qs :: Outside(qs, writes) ==> !EmptyLost(x, y, qs)
    ensures ObjectAt(y, ps)
  {
    var t := SubtreeAt(x, ps).value;
    var r := Ends(t);
    SubtreeConcat(x, ps, r);
    SubtreeConcat(y, ps, r);
    OutsideBelow(ps, r, writes);
    assert !EmptyLost(x, y, ps + r);
    assert LeafAt(x, ps + r) == LeafAt(y, ps + r);
    if r == [] { assert ps + r == ps; }
  }

  lemma {:induction false} AlikeOutside(before: Tree, after: Tree, writes: set<seq<string>>, ps: seq<string>)
    requires Outside(ps, writes) && LeavesUntouched(before, after, writes) && !EmptyGap(before, after, writes)
    ensures Alike(SubtreeAt(before, ps), SubtreeAt(after, ps))
  {
    hide Covered, Above, SubtreeAt;
    assert LeafAt(before, ps) == LeafAt(after, ps);
    forall qs | Outside(qs, writes) ensures !EmptyLost(before, after, qs) && !EmptyLost(after, before, qs) {}
    if ObjectAt(before, ps) { ObjectStays(before, after, writes, ps); }
    if ObjectAt(after, ps) { ObjectStays(after, before, writes, ps); }
  }

  lemma {:induction false} SameOutside(before: Tree, after: Tree, writes: set<seq<string>>, ps: seq<string>)
    requires WellKeyed(before)
    requires Outside(ps, writes) && LeavesUntouched(before, after, writes) && !EmptyGap(before, after, writes)
    ensures SameNode(SubtreeAt(before, ps), SubtreeAt(after, ps))
  {
    hide Outside, LeavesUntouched, EmptyGap;
    AlikeOutside(before, after, writes, ps);
    if SubtreeAt(before, ps).Some? {
      var x, y := SubtreeAt(before, ps).value, SubtreeAt(after, ps).value;
      forall qs ensures Alike(SubtreeAt(x, qs), SubtreeAt(y, qs)) {
        OutsideBelow(ps, qs, writes);
        AlikeOutside(before, after, writes, ps + qs);
        SubtreeConcat(before, ps, qs);
        SubtreeConcat(after, ps, qs);
      }
      SubtreeWellKeyed(before, ps);
      AlikeEverywhere(x, y);
    }
  }

  /** The promise, exactly: the state outside the write-set is untouched iff the oracle accepts, no null leaf
      vanished or appeared there, and no empty object did. */
  lemma {:induction false} UntouchedExactly(before: Tree, after: Tree, writes: set<seq<string>>)
    requires WellKeyed(before) && WellKeyed(after) && GoodWrites(writes)
    ensures Untouched(before, after, writes)
        <==> (&& Accepts(before, after, DottedSet(writes))
              && !NullGap(before, after, writes) && !EmptyGap(before, after, writes))
  {
    LeavesUntouchedExactly(before, after, writes);
    hide Accepts, NullGap, WellKeyed, Outside, SubtreeAt;
    if LeavesUntouched(before, after, writes) && !EmptyGap(before, after, writes) {
      forall ps | Outside(ps, writes) ensures SameNode(SubtreeAt(before, ps), SubtreeAt(after, ps)) {
        SameOutside(before, after, writes, ps);
      }
    }
    forall ps | SameNode(SubtreeAt(before, ps), SubtreeAt(after, ps))
      ensures !EmptyLost(before, after, ps) && !EmptyLost(after, before, ps)
    {
      SameShape(SubtreeAt(before, ps), SubtreeAt(after, ps));
    }
  }

  /** Flattening, exactly: well-keyed trees are equal iff they flatten alike and no empty object of one is missing
      in the other. */
  lemma {:induction false} FlattenInjective(x: Tree, y: Tree)
    requires WellKeyed(x) && WellKeyed(y)
    ensures SameTree(x, y) <==> FlatOf(x, "") == FlatOf(y, "") && !EmptyGap(x, y, {})
    ensures NoEmptyObject(x) && NoEmptyObject(y) ==> (SameTree(x, y) <==> FlatOf(x, "") == FlatOf(y, ""))
  {
    SameLeaves(x, y);
    hide FlatOf, WellKeyed, SubtreeAt, SameTree;
    assert Outside([], {});
    if SameTree(x, y) {
      forall ps ensures SameNode(SubtreeAt(x, ps), SubtreeAt(y, ps)) { SameTreeAt(x, y, ps); }
      forall ps ensures LeafAt(x, ps) == LeafAt(y, ps) && !EmptyLost(x, y, ps) && !EmptyLost(y, x, ps) {
        SameShape(SubtreeAt(x, ps), SubtreeAt(y, ps));
      }
    }
    if FlatOf(x, "") == FlatOf(y, "") {
      assert LeavesUntouched(x, y, {});
      if !EmptyGap(x, y, {}) { SameOutside(x, y, {}, []); RootOf(x, y); }
      if NoEmptyObject(x) && NoEmptyObject(y) { OnlyRootEmpty(x, y); }
    }
  }

  lemma SameShape(a: Option<Tree>, b: Option<Tree>)
    requires SameNode(a, b)
    ensures Alike(a, b)
  {}

  lemma RootOf(x: Tree, y: Tree)
    ensures SubtreeAt(x, []) == Some(x) && SubtreeAt(y, []) == Some(y)
  {}

  /** No object inside the tree is empty; the tree itself may be. */
  ghost predicate NoEmptyObject(x: Tree) {
    forall ps :: ps != [] ==> !EmptyAt(x, ps)
  }

  lemma OnlyRootEmpty(x: Tree, y: Tree)
    requires NoEmptyObject(x) && NoEmptyObject(y) && LeafAt(x, []) == LeafAt(y, [])
    ensures forall ps :: !EmptyLost(x, y, ps) && !EmptyLost(y, x, ps)
  {
    RootOf(x, y);
    hide SubtreeAt;
  }

  ghost predicate NoNullLeaf(x: Tree) {
    forall ps :: LeafAt(x, ps) != Some(Null)
  }

  /** Without null leaves and empty objects inside, acceptance is the promise itself. */
  lemma {:induction false} AcceptsIffUntouched(before: Tree, after: Tree, writes: set<seq<string>>)
    requires WellKeyed(before) && WellKeyed(after) && GoodWrites(writes) && NoNullLeaf(before) && NoNullLeaf(after)
    requires NoEmptyObject(before) && NoEmptyObject(after)
    ensures Accepts(before, after, DottedSet(writes)) <==> Untouched(before, after, writes)
  {
    UntouchedExactly(before, after, writes);
    LeavesUntouchedExactly(before, after, writes);
    if LeavesUntouched(before, after, writes) && !Covered([], writes) { OnlyRootEmpty(before, after); }
    hide Accepts, WellKeyed, Untouched, SubtreeAt;
  }

  /** With a null leaf the promise fails: removing it outside an empty write-set goes unnoticed. */
  lemma NullRemovalUnnoticed()
    ensures var before, after := Dict(Entry("a", Leaf(Null), End)), Dict(End);
            WellKeyed(before) && WellKeyed(after) && Accepts(before, after, {}) && !Untouched(before, after, {})
  {
    var before, after := Dict(Entry("a", Leaf(Null), End)), Dict(End);
    assert FlatOf(before, "") == map["a" := Null];
    assert FlatOf(after, "") == map[];
    assert ["a"][1..] == [];
    assert !Covered(["a"], {}) && LeafAt(before, ["a"]) != LeafAt(after, ["a"]);
  }

  /** With an empty object it fails too: removing it outside an empty write-set goes unnoticed, though no leaf is
      null. */
  lemma EmptyObjectVanishes()
    ensures var before, after := Dict(Entry("a", Dict(End), End)), Dict(End);
            WellKeyed(before) && WellKeyed(after) && Accepts(before, after, {}) && !NullGap(before, after, {})
                && !Untouched(before, after, {})
  {
    var before, after := Dict(Entry("a", Dict(End), End)), Dict(End);
    assert FlatOf(before, "") == map[] == FlatOf(after, "");
    SameLeaves(before, after);
    assert ["a"][1..] == [];
    assert Outside(["a"], {}) && EmptyLost(before, after, ["a"]);
    UntouchedExactly(before, after, {});
  }

  // ---------- which flattened states determine their tree ----------

  /** Keys are nonempty and distinct in every dictionary; they may hold dots. */
  predicate Keyed(x: Tree) {
    match x case Leaf(_) => true case Dict(es) => KeyedEntries(es)
  }

  predicate KeyedEntries(es: Entries) {
    match es
    case End => true
    case Entry(k, node, rest) => k != "" && !HasKey(rest, k) && Keyed(node) && KeyedEntries(rest)
  }

  /** The path reads as a nonempty key over a nonempty rest, and that key is not a path itself. */
  predicate SplitsAt(f: Flat, s: string, i: int) {
    0 < i < |s| - 1 && s[i] == '.' && s[..i] !in f
  }

  ghost predicate Ambiguous(f: Flat) {
    exists s, i :: s in f && SplitsAt(f, s, i)
  }

  /** Another tree that flattens to the same. */
  ghost predicate Twins(x: Tree, y: Tree) {
    Keyed(y) && NoEmptyObject(y) && FlatOf(x, "") == FlatOf(y, "") && !SameTree(x, y)
  }

  lemma {:induction false} FlatBelow(x: Tree, p: string, s: string)
    requires Keyed(x) && p != "" && s in FlatOf(x, p)
    ensures if x.Leaf? then s == p else |s| > |p| + 1 && p == s[..|p|] && s[|p|] == '.'
    decreases x
  {
    if x.Dict? { FlatEntriesBelow(x.entries, p, s); }
  }

  lemma {:induction false} FlatEntriesBelow(es: Entries, p: string, s: string)
    requires KeyedEntries(es) && p != "" && s in FlatEntries(es, p)
    ensures |s| > |p| + 1 && p == s[..|p|] && s[|p|] == '.'
    decreases es
  {
    if s in FlatEntries(es.rest, p) {
      FlatEntriesBelow(es.rest, p, s);
    } else {
      var q := Extend(p, es.key);
      FlatBelow(es.node, q, s);
      assert q == s[..|q|];
      assert p == q[..|p|] && q[|p|] == '.';
    }
  }

  /** Every flattened path comes from an entry of the root. */
  lemma {:induction false} EntryOf(es: Entries, s: string) returns (k: string)
    requires KeyedEntries(es) && s in FlatEntries(es, "")
    ensures k != "" && Find(es, k).Some? && Keyed(Find(es, k).value) && s in FlatOf(Find(es, k).value, k)
  {
    if s in FlatEntries(es.rest, "") {
      k := EntryOf(es.rest, s);
      FindMeans(es.rest, k);
    } else {
      k := es.key;
    }
  }

  lemma {:induction false} EntryIn(es: Entries, k: string, s: string)
    requires KeyedEntries(es) && Find(es, k).Some? && s in FlatOf(Find(es, k).value, k)
    ensures s in FlatEntries(es, "") && k != "" && Keyed(Find(es, k).value)
  {
    if es.key != k { EntryIn(es.rest, k, s); }
  }

  lemma {:induction false} SomePath(x: Tree, p: string) returns (s: string)
    requires forall ps :: !EmptyAt(x, ps)
    ensures s in FlatOf(x, p)
    decreases x
  {
    assert !EmptyAt(x, []);
    if x.Leaf? {
      s := p;
    } else {
      var k := x.entries.key;
      forall ps ensures !EmptyAt(x.entries.node, ps) {
        assert ([k] + ps)[1..] == ps;
        assert SubtreeAt(x, [k] + ps) == SubtreeAt(x.entries.node, ps);
        assert !EmptyAt(x, [k] + ps);
      }
      s := SomePath(x.entries.node, Extend(p, k));
    }
  }

  lemma ChildNotEmpty(es: Entries, k: string)
    requires NoEmptyObject(Dict(es)) && Find(es, k).Some?
    ensures forall ps :: !EmptyAt(Find(es, k).value, ps)
  {
    FindMeans(es, k);
    forall ps ensures !EmptyAt(Find(es, k).value, ps) {
      assert !EmptyAt(Dict(es), [k] + ps);
      assert SubtreeAt(Dict(es), [k] + ps) == SubtreeIn(es, [k] + ps);
    }
  }

  /** A nested object makes the flattening ambiguous: take the one with the shortest key. */
  lemma {:induction false} NestedIsAmbiguous(es: Entries, k: string)
    requires KeyedEntries(es) && NoEmptyObject(Dict(es)) && Find(es, k).Some? && Find(es, k).value.Dict?
    ensures Ambiguous(FlatEntries(es, ""))
    decreases |k|
  {
    var node, f := Find(es, k).value, FlatEntries(es, "");
    ChildNotEmpty(es, k);
    var s := SomePath(node, k);
    EntryIn(es, k, s);
    FlatBelow(node, k, s);
    if k in f {
      var j := EntryOf(es, k);
      FlatBelow(Find(es, j).value, j, k);
      NestedIsAmbiguous(es, j);
    } else {
      assert SplitsAt(f, s, |k|);
    }
  }

  ghost predicate Shallow(es: Entries) {
    forall k :: Find(es, k).Some? ==> Find(es, k).value.Leaf?
  }

  lemma {:induction false} ShallowRest(es: Entries)
    requires KeyedEntries(es) && Shallow(es) && es.Entry?
    ensures es.node.Leaf? && Shallow(es.rest)
  {
    assert Find(es, es.key).Some?;
    forall k | Find(es.rest, k).Some? ensures Find(es.rest, k).value.Leaf? {
      FindMeans(es.rest, k);
      assert Find(es, k) == Find(es.rest, k);
    }
  }

  lemma {:induction false} ShallowFlat(es: Entries, k: string)
    requires KeyedEntries(es) && Shallow(es)
    ensures k in FlatEntries(es, "") <==> Find(es, k).Some?
    ensures k in FlatEntries(es, "") ==> Find(es, k) == Some(Leaf(FlatEntries(es, "")[k]))
  {
    if es.Entry? {
      ShallowRest(es);
      ShallowFlat(es.rest, k);
      FindMeans(es.rest, es.key);
    }
  }

  lemma {:induction false} ShallowSub(es: Entries, fs: Entries)
    requires KeyedEntries(es) && Shallow(es) && KeyedEntries(fs) && Shallow(fs)
    requires forall k :: k in FlatEntries(es, "")
              ==> k in FlatEntries(fs, "") && FlatEntries(fs, "")[k] == FlatEntries(es, "")[k]
    ensures SubEntries(es, fs)
    decreases es
  {
    if es.Entry? {
      ShallowRest(es);
      ShallowFlat(es, es.key);
      ShallowFlat(fs, es.key);
      forall k | k in FlatEntries(es.rest, "")
        ensures k in FlatEntries(fs, "") && FlatEntries(fs, "")[k] == FlatEntries(es.rest, "")[k]
      {
        assert FlatEntries(es, "")[k] == FlatEntries(es.rest, "")[k];
      }
      ShallowSub(es.rest, fs);
    }
  }

  lemma {:induction false} ShallowSame(es: Entries, fs: Entries)
    requires KeyedEntries(es) && Shallow(es) && KeyedEntries(fs) && Shallow(fs)
    requires FlatEntries(es, "") == FlatEntries(fs, "")
    ensures SameTree(Dict(es), Dict(fs))
  {
    ShallowSub(es, fs);
    forall k | HasKey(fs, k) ensures HasKey(es, k) {
      FindMeans(fs, k);
      FindMeans(es, k);
      ShallowFlat(fs, k);
      ShallowFlat(es, k);
    }
  }

  lemma {:induction false} UnambiguousIsShallow(es: Entries)
    requires KeyedEntries(es) && NoEmptyObject(Dict(es)) && !Ambiguous(FlatEntries(es, ""))
    ensures Shallow(es)
  {
    forall k | Find(es, k).Some? ensures Find(es, k).value.Leaf? {
      if Find(es, k).value.Dict? { NestedIsAmbiguous(es, k); }
    }
  }

  /** Every path as a key of its own. */
  ghost function FromFlat(f: Flat): (es: Entries)
    decreases |f|
  {
    if f == map[] then End
    else
      var k :| k in f;
      Entry(k, Leaf(f[k]), FromFlat(f - {k}))
  }

  lemma FromFlatStep(f: Flat) returns (k: string)
    requires f != map[]
    ensures k in f && FromFlat(f) == Entry(k, Leaf(f[k]), FromFlat(f - {k})) && map[k := f[k]] + (f - {k}) == f
    ensures |f - {k}| < |f|
  {
    k := FromFlat(f).key;
    assert (f - {k}).Keys == f.Keys - {k};
  }

  lemma {:induction false} FromFlatMeans(f: Flat)
    requires "" !in f
    ensures FlatEntries(FromFlat(f), "") == f && KeyedEntries(FromFlat(f))
    ensures forall k :: Find(FromFlat(f), k) == if k in f then Some(Leaf(f[k])) else None
    decreases |f|
  {
    if f != map[] {
      var k := FromFlatStep(f);
      hide FromFlat;
      FromFlatMeans(f - {k});
      FindMeans(FromFlat(f - {k}), k);
    }
  }

  lemma LeavesNotEmpty(es: Entries)
    requires forall k :: Find(es, k).Some? ==> forall ps :: !EmptyAt(Find(es, k).value, ps)
    ensures NoEmptyObject(Dict(es))
  {
    forall ps | ps != [] ensures !EmptyAt(Dict(es), ps) {
      FindMeans(es, ps[0]);
      assert ps == [ps[0]] + ps[1..];
      assert SubtreeAt(Dict(es), ps) == SubtreeIn(es, [ps[0]] + ps[1..]);
      if Find(es, ps[0]).Some? { assert !EmptyAt(Find(es, ps[0]).value, ps[1..]); }
    }
  }

  /** The reading without nesting. */
  lemma {:induction false} FlatReading(f: Flat) returns (t: Tree)
    requires "" !in f
    ensures Keyed(t) && NoEmptyObject(t) && FlatOf(t, "") == f
    ensures forall k :: k !in f ==> SubtreeAt(t, [k]) == None
  {
    FromFlatMeans(f);
    t := Dict(FromFlat(f));
    LeavesNotEmpty(FromFlat(f));
    forall k | k !in f ensures SubtreeAt(t, [k]) == None { NoEntry(FromFlat(f), k); }
  }

  lemma NoEntry(es: Entries, k: string)
    ensures SubtreeAt(Dict(es), [k]) == Find(es, k)
  {
    FindMeans(es, k);
    assert [k] + [] == [k];
    assert SubtreeIn(es, [k] + []) == Find(es, k);
  }

  lemma OneLeaf(a: string, b: string, v: Value)
    requires b != ""
    ensures FlatOf(Dict(Entry(b, Leaf(v), End)), a) == map[Extend(a, b) := v] && Keyed(Dict(Entry(b, Leaf(v), End)))
  {
    var rest := End;
    assert FlatEntries(rest, a) == map[] && KeyedEntries(rest);
    assert FlatEntries(Entry(b, Leaf(v), rest), a) == map[Extend(a, b) := v];
  }

  /** The reading that nests one path. */
  lemma {:induction false} SplitReading(f: Flat, s: string, i: int) returns (t: Tree)
    requires "" !in f && s in f && SplitsAt(f, s, i)
    ensures Keyed(t) && NoEmptyObject(t) && FlatOf(t, "") == f
    ensures SubtreeAt(t, [s[..i]]).Some?
  {
    var a, b, g := s[..i], s[i + 1..], f - {s};
    FromFlatMeans(g);
    var inner := Dict(Entry(b, Leaf(f[s]), End));
    var es := Entry(a, inner, FromFlat(g));
    t := Dict(es);
    FindMeans(FromFlat(g), a);
    NoEntry(es, a);
    assert Extend(a, b) == s;
    OneLeaf(a, b, f[s]);
    assert KeyedEntries(es) by { assert Keyed(inner) && !HasKey(FromFlat(g), a); }
    assert map[s := f[s]] + g == f;
    LeavesNotEmpty(Entry(b, Leaf(f[s]), End));
    forall ps ensures !EmptyAt(inner, ps) { if ps == [] { assert SubtreeAt(inner, ps) == Some(inner); } }
    LeavesNotEmpty(es);
  }

  lemma NoEmptyPath(x: Tree)
    requires Keyed(x)
    ensures "" in FlatOf(x, "") <==> x.Leaf?
  {
    if x.Dict? && "" in FlatOf(x, "") {
      var k := EntryOf(x.entries, "");
      FlatBelow(Find(x.entries, k).value, k, "");
    }
  }

  /** The key reads as a nonempty key over a nonempty rest, and that shorter key is no key here. */
  predicate SplitsKey(es: Entries, k: string, i: int) {
    0 < i < |k| - 1 && k[i] == '.' && !HasKey(es, k[..i])
  }

  /** At its root the tree nests an object, or has a key that can be split. */
  ghost predicate Reshapable(x: Tree) {
    x.Dict? && ((exists k :: NestsAt(x.entries, k)) || exists k, i :: HasKey(x.entries, k)
                                                        && SplitsKey(x.entries, k, i))
  }

  predicate NestsAt(es: Entries, k: string) {
    Find(es, k).Some? && Find(es, k).value.Dict?
  }

  lemma {:induction false} ReshapableFlat(x: Tree)
    requires Keyed(x) && NoEmptyObject(x)
    ensures Reshapable(x) <==> Ambiguous(FlatOf(x, ""))
  {
    NoEmptyPath(x);
    if x.Dict? {
      if k :| NestsAt(x.entries, k) {
        NestedIsAmbiguous(x.entries, k);
      } else {
        forall k | Find(x.entries, k).Some? ensures Find(x.entries, k).value.Leaf? { assert !NestsAt(x.entries, k); }
        ShallowSplits(x.entries);
      }
    }
  }

  lemma {:induction false} ShallowSplits(es: Entries)
    requires KeyedEntries(es) && Shallow(es)
    ensures (exists k, i :: HasKey(es, k) && SplitsKey(es, k, i)) <==> Ambiguous(FlatEntries(es, ""))
  {
    var f := FlatEntries(es, "");
    forall k ensures k in f <==> HasKey(es, k) {
      ShallowFlat(es, k);
      FindMeans(es, k);
    }
    hide FlatEntries, HasKey;
    forall k, i ensures SplitsKey(es, k, i) <==> SplitsAt(f, k, i) {}
  }

  /** A flattened state determines its tree, exactly: among trees with nonempty distinct keys and without empty
      objects inside, another one flattens alike iff the tree nests an object or has a root key that reads as a key
      over a rest, where that shorter key is no root key. */
  lemma {:induction false} AmbiguousExactly(x: Tree)
    requires Keyed(x) && NoEmptyObject(x)
    ensures (exists y :: Twins(x, y)) <==> Reshapable(x)
  {
    hide *;
    ReshapableFlat(x);
    if Ambiguous(FlatOf(x, "")) {
      var y := SomeTwin(x);
    } else {
      forall y ensures !Twins(x, y) { OnlyReading(x, y); }
    }
  }

  lemma {:induction false} SomeTwin(x: Tree) returns (y: Tree)
    requires Keyed(x) && NoEmptyObject(x) && Ambiguous(FlatOf(x, ""))
    ensures Twins(x, y)
  {
    var f := FlatOf(x, "");
    NoEmptyPath(x);
    var s, i :| s in f && SplitsAt(f, s, i);
    var t := FlatReading(f);
    var u := SplitReading(f, s, i);
    if SameTree(x, t) && SameTree(x, u) {
      SameTreeAt(x, t, [s[..i]]);
      SameTreeAt(x, u, [s[..i]]);
    }
    y := if SameTree(x, t) then u else t;
  }

  lemma {:induction false} OnlyReading(x: Tree, y: Tree)
    requires Keyed(x) && NoEmptyObject(x) && !Ambiguous(FlatOf(x, ""))
    ensures !Twins(x, y)
  {
    hide Ambiguous, Keyed, NoEmptyObject, SameTree, FlatOf;
    if Twins(x, y) { NoTwin(x, y); }
  }

  lemma {:induction false} NoTwin(x: Tree, y: Tree)
    requires Keyed(x) && NoEmptyObject(x) && Keyed(y) && NoEmptyObject(y) && FlatOf(x, "") == FlatOf(y, "")
    requires !Ambiguous(FlatOf(x, ""))
    ensures SameTree(x, y)
  {
    NoEmptyPath(x);
    NoEmptyPath(y);
    if x.Leaf? {
      assert FlatOf(x, "")[""] == x.v && FlatOf(y, "")[""] == y.v;
    } else {
      UnambiguousIsShallow(x.entries);
      UnambiguousIsShallow(y.entries);
      ShallowSame(x.entries, y.entries);
    }
  }

  /** The object that holds a tree under the empty key. */
  function UnderEmpty(x: Tree): Tree { Dict(Entry("", x, End)) }

  /** An empty key is never seen: every tree flattens like the different tree that holds it under "". */
  lemma {:induction false} EmptyKeyUnseen(x: Tree)
    ensures FlatOf(UnderEmpty(x), "") == FlatOf(x, "") && !SameTree(x, UnderEmpty(x))
    decreases x
  {
    var rest := End;
    assert FlatEntries(rest, "") == map[];
    assert FlatEntries(Entry("", x, rest), "") == FlatOf(x, "");
    if SameTree(x, UnderEmpty(x)) {
      assert HasKey(Entry("", x, End), "");
      OnlyEmptyKeys(x.entries, x);
      var n := x.entries.node;
      assert HasKey(x.entries, x.entries.key);
      assert Find(Entry("", x, End), x.entries.key) == Some(x)
          && SameTree(n, Find(Entry("", x, End), x.entries.key).value);
      SameUnderEmpty(n, x.entries);
      EmptyKeyUnseen(n);
    }
  }

  lemma {:induction false} OnlyEmptyKeys(es: Entries, x: Tree)
    requires SubEntries(es, Entry("", x, End))
    ensures forall k :: HasKey(es, k) ==> k == ""
  {
    if es.Entry? {
      assert Find(Entry("", x, End), es.key).Some?;
      OnlyEmptyKeys(es.rest, x);
    }
  }

  /** A tree that equals an object with empty keys only, led by itself, equals the object that holds it under the
      empty key. */
  lemma {:induction false} SameUnderEmpty(n: Tree, es: Entries)
    requires es.Entry? && es.key == "" && es.node == n && (forall k :: HasKey(es, k) ==> k == "")
    requires SameTree(n, Dict(es))
    ensures SameTree(n, UnderEmpty(n))
  {
    forall k ensures Find(es, k) == Find(Entry("", n, End), k) { FindMeans(es, k); }
    SubSameFind(n.entries, es, Entry("", n, End));
    assert HasKey(es, "");
  }

  lemma {:induction false} SubSameFind(ns: Entries, es: Entries, fs: Entries)
    requires SubEntries(ns, es) && forall k :: Find(es, k) == Find(fs, k)
    ensures SubEntries(ns, fs)
  {
    if ns.Entry? { SubSameFind(ns.rest, es, fs); }
  }

  /** Accepted steps compose, whatever the trees and write-sets: the union of the write-sets accepts the whole. */
  lemma AcceptedStepsCompose(a: Tree, b: Tree, c: Tree, w1: set<string>, w2: set<string>)
    requires Accepts(a, b, w1) && Accepts(b, c, w2)
    ensures Accepts(a, c, w1 + w2)
  {
    hide FlatOf, Under;
    forall p | p in Changed(a, c) ensures exists w :: w in w1 + w2 && Under(p, w) {
      assert p in Changed(a, b) || p in Changed(b, c);
      assert p in Changed(a, b) ==> p !in Leaked(a, b, w1);
      assert p in Changed(b, c) ==> p !in Leaked(b, c, w2);
      var w :| w in w1 + w2 && Under(p, w);
      assert w in w1 + w2;
    }
  }
}
