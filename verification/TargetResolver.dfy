/** Resolving the targets of a request. */
module TargetResolver {
  import opened Sorting
  import opened Wrappers

  /** `adds` is op ADD_DEVICE; `single` says that the cardinality is absent or ONE. */
  datatype Proposal<T> = Proposal(target: Option<T>, targets: seq<T>, adds: bool, single: bool)

  datatype Context<T> = Context(focus: Option<T>, referents: seq<T>, addTarget: Option<T>, registry: seq<T>)

  /** `names` says whether the text contains a target's area and one of its entity's aliases. */
  datatype Utterance<!T> = Utterance(names: T -> bool, plural: bool)

  datatype Mode = One | Many | Clarify
  datatype Source = ExplicitText | ExplicitTextSet | AmbiguousText | Explicit | AddTarget | ReferentSet | Focus
                  | Referent | Missing
  datatype Resolution<T> = Resolution(mode: Mode, targets: seq<T>, source: Source)

  // ---------- duplicates ----------

  /** First occurrences, in order. */
  function Uniq<T(==)>(xs: seq<T>): seq<T> {
    if xs == [] then []
    else
      var r, x := Uniq(xs[..|xs| - 1]), xs[|xs| - 1];
      if x in r then r else r + [x]
  }

  method UniqTargets<T(==)>(xs: seq<T>) returns (out: seq<T>)
    ensures out == Uniq(xs)
  {
    out := [];
    var seen: set<T> := {};
    for i := 0 to |xs|
      invariant out == Uniq(xs[..i])
      invariant forall x :: x in seen <==> x in out
    {
      assert xs[..i + 1][..i] == xs[..i];
      if xs[i] !in seen {
        seen := seen + {xs[i]};
        out := out + [xs[i]];
      }
    }
    assert xs[..|xs|] == xs;
  }

  function IndexOf<T(==)>(xs: seq<T>, x: T): (n: nat)
    requires x in xs
    ensures n < |xs| && xs[n] == x && x !in xs[..n]
  {
    if xs[0] == x then 0
    else
      assert xs == [xs[0]] + xs[1..];
      var n := 1 + IndexOf(xs[1..], x);
      assert xs[..n] == [xs[0]] + xs[1..][..n - 1];
      n
  }

  /** `uniq` keeps each target exactly once. */
  lemma {:induction false} UniqKeepsEachOnce<T(!new)>(xs: seq<T>)
    ensures Distinct(Uniq(xs))
    ensures forall x :: x in Uniq(xs) <==> x in xs
  {
    if xs != [] {
      var n := |xs| - 1;
      UniqKeepsEachOnce(xs[..n]);
      assert xs == xs[..n] + [xs[n]];
    }
  }

  /** The kept targets stand in the order of their first occurrences. */
  lemma {:induction false} UniqInOrder<T(!new)>(xs: seq<T>, i: nat, j: nat)
    requires i < j < |Uniq(xs)|
    ensures Uniq(xs)[i] in xs && Uniq(xs)[j] in xs && IndexOf(xs, Uniq(xs)[i]) < IndexOf(xs, Uniq(xs)[j])
  {
    var n := |xs| - 1;
    var r, x := Uniq(xs[..n]), xs[n];
    UniqKeepsEachOnce(xs[..n]);
    UniqKeepsEachOnce(xs);
    assert xs == xs[..n] + [x];
    assert Uniq(xs) == if x in r then r else r + [x];
    var a := r[i];
    assert a in r && a == Uniq(xs)[i];
    IndexOfPrefix(xs[..n], x, a);
    if j < |r| {
      UniqInOrder(xs[..n], i, j);
      var b := r[j];
      assert b in r && b == Uniq(xs)[j];
      IndexOfPrefix(xs[..n], x, b);
    } else {
    }
  }

  lemma IndexOfPrefix<T>(xs: seq<T>, last: T, x: T)
    requires x in xs
    ensures x in xs + [last] && IndexOf(xs + [last], x) == IndexOf(xs, x)
  {
    var m := IndexOf(xs, x);
    assert (xs + [last])[m] == x && (xs + [last])[..m] == xs[..m];
  }

  lemma {:induction false} UniqOfDistinct<T>(xs: seq<T>)
    requires Distinct(xs)
    ensures Uniq(xs) == xs
  {
    if xs != [] {
      var n := |xs| - 1;
      UniqOfDistinct(xs[..n]);
      assert xs == xs[..n] + [xs[n]];
      assert xs[n] !in xs[..n];
    }
  }

  // ---------- targets named by the utterance ----------

  /** The registered targets the text names. */
  function Named<T(==)>(u: Utterance<T>, registry: seq<T>): seq<T> {
    Filter(Uniq(registry), u.names)
  }

  method ExplicitTargets<T(==, !new)>(u: Utterance<T>, registry: seq<T>) returns (out: seq<T>)
    ensures out == Named(u, registry)
  {
    var known := UniqTargets(registry);
    var matches: seq<T> := [];
    for i := 0 to |known|
      invariant matches == Filter(known[..i], u.names)
    {
      assert known[..i + 1][..i] == known[..i];
      if u.names(known[i]) { matches := matches + [known[i]]; }
    }
    assert known[..|known|] == known;
    UniqKeepsEachOnce(registry);
    FilterDistinct(known, u.names);
    UniqOfDistinct(matches);
    out := UniqTargets(matches);
  }

  // ---------- the decision cascade ----------

  function ResolveTargets<T(==)>(u: Utterance<T>, p: Proposal<T>, c: Context<T>): Resolution<T> {
    var named, referents := Named(u, c.registry), Uniq(c.referents);
    if |named| == 1 then Resolution(One, named, ExplicitText)
    else if |named| > 1 then
      if u.plural then Resolution(Many, named, ExplicitTextSet) else Resolution(Clarify, [], AmbiguousText)
    else if p.targets != [] then Resolution(Many, Uniq(p.targets), Explicit)
    else if p.target.Some? then Resolution(One, [p.target.value], Explicit)
    else if p.adds && c.addTarget.Some? then Resolution(One, [c.addTarget.value], AddTarget)
    else if !p.single && referents != [] then Resolution(Many, referents, ReferentSet)
    else if c.focus.Some? then Resolution(One, [c.focus.value], Focus)
    else if |referents| == 1 then Resolution(One, referents, Referent)
    else Resolution(Clarify, [], Missing)
  }

  lemma NamedFacts<T(!new)>(u: Utterance<T>, registry: seq<T>)
    ensures Distinct(Named(u, registry))
    ensures forall t :: t in Named(u, registry) <==> t in registry && u.names(t)
    ensures (forall t :: t in registry ==> !u.names(t)) ==> Named(u, registry) == []
  {
    UniqKeepsEachOnce(registry);
    FilterMembers(Uniq(registry), u.names);
    FilterDistinct(Uniq(registry), u.names);
    assert Named(u, registry) != [] ==> Named(u, registry)[0] in Named(u, registry);
  }

  /** A target the resolver may legitimately return. */
  ghost predicate Known<T>(t: T, p: Proposal<T>, c: Context<T>) {
    t in c.registry || t in p.targets || p.target == Some(t) || c.addTarget == Some(t) || c.focus == Some(t)
        || t in c.referents
  }

  ghost predicate AllKnown<T>(ts: seq<T>, p: Proposal<T>, c: Context<T>) {
    forall t :: t in ts ==> Known(t, p, c)
  }

  lemma SourcesKnown<T(!new)>(u: Utterance<T>, p: Proposal<T>, c: Context<T>)
    ensures AllKnown(Named(u, c.registry), p, c) && AllKnown(Uniq(p.targets), p, c) && AllKnown(Uniq(c.referents), p, c)
    ensures Distinct(Named(u, c.registry)) && Distinct(Uniq(p.targets)) && Distinct(Uniq(c.referents))
    ensures p.targets != [] <==> Uniq(p.targets) != []
  {
    NamedFacts(u, c.registry);
    UniqKeepsEachOnce(c.referents);
    UniqKeepsEachOnce(p.targets);
  }

  /** One target, a duplicate-free nonempty set, or a question; and no target is invented. */
  lemma ResolutionIsSound<T(!new)>(u: Utterance<T>, p: Proposal<T>, c: Context<T>)
    ensures var r := ResolveTargets(u, p, c);
            && Distinct(r.targets) && AllKnown(r.targets, p, c)
            && (r.mode == One ==> |r.targets| == 1)
            && (r.mode == Clarify <==> r.targets == [])
  {
    SourcesKnown(u, p, c);
    hide Named, Uniq;
  }

  /** A target named in the utterance beats the proposal and everything stale in the conversation. */
  lemma TextTakesPrecedence<T(!new)>(u: Utterance<T>, p: Proposal<T>, c: Context<T>, p': Proposal<T>, c': Context<T>,
      t: T)
    requires t in c.registry && u.names(t) && c'.registry == c.registry
    ensures ResolveTargets(u, p, c) == ResolveTargets(u, p', c')
    ensures (forall x :: x in c.registry && u.names(x) ==> x == t)
        ==> ResolveTargets(u, p, c) == Resolution(One, [t], ExplicitText)
  {
    NamedFacts(u, c.registry);
    hide Named, Uniq;
    var named := Named(u, c.registry);
    assert t in named && named[0] in named;
    assert |named| > 1 ==> named[0] != named[1] && named[1] in named;
  }

  /** A text that names several registered targets means all of them with a plural marker, and is a question without. */
  lemma {:induction false} SeveralNamed<T(!new)>(u: Utterance<T>, p: Proposal<T>, c: Context<T>, s: T, t: T)
    requires s in c.registry && t in c.registry && u.names(s) && u.names(t) && s != t
    ensures var r := ResolveTargets(u, p, c);
            if !u.plural then r == Resolution(Clarify, [], AmbiguousText)
            else
              && r.mode == Many && r.source == ExplicitTextSet && Distinct(r.targets)
              && forall x :: x in r.targets <==> x in c.registry && u.names(x)
  {
    NamedFacts(u, c.registry);
    hide Named, Uniq;
    BothIn(Named(u, c.registry), s, t);
  }

  lemma BothIn<T>(xs: seq<T>, s: T, t: T)
    requires s in xs && t in xs && s != t
    ensures |xs| > 1
  {}

  /** Silent text: the proposal's own targets beat the additive target, which beats everything the conversation left. */
  lemma {:induction false} ProposalBeatsContext<T(!new)>(u: Utterance<T>, p: Proposal<T>, c: Context<T>)
    requires forall t :: t in c.registry ==> !u.names(t)
    ensures p.targets != [] ==> ResolveTargets(u, p, c) == Resolution(Many, Uniq(p.targets), Explicit)
    ensures p.targets == [] && p.target.Some? ==> ResolveTargets(u, p, c) == Resolution(One, [p.target.value], Explicit)
    ensures p.targets == [] && p.target.None? && p.adds && c.addTarget.Some?
        ==> ResolveTargets(u, p, c) == Resolution(One, [c.addTarget.value], AddTarget)
    ensures p.targets == [] && p.target.None? && !(p.adds && c.addTarget.Some?) && !p.single && c.referents != []
        ==> ResolveTargets(u, p, c) == Resolution(Many, Uniq(c.referents), ReferentSet)
  {
    NamedFacts(u, c.registry);
    UniqKeepsEachOnce(c.referents);
    assert c.referents != [] ==> c.referents[0] in Uniq(c.referents);
    hide Named, Uniq;
  }

  /** Silent text, an empty-handed proposal without an additive target, and ONE cardinality or no referents: the focus
      decides, then a lone referent, and otherwise the resolver asks. */
  lemma SilentTextFollowsFocus<T(!new)>(u: Utterance<T>, p: Proposal<T>, c: Context<T>)
    requires forall t :: t in c.registry ==> !u.names(t)
    requires p.targets == [] && p.target == None && (p.single || c.referents == []) && !(p.adds && c.addTarget.Some?)
    ensures c.focus.Some? ==> ResolveTargets(u, p, c) == Resolution(One, [c.focus.value], Focus)
    ensures c.focus.None? && |Uniq(c.referents)| == 1
        ==> ResolveTargets(u, p, c) == Resolution(One, Uniq(c.referents), Referent)
            && Uniq(c.referents)[0] in c.referents
    ensures c.focus.None? && |Uniq(c.referents)| != 1 ==> ResolveTargets(u, p, c) == Resolution(Clarify, [], Missing)
  {
    NamedFacts(u, c.registry);
    UniqKeepsEachOnce(c.referents);
    assert |Uniq(c.referents)| == 1 ==> Uniq(c.referents)[0] in Uniq(c.referents);
    assert c.referents == [] ==> Uniq(c.referents) == [];
    hide Named, Uniq;
  }
}
