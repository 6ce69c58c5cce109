/** The context a benchmark turn is presented in, and what the target resolver makes of it. */
module BenchmarkAdapter {
  import opened Sorting
  import opened Wrappers
  import opened HomeState
  import opened BenchmarkGenerator
  import opened BenchmarkTrajectory
  import R = TargetResolver
  import V = BenchmarkValues

  /** The referents an executed turn leaves behind. */
  function Left(prev: Option<Turn>): seq<Device> {
    if prev.Some? && prev.value.decision.Execute? then GoldTargets(prev.value.decision.gold) else []
  }

  /** `context_before`: a lone referent is the focus, unless the turn's own hint replaces it. */
  function ContextBefore(turns: seq<Turn>, i: nat): R.Context<Device>
    requires i < |turns|
  {
    var refs := Left(TurnBefore(turns, i));
    var focus := if |refs| == 1 then Some(refs[0]) else None;
    R.Context(if turns[i].hint.Some? then turns[i].hint else focus, refs, None, Mounted())
  }

  /** The text names no registered area, and the proposal brings no target of its own. */
  ghost predicate Deictic(u: R.Utterance<Device>, p: R.Proposal<Device>) {
    (forall t :: t in Mounted() ==> !u.names(t)) && p.targets == [] && p.target == None
  }

  lemma {:induction false} TwoStayTwo(ts: seq<Device>)
    requires |ts| == 2 && ts[0] != ts[1]
    ensures R.Uniq(ts) == ts
  {
    R.UniqOfDistinct(ts);
  }

  /** Before a question the conversation offers no focus, and either nothing or two different referents. */
  lemma {:induction false} ContextOfQuestion(split: Split, profile: Profile, turns: seq<Turn>, i: nat)
    requires i < |turns| && SoundAt(split, profile, turns, i) && turns[i].decision.Clarify?
    ensures var c := ContextBefore(turns, i);
            && c.focus == None && (i == 0 <==> turns[i].decision.basis == NoPriorFocus)
            && R.Uniq(c.referents) == c.referents
            && (if i == 0 then c.referents == []
                 else |c.referents| == 2 && c.referents == turns[i - 1].decision.gold.targets)
  {
    hide WellFormed, Difference, Perform, InSplit, PowerOk, MarksOk, InitialHome, Mounted;
    if i > 0 { TwoStayTwo(turns[i - 1].decision.gold.targets); }
  }

  /** What the turn before leaves: its targets are the referents, a lone one in focus unless this turn's hint is. */
  lemma ContextAfter(turns: seq<Turn>, i: nat)
    requires i < |turns|
    ensures var c, h := ContextBefore(turns, i), turns[i].hint;
            && (h.Some? ==> c.focus == h) && c.addTarget == None
            && (i > 0 && turns[i - 1].decision.Execute? ==> c.referents == GoldTargets(turns[i - 1].decision.gold))
            && (i > 0 && h.None? && turns[i - 1].decision.Execute?
                ==> c.focus == match turns[i - 1].decision.gold
                      case One(x) => Some(x)
                      case Several(xs) => if |xs| == 1 then Some(xs[0]) else None)
            && (i == 0 || turns[i - 1].decision.Clarify? ==> c.referents == [] && c.focus == h)
  {}

  /** What the hint of a sound turn says. */
  lemma {:induction false} HintsOf(split: Split, profile: Profile, turns: seq<Turn>, i: nat)
    requires i < |turns| && SoundAt(split, profile, turns, i)
    ensures HintOk(turns[i])
  {
    hide WellFormed, Difference, Perform, InSplit, PowerOk, MarksOk, InitialHome, HintOk;
  }

  /** A deictic request is a question exactly when the generator asks one, and otherwise points at the hinted target. */
  lemma {:induction false} ResolverAgrees(split: Split, profile: Profile, turns: seq<Turn>, i: nat,
                                          u: R.Utterance<Device>, p: R.Proposal<Device>)
    requires i < |turns| && SoundAt(split, profile, turns, i) && Deictic(u, p) && p.single
    ensures var r := R.ResolveTargets(u, p, ContextBefore(turns, i)); var t := turns[i];
            && (t.decision.Clarify? ==> r == R.Resolution(R.Clarify, [], R.Missing))
            && (t.decision.Execute? && t.decision.gold.One? && t.scenario != ExplicitCorrection
                ==> r == R.Resolution(R.One, [t.decision.gold.target], R.Focus))
            && (t.scenario == ExplicitCorrection ==>
                (t.decision.Execute? && t.decision.gold.One? && t.wrong.Some?
                 && r == R.Resolution(R.One, [t.wrong.value], R.Focus) && t.wrong.value != t.decision.gold.target))
  {
    var c := ContextBefore(turns, i);
    R.SilentTextFollowsFocus(u, p, c);
    if turns[i].decision.Clarify? { ContextOfQuestion(split, profile, turns, i); }
    HintsOf(split, profile, turns, i);
    hide R.ResolveTargets, R.Uniq, SoundAt, Deictic, Mounted, Left;
  }

  /** Asked for a set instead, the resolver takes both referents of the two-target turn before the question. */
  lemma {:induction false} SetReadingTakesBoth(split: Split, profile: Profile, turns: seq<Turn>, i: nat,
                                               u: R.Utterance<Device>, p: R.Proposal<Device>)
    requires 0 < i < |turns| && SoundAt(split, profile, turns, i) && turns[i].decision.Clarify? && Deictic(u, p)
    requires !p.single
    ensures R.ResolveTargets(u, p, ContextBefore(turns, i))
       == R.Resolution(R.Many, turns[i - 1].decision.gold.targets, R.ReferentSet)
  {
    ContextOfQuestion(split, profile, turns, i);
    R.NamedFacts(u, Mounted());
    hide R.Uniq, R.Named, SoundAt, Mounted, Left;
  }

  /** Text naming exactly the gold target wins over any hint, counterfactual ones included. */
  lemma {:induction false} NamedGoldWins(turns: seq<Turn>, i: nat, u: R.Utterance<Device>, p: R.Proposal<Device>,
                                         gold: Device)
    requires i < |turns| && (forall t :: t in Mounted() ==> (u.names(t) <==> t == gold))
    ensures R.ResolveTargets(u, p, ContextBefore(turns, i)) == R.Resolution(R.One, [gold], R.ExplicitText)
  {
    EveryDeviceListed(gold);
    hide Mounted, R.ResolveTargets, Left;
    var c := ContextBefore(turns, i);
    R.TextTakesPrecedence(u, p, c, p, c, gold);
  }

  // ---------- the generator's own texts ----------

  /** The devices the text of a turn mentions: each room it names, with its entity; a correction names the wrong
      room too, relative requests and questions name none. */
  predicate Mentions(t: Turn, x: Device) {
    match t.decision
    case Clarify(_) => false
    case Execute(_, gold) => t.scenario != RelativeCoreference && (x in GoldTargets(gold) || t.wrong == Some(x))
  }

  /** The text names exactly what the turn mentions, as when the entity is called by a name the resolver knows. */
  ghost predicate SpokenOut(u: R.Utterance<Device>, t: Turn) {
    forall x :: x in Mounted() ==> (u.names(x) <==> Mentions(t, x))
  }

  /** The resolver reaches the gold targets, in whatever order, by the right mode. */
  ghost predicate ReachesGold(r: R.Resolution<Device>, gold: Gold) {
    r.mode == (if gold.One? then R.One else R.Many) && forall x :: x in r.targets <==> x in GoldTargets(gold)
  }

  lemma NamedMentions(u: R.Utterance<Device>, t: Turn)
    requires SpokenOut(u, t)
    ensures Distinct(R.Named(u, Mounted())) && forall x :: x in R.Named(u, Mounted()) <==> Mentions(t, x)
  {
    R.NamedFacts(u, Mounted());
    hide R.Named, Mounted, Mentions;
    forall x ensures x in Mounted() { EveryDeviceListed(x); }
  }

  lemma OneNamed(xs: seq<Device>, a: Device)
    requires Distinct(xs) && forall x :: x in xs <==> x == a
    ensures xs == [a]
  {
    assert a in xs;
    assert xs[0] in xs;
    if |xs| > 1 { TwoMembers(xs); }
  }

  lemma TwoMembers(xs: seq<Device>)
    requires |xs| > 1 && Distinct(xs)
    ensures exists x, y :: x in xs && y in xs && x != y
  {
    assert xs[0] in xs && xs[1] in xs && xs[0] != xs[1];
  }

  lemma TwoNamed(xs: seq<Device>, a: Device, b: Device)
    requires a in xs && b in xs && a != b
    ensures |xs| > 1
  {}

  /** The resolver on texts that name one device or several. */
  lemma NamedDecides(u: R.Utterance<Device>, p: R.Proposal<Device>, c: R.Context<Device>)
    requires c.registry == Mounted()
    ensures var named, r := R.Named(u, Mounted()), R.ResolveTargets(u, p, c);
            && (|named| == 1 ==> r == R.Resolution(R.One, named, R.ExplicitText))
            && (|named| > 1 ==> r == if u.plural then R.Resolution(R.Many, named, R.ExplicitTextSet)
                 else R.Resolution(R.Clarify, [], R.AmbiguousText))
  {
    hide R.Named, Mounted;
  }

  /** What the text of an executed turn mentions. */
  lemma MentionFacts(t: Turn)
    requires HintOk(t) && V.LabelFits(t) && t.decision.Execute? && t.scenario != RelativeCoreference
    ensures t.wrong.Some? <==> t.scenario == ExplicitCorrection
    ensures t.scenario == MultiTarget <==> t.decision.gold.Several?
    ensures forall x :: x in GoldTargets(t.decision.gold) ==> Mentions(t, x)
    ensures t.wrong == None ==> forall x :: Mentions(t, x) ==> x in GoldTargets(t.decision.gold)
    ensures t.wrong.Some?
        ==> t.decision.gold.One? && t.wrong.value != t.decision.gold.target && Mentions(t, t.wrong.value)
    ensures t.decision.gold.One? ==> forall x :: x in GoldTargets(t.decision.gold) <==> x == t.decision.gold.target
    ensures t.decision.gold.Several? ==> var ts := t.decision.gold.targets;
            |ts| == 2 && ts[0] != ts[1] && ts[0] in GoldTargets(t.decision.gold)
                && ts[1] in GoldTargets(t.decision.gold)
  {
    hide ActFits, V.StepFits;
  }

  /** How many devices the text names. */
  lemma {:induction false} NamedCount(u: R.Utterance<Device>, t: Turn)
    requires HintOk(t) && V.LabelFits(t) && t.decision.Execute? && t.scenario != RelativeCoreference && SpokenOut(u, t)
    ensures var named := R.Named(u, Mounted());
            && (t.decision.gold.One? && t.wrong == None ==> named == [t.decision.gold.target])
            && (t.decision.gold.Several? || t.wrong.Some? ==> |named| > 1)
            && forall x :: x in named <==> Mentions(t, x)
  {
    hide *;
    MentionFacts(t);
    NamedMentions(u, t);
    var named := R.Named(u, Mounted());
    if t.decision.gold.Several? {
      TwoNamed(named, t.decision.gold.targets[0], t.decision.gold.targets[1]);
    } else if t.wrong == None {
      OneNamed(named, t.decision.gold.target);
    } else {
      TwoNamed(named, t.decision.gold.target, t.wrong.value);
    }
  }

  /** What the resolver makes of the generator's own texts, family by family: one-target texts are resolved;
      two-target texts need a plural marker and are questions without one; a correction is a question, and with a
      plural marker both its targets, the wrong one included. */
  lemma {:induction false} SpokenTurns(turns: seq<Turn>, i: nat, u: R.Utterance<Device>, p: R.Proposal<Device>)
    requires i < |turns| && HintOk(turns[i]) && V.LabelFits(turns[i]) && SpokenOut(u, turns[i])
    requires turns[i].decision.Execute? && turns[i].scenario != RelativeCoreference
    ensures var t, r := turns[i], R.ResolveTargets(u, p, ContextBefore(turns, i)); var gold := t.decision.gold;
            && (gold.One? && t.wrong == None ==> r == R.Resolution(R.One, [gold.target], R.ExplicitText))
            && (gold.Several? || t.wrong.Some? ==> r.mode == if u.plural then R.Many else R.Clarify)
            && (u.plural && t.wrong.Some? ==> t.wrong.value in r.targets)
            && (ReachesGold(r, gold) <==> t.scenario != ExplicitCorrection && (t.scenario == MultiTarget ==> u.plural))
  {
    hide *;
    NamedCount(u, turns[i]);
    MentionFacts(turns[i]);
    MountedContext(turns, i);
    NamedDecides(u, p, ContextBefore(turns, i));
    ReachesMeans(R.ResolveTargets(u, p, ContextBefore(turns, i)), turns[i].decision.gold);
  }

  lemma MountedContext(turns: seq<Turn>, i: nat)
    requires i < |turns|
    ensures ContextBefore(turns, i).registry == Mounted()
  {}

  lemma ReachesMeans(r: R.Resolution<Device>, gold: Gold)
    ensures ReachesGold(r, gold)
        <==> r.mode == (if gold.One? then R.One else R.Many) && forall x :: x in r.targets <==> x in GoldTargets(gold)
  {
    hide GoldTargets;
  }

  /** So over every generated trajectory the resolver reaches the gold targets from the generator's text exactly for
      one-target turns that are no correction, and for two-target turns whose text has a plural marker. */
  lemma {:induction false} EverySpokenTurn(split: Split, profile: Profile, stream: nat -> Draw, length: nat,
      opens: bool,
                                           i: nat, u: R.Utterance<Device>, p: R.Proposal<Device>)
    requires i < |Trajectory(split, profile, stream, length, opens)|
    requires SpokenOut(u, Trajectory(split, profile, stream, length, opens)[i])
    ensures var turns := Trajectory(split, profile, stream, length, opens);
            var t, r := turns[i], R.ResolveTargets(u, p, ContextBefore(turns, i));
            (t.decision.Execute? && t.scenario != RelativeCoreference) ==>
              (ReachesGold(r, t.decision.gold)
             <==> t.scenario != ExplicitCorrection && (t.scenario == MultiTarget ==> u.plural))
  {
    hide *;
    var turns := Trajectory(split, profile, stream, length, opens);
    EveryTrajectorySound(split, profile, stream, length, opens);
    V.TrajectoryFits(split, profile, stream, length, opens);
    SoundMember(split, profile, turns, i);
    HintsOf(split, profile, turns, i);
    V.FitMember(turns, i);
    if turns[i].decision.Execute? && turns[i].scenario != RelativeCoreference { SpokenTurns(turns, i, u, p); }
  }

  lemma SoundMember(split: Split, profile: Profile, turns: seq<Turn>, i: nat)
    requires i < |turns| && AllSound(split, profile, turns)
    ensures SoundAt(split, profile, turns, i)
  {
    hide SoundAt;
  }

  /** Generator, adapter and resolver agree on every turn of every generated trajectory. */
  lemma {:induction false} EveryTurnAgrees(split: Split, profile: Profile, stream: nat -> Draw, length: nat,
      opens: bool,
                                           i: nat, u: R.Utterance<Device>, p: R.Proposal<Device>)
    requires i < Length(length) && Deictic(u, p) && p.single
    ensures |Trajectory(split, profile, stream, length, opens)| == Length(length)
    ensures var turns := Trajectory(split, profile, stream, length, opens);
            var r, t := R.ResolveTargets(u, p, ContextBefore(turns, i)), turns[i];
            && (t.decision.Clarify? ==> r == R.Resolution(R.Clarify, [], R.Missing))
            && (t.scenario == RelativeCoreference
              ==> t.decision.Execute? && r == R.Resolution(R.One, GoldTargets(t.decision.gold), R.Focus))
  {
    EveryTrajectorySound(split, profile, stream, length, opens);
    var turns := Trajectory(split, profile, stream, length, opens);
    hide Trajectory, SoundAt, R.ResolveTargets, ContextBefore, Deictic;
    ResolverAgrees(split, profile, turns, i, u, p);
    HintsOf(split, profile, turns, i);
  }
}
