/** Whole generated trajectories, and the per-turn checks of the validator that reads them back. */
module BenchmarkTrajectory {
  import opened Sorting
  import opened Wrappers
  import opened HomeState
  import opened BenchmarkGenerator

  // ---------- the generating loop ----------

  /** The turns of one pass of the loop. */
  function Pass(split: Split, profile: Profile, h: Home, focus: Option<Device>, d: Draw, asks: bool): seq<Turn> {
    var t := TurnOf(h, PlanTurn(split, d, focus, FamilyOf(d), profile), profile);
    if asks then [t, ClarifyTurn(t.goldState, MultiReferentSet, profile)] else [t]
  }

  /** The turns the loop ends with, from any point of a run. */
  function Continue(split: Split, profile: Profile, stream: nat -> Draw, k: nat, turns: seq<Turn>, h: Home,
                    focus: Option<Device>, n: nat): seq<Turn>
    decreases n - |turns|
  {
    if |turns| >= n then turns
    else
      var d := stream(k);
      var plan := PlanTurn(split, d, focus, FamilyOf(d), profile);
      var asks := FamilyOf(d) == MultiFamily && |turns| + 1 < n && d.follow;
      Continue(split, profile, stream, k + 1, turns + Pass(split, profile, h, focus, d, asks),
          TurnOf(h, plan, profile).goldState, Some(plan.focus), n)
  }

  function Length(draw: nat): nat { 12 + draw % 17 }

  function Opening(profile: Profile, opens: bool): seq<Turn> {
    if opens then [ClarifyTurn(InitialHome(), NoPriorFocus, profile)] else []
  }

  /** The trajectory generated from a stream of draws. */
  function Trajectory(split: Split, profile: Profile, stream: nat -> Draw, length: nat, opens: bool): seq<Turn> {
    Continue(split, profile, stream, 0, Opening(profile, opens), InitialHome(), None, Length(length))
  }

  /** The body of the loop. */
  method OnePass(house: House, split: Split, profile: Profile, d: Draw, focus: Option<Device>, more: bool)
    returns (turns: seq<Turn>, next: Device)
    requires WellFormed(house.state)
    modifies house
    ensures var plan := PlanTurn(split, d, focus, FamilyOf(d), profile);
            next == plan.focus && house.state == TurnOf(old(house.state), plan, profile).goldState
    ensures turns == Pass(split, profile, old(house.state), focus, d, FamilyOf(d) == MultiFamily && more && d.follow)
    ensures WellFormed(house.state)
  {
    hide PlanTurn, TurnOf, ClarifyTurn, FamilyOf, WellFormed;
    var turn;
    turn, next := house.MakeExecuteTurn(split, d, focus, FamilyOf(d), profile);
    turns := [turn];
    if FamilyOf(d) == MultiFamily && more && d.follow {
      turns := [turn, ClarifyTurn(house.state, MultiReferentSet, profile)];
    }
  }

  method Make(split: Split, profile: Profile, stream: nat -> Draw, length: nat, opens: bool) returns (turns: seq<Turn>)
    ensures turns == Trajectory(split, profile, stream, length, opens)
  {
    hide PlanTurn, TurnOf, ClarifyTurn, FamilyOf, InitialHome, WellFormed, Pass;
    var n := Length(length);
    var house := new House();
    InitialWellFormed();
    turns := [];
    var focus: Option<Device>, k := None, 0;
    if opens { turns := [ClarifyTurn(house.state, NoPriorFocus, profile)]; }
    while |turns| < n
      invariant WellFormed(house.state)
      invariant Continue(split, profile, stream, k, turns, house.state, focus, n)
         == Trajectory(split, profile, stream, length, opens)
      decreases n - |turns|
    {
      PassGrows(split, profile, house.state, focus, stream(k), FamilyOf(stream(k)) == MultiFamily && |turns| + 1 < n
          && stream(k).follow);
      var pass, next := OnePass(house, split, profile, stream(k), focus, |turns| + 1 < n);
      turns := turns + pass;
      focus, k := Some(next), k + 1;
    }
  }

  lemma PassGrows(split: Split, profile: Profile, h: Home, focus: Option<Device>, d: Draw, asks: bool)
    ensures |Pass(split, profile, h, focus, d, asks)| >= 1
  {
  }

  // ---------- what holds of every turn ----------

  function StateBefore(initial: Home, turns: seq<Turn>, i: nat): Home
    requires i <= |turns|
  {
    if i == 0 then initial else turns[i - 1].goldState
  }

  function TurnBefore(turns: seq<Turn>, i: nat): Option<Turn>
    requires i <= |turns|
  {
    if i == 0 then None else Some(turns[i - 1])
  }

  /** The turn left two different referents behind. */
  predicate LeavesTwo(t: Turn) {
    t.decision.Execute? && t.decision.gold.Several? && |t.decision.gold.targets| == 2
        && t.decision.gold.targets[0] != t.decision.gold.targets[1]
  }

  /** A question is asked only at the very start, or straight after two referents. */
  predicate Justified(prev: Option<Turn>, t: Turn) {
    t.decision.Clarify? ==> match t.decision.basis
      case NoPriorFocus => prev == None
      case MultiReferentSet => prev.Some? && LeavesTwo(prev.value)
  }

  /** The context hint names the gold target, except that a correction names the counterfactual one. */
  predicate HintOk(t: Turn) {
    match t.decision
    case Clarify(_) => t.hint == None && t.scenario == AmbiguousClarify
    case Execute(_, Several(_)) => t.hint == None && t.scenario == MultiTarget
    case Execute(_, One(x)) =>
      if t.scenario == ExplicitCorrection then t.hint.Some? && t.hint == t.wrong && t.hint.value != x
          && t.hint.value.entity == x.entity
      else t.hint == Some(x) && t.scenario != MultiTarget && t.scenario != AmbiguousClarify
  }

  /** How a power turn is labelled under each release profile. */
  predicate PowerOk(profile: Profile, t: Turn) {
    t.scenario == DirectPower ==>
      && t.decision.Execute?
      && (t.decision.act == CloseDevice
          || (profile == Legacy && t.decision.act.AddDevice?)
          || (profile == ExistingDevicePower && t.decision.act == PatchSlot(Power, Switch(true))))
  }

  predicate MarksOk(split: Split, profile: Profile, t: Turn) {
    && (t.marks == None <==> profile == Legacy)
    && (split == Train && t.marks.Some? ==> t.marks.value.0 != NonStandardAlias)
  }

  ghost predicate InSplit(split: Split, t: Turn) {
    t.decision.Execute? ==> forall x :: x in GoldTargets(t.decision.gold) ==> x in Pairs(split)
  }

  /** The clauses that depend on the plan alone. */
  predicate LabelOk(split: Split, profile: Profile, t: Turn) {
    HintOk(t) && PowerOk(profile, t) && MarksOk(split, profile, t)
  }

  /** The labels explain the step, list exactly what changed, and say nothing unjustified. */
  ghost predicate TurnSound(split: Split, profile: Profile, before: Home, prev: Option<Turn>, t: Turn) {
    && t.goldState == Perform(before, t.decision)
    && t.writeSet == Difference(before, t.goldState)
    && WellFormed(before) && WellFormed(t.goldState)
    && (t.decision.Execute? && t.decision.gold.Several? ==> LeavesTwo(t))
    && Justified(prev, t) && LabelOk(split, profile, t) && InSplit(split, t)
  }

  ghost predicate AllSound(split: Split, profile: Profile, turns: seq<Turn>) {
    forall i: nat | i < |turns| :: SoundAt(split, profile, turns, i)
  }

  ghost predicate SoundAt(split: Split, profile: Profile, turns: seq<Turn>, i: nat)
    requires i < |turns|
  {
    TurnSound(split, profile, StateBefore(InitialHome(), turns, i), TurnBefore(turns, i), turns[i])
  }

  ghost predicate FocusOk(split: Split, focus: Option<Device>) {
    focus.Some? ==> focus.value in Pairs(split)
  }

  lemma MultiLabelOk(split: Split, d: Draw, profile: Profile, h: Home)
    requires |PairsOf(split, Choose(DeclaredEntities(), d.entity))| >= 2
    ensures LabelOk(split, profile, TurnOf(h, PlanMulti(split, d, SurfaceNaming(split, profile, d)), profile))
    ensures PlanMulti(split, d, SurfaceNaming(split, profile, d)).gold.Several?
  {
    hide PairsOf, Choose, DeclaredEntities, DrawnValue, NativeSlot, Drop, Difference, Perform, Pairs;
  }

  lemma {:induction false} SingleLabelOk(split: Split, t: Device, d: Draw, focus: Option<Device>, family: Family,
                                         profile: Profile, h: Home)
    ensures LabelOk(split, profile,
        TurnOf(h, PlanSingle(t, d, focus, family, profile, SurfaceNaming(split, profile, d)), profile))
  {
    OtherRoom(t.room, d.wrong);
    hide Choose, OtherRooms, DrawnValue, NativeSlot, Delta, Difference, Perform;
  }

  lemma {:induction false} PlanLabelOk(split: Split, d: Draw, focus: Option<Device>, family: Family, profile: Profile,
                                       h: Home)
    ensures var p := PlanTurn(split, d, focus, family, profile);
            LabelOk(split, profile, TurnOf(h, p, profile)) && (family == MultiFamily ==> p.gold.Several?)
  {
    TwoRoomsPerEntity(split, Choose(DeclaredEntities(), d.entity));
    ChosenPair(split, d.first);
    SingleLabelOk(split, Choose(Pairs(split), d.first), d, focus, family, profile, h);
    hide LabelOk, TurnOf, PlanSingle, PlanMulti, SurfaceNaming, Pairs, PairsOf, Choose, DeclaredEntities;
    if family == MultiFamily { MultiLabelOk(split, d, profile, h); }
  }

  lemma PlanInSplit(split: Split, p: Plan, focus: Option<Device>)
    requires PlanOk(split, p, focus) && FocusOk(split, focus)
    ensures forall x :: x in GoldTargets(p.gold) ==> x in Pairs(split)
    ensures FocusOk(split, Some(p.focus))
    ensures p.gold.Several? ==> |p.gold.targets| == 2 && p.gold.targets[0] != p.gold.targets[1]
  {
    hide ActFits, Pairs;
  }

  lemma {:induction false} SoundIntro(split: Split, profile: Profile, h: Home, prev: Option<Turn>, p: Plan)
    requires WellFormed(h) && WellFormed(Perform(h, Execute(p.act, p.gold)))
    requires LabelOk(split, profile, TurnOf(h, p, profile))
    requires forall x :: x in GoldTargets(p.gold) ==> x in Pairs(split)
    requires p.gold.Several? ==> |p.gold.targets| == 2 && p.gold.targets[0] != p.gold.targets[1]
    ensures TurnSound(split, profile, h, prev, TurnOf(h, p, profile))
  {
    hide WellFormed, Perform, LabelOk, GoldTargets, Pairs, Difference, Annotated;
  }

  lemma SeveralLeavesTwo(h: Home, p: Plan, profile: Profile)
    requires p.gold.Several? ==> |p.gold.targets| == 2 && p.gold.targets[0] != p.gold.targets[1]
    ensures p.gold.Several? ==> LeavesTwo(TurnOf(h, p, profile))
  {
    hide Perform, Difference, Annotated;
  }

  lemma {:induction false} ExecuteSound(split: Split, profile: Profile, h: Home, prev: Option<Turn>, d: Draw,
                                        focus: Option<Device>, family: Family)
    requires WellFormed(h) && FocusOk(split, focus)
    ensures var p := PlanTurn(split, d, focus, family, profile); var t := TurnOf(h, p, profile);
            TurnSound(split, profile, h, prev, t) && FocusOk(split, Some(p.focus))
                && (family == MultiFamily ==> LeavesTwo(t))
  {
    hide *;
    var p := PlanTurn(split, d, focus, family, profile);
    PlanLabelOk(split, d, focus, family, profile, h);
    PlanTurnOk(split, d, focus, family, profile);
    PerformKeeps(split, h, p, focus);
    PlanInSplit(split, p, focus);
    SoundIntro(split, profile, h, prev, p);
    SeveralLeavesTwo(h, p, profile);
  }

  lemma {:induction false} ClarifySound(split: Split, profile: Profile, h: Home, prev: Option<Turn>, basis: Basis)
    requires WellFormed(h) && Justified(prev, ClarifyTurn(h, basis, profile))
    ensures TurnSound(split, profile, h, prev, ClarifyTurn(h, basis, profile))
  {
    NoDifference(h, h);
    assert Difference(h, h) == [];
    hide Difference, WellFormed, Justified, LabelOk, GoldTargets, Pairs, ApplyAll, Annotated;
  }

  lemma AskAfterTwo(h: Home, prev: Turn, profile: Profile)
    requires LeavesTwo(prev)
    ensures Justified(Some(prev), ClarifyTurn(h, MultiReferentSet, profile))
  {
    hide LeavesTwo, Annotated;
  }

  lemma {:induction false} SoundAtSnoc(split: Split, profile: Profile, turns: seq<Turn>, t: Turn, i: nat)
    requires i <= |turns|
    requires if i < |turns| then SoundAt(split, profile, turns, i)
        else TurnSound(split, profile, StateBefore(InitialHome(), turns, i), TurnBefore(turns, i), t)
    ensures SoundAt(split, profile, turns + [t], i)
  {
    hide TurnSound, InitialHome;
    var more := turns + [t];
    assert more[i] == if i < |turns| then turns[i] else t;
    assert StateBefore(InitialHome(), more, i) == StateBefore(InitialHome(), turns, i);
    assert TurnBefore(more, i) == TurnBefore(turns, i);
  }

  lemma {:induction false} SoundSnoc(split: Split, profile: Profile, turns: seq<Turn>, t: Turn)
    requires AllSound(split, profile, turns)
    requires TurnSound(split, profile, StateBefore(InitialHome(), turns, |turns|), TurnBefore(turns, |turns|), t)
    ensures AllSound(split, profile, turns + [t])
  {
    hide TurnSound, SoundAt, InitialHome, StateBefore, TurnBefore;
    forall i: nat | i < |turns + [t]| ensures SoundAt(split, profile, turns + [t], i) {
      SoundAtSnoc(split, profile, turns, t, i);
    }
  }

  lemma LastState(turns: seq<Turn>, t: Turn)
    ensures StateBefore(InitialHome(), turns + [t], |turns + [t]|) == t.goldState
    ensures TurnBefore(turns + [t], |turns + [t]|) == Some(t)
  {
  }

  /** One pass of the loop keeps every turn sound. */
  lemma {:induction false} PassSound(split: Split, profile: Profile, turns: seq<Turn>, h: Home, focus: Option<Device>,
                                     d: Draw, asks: bool)
    requires AllSound(split, profile, turns) && WellFormed(h) && FocusOk(split, focus)
    requires h == StateBefore(InitialHome(), turns, |turns|)
    requires asks ==> FamilyOf(d) == MultiFamily
    ensures var p := PlanTurn(split, d, focus, FamilyOf(d), profile); var t := TurnOf(h, p, profile);
            var more := turns + Pass(split, profile, h, focus, d, asks);
            AllSound(split, profile, more) && WellFormed(t.goldState) && FocusOk(split, Some(p.focus))
                && StateBefore(InitialHome(), more, |more|) == t.goldState
  {
    hide *;
    var t := TurnOf(h, PlanTurn(split, d, focus, FamilyOf(d), profile), profile);
    var prev := TurnBefore(turns, |turns|);
    ExecuteSound(split, profile, h, prev, d, focus, FamilyOf(d));
    SoundAfter(split, profile, h, prev, t);
    SoundSnoc(split, profile, turns, t);
    LastState(turns, t);
    PassIs(split, profile, turns, h, focus, d, asks);
    if asks {
      var q := ClarifyTurn(t.goldState, MultiReferentSet, profile);
      AskAfterTwo(t.goldState, t, profile);
      ClarifySound(split, profile, t.goldState, Some(t), MultiReferentSet);
      SoundSnoc(split, profile, turns + [t], q);
      LastState(turns + [t], q);
      ClarifyState(t.goldState, MultiReferentSet, profile);
    }
  }

  lemma PassIs(split: Split, profile: Profile, turns: seq<Turn>, h: Home, focus: Option<Device>, d: Draw, asks: bool)
    ensures var t := TurnOf(h, PlanTurn(split, d, focus, FamilyOf(d), profile), profile);
            turns + Pass(split, profile, h, focus, d, asks) == if asks
                then turns + [t] + [ClarifyTurn(t.goldState, MultiReferentSet, profile)] else turns + [t]
  {
    hide PlanTurn, TurnOf, FamilyOf, ClarifyTurn;
  }

  lemma ClarifyState(h: Home, basis: Basis, profile: Profile)
    ensures ClarifyTurn(h, basis, profile).goldState == h
  {
  }

  lemma {:induction false} SoundAfter(split: Split, profile: Profile, before: Home, prev: Option<Turn>, t: Turn)
    requires TurnSound(split, profile, before, prev, t)
    ensures WellFormed(t.goldState)
  {
  }

  lemma {:induction false} ContinueSound(split: Split, profile: Profile, stream: nat -> Draw, k: nat, turns: seq<Turn>,
                                         h: Home, focus: Option<Device>, n: nat)
    requires AllSound(split, profile, turns) && WellFormed(h) && FocusOk(split, focus)
    requires h == StateBefore(InitialHome(), turns, |turns|) && |turns| <= n
    ensures var all := Continue(split, profile, stream, k, turns, h, focus, n);
            AllSound(split, profile, all) && |all| == n
    decreases n - |turns|
  {
    if |turns| < n {
      var d := stream(k);
      var p := PlanTurn(split, d, focus, FamilyOf(d), profile);
      var t := TurnOf(h, p, profile);
      var asks := FamilyOf(d) == MultiFamily && |turns| + 1 < n && d.follow;
      var more := turns + Pass(split, profile, h, focus, d, asks);
      PassSound(split, profile, turns, h, focus, d, asks);
      ContinueSound(split, profile, stream, k + 1, more, t.goldState, Some(p.focus), n);
      hide PlanTurn, TurnOf, FamilyOf, AllSound, ClarifyTurn, WellFormed, FocusOk, StateBefore;
    }
  }

  lemma AskAtStart(h: Home, profile: Profile)
    ensures Justified(None, ClarifyTurn(h, NoPriorFocus, profile))
  {
  }

  lemma NothingSound(split: Split, profile: Profile)
    ensures AllSound(split, profile, []) && StateBefore(InitialHome(), [], 0) == InitialHome()
    ensures TurnBefore([], 0) == None && FocusOk(split, None)
  {
    hide InitialHome, TurnSound, Pairs;
  }

  lemma OpeningCases(profile: Profile, opens: bool)
    ensures Opening(profile, opens) == if opens then [] + [ClarifyTurn(InitialHome(), NoPriorFocus, profile)] else []
  {
    hide InitialHome, ClarifyTurn;
  }

  lemma {:induction false} OpeningSound(split: Split, profile: Profile, opens: bool)
    ensures var first := Opening(profile, opens);
            AllSound(split, profile, first) && |first| <= 1
                && StateBefore(InitialHome(), first, |first|) == InitialHome() && FocusOk(split, None)
  {
    hide *;
    InitialWellFormed();
    NothingSound(split, profile);
    OpeningCases(profile, opens);
    if opens {
      var q := ClarifyTurn(InitialHome(), NoPriorFocus, profile);
      AskAtStart(InitialHome(), profile);
      ClarifySound(split, profile, InitialHome(), None, NoPriorFocus);
      ClarifyState(InitialHome(), NoPriorFocus, profile);
      SoundSnoc(split, profile, [], q);
      LastState([], q);
    }
  }

  /** Every stream of draws gives exactly the drawn number of turns, between 12 and 28, all of them sound. */
  lemma {:induction false} EveryTrajectorySound(split: Split, profile: Profile, stream: nat -> Draw, length: nat,
                                                opens: bool)
    ensures var turns := Trajectory(split, profile, stream, length, opens);
            AllSound(split, profile, turns) && |turns| == Length(length) && 12 <= |turns| <= 28
  {
    InitialWellFormed();
    OpeningSound(split, profile, opens);
    hide InitialHome, WellFormed, AllSound, StateBefore, Opening, FocusOk, Continue;
    ContinueSound(split, profile, stream, 0, Opening(profile, opens), InitialHome(), None, Length(length));
  }

  // ---------- each turn from the turns before it ----------

  /** How many draws the turns so far have used. */
  function Executed(past: seq<Turn>): nat {
    if past == [] then 0
    else Executed(past[..|past| - 1]) + if past[|past| - 1].decision.Execute? then 1 else 0
  }

  /** The last target of the last executed turn. */
  function FocusOf(past: seq<Turn>): Option<Device> {
    if past == [] then None
    else
      match past[|past| - 1].decision
      case Execute(_, One(x)) => Some(x)
      case Execute(_, Several(xs)) => if xs == [] then None else Some(xs[|xs| - 1])
      case Clarify(_) => FocusOf(past[..|past| - 1])
  }

  /** A question comes next: at the start if the trajectory opens with one, and after a two-target turn drawn to be
      followed by one. */
  predicate AsksNext(stream: nat -> Draw, opens: bool, past: seq<Turn>) {
    if past == [] then opens
    else
      var d := stream(Executed(past[..|past| - 1]));
      past[|past| - 1].decision.Execute? && FamilyOf(d) == MultiFamily && d.follow
  }

  /** The next turn, from the turns so far and one draw. */
  function NextTurn(split: Split, profile: Profile, stream: nat -> Draw, opens: bool, past: seq<Turn>): Turn {
    var h := StateBefore(InitialHome(), past, |past|);
    if AsksNext(stream, opens, past) then
      ClarifyTurn(h, if past == [] then NoPriorFocus else MultiReferentSet, profile)
    else
      var d := stream(Executed(past));
      TurnOf(h, PlanTurn(split, d, FocusOf(past), FamilyOf(d), profile), profile)
  }

  ghost predicate AllNext(split: Split, profile: Profile, stream: nat -> Draw, opens: bool, turns: seq<Turn>) {
    forall i :: 0 <= i < |turns| ==> turns[i] == NextTurn(split, profile, stream, opens, turns[..i])
  }

  lemma AllNextSnoc(split: Split, profile: Profile, stream: nat -> Draw, opens: bool, turns: seq<Turn>, t: Turn)
    requires AllNext(split, profile, stream, opens, turns) && t == NextTurn(split, profile, stream, opens, turns)
    ensures AllNext(split, profile, stream, opens, turns + [t])
  {
    hide NextTurn;
    var more := turns + [t];
    forall i | 0 <= i < |more| ensures more[i] == NextTurn(split, profile, stream, opens, more[..i]) {
      assert more[..i] == turns[..i];
      if i == |turns| { assert turns[..i] == turns; }
    }
  }

  lemma PlanFocus(split: Split, p: Plan, focus: Option<Device>)
    requires PlanOk(split, p, focus)
    ensures match p.gold case One(x) => x == p.focus case Several(xs) => |xs| == 2 && xs[1] == p.focus
  {
    hide ActFits, Pairs;
  }

  /** What an executed turn and a question do to the draws used and the focus. */
  lemma {:induction false} PastSnoc(stream: nat -> Draw, opens: bool, past: seq<Turn>, t: Turn)
    ensures Executed(past + [t]) == Executed(past) + if t.decision.Execute? then 1 else 0
    ensures t.decision.Clarify? ==> FocusOf(past + [t]) == FocusOf(past) && !AsksNext(stream, opens, past + [t])
    ensures t.decision.Execute? ==> FocusOf(past + [t]) == match t.decision.gold
        case One(x) => Some(x)
        case Several(xs) => if xs == [] then None else Some(xs[|xs| - 1])
    ensures t.decision.Execute? ==> (AsksNext(stream, opens, past + [t])
        <==> FamilyOf(stream(Executed(past))) == MultiFamily && stream(Executed(past)).follow)
  {
    hide FamilyOf;
    assert (past + [t])[..|past|] == past;
  }

  /** The loop's variables are determined by the turns so far. */
  ghost predicate Underway(stream: nat -> Draw, opens: bool, turns: seq<Turn>, k: nat, h: Home, focus: Option<Device>,
                           n: nat) {
    && |turns| <= n && k == Executed(turns) && h == StateBefore(InitialHome(), turns, |turns|)
    && focus == FocusOf(turns) && (|turns| < n ==> !AsksNext(stream, opens, turns))
  }

  lemma {:induction false} DrawnNext(split: Split, profile: Profile, stream: nat -> Draw, opens: bool,
                                     turns: seq<Turn>, k: nat, h: Home, focus: Option<Device>, n: nat)
    requires AllNext(split, profile, stream, opens, turns) && Underway(stream, opens, turns, k, h, focus, n)
    requires |turns| < n
    ensures var d := stream(k); var p := PlanTurn(split, d, focus, FamilyOf(d), profile);
            var more := turns + [TurnOf(h, p, profile)];
            && AllNext(split, profile, stream, opens, more) && Executed(more) == k + 1 && FocusOf(more) == Some(p.focus)
            && StateBefore(InitialHome(), more, |more|) == TurnOf(h, p, profile).goldState
            && (AsksNext(stream, opens, more) <==> FamilyOf(d) == MultiFamily && d.follow)
  {
    var d := stream(k);
    var p := PlanTurn(split, d, focus, FamilyOf(d), profile);
    var t := TurnOf(h, p, profile);
    hide *;
    PlanTurnOk(split, d, focus, FamilyOf(d), profile);
    PlanFocus(split, p, focus);
    DrawIsNext(split, profile, stream, opens, turns, k, h, focus, n);
    PastSnoc(stream, opens, turns, t);
    LastState(turns, t);
    AllNextSnoc(split, profile, stream, opens, turns, t);
  }

  /** Where no question is due the next turn is the next draw's. */
  lemma DrawIsNext(split: Split, profile: Profile, stream: nat -> Draw, opens: bool, turns: seq<Turn>, k: nat, h: Home,
                   focus: Option<Device>, n: nat)
    requires Underway(stream, opens, turns, k, h, focus, n) && |turns| < n
    ensures var p := PlanTurn(split, stream(k), focus, FamilyOf(stream(k)), profile);
            && NextTurn(split, profile, stream, opens, turns) == TurnOf(h, p, profile)
            && TurnOf(h, p, profile).decision == Execute(p.act, p.gold)
    ensures Executed(turns) == k
  {
    hide PlanTurn, FamilyOf, Perform, Difference, Annotated, InitialHome, Executed, FocusOf, AsksNext;
  }

  lemma {:induction false} AskedNext(split: Split, profile: Profile, stream: nat -> Draw, opens: bool, turns: seq<Turn>)
    requires AllNext(split, profile, stream, opens, turns) && AsksNext(stream, opens, turns)
    ensures var h := StateBefore(InitialHome(), turns, |turns|);
            var more := turns + [ClarifyTurn(h, if turns == [] then NoPriorFocus else MultiReferentSet, profile)];
            && AllNext(split, profile, stream, opens, more) && Executed(more) == Executed(turns)
            && FocusOf(more) == FocusOf(turns) && StateBefore(InitialHome(), more, |more|) == h
            && !AsksNext(stream, opens, more)
  {
    var h := StateBefore(InitialHome(), turns, |turns|);
    var q := ClarifyTurn(h, if turns == [] then NoPriorFocus else MultiReferentSet, profile);
    hide InitialHome, AllNext, Executed, FocusOf, AsksNext, Annotated;
    PastSnoc(stream, opens, turns, q);
    LastState(turns, q);
    AllNextSnoc(split, profile, stream, opens, turns, q);
  }

  /** One pass of the loop adds the next turn, and the question after it if one is due. */
  lemma {:induction false} PassNext(split: Split, profile: Profile, stream: nat -> Draw, opens: bool, turns: seq<Turn>,
                                    k: nat, h: Home, focus: Option<Device>, n: nat, asks: bool)
    requires AllNext(split, profile, stream, opens, turns) && Underway(stream, opens, turns, k, h, focus, n)
    requires |turns| < n && asks == (FamilyOf(stream(k)) == MultiFamily && |turns| + 1 < n && stream(k).follow)
    ensures var p := PlanTurn(split, stream(k), focus, FamilyOf(stream(k)), profile);
            var more := turns + Pass(split, profile, h, focus, stream(k), asks);
            && AllNext(split, profile, stream, opens, more)
            && Underway(stream, opens, more, k + 1, TurnOf(h, p, profile).goldState, Some(p.focus), n)
  {
    var d := stream(k);
    var t := TurnOf(h, PlanTurn(split, d, focus, FamilyOf(d), profile), profile);
    DrawnNext(split, profile, stream, opens, turns, k, h, focus, n);
    hide PlanTurn, TurnOf, FamilyOf, AllNext, AsksNext, Executed, FocusOf, StateBefore, ClarifyTurn, Pass, InitialHome;
    PassIs(split, profile, turns, h, focus, d, asks);
    if asks { AskedNext(split, profile, stream, opens, turns + [t]); }
  }

  lemma {:induction false} ContinueNext(split: Split, profile: Profile, stream: nat -> Draw, opens: bool, k: nat,
                                        turns: seq<Turn>, h: Home, focus: Option<Device>, n: nat)
    requires AllNext(split, profile, stream, opens, turns) && Underway(stream, opens, turns, k, h, focus, n)
    ensures AllNext(split, profile, stream, opens, Continue(split, profile, stream, k, turns, h, focus, n))
    decreases n - |turns|
  {
    hide *;
    ContinueUnfolds(split, profile, stream, k, turns, h, focus, n);
    if |turns| < n {
      var d := stream(k);
      var p := PlanTurn(split, d, focus, FamilyOf(d), profile);
      var t := TurnOf(h, p, profile);
      var asks := FamilyOf(d) == MultiFamily && |turns| + 1 < n && d.follow;
      PassGrows(split, profile, h, focus, d, asks);
      PassNext(split, profile, stream, opens, turns, k, h, focus, n, asks);
      ContinueNext(split, profile, stream, opens, k + 1, turns + Pass(split, profile, h, focus, d, asks), t.goldState,
                   Some(p.focus), n);
    }
  }

  lemma ContinueUnfolds(split: Split, profile: Profile, stream: nat -> Draw, k: nat, turns: seq<Turn>, h: Home,
                        focus: Option<Device>, n: nat)
    ensures var d := stream(k); var p := PlanTurn(split, d, focus, FamilyOf(d), profile);
            var asks := FamilyOf(d) == MultiFamily && |turns| + 1 < n && d.follow;
            Continue(split, profile, stream, k, turns, h, focus, n)
              == if |turns| >= n then turns
                 else Continue(split, profile, stream, k + 1, turns + Pass(split, profile, h, focus, d, asks),
                               TurnOf(h, p, profile).goldState, Some(p.focus), n)
  {
    hide PlanTurn, TurnOf, FamilyOf, Pass;
  }

  /** Every turn of every generated trajectory is determined by the turns before it and one draw: a question where one
      is due, else the next draw of the stream carried out on the home as it is, with the last target in focus. */
  lemma {:induction false} EveryTurnNext(split: Split, profile: Profile, stream: nat -> Draw, length: nat, opens: bool,
                                         i: nat)
    requires i < Length(length)
    ensures var turns := Trajectory(split, profile, stream, length, opens);
            |turns| == Length(length) && turns[i] == NextTurn(split, profile, stream, opens, turns[..i])
  {
    EveryTrajectorySound(split, profile, stream, length, opens);
    hide Continue, NextTurn, AllSound, InitialHome, ClarifyTurn;
    OpeningNext(split, profile, stream, opens);
    ContinueNext(split, profile, stream, opens, 0, Opening(profile, opens), InitialHome(), None, Length(length));
  }

  lemma {:induction false} OpeningNext(split: Split, profile: Profile, stream: nat -> Draw, opens: bool)
    ensures AllNext(split, profile, stream, opens, Opening(profile, opens))
    ensures forall n :: n >= 12 ==> Underway(stream, opens, Opening(profile, opens), 0, InitialHome(), None, n)
  {
    hide InitialHome, ClarifyTurn, NextTurn;
    if opens {
      AskedNext(split, profile, stream, opens, []);
      assert StateBefore(InitialHome(), [], 0) == InitialHome();
      OpeningCases(profile, opens);
      assert [] + [ClarifyTurn(InitialHome(), NoPriorFocus, profile)]
          == [ClarifyTurn(InitialHome(), NoPriorFocus, profile)];
    }
  }

  // ---------- held-out combinations ----------

  datatype Class = AmbiguityHoldout | CompositionalHoldout | SeenCombo

  /** `generalization_class`. */
  predicate AllSeen(ts: seq<Device>) {
    ts == [] || (ts[0] in Pairs(Train) && AllSeen(ts[1..]))
  }

  function ClassOf(t: Turn): Class {
    match t.decision
    case Clarify(_) => AmbiguityHoldout
    case Execute(_, gold) => if AllSeen(GoldTargets(gold)) then SeenCombo else CompositionalHoldout
  }

  lemma {:induction false} AllSeenMeans(ts: seq<Device>)
    ensures AllSeen(ts) <==> forall x :: x in ts ==> x in Pairs(Train)
  {
    hide Pairs;
    if ts != [] {
      AllSeenMeans(ts[1..]);
      assert ts == [ts[0]] + ts[1..];
    }
  }

  lemma DevApartFromTrain(x: Device)
    requires x in Pairs(Dev)
    ensures x !in Pairs(Train)
  {
  }

  lemma SomeTarget(t: Turn) returns (x: Device)
    requires t.decision.Execute? && (t.decision.gold.Several? ==> LeavesTwo(t))
    ensures x in GoldTargets(t.decision.gold)
  {
    x := if t.decision.gold.One? then t.decision.gold.target else t.decision.gold.targets[0];
  }

  /** Training acts only on seen room-entity pairs; development only on unseen ones. */
  lemma {:induction false} SplitsHoldOut(split: Split, profile: Profile, before: Home, prev: Option<Turn>, t: Turn)
    requires TurnSound(split, profile, before, prev, t)
    ensures t.decision.Execute? && split == Train ==> ClassOf(t) == SeenCombo
    ensures t.decision.Execute? && split == Dev ==> ClassOf(t) == CompositionalHoldout
    ensures ClassOf(t) == AmbiguityHoldout <==> t.decision.Clarify?
  {
    hide Pairs, AllSeen, WellFormed, Perform, Difference, Justified, LabelOk;
    if t.decision.Execute? {
      AllSeenMeans(GoldTargets(t.decision.gold));
      var x := SomeTarget(t);
      if split == Dev { DevApartFromTrain(x); }
    }
  }

  /** `split_for`: two thirds train, the rest halved. */
  function SplitFor(i: nat, count: nat): Split {
    var train := count * 2 / 3;
    var dev := (count - train) / 2;
    if i < train then Train else if i < train + dev then Dev else Sealed
  }

  /** How many of the first `m` trajectories fall into a split. */
  function CountSplit(s: Split, m: nat, count: nat): nat {
    if m == 0 then 0 else CountSplit(s, m - 1, count) + if SplitFor(m - 1, count) == s then 1 else 0
  }

  lemma {:induction false} CountsUpTo(m: nat, count: nat)
    requires m <= count
    ensures var train := count * 2 / 3; var dev := (count - train) / 2;
            && CountSplit(Train, m, count) == Min(m, train)
            && CountSplit(Dev, m, count) == (if m <= train then 0 else Min(m - train, dev))
            && CountSplit(Sealed, m, count) == (if m <= train + dev then 0 else m - train - dev)
  {
    if m > 0 { CountsUpTo(m - 1, count); }
  }

  /** The first two thirds train and the last part is sealed; the held-out halves differ by at most one trajectory, and
      from sixty trajectories on every split is populated. */
  lemma SplitsBalanced(count: nat)
    ensures var train, dev, held := CountSplit(Train, count, count), CountSplit(Dev, count, count),
        CountSplit(Sealed, count, count);
            && train == count * 2 / 3 && train + dev + held == count && dev <= held <= dev + 1
            && (count >= 60 ==> train > 0 && dev > 0 && held > 0)
    ensures forall i, j :: 0 <= i <= j < count && SplitFor(j, count) == Train ==> SplitFor(i, count) == Train
    ensures forall i, j :: 0 <= i <= j < count && SplitFor(i, count) == Sealed ==> SplitFor(j, count) == Sealed
  {
    CountsUpTo(count, count);
  }

  // ---------- the validator ----------

  /** Every check the validator makes on one turn. */
  ghost predicate TurnValid(profile: Profile, expected: set<Device>, before: Home, prev: Option<Turn>, t: Turn) {
    && (t.marks == None <==> profile == Legacy)
    && t.goldState.Keys == expected
    && multiset(Difference(before, t.goldState)) == multiset(t.writeSet)
    && PowerOk(profile, t)
    && (t.decision.Clarify?
      ==> Difference(before, t.goldState) == [] && t.writeSet == [] && Founded(prev, t.decision.basis))
  }

  /** The validator's reading of an ambiguity basis. */
  predicate Founded(prev: Option<Turn>, basis: Basis) {
    match basis
    case NoPriorFocus => prev == None
    case MultiReferentSet => prev.Some? && prev.value.decision.Execute? && prev.value.decision.gold.Several?
                                && |prev.value.decision.gold.targets| >= 2
  }

  ghost predicate ValidUpTo(profile: Profile, initial: Home, turns: seq<Turn>, n: nat)
    requires n <= |turns|
  {
    forall i :: 0 <= i < n
        ==> TurnValid(profile, initial.Keys, StateBefore(initial, turns, i), TurnBefore(turns, i), turns[i])
  }

  method CheckTurn(profile: Profile, expected: set<Device>, before: Home, prev: Option<Turn>, t: Turn)
    returns (ok: bool)
    ensures ok <==> TurnValid(profile, expected, before, prev, t)
  {
    hide Difference;
    var observed := DiffState(before, t.goldState);
    ok := (t.marks == None <==> profile == Legacy) && t.goldState.Keys == expected
        && multiset(observed) == multiset(t.writeSet) && PowerOk(profile, t);
    if t.decision.Clarify? {
      ok := ok && observed == [] && t.writeSet == [] && Founded(prev, t.decision.basis);
    }
  }

  /** The validator's walk over one trajectory; the first failed assertion stops it. */
  method Validate(profile: Profile, initial: Home, turns: seq<Turn>) returns (ok: bool)
    ensures ok <==> ValidUpTo(profile, initial, turns, |turns|)
  {
    hide TurnValid;
    var expected := initial.Keys;
    var prev := initial;
    var before: Option<Turn> := None;
    for i := 0 to |turns|
      invariant ValidUpTo(profile, initial, turns, i)
      invariant prev == StateBefore(initial, turns, i) && before == TurnBefore(turns, i)
    {
      ok := CheckTurn(profile, expected, prev, before, turns[i]);
      if !ok { return; }
      prev, before := turns[i].goldState, Some(turns[i]);
    }
    ok := true;
  }

  ghost predicate SetsSeveral(t: Turn) {
    t.decision.Execute? && t.decision.gold.Several? && |t.decision.gold.targets| >= 2
  }

  /** What the validator demands of turn `i`, cell by cell. */
  ghost predicate AsPromised(profile: Profile, initial: Home, turns: seq<Turn>, i: nat)
    requires i < |turns|
  {
    var t, before := turns[i], StateBefore(initial, turns, i);
    && (t.marks.None? <==> profile == Legacy)
    && (forall d :: d in t.goldState <==> d in initial)
    && Distinct(t.writeSet) && (forall p :: p in t.writeSet <==> Read(before, p) != Read(t.goldState, p))
    && (t.scenario == DirectPower ==> t.decision.Execute? && match t.decision.act
          case CloseDevice => true
          case AddDevice(_) => profile == Legacy
          case PatchSlot(s, v) => profile == ExistingDevicePower && s == Power && v == Switch(true)
          case PatchRelative(_, _) => false)
    && (t.decision.Clarify? ==> t.writeSet == [])
    && (t.decision.Clarify? && t.decision.basis == NoPriorFocus ==> i == 0)
    && (t.decision.Clarify? && t.decision.basis == MultiReferentSet ==> i > 0 && SetsSeveral(turns[i - 1]))
  }

  lemma SameMultiset<T>(xs: seq<T>, ys: seq<T>)
    requires Distinct(xs)
    ensures multiset(xs) == multiset(ys) <==> Distinct(ys) && forall x :: x in ys <==> x in xs
  {
    DistinctCount(xs);
    DistinctCount(ys);
    if Distinct(ys) && forall x :: x in ys <==> x in xs {
      forall x ensures multiset(xs)[x] == multiset(ys)[x] {
        assert multiset(xs)[x] > 0 <==> x in xs;
        assert multiset(ys)[x] > 0 <==> x in ys;
      }
    } else if multiset(xs) == multiset(ys) {
      forall x ensures x in ys <==> x in xs {
        assert multiset(xs)[x] > 0 <==> x in xs;
        assert multiset(ys)[x] > 0 <==> x in ys;
      }
    }
  }

  /** A write-set matches the observed difference exactly when it lists each changed cell once, in any order. */
  lemma WriteSetExactly(a: Home, b: Home, ws: seq<Path>)
    ensures multiset(Difference(a, b)) == multiset(ws)
        <==> Distinct(ws) && forall p :: p in ws <==> Read(a, p) != Read(b, p)
  {
    DifferenceRises(a, b);
    hide Difference, PathPlace, Read;
    SameMultiset(Difference(a, b), ws);
    forall p ensures p in Difference(a, b) <==> Read(a, p) != Read(b, p) { DifferenceExactly(a, b, p); }
  }

  lemma {:induction false} ValidTurnExactly(profile: Profile, initial: Home, turns: seq<Turn>, i: nat)
    requires i < |turns|
    ensures TurnValid(profile, initial.Keys, StateBefore(initial, turns, i), TurnBefore(turns, i), turns[i])
        <==> AsPromised(profile, initial, turns, i)
  {
    var t, before := turns[i], StateBefore(initial, turns, i);
    WriteSetExactly(before, t.goldState, t.writeSet);
    hide Difference, Read, Distinct, StateBefore;
    EmptyTogether(before, t.goldState, t);
  }

  lemma EmptyTogether(a: Home, b: Home, t: Turn)
    ensures multiset(Difference(a, b)) == multiset(t.writeSet) ==> (t.writeSet == [] <==> Difference(a, b) == [])
  {
    hide Difference;
    var d := Difference(a, b);
    assert |multiset(d)| == |d| && |multiset(t.writeSet)| == |t.writeSet|;
  }

  /** The validator accepts a trajectory, whoever wrote it, exactly when every turn is as promised. */
  lemma {:induction false} ValidExactly(profile: Profile, initial: Home, turns: seq<Turn>)
    ensures ValidUpTo(profile, initial, turns, |turns|)
        <==> forall i :: 0 <= i < |turns| ==> AsPromised(profile, initial, turns, i)
  {
    hide TurnValid, AsPromised, StateBefore, TurnBefore;
    forall i | 0 <= i < |turns|
      ensures TurnValid(profile, initial.Keys, StateBefore(initial, turns, i), TurnBefore(turns, i), turns[i])
          <==> AsPromised(profile, initial, turns, i)
    {
      ValidTurnExactly(profile, initial, turns, i);
    }
  }

  /** In an accepted trajectory a cell no turn between two points lists reads the same at both. */
  lemma {:induction false} UnlistedUnchanged(profile: Profile, initial: Home, turns: seq<Turn>, m: nat, n: nat, p: Path)
    requires m <= n <= |turns| && ValidUpTo(profile, initial, turns, |turns|)
    requires forall i :: m <= i < n ==> p !in turns[i].writeSet
    ensures Read(StateBefore(initial, turns, n), p) == Read(StateBefore(initial, turns, m), p)
    decreases n
  {
    hide *;
    if m < n {
      ValidExactly(profile, initial, turns);
      UnlistedUnchanged(profile, initial, turns, m, n - 1, p);
      UnlistedByTurn(profile, initial, turns, n - 1, p);
    }
  }

  lemma UnlistedByTurn(profile: Profile, initial: Home, turns: seq<Turn>, i: nat, p: Path)
    requires i < |turns| && AsPromised(profile, initial, turns, i) && p !in turns[i].writeSet
    ensures Read(StateBefore(initial, turns, i + 1), p) == Read(StateBefore(initial, turns, i), p)
  {
    hide Read, Distinct;
  }

  /** A question leaves the home as it was. */
  lemma {:induction false} QuestionsAreInert(split: Split, profile: Profile, before: Home, prev: Option<Turn>, t: Turn)
    requires TurnSound(split, profile, before, prev, t) && t.decision.Clarify?
    ensures t.goldState == before && t.writeSet == Difference(before, before) == [] && Founded(prev, t.decision.basis)
  {
    NoDifference(before, before);
    hide WellFormed, Difference, LabelOk, InSplit, ApplyAll;
  }

  lemma {:induction false} SoundIsValid(split: Split, profile: Profile, before: Home, prev: Option<Turn>, t: Turn)
    requires TurnSound(split, profile, before, prev, t)
    ensures TurnValid(profile, InitialHome().Keys, before, prev, t)
  {
    InitialWellFormed();
    SoundAfter(split, profile, before, prev, t);
    SameDevices(InitialHome(), t.goldState);
    if t.decision.Clarify? { QuestionsAreInert(split, profile, before, prev, t); }
    hide InitialHome, WellFormed, Difference, Perform, PowerOk, HintOk, InSplit, Justified, Founded, LeavesTwo;
  }

  /** Whatever the draws, the generated trajectory passes the validator. */
  lemma {:induction false} GeneratedIsValid(split: Split, profile: Profile, stream: nat -> Draw, length: nat,
                                            opens: bool)
    ensures var turns := Trajectory(split, profile, stream, length, opens);
            ValidUpTo(profile, InitialHome(), turns, |turns|)
  {
    EveryTrajectorySound(split, profile, stream, length, opens);
    var turns := Trajectory(split, profile, stream, length, opens);
    hide Trajectory, TurnSound, TurnValid, InitialHome;
    forall i | 0 <= i < |turns|
      ensures TurnValid(profile, InitialHome().Keys, StateBefore(InitialHome(), turns, i), TurnBefore(turns, i),
          turns[i])
    {
      assert SoundAt(split, profile, turns, i);
      SoundIsValid(split, profile, StateBefore(InitialHome(), turns, i), TurnBefore(turns, i), turns[i]);
    }
  }
}
