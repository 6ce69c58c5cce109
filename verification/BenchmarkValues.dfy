/** Which device values the generator's labels reach, and when the planner would accept them. */
module BenchmarkValues {
  import opened Wrappers
  import opened HomeState
  import opened BenchmarkGenerator
  import opened BenchmarkTrajectory
  import P = AuthorizedPlan

  // ---------- labels fit their targets ----------

  /** A value `slot_spec` can draw. */
  predicate Drawable(e: Entity, v: int) {
    if e == AirConditioner then 18 <= v <= 28 else v in {20, 40, 60, 80}
  }

  predicate StepFits(act: Label, e: Entity) {
    match act
    case PatchSlot(_, Num(v)) => Drawable(e, v)
    case PatchRelative(_, delta) => delta == Delta(e)
    case _ => true
  }

  /** A label acts on slots its targets have, by values that can be drawn; several targets share their entity; only a
      correction has a counterfactual target. */
  ghost predicate LabelFits(t: Turn) {
    t.decision.Execute? ==>
      && (forall x :: x in GoldTargets(t.decision.gold)
           ==> ActFits(t.decision.act, x) && StepFits(t.decision.act, x.entity))
      && (t.decision.gold.Several? ==> SameEntity(t.decision.gold.targets))
      && (t.wrong.Some? <==> t.scenario == ExplicitCorrection)
  }

  predicate SameEntity(ts: seq<Device>) {
    |ts| == 2 && ts[0] != ts[1] && ts[0].entity == ts[1].entity
  }

  lemma DrawnFits(e: Entity, n: nat)
    ensures Drawable(e, DrawnValue(e, n))
  {
    assert n % 4 == 0 || n % 4 == 1 || n % 4 == 2 || n % 4 == 3;
  }

  /** Exactly these values can be drawn. */
  lemma DrawnExactly(e: Entity, v: int)
    ensures Drawable(e, v) <==> exists n: nat :: DrawnValue(e, n) == v
  {
    if Drawable(e, v) {
      assert DrawnValue(e, if e == AirConditioner then v - 18 else v / 20 - 1) == v;
    }
    if n: nat :| DrawnValue(e, n) == v { DrawnFits(e, n); }
  }

  lemma {:induction false} MultiIs(split: Split, d: Draw, naming: Naming)
    requires |PairsOf(split, Choose(DeclaredEntities(), d.entity))| >= 2
    ensures var p, e := PlanMulti(split, d, naming), Choose(DeclaredEntities(), d.entity);
            var ps, i := PairsOf(split, e), d.first % 2;
            && |ps| == 2 && p.wrong == None && p.scenario == MultiTarget && p.gold == Several([ps[i], ps[1 - i]])
                 && p.act == PatchSlot(NativeSlot(e), Num(DrawnValue(e, d.value)))
            && ps[0] != ps[1] && ps[0].entity == ps[1].entity == e
  {
    var e := Choose(DeclaredEntities(), d.entity);
    TwoRoomsPerEntity(split, e);
    PairDraw(PairsOf(split, e), d.first, d.second);
    hide PairsOf, Pairs, DrawnValue, NativeSlot, Choose, Drop;
  }

  lemma ThreeEntities()
    ensures |DeclaredEntities()| == 3
  {}

  lemma TwoFit(a: Device, b: Device, e: Entity, n: nat)
    requires a != b && a.entity == b.entity == e
    ensures SameEntity([a, b])
    ensures var act := PatchSlot(NativeSlot(e), Num(DrawnValue(e, n)));
            forall x :: x in [a, b] ==> ActFits(act, x) && StepFits(act, x.entity)
  {
    DrawnFits(e, n);
    hide DrawnValue, Drawable, NativeSlot;
  }

  lemma {:induction false} MultiFits(split: Split, d: Draw, naming: Naming)
    requires |PairsOf(split, Choose(DeclaredEntities(), d.entity))| >= 2
    ensures var p := PlanMulti(split, d, naming);
            p.gold.Several? && SameEntity(p.gold.targets) && p.wrong == None && p.scenario == MultiTarget
            && forall x :: x in p.gold.targets ==> ActFits(p.act, x) && StepFits(p.act, x.entity)
  {
    hide *;
    MultiIs(split, d, naming);
    ThreeEntities();
    var ps := PairsOf(split, Choose(DeclaredEntities(), d.entity));
    TwoFit(ps[d.first % 2], ps[1 - d.first % 2], ps[0].entity, d.value);
  }

  lemma {:induction false} SingleFitsToo(t: Device, d: Draw, focus: Option<Device>, family: Family, profile: Profile,
                                         naming: Naming)
    ensures var p := PlanSingle(t, d, focus, family, profile, naming);
            && p.gold == One(p.focus) && ActFits(p.act, p.focus) && StepFits(p.act, p.focus.entity)
            && (p.wrong.Some? <==> p.scenario == ExplicitCorrection)
  {
    DrawnFits(t.entity, d.value);
    hide DrawnValue, Drawable, NativeSlot, Choose, OtherRooms, Delta;
  }

  lemma {:induction false} PlanFits(split: Split, d: Draw, focus: Option<Device>, family: Family, profile: Profile,
                                    h: Home)
    ensures LabelFits(TurnOf(h, PlanTurn(split, d, focus, family, profile), profile))
  {
    hide Pairs, PairsOf, Choose, SurfaceNaming, PlanMulti, PlanSingle, Perform, Difference, ActFits, StepFits,
         SameEntity;
    var naming := SurfaceNaming(split, profile, d);
    if family == MultiFamily && |PairsOf(split, Choose(DeclaredEntities(), d.entity))| >= 2 {
      MultiFits(split, d, naming);
    } else {
      ChosenPair(split, d.first);
      SingleFitsToo(Choose(Pairs(split), d.first), d, focus, family, profile, naming);
    }
  }

  ghost predicate AllFit(turns: seq<Turn>) {
    forall t :: t in turns ==> LabelFits(t)
  }

  lemma FitMember(turns: seq<Turn>, i: nat)
    requires i < |turns| && AllFit(turns)
    ensures LabelFits(turns[i])
  {
    hide LabelFits;
  }

  lemma PassFits(split: Split, profile: Profile, h: Home, focus: Option<Device>, d: Draw, asks: bool)
    ensures AllFit(Pass(split, profile, h, focus, d, asks))
  {
    PlanFits(split, d, focus, FamilyOf(d), profile, h);
    hide PlanTurn, TurnOf, FamilyOf, Annotated;
  }

  lemma {:induction false} ContinueFits(split: Split, profile: Profile, stream: nat -> Draw, k: nat, turns: seq<Turn>,
      h: Home,
                                        focus: Option<Device>, n: nat)
    requires AllFit(turns)
    ensures AllFit(Continue(split, profile, stream, k, turns, h, focus, n))
    decreases n - |turns|
  {
    if |turns| < n {
      var d := stream(k);
      var plan := PlanTurn(split, d, focus, FamilyOf(d), profile);
      var asks := FamilyOf(d) == MultiFamily && |turns| + 1 < n && d.follow;
      hide PlanTurn, TurnOf, FamilyOf, LabelFits;
      PassFits(split, profile, h, focus, d, asks);
      PassGrows(split, profile, h, focus, d, asks);
      ContinueFits(split, profile, stream, k + 1, turns + Pass(split, profile, h, focus, d, asks),
                   TurnOf(h, plan, profile).goldState, Some(plan.focus), n);
    }
  }

  /** Every label of every generated trajectory fits its targets. */
  lemma {:induction false} TrajectoryFits(split: Split, profile: Profile, stream: nat -> Draw, length: nat, opens: bool)
    ensures AllFit(Trajectory(split, profile, stream, length, opens))
  {
    hide Continue, InitialHome;
    ContinueFits(split, profile, stream, 0, BenchmarkTrajectory.Opening(profile, opens), InitialHome(), None,
        Length(length));
  }

  // ---------- the value of a device, from the labels alone ----------

  /** The last value set for a device's own slot, and the relative turns on it since. */
  datatype Track = Track(base: int, relative: nat)

  function Follow(k: Track, t: Turn, d: Device): Track {
    if t.decision.Clarify? || d !in GoldTargets(t.decision.gold) then k
    else match t.decision.act
      case PatchSlot(_, Num(v)) => Track(v, 0)
      case PatchRelative(_, _) => Track(k.base, k.relative + 1)
      case _ => k
  }

  function TrackOf(turns: seq<Turn>, i: nat, d: Device): Track
    requires i <= |turns|
  {
    if i == 0 then Track(InitialNative(d.entity), 0) else Follow(TrackOf(turns, i - 1, d), turns[i - 1], d)
  }

  function Reached(k: Track, e: Entity): int { k.base + k.relative * Delta(e) }

  /** The device's own slot holds this number. */
  predicate Holds(h: Home, d: Device, n: int) {
    d in h && NativeSlot(d.entity) in h[d] && h[d][NativeSlot(d.entity)] == Num(n)
  }

  /** The number the act leaves in the slot of a target. */
  function Stepped(act: Label, n: int): int {
    match act case PatchSlot(_, Num(v)) => v case PatchRelative(_, delta) => n + delta case _ => n
  }

  lemma ApplyHolds(h: Home, act: Label, t: Device, d: Device, n: int)
    requires WellFormed(h) && Holds(h, d, n) && ActFits(act, t)
    ensures Holds(ApplyAt(h, act, t), d, if d == t then Stepped(act, n) else n)
  {
    hide WellFormed;
    assert NativeSlot(d.entity) != Power;
    hide NativeSlot;
  }

  lemma {:induction false} PerformHolds(h: Home, t: Turn, d: Device, n: int)
    requires WellFormed(h) && Holds(h, d, n) && LabelFits(t)
    ensures Holds(Perform(h, t.decision), d,
                  if t.decision.Execute? && d in GoldTargets(t.decision.gold) then Stepped(t.decision.act, n) else n)
  {
    hide WellFormed, ApplyAt, Holds, ActFits, StepFits, ApplyAll;
    match t.decision {
      case Clarify(_) =>
      case Execute(act, One(x)) =>
        assert x in GoldTargets(t.decision.gold);
        ApplyOne(h, act, x);
        ApplyHolds(h, act, x, d, n);
      case Execute(act, Several(ts)) =>
        assert ts == [ts[0], ts[1]] && ts[0] in GoldTargets(t.decision.gold) && ts[1] in GoldTargets(t.decision.gold);
        ApplyTwo(h, act, ts[0], ts[1]);
        ApplyHolds(h, act, ts[0], d, n);
        ApplyKeeps(h, act, ts[0]);
        ApplyHolds(ApplyAt(h, act, ts[0]), act, ts[1], d, if d == ts[0] then Stepped(act, n) else n);
    }
  }

  lemma FollowReaches(k: Track, t: Turn, d: Device)
    requires LabelFits(t)
    ensures Reached(Follow(k, t, d), d.entity)
         == if t.decision.Execute?
             && d in GoldTargets(t.decision.gold) then Stepped(t.decision.act, Reached(k, d.entity))
                  else Reached(k, d.entity)
  {
    assert (k.relative + 1) * Delta(d.entity) == k.relative * Delta(d.entity) + Delta(d.entity);
    hide Delta, Drawable;
  }

  lemma InitialHolds(d: Device)
    ensures Holds(InitialHome(), d, InitialNative(d.entity))
  {
    InitialAt(d);
    hide InitialHome;
    assert NativeSlot(d.entity) != Power;
    hide InitialNative, NativeSlot;
  }

  /** In a sound trajectory whose labels fit, every device holds its last set value plus one step per relative turn
      since. */
  lemma {:induction false} ValueFollowsLabels(split: Split, profile: Profile, turns: seq<Turn>, i: nat, d: Device)
    requires i <= |turns| && AllSound(split, profile, turns) && AllFit(turns)
    ensures Holds(StateBefore(InitialHome(), turns, i), d, Reached(TrackOf(turns, i, d), d.entity))
  {
    hide InitialHome, WellFormed, LabelFits, Holds, Reached, Follow, Perform, Difference, LabelOk, Justified, LeavesTwo,
         InSplit;
    if i == 0 {
      InitialHolds(d);
      assert Reached(Track(InitialNative(d.entity), 0), d.entity) == InitialNative(d.entity) by {
        NoSteps(InitialNative(d.entity), d.entity);
      }
    } else {
      ValueFollowsLabels(split, profile, turns, i - 1, d);
      assert SoundAt(split, profile, turns, i - 1) && LabelFits(turns[i - 1]);
      FollowReaches(TrackOf(turns, i - 1, d), turns[i - 1], d);
      PerformHolds(StateBefore(InitialHome(), turns, i - 1), turns[i - 1], d,
          Reached(TrackOf(turns, i - 1, d), d.entity));
    }
  }

  lemma NoSteps(n: int, e: Entity)
    ensures Reached(Track(n, 0), e) == n
  {}

  // ---------- when the planner accepts what the labels reach ----------

  function ModelOf(e: Entity): P.Model {
    match e case AirConditioner => P.AirConditionerModel case Light => P.LightGroup case Window => P.CurtainWindow
  }

  function PlannerSlot(s: Slot): P.Slot {
    match s
    case Brightness => P.Brightness
    case Opening => P.Opening
    case Power => P.Power
    case Temperature => P.Temperature
  }

  /** The planner accepts this number for the device's own slot. */
  predicate Acceptable(e: Entity, n: int) {
    P.ValidateValue(ModelOf(e), PlannerSlot(NativeSlot(e)), P.Data.Num(n as real)).Valid?
  }

  /** How many relative steps the capability's range leaves above, or for temperatures below, a value. */
  function Room(e: Entity, base: int): int {
    if e == AirConditioner then base - 16 else (100 - base) / 10
  }

  lemma AcceptableRange(e: Entity, n: int)
    ensures Acceptable(e, n)
        <==> match e case AirConditioner => 16 <= n <= 30 case Light => 1 <= n <= 100 case Window => 0 <= n <= 100
  {}

  lemma {:induction false} BaseFits(turns: seq<Turn>, i: nat, d: Device)
    requires i <= |turns| && AllFit(turns)
    ensures var b := TrackOf(turns, i, d).base; Drawable(d.entity, b) || b == InitialNative(d.entity)
  {
    if i > 0 {
      BaseFits(turns, i - 1, d);
      assert LabelFits(turns[i - 1]);
      hide Drawable, ActFits, InitialNative;
    }
  }

  lemma RoomExactly(e: Entity, k: Track)
    requires Drawable(e, k.base) || k.base == InitialNative(e)
    ensures Acceptable(e, Reached(k, e)) <==> k.relative <= Room(e, k.base)
  {
    AcceptableRange(e, Reached(k, e));
    hide Acceptable;
    if e != AirConditioner {
      var q := Room(e, k.base);
      assert k.relative <= q <==> 10 * k.relative <= 100 - k.base;
    }
  }

  /** The planner accepts every value a generated trajectory labels, exactly while no device has had more relative turns
      since its last set value than the range of its capability leaves steps. */
  lemma {:induction false} GoldAcceptedExactly(split: Split, profile: Profile, stream: nat -> Draw, length: nat,
                                               opens: bool, i: nat, d: Device)
    requires i <= Length(length)
    ensures var turns := Trajectory(split, profile, stream, length, opens);
            && |turns| == Length(length)
            && var k := TrackOf(turns, i, d);
               && Holds(StateBefore(InitialHome(), turns, i), d, Reached(k, d.entity))
               && (Acceptable(d.entity, Reached(k, d.entity)) <==> k.relative <= Room(d.entity, k.base))
  {
    hide *;
    EveryTrajectorySound(split, profile, stream, length, opens);
    TrajectoryFits(split, profile, stream, length, opens);
    var turns := Trajectory(split, profile, stream, length, opens);
    ValueFollowsLabels(split, profile, turns, i, d);
    BaseFits(turns, i, d);
    RoomExactly(d.entity, TrackOf(turns, i, d));
  }

  // ---------- a run that leaves the range ----------

  predicate IsRelative(t: Turn, f: Device) {
    t.decision == Execute(PatchRelative(NativeSlot(f.entity), Delta(f.entity)), One(f))
  }

  /** While only relative families are drawn, every turn steps the focused device. */
  lemma {:induction false} OnlyRelative(split: Split, profile: Profile, stream: nat -> Draw, k: nat, turns: seq<Turn>,
                                        h: Home, f: Device, n: nat)
    requires forall j: nat :: k <= j ==> FamilyOf(stream(j)) == RelativeFamily
    ensures var all := Continue(split, profile, stream, k, turns, h, Some(f), n);
            turns <= all && forall i :: |turns| <= i < |all| ==> IsRelative(all[i], f)
    decreases n - |turns|
  {
    hide *;
    if |turns| < n {
      var d := stream(k);
      ContinueStep(split, profile, stream, k, turns, h, Some(f), n);
      RelativePlan(split, d, f, profile, h);
      var t := TurnOf(h, PlanTurn(split, d, Some(f), RelativeFamily, profile), profile);
      OnlyRelative(split, profile, stream, k + 1, turns + [t], t.goldState, f, n);
      assert turns <= turns + [t];
    } else {
      ContinueUnfolds(split, profile, stream, k, turns, h, Some(f), n);
    }
  }

  lemma RelativePlan(split: Split, d: Draw, f: Device, profile: Profile, h: Home)
    ensures var p := PlanTurn(split, d, Some(f), RelativeFamily, profile);
            p.focus == f && IsRelative(TurnOf(h, p, profile), f)
  {
    hide Pairs, Choose, SurfaceNaming, Perform, Difference, Annotated, NativeSlot, Delta;
  }

  lemma PassOfOne(split: Split, profile: Profile, h: Home, focus: Option<Device>, d: Draw)
    ensures Pass(split, profile, h, focus, d, false)
       == [TurnOf(h, PlanTurn(split, d, focus, FamilyOf(d), profile), profile)]
  {
    hide PlanTurn, TurnOf, FamilyOf;
  }

  lemma {:induction false} RelativeTrack(turns: seq<Turn>, i: nat, f: Device)
    requires 1 <= i <= |turns| && forall j :: 1 <= j < |turns| ==> IsRelative(turns[j], f)
    ensures TrackOf(turns, i, f) == Track(TrackOf(turns, 1, f).base, TrackOf(turns, 1, f).relative + i - 1)
  {
    if i > 1 {
      RelativeTrack(turns, i - 1, f);
      assert IsRelative(turns[i - 1], f);
      assert f in GoldTargets(One(f));
      hide NativeSlot, Delta;
    }
  }

  const LAMP := Device(Study, Light)

  /** The study lamp is set to 80 first, and every later turn is relative. */
  function Brighter(k: nat): Draw {
    Draw(if k == 0 then 0 else 2, 0, 1, 0, 3, false, 0, false, false)
  }

  lemma FirstSetsLamp(profile: Profile, h: Home)
    ensures FamilyOf(Brighter(0)) == SlotFamily
    ensures var p := PlanTurn(Train, Brighter(0), None, SlotFamily, profile);
            p.focus == LAMP && TurnOf(h, p, profile).decision == Execute(PatchSlot(Brightness, Num(80)), One(LAMP))
  {
    hide Perform, Difference, Annotated;
    var ps := Pairs(Train);
    assert Choose(ps, 1) == ps[1] == LAMP;
  }

  /** One pass of the loop that asks no question. */
  lemma ContinueStep(split: Split, profile: Profile, stream: nat -> Draw, k: nat, turns: seq<Turn>, h: Home,
                     focus: Option<Device>, n: nat)
    requires |turns| < n && FamilyOf(stream(k)) != MultiFamily
    ensures var p := PlanTurn(split, stream(k), focus, FamilyOf(stream(k)), profile);
            Continue(split, profile, stream, k, turns, h, focus, n)
              == Continue(split, profile, stream, k + 1, turns + [TurnOf(h, p, profile)],
                  TurnOf(h, p, profile).goldState, Some(p.focus), n)
  {
    PassOfOne(split, profile, h, focus, stream(k));
    hide PlanTurn, TurnOf, FamilyOf, Pass;
  }

  lemma LaterRelative()
    ensures forall j: nat :: 1 <= j ==> FamilyOf(Brighter(j)) == RelativeFamily
  {}

  lemma BrighterStarts(profile: Profile)
    ensures Trajectory(Train, profile, Brighter, 0, false)
       == Continue(Train, profile, Brighter, 0, [], InitialHome(), None, 12)
  {
    hide Continue, InitialHome, Brighter;
  }

  lemma {:induction false} BrighterTurns(profile: Profile)
    ensures var turns := Trajectory(Train, profile, Brighter, 0, false);
            && |turns| > 0 && turns[0].decision == Execute(PatchSlot(Brightness, Num(80)), One(LAMP))
            && forall j :: 1 <= j < |turns| ==> IsRelative(turns[j], LAMP)
  {
    hide *;
    var h := InitialHome();
    BrighterStarts(profile);
    FirstSetsLamp(profile, h);
    LaterRelative();
    ContinueStep(Train, profile, Brighter, 0, [], h, None, 12);
    var t := TurnOf(h, PlanTurn(Train, Brighter(0), None, SlotFamily, profile), profile);
    OnlyRelative(Train, profile, Brighter, 1, [] + [t], t.goldState, LAMP, 12);
  }

  lemma {:induction false} LampTrack(turns: seq<Turn>)
    requires |turns| > 0 && turns[0].decision == Execute(PatchSlot(Brightness, Num(80)), One(LAMP))
    ensures TrackOf(turns, 1, LAMP) == Track(80, 0)
  {
    assert LAMP in GoldTargets(One(LAMP));
    assert TrackOf(turns, 1, LAMP) == Follow(TrackOf(turns, 0, LAMP), turns[0], LAMP);
  }

  lemma LampReached(i: nat)
    requires i >= 1
    ensures Reached(Track(80, i - 1), Light) == 70 + 10 * i && LAMP.entity == Light && Length(0) == 12
    ensures Acceptable(Light, 70 + 10 * i) <==> i <= 3
  {
    AcceptableRange(Light, 70 + 10 * i);
    hide Acceptable;
  }

  /** A run that leaves the range: eleven relative turns in a row label the lamp brighter each time, and from the
      fourth turn on with a brightness the planner would refuse. */
  lemma {:induction false} BrightnessDrifts(profile: Profile, i: nat)
    requires 1 <= i <= 12
    ensures var turns := Trajectory(Train, profile, Brighter, 0, false);
            && |turns| == 12
            && Holds(StateBefore(InitialHome(), turns, i), LAMP, 70 + 10 * i)
            && (Acceptable(Light, 70 + 10 * i) <==> i <= 3)
  {
    hide *;
    var turns := Trajectory(Train, profile, Brighter, 0, false);
    LampReached(i);
    GoldAcceptedExactly(Train, profile, Brighter, 0, false, i, LAMP);
    BrighterTurns(profile);
    RelativeTrack(turns, i, LAMP);
    LampTrack(turns);
  }
}
