/** The long-trajectory generator: turns with gold labels, drawn at random over a home that each turn mutates. */
module BenchmarkGenerator {
  import opened Sorting
  import opened Wrappers
  import opened HomeState

  datatype Split = Train | Dev | Sealed
  datatype Profile = Legacy | ExistingDevicePower

  datatype Family = SlotFamily | PowerFamily | RelativeFamily | CorrectionFamily | MultiFamily

  /** The random draws of one pass of the loop; `rng.choice(xs)` is `xs[draw % len(xs)]`. */
  datatype Draw = Draw(family: nat, entity: nat, first: nat, second: nat, value: nat, on: bool, wrong: nat,
      alias: bool, follow: bool)

  // ---------- labelled turns ----------

  datatype Label = PatchSlot(slot: Slot, value: Value) | PatchRelative(relative: Slot,
      delta: int) | AddDevice(slots: map<Slot, Value>) | CloseDevice
  datatype Gold = One(target: Device) | Several(targets: seq<Device>)
  datatype Basis = NoPriorFocus | MultiReferentSet
  datatype Decision = Execute(act: Label, gold: Gold) | Clarify(basis: Basis)

  datatype Scenario = DirectSlot | DirectPower | RelativeCoreference | ExplicitCorrection | MultiTarget
                    | AmbiguousClarify
  datatype Naming = Canonical | NonStandardAlias | NotMentioned | NotApplicable
  datatype Shape = SingleIntent | MultiIntent | OmittedAttribute | UnderspecifiedTarget

  /** `hint` is the turn's `context_hint`, `wrong` its `counterfactual_from`, `marks` its robustness annotation. */
  datatype Turn = Turn(scenario: Scenario, hint: Option<Device>, decision: Decision, wrong: Option<Device>,
                       writeSet: seq<Path>, goldState: Home, marks: Option<(Naming, Shape)>)

  function GoldTargets(g: Gold): seq<Device> {
    match g case One(t) => [t] case Several(ts) => ts
  }

  // ---------- what a label means ----------

  function SetSlot(h: Home, t: Device, s: Slot, v: Value): Home {
    if t in h then h[t := h[t][s := v]] else h
  }

  function ApplyAt(h: Home, act: Label, t: Device): Home {
    match act
    case PatchSlot(s, v) => SetSlot(h, t, s, v)
    case PatchRelative(s, delta) =>
      var now := Read(h, Path(t, s));
      if now.Some? && now.value.Num? then SetSlot(h, t, s, Num(now.value.n + delta)) else h
    case AddDevice(slots) => if t in h then h[t := h[t] + slots] else h
    case CloseDevice => SetSlot(h, t, Power, Switch(false))
  }

  function ApplyAll(h: Home, act: Label, ts: seq<Device>): Home {
    if ts == [] then h else ApplyAll(ApplyAt(h, act, ts[0]), act, ts[1..])
  }

  /** The effect a gold label promises, independently of how the generator mutates its state. */
  function Perform(h: Home, d: Decision): Home {
    match d case Execute(act, gold) => ApplyAll(h, act, GoldTargets(gold)) case Clarify(_) => h
  }

  // ---------- tables ----------

  /** `PAIR_ALLOW`, sorted. */
  function Pairs(split: Split): seq<Device> {
    match split
    case Train => [Device(MasterBedroom, AirConditioner), Device(Study, Light), Device(LivingRoom, AirConditioner),
                   Device(LivingRoom, Window), Device(SecondBedroom, Light), Device(SecondBedroom, Window)]
    case Dev => [Device(MasterBedroom, Light), Device(MasterBedroom, Window), Device(Study, AirConditioner),
                 Device(Study, Window), Device(LivingRoom, Light), Device(SecondBedroom, AirConditioner)]
    case Sealed => [Device(MasterBedroom, Light), Device(Study, AirConditioner), Device(Study, Window),
                    Device(LivingRoom, AirConditioner), Device(LivingRoom, Window), Device(SecondBedroom, Light)]
  }

  function PairsOf(split: Split, e: Entity): seq<Device> {
    Filter(Pairs(split), (p: Device) => p.entity == e)
  }

  function Choose<T>(xs: seq<T>, n: nat): T
    requires xs != []
  {
    xs[n % |xs|]
  }

  function Drop<T>(xs: seq<T>, i: nat): seq<T>
    requires i < |xs|
  {
    xs[..i] + xs[i + 1..]
  }

  /** The value drawn by `slot_spec`. */
  function DrawnValue(e: Entity, n: nat): int {
    if e == AirConditioner then 18 + n % 11 else 20 * (n % 4 + 1)
  }

  function Delta(e: Entity): int {
    if e == AirConditioner then -1 else 10
  }

  function OtherRooms(r: Room): seq<Room> {
    Filter(Rooms(), (x: Room) => x != r)
  }

  function FamilyOf(d: Draw): Family {
    match d.family % 5
    case 0 => SlotFamily
    case 1 => PowerFamily
    case 2 => RelativeFamily
    case 3 => CorrectionFamily
    case _ => MultiFamily
  }

  function SurfaceNaming(split: Split, profile: Profile, d: Draw): Naming {
    if profile == Legacy || split == Train then Canonical else if d.alias then NonStandardAlias else Canonical
  }

  function ShapeOf(s: Scenario): Shape {
    match s
    case MultiTarget => MultiIntent
    case RelativeCoreference => OmittedAttribute
    case AmbiguousClarify => UnderspecifiedTarget
    case _ => SingleIntent
  }

  function Annotated(n: Naming, s: Scenario, profile: Profile): Option<(Naming, Shape)> {
    if profile == Legacy then None else Some((n, ShapeOf(s)))
  }

  // ---------- facts about the tables ----------

  lemma FilterOfSix<T>(xs: seq<T>, p: T -> bool)
    requires |xs| == 6
    ensures var f := (x: T) => if p(x) then [x] else [];
            Filter(xs, p) == f(xs[0]) + f(xs[1]) + f(xs[2]) + f(xs[3]) + f(xs[4]) + f(xs[5])
  {
    assert xs[..5][..4] == xs[..4] && xs[..4][..3] == xs[..3] && xs[..3][..2] == xs[..2] && xs[..2][..1] == xs[..1]
        && xs[..1][..0] == [];
    assert Filter(xs[..1], p) == if p(xs[0]) then [xs[0]] else [];
    assert Filter(xs[..3], p) == Filter(xs[..2], p) + if p(xs[2]) then [xs[2]] else [];
    assert Filter(xs[..4], p) == Filter(xs[..3], p) + if p(xs[3]) then [xs[3]] else [];
    assert Filter(xs[..5], p) == Filter(xs[..4], p) + if p(xs[4]) then [xs[4]] else [];
  }

  lemma PairOfMembers(split: Split, e: Entity, i: nat)
    requires i < |PairsOf(split, e)|
    ensures PairsOf(split, e)[i].entity == e && PairsOf(split, e)[i] in Pairs(split)
  {
    hide Pairs;
    FilterMembers(Pairs(split), (p: Device) => p.entity == e);
    assert PairsOf(split, e)[i] in PairsOf(split, e);
  }

  lemma TrainPairs(e: Entity)
    ensures var ps := PairsOf(Train, e); |ps| == 2 && ps[0] != ps[1]
  {
    FilterOfSix(Pairs(Train), (p: Device) => p.entity == e);
    hide Filter;
  }

  lemma DevPairs(e: Entity)
    ensures var ps := PairsOf(Dev, e); |ps| == 2 && ps[0] != ps[1]
  {
    FilterOfSix(Pairs(Dev), (p: Device) => p.entity == e);
    hide Filter;
  }

  lemma SealedPairs(e: Entity)
    ensures var ps := PairsOf(Sealed, e); |ps| == 2 && ps[0] != ps[1]
  {
    FilterOfSix(Pairs(Sealed), (p: Device) => p.entity == e);
    hide Filter;
  }

  /** Every split allows exactly two rooms per entity, so the two-target family never falls back to a single slot. */
  lemma {:induction false} TwoRoomsPerEntity(split: Split, e: Entity)
    ensures var ps := PairsOf(split, e);
            |ps| == 2 && ps[0] != ps[1] && ps[0].entity == ps[1].entity == e && ps[0] in Pairs(split)
                && ps[1] in Pairs(split)
  {
    hide PairsOf, Pairs;
    match split {
      case Train => TrainPairs(e);
      case Dev => DevPairs(e);
      case Sealed => SealedPairs(e);
    }
    PairOfMembers(split, e, 0);
    PairOfMembers(split, e, 1);
  }

  lemma OtherRoom(r: Room, n: nat)
    ensures OtherRooms(r) != [] && Choose(OtherRooms(r), n) != r
  {
    FilterMembers(Rooms(), (x: Room) => x != r);
    var other := if r == LivingRoom then Study else LivingRoom;
    assert other in Rooms() by { Enumerated(other, Light, Power); }
    assert other in OtherRooms(r);
    assert Choose(OtherRooms(r), n) in OtherRooms(r);
  }

  lemma ChosenPair(split: Split, n: nat)
    ensures Pairs(split) != [] && Choose(Pairs(split), n) in Pairs(split)
  {
  }

  // ---------- one turn ----------

  /** What the draws of one turn decide, before the home is touched. */
  datatype Plan = Plan(scenario: Scenario, hint: Option<Device>, act: Label, gold: Gold, wrong: Option<Device>,
      naming: Naming, focus: Device)

  function PlanMulti(split: Split, d: Draw, naming: Naming): Plan
    requires |PairsOf(split, Choose(DeclaredEntities(), d.entity))| >= 2
  {
    var e := Choose(DeclaredEntities(), d.entity);
    var ps := PairsOf(split, e);
    var i := d.first % |ps|;
    var other := Choose(Drop(ps, i), d.second);
    Plan(MultiTarget, None, PatchSlot(NativeSlot(e), Num(DrawnValue(e, d.value))), Several([ps[i], other]), None,
        naming, other)
  }

  function PlanSingle(t: Device, d: Draw, focus: Option<Device>, family: Family, profile: Profile,
                      naming: Naming): Plan {
    var drawn := PatchSlot(NativeSlot(t.entity), Num(DrawnValue(t.entity, d.value)));
    if family == PowerFamily then
      var act := if !d.on then CloseDevice else if profile == Legacy then AddDevice(map[Power := Switch(true)])
          else PatchSlot(Power, Switch(true));
      Plan(DirectPower, Some(t), act, One(t), None, naming, t)
    else if family == RelativeFamily && focus.Some? then
      var f := focus.value;
      Plan(RelativeCoreference, Some(f), PatchRelative(NativeSlot(f.entity), Delta(f.entity)), One(f), None,
          NotMentioned, f)
    else if family == CorrectionFamily then
      OtherRoom(t.room, d.wrong);
      var wrong := Device(Choose(OtherRooms(t.room), d.wrong), t.entity);
      Plan(ExplicitCorrection, Some(wrong), drawn, One(t), Some(wrong), naming, t)
    else Plan(DirectSlot, Some(t), drawn, One(t), None, naming, t)
  }

  function PlanTurn(split: Split, d: Draw, focus: Option<Device>, family: Family, profile: Profile): Plan {
    var naming := SurfaceNaming(split, profile, d);
    if family == MultiFamily
        && |PairsOf(split, Choose(DeclaredEntities(), d.entity))| >= 2 then PlanMulti(split, d, naming)
    else
      ChosenPair(split, d.first);
      PlanSingle(Choose(Pairs(split), d.first), d, focus, family, profile, naming)
  }

  /** The labelled turn of a plan carried out on a home. */
  function TurnOf(h: Home, p: Plan, profile: Profile): Turn {
    var decision := Execute(p.act, p.gold);
    var after := Perform(h, decision);
    Turn(p.scenario, p.hint, decision, p.wrong, Difference(h, after), after, Annotated(p.naming, p.scenario, profile))
  }

  function ClarifyTurn(h: Home, basis: Basis, profile: Profile): Turn {
    Turn(AmbiguousClarify, None, Clarify(basis), None, [], h, Annotated(NotApplicable, AmbiguousClarify, profile))
  }

  // ---------- labels keep the home well formed ----------

  predicate Fits(t: Device, s: Slot, v: Value) {
    (s == Power && v.Switch?) || (s == NativeSlot(t.entity) && v.Num?)
  }

  lemma SetSlotKeeps(h: Home, t: Device, s: Slot, v: Value)
    requires WellFormed(h) && Fits(t, s, v)
    ensures WellFormed(SetSlot(h, t, s, v))
  {
    var h' := SetSlot(h, t, s, v);
    assert DeviceOk(h, t) && NativeSlot(t.entity) != Power;
    assert h[t][s := v].Keys == h[t].Keys;
    hide NativeSlot;
    forall d: Device ensures DeviceOk(h', d) { assert DeviceOk(h, d); }
  }

  predicate ActFits(act: Label, t: Device) {
    match act
    case PatchSlot(s, v) => Fits(t, s, v)
    case PatchRelative(s, _) => s == NativeSlot(t.entity)
    case AddDevice(slots) => slots == map[Power := Switch(true)]
    case CloseDevice => true
  }

  lemma NativeIsNumber(h: Home, t: Device)
    requires WellFormed(h)
    ensures t in h && var now := Read(h, Path(t, NativeSlot(t.entity))); now.Some? && now.value.Num?
  {
    assert DeviceOk(h, t);
    hide NativeSlot;
  }

  lemma ApplyKeeps(h: Home, act: Label, t: Device)
    requires WellFormed(h) && ActFits(act, t)
    ensures WellFormed(ApplyAt(h, act, t))
  {
    NativeIsNumber(h, t);
    hide WellFormed, NativeSlot, Read;
    match act
    case PatchSlot(s, v) => SetSlotKeeps(h, t, s, v);
    case PatchRelative(s, delta) => SetSlotKeeps(h, t, s, Num(Read(h, Path(t, s)).value.n + delta));
    case AddDevice(slots) =>
      SetSlotKeeps(h, t, Power, Switch(true));
      AddIsSet(h, t);
    case CloseDevice => SetSlotKeeps(h, t, Power, Switch(false));
  }

  lemma ApplyOne(h: Home, act: Label, t: Device)
    ensures Perform(h, Execute(act, One(t))) == ApplyAt(h, act, t)
  {
    hide ApplyAt;
    var ts := [t];
    assert GoldTargets(One(t)) == ts && ts[1..] == [];
    assert ApplyAll(h, act, ts) == ApplyAll(ApplyAt(h, act, t), act, ts[1..]);
  }

  lemma ApplyTwo(h: Home, act: Label, t: Device, u: Device)
    ensures Perform(h, Execute(act, Several([t, u]))) == ApplyAt(ApplyAt(h, act, t), act, u)
  {
    hide ApplyAt;
    var ts := [t, u];
    assert GoldTargets(Several(ts)) == ts && ts[1..] == [u];
    var h' := ApplyAt(h, act, t);
    assert ApplyAll(h, act, ts) == ApplyAll(h', act, ts[1..]);
    ApplyOne(h', act, u);
  }

  /** Every planned act fits its targets, which lie in the split's allowed pairs or repeat the focus. */
  ghost predicate PlanOk(split: Split, p: Plan, focus: Option<Device>) {
    && (match p.gold case One(t) => true case Several(ts) => |ts| == 2 && ts[0] != ts[1] && ts[1] == p.focus)
    && (forall t :: t in GoldTargets(p.gold) ==> ActFits(p.act, t) && (t in Pairs(split) || focus == Some(t)))
    && p.focus in GoldTargets(p.gold)
  }

  lemma PairDraw<T>(ps: seq<T>, n: nat, m: nat)
    requires |ps| == 2
    ensures 0 <= n % 2 <= 1 && Choose(Drop(ps, n % 2), m) == ps[1 - n % 2]
  {
    assert Drop(ps, n % 2) == [ps[1 - n % 2]];
    assert m % 1 == 0;
  }

  lemma {:induction false} PlanOkTwo(split: Split, p: Plan, a: Device, b: Device, focus: Option<Device>)
    requires p.gold == Several([a, b]) && p.focus == b && a != b
    requires ActFits(p.act, a) && ActFits(p.act, b) && a in Pairs(split) && b in Pairs(split)
    ensures PlanOk(split, p, focus)
  {
    hide ActFits, Pairs;
    var ts := [a, b];
    assert GoldTargets(p.gold) == ts && ts[1] == b;
    assert b in ts;
  }

  lemma {:induction false} PlanMultiOk(split: Split, d: Draw, naming: Naming, focus: Option<Device>)
    requires |PairsOf(split, Choose(DeclaredEntities(), d.entity))| >= 2
    ensures PlanOk(split, PlanMulti(split, d, naming), focus)
  {
    var e := Choose(DeclaredEntities(), d.entity);
    TwoRoomsPerEntity(split, e);
    hide DeclaredEntities;
    var ps := PairsOf(split, e);
    PairDraw(ps, d.first, d.second);
    hide PairsOf, Pairs, DrawnValue, Drop, NativeSlot, PlanOk;
    hide Choose;
    var i := d.first % 2;
    PlanOkTwo(split, PlanMulti(split, d, naming), ps[i], ps[1 - i], focus);
  }

  lemma {:induction false} SingleFits(t: Device, d: Draw, focus: Option<Device>, family: Family, profile: Profile,
                                      naming: Naming)
    ensures var p := PlanSingle(t, d, focus, family, profile, naming);
            p.gold == One(p.focus) && ActFits(p.act, p.focus) && (p.focus == t || focus == Some(p.focus))
  {
    hide DrawnValue, NativeSlot, Choose, OtherRooms, Delta;
  }

  lemma PlanSingleOk(split: Split, d: Draw, focus: Option<Device>, family: Family, profile: Profile, naming: Naming)
    ensures var t := Choose(Pairs(split), d.first);
            PlanOk(split, PlanSingle(t, d, focus, family, profile, naming), focus)
  {
    ChosenPair(split, d.first);
    var t := Choose(Pairs(split), d.first);
    hide *;
    SingleFits(t, d, focus, family, profile, naming);
  }

  lemma PlanTurnOk(split: Split, d: Draw, focus: Option<Device>, family: Family, profile: Profile)
    ensures PlanOk(split, PlanTurn(split, d, focus, family, profile), focus)
  {
    var naming := SurfaceNaming(split, profile, d);
    PlanSingleOk(split, d, focus, family, profile, naming);
    hide PlanOk, PlanSingle, PlanMulti, Pairs, PairsOf, SurfaceNaming;
    if |PairsOf(split, Choose(DeclaredEntities(), d.entity))| >= 2 { PlanMultiOk(split, d, naming, focus); }
  }

  lemma PerformKeeps(split: Split, h: Home, p: Plan, focus: Option<Device>)
    requires WellFormed(h) && PlanOk(split, p, focus)
    ensures WellFormed(Perform(h, Execute(p.act, p.gold)))
  {
    hide WellFormed, ApplyAt, ActFits, Pairs;
    match p.gold
    case One(t) =>
      assert t in GoldTargets(p.gold);
      ApplyOne(h, p.act, t);
      ApplyKeeps(h, p.act, t);
    case Several(ts) =>
      assert ts == [ts[0], ts[1]];
      ApplyTwo(h, p.act, ts[0], ts[1]);
      ApplyKeeps(h, p.act, ts[0]);
      ApplyKeeps(ApplyAt(h, p.act, ts[0]), p.act, ts[1]);
  }

  lemma MergeOne(m: map<Slot, Value>, s: Slot, v: Value)
    ensures m + map[s := v] == m[s := v]
  {
  }

  lemma AddIsSet(h: Home, t: Device)
    ensures ApplyAt(h, AddDevice(map[Power := Switch(true)]), t) == SetSlot(h, t, Power, Switch(true))
  {
    if t in h { MergeOne(h[t], Power, Switch(true)); }
  }

  lemma SameDevices(a: Home, b: Home)
    requires WellFormed(a) && WellFormed(b)
    ensures a.Keys == b.Keys
  {
    forall d: Device ensures d in a && d in b { assert DeviceOk(a, d) && DeviceOk(b, d); }
  }

  // ---------- what each family does to the home ----------

  /** One cell holds this value and every other cell reads as before. */
  ghost predicate OnlyCell(h: Home, after: Home, d: Device, s: Slot, v: Value) {
    Read(after, Path(d, s)) == Some(v) && forall p :: p != Path(d, s) ==> Read(after, p) == Read(h, p)
  }

  lemma SetsOneCell(h: Home, t: Device, s: Slot, v: Value)
    requires t in h
    ensures OnlyCell(h, SetSlot(h, t, s, v), t, s, v)
  {}

  /** The drawn turn says and does one thing to one device. */
  ghost predicate ActsOn(t: Turn, scenario: Scenario, x: Device, h: Home, s: Slot, v: Value) {
    t.scenario == scenario && t.decision.Execute? && t.decision.gold == One(x) && OnlyCell(h, t.goldState, x, s, v)
  }

  function Number(h: Home, p: Path): int {
    var v := Read(h, p); if v.Some? && v.value.Num? then v.value.n else 0
  }

  /** The turn steps the native slot of the device down by one for an air conditioner, up by ten for any other. */
  ghost predicate Steps(t: Turn, f: Device, h: Home) {
    var own := Path(f, NativeSlot(f.entity));
    ActsOn(t, RelativeCoreference, f, h, own.slot, Num(Number(h, own) + if f.entity == AirConditioner then -1 else 10))
  }

  /** A power request switches the drawn device as drawn; only the older profile labels switching on as an addition. */
  lemma {:induction false} PowerMeans(h: Home, t: Device, d: Draw, focus: Option<Device>, profile: Profile,
                                      naming: Naming)
    requires WellFormed(h)
    ensures var turn := TurnOf(h, PlanSingle(t, d, focus, PowerFamily, profile, naming), profile);
            && ActsOn(turn, DirectPower, t, h, Power, Switch(d.on)) && turn.hint == Some(t)
            && (turn.decision.act == CloseDevice <==> !d.on)
            && (turn.decision.act.AddDevice? <==> d.on && profile == Legacy)
  {
    var p := PlanSingle(t, d, focus, PowerFamily, profile, naming);
    assert DeviceOk(h, t);
    ApplyOne(h, p.act, t);
    AddIsSet(h, t);
    SetsOneCell(h, t, Power, Switch(d.on));
    hide OnlyCell, Perform, Difference, WellFormed, SetSlot, Annotated;
  }

  /** A relative request steps the focus, whatever device was drawn. */
  lemma {:induction false} RelativeMeans(h: Home, t: Device, d: Draw, f: Device, profile: Profile, naming: Naming)
    requires WellFormed(h)
    ensures var turn := TurnOf(h, PlanSingle(t, d, Some(f), RelativeFamily, profile, naming), profile);
            && Steps(turn, f, h) && turn.hint == Some(f) && (turn.marks.Some? ==> turn.marks.value.0 == NotMentioned)
  {
    var p := PlanSingle(t, d, Some(f), RelativeFamily, profile, naming);
    var own := Path(f, NativeSlot(f.entity));
    NativeIsNumber(h, f);
    ApplyOne(h, p.act, f);
    SetsOneCell(h, f, own.slot, Num(Number(h, own) + Delta(f.entity)));
    hide OnlyCell, Perform, Difference, WellFormed, SetSlot, Read, NativeSlot;
  }

  /** A correction sets the drawn value for the drawn device, and hints at the same kind of device in another room; a
      slot request, which a relative request without a focus is too, hints at the device itself. */
  lemma {:induction false} ValueMeans(h: Home, t: Device, d: Draw, focus: Option<Device>, family: Family,
                                      profile: Profile, naming: Naming)
    requires WellFormed(h)
    requires family.SlotFamily? || family.CorrectionFamily? || (family.RelativeFamily? && focus.None?)
    ensures var turn := TurnOf(h, PlanSingle(t, d, focus, family, profile, naming), profile);
            && ActsOn(turn, if family.CorrectionFamily? then ExplicitCorrection else DirectSlot, t, h,
                      NativeSlot(t.entity), Num(DrawnValue(t.entity, d.value)))
            && (family.CorrectionFamily?
                ==> turn.wrong.Some? && turn.hint == turn.wrong && turn.wrong.value.entity == t.entity
                    && turn.wrong.value.room != t.room)
            && (!family.CorrectionFamily? ==> turn.wrong == None && turn.hint == Some(t))
  {
    var p := PlanSingle(t, d, focus, family, profile, naming);
    OtherRoom(t.room, d.wrong);
    assert DeviceOk(h, t);
    ApplyOne(h, p.act, t);
    SetsOneCell(h, t, NativeSlot(t.entity), Num(DrawnValue(t.entity, d.value)));
    hide OnlyCell, Perform, Difference, WellFormed, SetSlot, DrawnValue, NativeSlot, Annotated, Choose, OtherRooms;
  }

  /** A two-target request sets one drawn value for two devices of one kind in different rooms, and for nothing else. */
  lemma {:induction false} MultiMeans(split: Split, h: Home, d: Draw, profile: Profile, naming: Naming)
    requires WellFormed(h) && |PairsOf(split, Choose(DeclaredEntities(), d.entity))| >= 2
    ensures var p := PlanMulti(split, d, naming); var turn := TurnOf(h, p, profile);
            && turn.scenario == MultiTarget && turn.hint == None && turn.decision.Execute? && p.gold.Several?
            && turn.decision.gold == p.gold && |p.gold.targets| == 2
            && SetsBoth(h, turn.goldState, p.gold.targets[0], p.gold.targets[1], d.value)
            && p.focus == p.gold.targets[1]
  {
    var e := Choose(DeclaredEntities(), d.entity);
    var ps := PairsOf(split, e);
    TwoRoomsPerEntity(split, e);
    PairDraw(ps, d.first, d.second);
    hide PairsOf, Pairs, DrawnValue, NativeSlot, WellFormed, SetsBoth, ApplyAt, Perform, Difference, Choose, Drop;
    var a, b := ps[d.first % 2], ps[1 - d.first % 2];
    ApplyTwo(h, PatchSlot(NativeSlot(e), Num(DrawnValue(e, d.value))), a, b);
    BothSet(h, a, b, d.value);
  }

  ghost predicate SetsBoth(h: Home, after: Home, a: Device, b: Device, draw: nat) {
    var s, v := NativeSlot(a.entity), Some(Num(DrawnValue(a.entity, draw)));
    && a.entity == b.entity && a.room != b.room && Read(after, Path(a, s)) == v && Read(after, Path(b, s)) == v
    && forall p :: p != Path(a, s) && p != Path(b, s) ==> Read(after, p) == Read(h, p)
  }

  lemma {:induction false} BothSet(h: Home, a: Device, b: Device, draw: nat)
    requires WellFormed(h) && a != b && a.entity == b.entity
    ensures var act := PatchSlot(NativeSlot(a.entity), Num(DrawnValue(a.entity, draw)));
            SetsBoth(h, ApplyAt(ApplyAt(h, act, a), act, b), a, b, draw)
  {
    var s, v := NativeSlot(a.entity), Num(DrawnValue(a.entity, draw));
    assert DeviceOk(h, a) && DeviceOk(h, b);
    SetsOneCell(h, a, s, v);
    SetsOneCell(SetSlot(h, a, s, v), b, s, v);
    hide WellFormed, DrawnValue, NativeSlot, Read;
  }

  /** Which cells the turn changes and to what, by its family; `x` is the drawn device. */
  ghost predicate MeansFamily(turn: Turn, x: Device, h: Home, d: Draw, focus: Option<Device>, family: Family) {
    match family
    case PowerFamily => ActsOn(turn, DirectPower, x, h, Power, Switch(d.on))
    case RelativeFamily =>
      if focus.Some? then Steps(turn, focus.value, h)
      else ActsOn(turn, DirectSlot, x, h, NativeSlot(x.entity), Num(DrawnValue(x.entity, d.value)))
    case CorrectionFamily =>
      ActsOn(turn, ExplicitCorrection, x, h, NativeSlot(x.entity), Num(DrawnValue(x.entity, d.value)))
    case SlotFamily => ActsOn(turn, DirectSlot, x, h, NativeSlot(x.entity), Num(DrawnValue(x.entity, d.value)))
    case MultiFamily =>
      && turn.scenario == MultiTarget && turn.decision.Execute? && turn.decision.gold.Several?
      && |turn.decision.gold.targets| == 2
      && SetsBoth(h, turn.goldState, turn.decision.gold.targets[0], turn.decision.gold.targets[1], d.value)
  }

  lemma PlanTurnIs(split: Split, d: Draw, focus: Option<Device>, family: Family, profile: Profile)
    ensures Pairs(split) != []
    ensures var e, naming := Choose(DeclaredEntities(), d.entity), SurfaceNaming(split, profile, d);
            && |PairsOf(split, e)| >= 2
            && PlanTurn(split, d, focus, family, profile)
                 == if family.MultiFamily? then PlanMulti(split, d, naming)
                    else PlanSingle(Choose(Pairs(split), d.first), d, focus, family, profile, naming)
  {
    ChosenPair(split, d.first);
    TwoRoomsPerEntity(split, Choose(DeclaredEntities(), d.entity));
    hide PlanSingle, PlanMulti, Pairs, PairsOf, DeclaredEntities, SurfaceNaming;
  }

  lemma {:induction false} SingleMeans(h: Home, x: Device, d: Draw, focus: Option<Device>, family: Family,
                                       profile: Profile, naming: Naming)
    requires WellFormed(h) && !family.MultiFamily?
    ensures MeansFamily(TurnOf(h, PlanSingle(x, d, focus, family, profile, naming), profile), x, h, d, focus, family)
  {
    hide TurnOf, PlanSingle, ActsOn, SetsBoth, Steps, WellFormed, NativeSlot, DrawnValue;
    match family
    case PowerFamily => PowerMeans(h, x, d, focus, profile, naming);
    case RelativeFamily =>
      if focus.Some? { RelativeMeans(h, x, d, focus.value, profile, naming); }
      else { ValueMeans(h, x, d, focus, family, profile, naming); }
    case CorrectionFamily => ValueMeans(h, x, d, focus, family, profile, naming);
    case SlotFamily => ValueMeans(h, x, d, focus, family, profile, naming);
  }

  /** The turn a draw makes means what its family says, in whatever home. */
  lemma {:induction false} TurnMeans(split: Split, h: Home, d: Draw, focus: Option<Device>, family: Family,
                                     profile: Profile)
    requires WellFormed(h)
    ensures Pairs(split) != []
    ensures var turn := TurnOf(h, PlanTurn(split, d, focus, family, profile), profile);
            MeansFamily(turn, Choose(Pairs(split), d.first), h, d, focus, family)
  {
    hide *;
    PlanTurnIs(split, d, focus, family, profile);
    var naming := SurfaceNaming(split, profile, d);
    if family.MultiFamily? {
      MultiMeans(split, h, d, profile, naming);
      MultiIsMeant(h, PlanMulti(split, d, naming), d, focus, profile, Choose(Pairs(split), d.first));
    } else {
      SingleMeans(h, Choose(Pairs(split), d.first), d, focus, family, profile, naming);
    }
  }

  lemma MultiIsMeant(h: Home, p: Plan, d: Draw, focus: Option<Device>, profile: Profile, x: Device)
    requires var turn := TurnOf(h, p, profile);
             && turn.scenario == MultiTarget && turn.decision.Execute? && turn.decision.gold == p.gold
             && p.gold.Several? && |p.gold.targets| == 2
             && SetsBoth(h, turn.goldState, p.gold.targets[0], p.gold.targets[1], d.value)
    ensures MeansFamily(TurnOf(h, p, profile), x, h, d, focus, MultiFamily)
  {
    hide TurnOf, SetsBoth;
  }

  /** The robustness marks of a drawn turn: none under the older profile; else the device's name is an alias as drawn
      outside training, a relative turn names nothing, and the shape goes with the scenario. */
  lemma {:induction false} MarksMean(split: Split, h: Home, d: Draw, focus: Option<Device>, family: Family,
                                     profile: Profile)
    ensures var turn := TurnOf(h, PlanTurn(split, d, focus, family, profile), profile);
            if profile == Legacy then turn.marks == None
            else
              && turn.marks.Some?
              && (turn.marks.value.0 == NotMentioned <==> turn.scenario == RelativeCoreference)
              && (turn.scenario != RelativeCoreference
                  ==> turn.marks.value.0 == if split != Train && d.alias then NonStandardAlias else Canonical)
              && (turn.marks.value.1 == MultiIntent <==> turn.scenario == MultiTarget)
              && (turn.marks.value.1 == OmittedAttribute <==> turn.scenario == RelativeCoreference)
              && turn.marks.value.1 != UnderspecifiedTarget
  {
    PlanTurnIs(split, d, focus, family, profile);
    hide Perform, Difference, Pairs, PairsOf, Choose, DrawnValue, NativeSlot, OtherRooms, Delta, DeclaredEntities, Drop,
         PlanTurn;
  }

  // ---------- the generator's own state ----------

  /** The `state` dictionary the generator mutates turn by turn. */
  class House {
    var state: Home

    constructor ()
      ensures state == InitialHome()
    {
      state := InitialHome();
    }

    /** `state[key]["slots"][slot] = value`. */
    method Set(t: Device, s: Slot, v: Value)
      requires WellFormed(state) && Fits(t, s, v)
      modifies this
      ensures state == SetSlot(old(state), t, s, v) && WellFormed(state)
    {
      SetSlotKeeps(state, t, s, v);
      assert DeviceOk(state, t);
      state := state[t := state[t][s := v]];
    }

    /** The end of a turn: the changed paths and a snapshot of the new state. */
    method Close(before: Home, scenario: Scenario, hint: Option<Device>, decision: Decision, wrong: Option<Device>,
                 naming: Naming, profile: Profile)
      returns (turn: Turn)
      requires WellFormed(before) && WellFormed(state)
      ensures turn
         == Turn(scenario, hint, decision, wrong, Difference(before, state), state,
             Annotated(naming, scenario, profile))
    {
      SameDevices(before, state);
      ComparisonsAgree(before, state);
      hide *;
      var paths := ChangedPaths(before, state);
      turn := Turn(scenario, hint, decision, wrong, paths, state, Annotated(naming, scenario, profile));
    }

    /** The branch of a two-target family. */
    method MakeMulti(split: Split, d: Draw, profile: Profile) returns (turn: Turn, next: Device)
      requires WellFormed(state) && |PairsOf(split, Choose(DeclaredEntities(), d.entity))| >= 2
      modifies this
      ensures turn == TurnOf(old(state), PlanMulti(split, d, SurfaceNaming(split, profile, d)), profile)
      ensures next == PlanMulti(split, d, SurfaceNaming(split, profile, d)).focus
      ensures state == turn.goldState && WellFormed(state)
    {
      hide PairsOf, Pairs, DrawnValue, NativeSlot, WellFormed, SetSlot, SurfaceNaming, ApplyAll, Perform, Difference,
           Annotated;
      var before := state;
      var e := Choose(DeclaredEntities(), d.entity);
      var ps := PairsOf(split, e);
      TwoRoomsPerEntity(split, e);
      var i := d.first % |ps|;
      PairDraw(ps, d.first, d.second);
      var r, r2 := ps[i], Choose(Drop(ps, i), d.second);
      var slot, v := NativeSlot(e), Num(DrawnValue(e, d.value));
      hide Choose, DeclaredEntities, Drop;
      Set(r, slot, v);
      Set(r2, slot, v);
      var decision := Execute(PatchSlot(slot, v), Several([r, r2]));
      ApplyTwo(before, decision.act, r, r2);
      turn := Close(before, MultiTarget, None, decision, None, SurfaceNaming(split, profile, d), profile);
      next := r2;
    }

    /** The branches with one target; `state[key]["slots"]` is edited in place. */
    method MakeSingle(t: Device, d: Draw, focus: Option<Device>, family: Family, profile: Profile, naming: Naming)
      returns (turn: Turn, next: Device)
      requires WellFormed(state)
      modifies this
      ensures turn == TurnOf(old(state), PlanSingle(t, d, focus, family, profile, naming), profile)
      ensures next == PlanSingle(t, d, focus, family, profile, naming).focus
      ensures state == turn.goldState && WellFormed(state)
    {
      var before := state;
      var slot, v := NativeSlot(t.entity), Num(DrawnValue(t.entity, d.value));
      if family == PowerFamily {
        turn, next := MakePower(t, d.on, profile, naming);
      } else if family == RelativeFamily && focus.Some? {
        turn, next := MakeRelative(focus.value, profile);
      } else if family == CorrectionFamily {
        OtherRoom(t.room, d.wrong);
        var wrong := Device(Choose(OtherRooms(t.room), d.wrong), t.entity);
        turn := MakeSlot(t, slot, v, ExplicitCorrection, Some(wrong), Some(wrong), profile, naming);
        next := t;
      } else {
        turn := MakeSlot(t, slot, v, DirectSlot, Some(t), None, profile, naming);
        next := t;
      }
    }

    method MakePower(t: Device, on: bool, profile: Profile, naming: Naming) returns (turn: Turn, next: Device)
      requires WellFormed(state)
      modifies this
      ensures var act := if !on then CloseDevice else if profile == Legacy then AddDevice(map[Power := Switch(true)])
          else PatchSlot(Power, Switch(true));
              turn == TurnOf(old(state), Plan(DirectPower, Some(t), act, One(t), None, naming, t), profile)
      ensures next == t && state == turn.goldState && WellFormed(state)
    {
      var before := state;
      var act := if on && profile == Legacy then AddDevice(map[Power := Switch(true)])
          else if on then PatchSlot(Power, Switch(true)) else CloseDevice;
      AddIsSet(before, t);
      ApplyOne(before, act, t);
      Set(t, Power, Switch(on));
      assert state == Perform(before, Execute(act, One(t)));
      hide Perform, Difference, WellFormed, SetSlot;
      turn := Close(before, DirectPower, Some(t), Execute(act, One(t)), None, naming, profile);
      next := t;
    }

    method MakeRelative(t: Device, profile: Profile) returns (turn: Turn, next: Device)
      requires WellFormed(state)
      modifies this
      ensures var act := PatchRelative(NativeSlot(t.entity), Delta(t.entity));
              turn == TurnOf(old(state), Plan(RelativeCoreference, Some(t), act, One(t), None, NotMentioned, t),
                  profile)
      ensures next == t && state == turn.goldState && WellFormed(state)
    {
      var before := state;
      var slot, delta := Temperature, -1;
      if t.entity == Window { slot, delta := Opening, 10; }
      else if t.entity == AirConditioner { slot, delta := Temperature, -1; }
      else { slot, delta := Brightness, 10; }
      assert slot == NativeSlot(t.entity) && delta == Delta(t.entity);
      var act := PatchRelative(slot, delta);
      assert DeviceOk(state, t);
      Set(t, slot, Num(state[t][slot].n + delta));
      ApplyOne(before, act, t);
      assert state == Perform(before, Execute(act, One(t)));
      hide Perform, Difference, WellFormed, SetSlot;
      turn := Close(before, RelativeCoreference, Some(t), Execute(act, One(t)), None, NotMentioned, profile);
      next := t;
    }

    method MakeSlot(t: Device, slot: Slot, v: Value, scenario: Scenario, hint: Option<Device>, wrong: Option<Device>,
                    profile: Profile, naming: Naming)
      returns (turn: Turn)
      requires WellFormed(state) && Fits(t, slot, v)
      modifies this
      ensures turn == TurnOf(old(state), Plan(scenario, hint, PatchSlot(slot, v), One(t), wrong, naming, t), profile)
      ensures state == turn.goldState && WellFormed(state)
    {
      var before := state;
      var act := PatchSlot(slot, v);
      Set(t, slot, v);
      ApplyOne(before, act, t);
      hide Difference, WellFormed, SetSlot, Fits;
      turn := Close(before, scenario, hint, Execute(act, One(t)), wrong, naming, profile);
    }

    method MakeExecuteTurn(split: Split, d: Draw, focus: Option<Device>, family: Family, profile: Profile)
      returns (turn: Turn, next: Device)
      requires WellFormed(state)
      modifies this
      ensures turn == TurnOf(old(state), PlanTurn(split, d, focus, family, profile), profile)
      ensures next == PlanTurn(split, d, focus, family, profile).focus
      ensures state == turn.goldState && WellFormed(state)
    {
      hide WellFormed, TurnOf, PlanMulti, PlanSingle, SurfaceNaming, PairsOf, Pairs;
      if family == MultiFamily && |PairsOf(split, Choose(DeclaredEntities(), d.entity))| >= 2 {
        turn, next := MakeMulti(split, d, profile);
      } else {
        ChosenPair(split, d.first);
        turn, next := MakeSingle(Choose(Pairs(split), d.first), d, focus, family, profile,
            SurfaceNaming(split, profile, d));
      }
    }
  }
}
