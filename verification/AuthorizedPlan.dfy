/** The device registry and the fail-closed planner: a plan covers every target or nothing. */
module AuthorizedPlan {
  import opened Sorting
  import opened Wrappers
  import opened TargetComposer

  datatype Model = AirConditionerModel | LightGroup | CurtainWindow | OtherModel(id: nat)
  datatype Binding = Binding(area: string, entity: string, inst: string, model: Model)

  function KeyOf(b: Binding): string { Key(b.area, b.entity, b.inst) }

  // ---------- capabilities ----------

  datatype Slot = Power | Temperature | Mode | Brightness | Opening | MotorControl | OtherSlot(id: nat)
  datatype Kind = Bool | Enum | Number(min: real, max: real)

  /** The first capability code of a slot. */
  datatype Code = PowerCode | TargetTemperature | ModeCode | BrightnessCode | OnOff | MotorTargetPosition
                | MotorControlCode
  datatype Capability = Capability(code: Code, kind: Kind)

  function SemanticCapability(m: Model, s: Slot): Option<Capability> {
    match m
    case AirConditionerModel =>
      (match s
       case Power => Some(Capability(PowerCode, Bool))
       case Temperature => Some(Capability(TargetTemperature, Number(16.0, 30.0)))
       case Mode => Some(Capability(ModeCode, Enum))
       case _ => None)
    case LightGroup =>
      (match s
       case Power => Some(Capability(PowerCode, Bool))
       case Brightness => Some(Capability(BrightnessCode, Number(1.0, 100.0)))
       case _ => None)
    case CurtainWindow =>
      (match s
       case Power => Some(Capability(OnOff, Bool))
       case Opening => Some(Capability(MotorTargetPosition, Number(0.0, 100.0)))
       case MotorControl => Some(Capability(MotorControlCode, Enum))
       case _ => None)
    case OtherModel(_) => None
  }

  /** A proposed value; a boolean also counts as the number 0 or 1. */
  datatype Data = Num(r: real) | Flag(on: bool) | Text(t: string)

  function Numeric(v: Data): Option<real> {
    match v case Num(r) => Some(r) case Flag(on) => Some(if on then 1.0 else 0.0) case Text(_) => None
  }

  datatype Reason = MalformedKey | Unbound | UnsupportedSlot | NumericRequired | OutOfRange
  datatype Validation = Valid(code: Code) | Invalid(reason: Reason)

  function ValidateValue(m: Model, s: Slot, v: Data): Validation {
    var c := SemanticCapability(m, s);
    if c.None? then Invalid(UnsupportedSlot)
    else if c.value.kind.Number? then
      if Numeric(v).None? then Invalid(NumericRequired)
      else if Numeric(v).value < c.value.kind.min || Numeric(v).value > c.value.kind.max then Invalid(OutOfRange)
      else Valid(c.value.code)
    else Valid(c.value.code)
  }

  // ---------- the registry ----------

  type Bindings = map<string, Binding>

  /** Bindings are filed under their own keys. */
  ghost predicate Filed(d: Bindings) {
    forall k :: k in d ==> KeyOf(d[k]) == k
  }

  /** `{b.key: b for b in bindings}`: the last binding of a key stays. */
  function FiledAll(bs: seq<Binding>): Bindings {
    if bs == [] then map[] else FiledAll(bs[..|bs| - 1])[KeyOf(bs[|bs| - 1]) := bs[|bs| - 1]]
  }

  lemma {:induction false} FiledAllIsFiled(bs: seq<Binding>)
    ensures Filed(FiledAll(bs))
  {
    if bs != [] { FiledAllIsFiled(bs[..|bs| - 1]); }
  }

  predicate CleanBinding(b: Binding) { Clean(b.area) && Clean(b.entity) && Unsplit(b.inst) }

  /** Two devices whose keys parse back are told apart by them. */
  lemma CleanKeysIdentify(b: Binding, c: Binding)
    requires CleanBinding(b) && CleanBinding(c) && KeyOf(b) == KeyOf(c)
    ensures b.area == c.area && b.entity == c.entity && b.inst == c.inst
  {
    KeyParses(b.area, b.entity, b.inst);
    KeyParses(c.area, c.entity, c.inst);
    hide Split, Key, Clean, Unsplit;
    var x, y := [b.area, b.entity, b.inst], [c.area, c.entity, c.inst];
    assert x[0] == y[0] && x[1] == y[1] && x[2] == y[2];
  }

  /** A trailing colon in the area moves into the entity, so two different devices share a key. */
  lemma TrailingColonCollides()
    ensures Key("a:", "b", "c") == Key("a", ":b", "c")
  {
  }

  predicate Conflicts(d: Bindings, b: Binding) {
    KeyOf(b) in d && d[KeyOf(b)] != b
  }

  predicate SameDevice(b: Binding, c: Binding) {
    b.area == c.area && b.entity == c.entity && b.inst == c.inst
  }

  predicate IdentifyingBinding(b: Binding) { Identifying(b.area, b.entity, b.inst) }

  /** A device is only ever refused for being bound to another model itself, in whatever registry, exactly when its
      parts hold no separator and no colon next to one; otherwise some other device stands in its way. */
  lemma RefusalExactly(b: Binding)
    ensures (forall d: Bindings :: Filed(d) && Conflicts(d, b) ==> SameDevice(d[KeyOf(b)], b))
        <==> IdentifyingBinding(b)
  {
    KeyIdentifiesExactly(b.area, b.entity, b.inst);
    hide Identifying, Key;
    if IdentifyingBinding(b) {
      forall d: Bindings | Filed(d) && Conflicts(d, b) ensures SameDevice(d[KeyOf(b)], b) {
        assert KeyOf(d[KeyOf(b)]) == KeyOf(b);
      }
    } else {
      var x, y, z := OtherReading(b.area, b.entity, b.inst);
      var c := Binding(x, y, z, b.model);
      var d: Bindings := map[KeyOf(c) := c];
      assert Filed(d) && Conflicts(d, b) && !SameDevice(d[KeyOf(b)], b);
    }
  }

  lemma {:induction false} FiledAllHas(bs: seq<Binding>, b: Binding)
    requires b in bs
    ensures KeyOf(b) in FiledAll(bs)
  {
    if bs[|bs| - 1] != b { FiledAllHas(bs[..|bs| - 1], b); }
  }

  /** A registry built from a list holds a device under its key, exactly when its parts hold no separator and no colon
      next to one; otherwise some other device listed after it takes its place. */
  lemma {:induction false} ListingExactly(b: Binding)
    ensures (forall bs :: b in bs ==> KeyOf(b) in FiledAll(bs) && SameDevice(FiledAll(bs)[KeyOf(b)], b))
        <==> IdentifyingBinding(b)
  {
    KeyIdentifiesExactly(b.area, b.entity, b.inst);
    hide Identifying, Key, FiledAll;
    if IdentifyingBinding(b) {
      forall bs | b in bs ensures KeyOf(b) in FiledAll(bs) && SameDevice(FiledAll(bs)[KeyOf(b)], b) {
        FiledAllHas(bs, b);
        FiledAllIsFiled(bs);
        assert KeyOf(FiledAll(bs)[KeyOf(b)]) == KeyOf(b);
      }
    } else {
      var x, y, z := OtherReading(b.area, b.entity, b.inst);
      var c := Binding(x, y, z, b.model);
      var bs := [b, c];
      assert b in bs && FiledAll(bs)[KeyOf(b)] == c by { LastStays([b], c); assert [b] + [c] == bs; }
    }
  }

  lemma LastStays(bs: seq<Binding>, c: Binding)
    ensures KeyOf(c) in FiledAll(bs + [c]) && FiledAll(bs + [c])[KeyOf(c)] == c
  {}

  class DeviceRegistry {
    var bindings: Bindings

    constructor (bs: seq<Binding>)
      ensures bindings == FiledAll(bs) && Filed(bindings)
    {
      var d: Bindings := map[];
      for i := 0 to |bs|
        invariant d == FiledAll(bs[..i])
      {
        assert bs[..i + 1][..i] == bs[..i];
        d := d[KeyOf(bs[i]) := bs[i]];
      }
      assert bs[..|bs|] == bs;
      FiledAllIsFiled(bs);
      bindings := d;
    }

    /** A key already bound to a different device is refused; nothing bound ever changes. */
    method Register(b: Binding) returns (ok: bool)
      requires Filed(bindings)
      modifies this
      ensures ok <==> !Conflicts(old(bindings), b)
      ensures bindings == if ok then old(bindings)[KeyOf(b) := b] else old(bindings)
      ensures Filed(bindings)
      ensures forall k :: k in old(bindings) ==> k in bindings && bindings[k] == old(bindings)[k]
    {
      if KeyOf(b) in bindings && bindings[KeyOf(b)] != b { return false; }
      bindings := bindings[KeyOf(b) := b];
      ok := true;
    }

    method Resolve(area: string, entity: string, inst: string) returns (found: Option<Binding>)
      ensures found == Lookup(bindings, Key(area, entity, inst))
    {
      var k := Key(area, entity, inst);
      found := if k in bindings then Some(bindings[k]) else None;
    }
  }

  function Lookup(d: Bindings, k: string): Option<Binding> {
    if k in d then Some(d[k]) else None
  }

  // ---------- the planner ----------

  datatype Patch = Patch(target: string, model: Model, slot: Slot, code: Code, value: Data)
  datatype Rejection = Rejection(target: string, reason: Reason)
  datatype Verdict = Accept(patch: Patch) | Reject(rejection: Rejection)

  /** What the authorisation binds: its own id, the turn, the exact patches and the registry snapshot. */
  datatype Authorization = Authorization(id: string, turn: Option<string>, patches: seq<Patch>, snapshot: map<string,
      Model>)
  datatype Outcome = Planned(patches: seq<Patch>, authorization: Authorization) | Refused(rejected: seq<Rejection>)

  function Snapshot(d: Bindings): map<string, Model> {
    map k | k in d :: d[k].model
  }

  /** The verdict on one target key. */
  function Judge(d: Bindings, key: string, slot: Slot, value: Data): Verdict {
    var parts := Split(key);
    if |parts| != 3 then Reject(Rejection(key, MalformedKey))
    else
      var found := Lookup(d, Key(parts[0], parts[1], parts[2]));
      if found.None? then Reject(Rejection(key, Unbound))
      else
        var v := ValidateValue(found.value.model, slot, value);
        if v.Invalid? then Reject(Rejection(key, v.reason))
            else Accept(Patch(key, found.value.model, slot, v.code, value))
  }

  function Patches(d: Bindings, keys: seq<string>, slot: Slot, value: Data): seq<Patch> {
    if keys == [] then []
    else
      var n := |keys| - 1;
      var v := Judge(d, keys[n], slot, value);
      Patches(d, keys[..n], slot, value) + if v.Accept? then [v.patch] else []
  }

  function Rejections(d: Bindings, keys: seq<string>, slot: Slot, value: Data): seq<Rejection> {
    if keys == [] then []
    else
      var n := |keys| - 1;
      var v := Judge(d, keys[n], slot, value);
      Rejections(d, keys[..n], slot, value) + if v.Reject? then [v.rejection] else []
  }

  function PlanOf(d: Bindings, keys: seq<string>, slot: Slot, value: Data, id: string, turn: Option<string>): Outcome {
    if Rejections(d, keys, slot, value) != [] then Refused(Rejections(d, keys, slot, value))
    else
      var ps := Patches(d, keys, slot, value);
      Planned(ps, Authorization(id, turn, ps, Snapshot(d)))
  }

  method Plan(registry: DeviceRegistry, keys: seq<string>, slot: Slot, value: Data, id: string, turn: Option<string>)
    returns (r: Outcome)
    ensures r == PlanOf(registry.bindings, keys, slot, value, id, turn)
  {
    hide ValidateValue, Split, Key, Snapshot;
    var patches: seq<Patch>, rejected: seq<Rejection> := [], [];
    for i := 0 to |keys|
      invariant patches == Patches(registry.bindings, keys[..i], slot, value)
      invariant rejected == Rejections(registry.bindings, keys[..i], slot, value)
    {
      assert keys[..i + 1][..i] == keys[..i];
      var parts := Split(keys[i]);
      if |parts| != 3 {
        rejected := rejected + [Rejection(keys[i], MalformedKey)];
        continue;
      }
      var binding := registry.Resolve(parts[0], parts[1], parts[2]);
      if binding.None? {
        rejected := rejected + [Rejection(keys[i], Unbound)];
        continue;
      }
      var validation := ValidateValue(binding.value.model, slot, value);
      if validation.Invalid? {
        rejected := rejected + [Rejection(keys[i], validation.reason)];
        continue;
      }
      patches := patches + [Patch(keys[i], binding.value.model, slot, validation.code, value)];
    }
    assert keys[..|keys|] == keys;
    if rejected != [] { return Refused(rejected); }
    r := Planned(patches, Authorization(id, turn, patches, Snapshot(registry.bindings)));
  }

  // ---------- what a plan guarantees ----------

  ghost predicate AllAccepted(d: Bindings, keys: seq<string>, slot: Slot, value: Data) {
    forall i :: 0 <= i < |keys| ==> Judge(d, keys[i], slot, value).Accept?
  }

  lemma {:induction false} PatchesOfAccepted(d: Bindings, keys: seq<string>, slot: Slot, value: Data)
    requires AllAccepted(d, keys, slot, value)
    ensures Rejections(d, keys, slot, value) == []
    ensures var ps := Patches(d, keys, slot, value);
            |ps| == |keys| && forall i :: 0 <= i < |keys| ==> Judge(d, keys[i], slot, value) == Accept(ps[i])
  {
    hide Judge;
    if keys != [] { PatchesOfAccepted(d, keys[..|keys| - 1], slot, value); }
  }

  lemma {:induction false} RejectionsOf(d: Bindings, keys: seq<string>, slot: Slot, value: Data)
    ensures Rejections(d, keys, slot, value) == [] ==> AllAccepted(d, keys, slot, value)
    ensures forall x :: x in Rejections(d, keys, slot, value)
             ==> exists i :: 0 <= i < |keys| && Judge(d, keys[i], slot, value) == Reject(x)
  {
    hide Judge;
    if keys != [] {
      var n := |keys| - 1;
      RejectionsOf(d, keys[..n], slot, value);
      forall x | x in Rejections(d, keys[..n], slot, value)
        ensures exists i :: 0 <= i < |keys| && Judge(d, keys[i], slot, value) == Reject(x)
      {
        var i :| 0 <= i < n && Judge(d, keys[..n][i], slot, value) == Reject(x);
        assert keys[..n][i] == keys[i];
      }
      assert forall i :: 0 <= i < n ==> keys[..n][i] == keys[i];
    }
  }

  /** All or nothing: a plan holds one patch per target, in order, or no patch and at least one named rejection. */
  lemma AllOrNothing(d: Bindings, keys: seq<string>, slot: Slot, value: Data, id: string, turn: Option<string>)
    ensures var r := PlanOf(d, keys, slot, value, id, turn);
            && (r.Planned? <==> AllAccepted(d, keys, slot, value))
            && (r.Planned? ==> |r.patches| == |keys| && r.authorization.patches == r.patches
                               && forall i :: 0 <= i < |keys|
                                    ==> Judge(d, keys[i], slot, value) == Accept(r.patches[i]))
            && (r.Refused? ==> r.rejected != [])
            && (r.Refused? ==> forall x :: x in r.rejected
                                 ==> exists i :: 0 <= i < |keys| && Judge(d, keys[i], slot, value) == Reject(x))
  {
    RejectionsOf(d, keys, slot, value);
    hide Judge, Rejections, Patches, Snapshot;
    if AllAccepted(d, keys, slot, value) { PatchesOfAccepted(d, keys, slot, value); }
  }

  /** A three-part key is looked up under itself. */
  lemma LooksUpItself(key: string)
    requires |Split(key)| == 3
    ensures Key(Split(key)[0], Split(key)[1], Split(key)[2]) == key
  {
    JoinSplit(key);
    var parts := Split(key);
    hide Split;
    assert Join(parts) == parts[0] + "::" + Join(parts[1..]);
    assert Join(parts[1..]) == parts[1] + "::" + Join(parts[2..]);
    assert Join(parts[2..]) == parts[2];
  }

  /** For a registered three-part key only the value can be at fault. */
  lemma JudgeRegistered(d: Bindings, key: string, slot: Slot, value: Data)
    requires key in d && |Split(key)| == 3
    ensures var v := ValidateValue(d[key].model, slot, value);
            Judge(d, key, slot, value) == if v.Valid? then Accept(Patch(key, d[key].model, slot, v.code, value))
                else Reject(Rejection(key, v.reason))
  {
    LooksUpItself(key);
    hide Split, ValidateValue, Key;
  }

  lemma InvalidReasons(m: Model, s: Slot, v: Data)
    ensures ValidateValue(m, s, v).Invalid?
        ==> ValidateValue(m, s, v).reason in {UnsupportedSlot, NumericRequired, OutOfRange}
  {
  }

  /** The values each device takes: switches and modes take any, numbers lie in their range, and all else is refused. */
  lemma {:induction false} AcceptedValues(m: Model, s: Slot, v: Data)
    ensures var r, bounded := ValidateValue(m, s, v), Bounded(m, s);
            && (r.Valid? <==> TakesAny(m, s) || (bounded && InRange(s, v)))
            && (r == Invalid(UnsupportedSlot) <==> !TakesAny(m, s) && !bounded)
            && (r == Invalid(NumericRequired) <==> bounded && v.Text?)
            && (r == Invalid(OutOfRange) <==> bounded && !v.Text? && !InRange(s, v))
            && (r.Valid? ==> r.code == CodeOf(m, s))
  {}

  ghost predicate TakesAny(m: Model, s: Slot) {
    || (s == Power && !m.OtherModel?) || (m == AirConditionerModel && s == Mode)
    || (m == CurtainWindow && s == MotorControl)
  }

  ghost predicate Bounded(m: Model, s: Slot) {
    (m, s) in {(AirConditionerModel, Temperature), (LightGroup, Brightness), (CurtainWindow, Opening)}
  }

  /** The range of a numeric slot; a light takes true as brightness 1, and a curtain both booleans. */
  ghost predicate InRange(s: Slot, v: Data) {
    match s
    case Temperature => v.Num? && 16.0 <= v.r <= 30.0
    case Brightness => v == Flag(true) || (v.Num? && 1.0 <= v.r <= 100.0)
    case Opening => v.Flag? || (v.Num? && 0.0 <= v.r <= 100.0)
    case _ => false
  }

  ghost function CodeOf(m: Model, s: Slot): Code {
    match s
    case Power => if m == CurtainWindow then OnOff else PowerCode
    case Temperature => TargetTemperature
    case Mode => ModeCode
    case Brightness => BrightnessCode
    case Opening => MotorTargetPosition
    case _ => MotorControlCode
  }

  /** The key is bound in the registry, has three parts, and its device takes the value. */
  ghost predicate Takes(d: Bindings, key: string, slot: Slot, value: Data) {
    && |Split(key)| == 3 && key in d
    && (TakesAny(d[key].model, slot) || (Bounded(d[key].model, slot) && InRange(slot, value)))
  }

  /** The patch of a bound key: its model, the first code of the slot and the value as proposed. */
  ghost predicate IsPatch(d: Bindings, patch: Patch, key: string, slot: Slot, value: Data) {
    key in d && patch == Patch(key, d[key].model, slot, CodeOf(d[key].model, slot), value)
  }

  /** The verdict on any key, in any registry. */
  lemma {:induction false} JudgeExactly(d: Bindings, key: string, slot: Slot, value: Data)
    ensures var v := Judge(d, key, slot, value);
            && (v.Accept? <==> Takes(d, key, slot, value))
            && (v.Accept? ==> IsPatch(d, v.patch, key, slot, value))
            && (v.Reject? ==> v.rejection.target == key)
            && (v == Reject(Rejection(key, Unbound)) <==> |Split(key)| == 3 && key !in d)
            && (v == Reject(Rejection(key, MalformedKey)) <==> |Split(key)| != 3)
  {
    if |Split(key)| == 3 {
      LooksUpItself(key);
      if key in d {
        JudgeRegistered(d, key, slot, value);
        InvalidReasons(d[key].model, slot, value);
        AcceptedValues(d[key].model, slot, value);
      }
    }
    hide Split, Key, ValidateValue, CodeOf, TakesAny, Bounded, InRange;
  }

  function TargetsOf(xs: seq<Rejection>): (r: seq<string>)
    ensures |r| == |xs| && forall i :: 0 <= i < |xs| ==> r[i] == xs[i].target
  {
    seq(|xs|, i requires 0 <= i < |xs| => xs[i].target)
  }

  lemma {:induction false} RejectedInOrder(d: Bindings, keys: seq<string>, slot: Slot, value: Data)
    ensures TargetsOf(Rejections(d, keys, slot, value)) == Filter(keys, (k: string) => !Takes(d, k, slot, value))
  {
    if keys != [] {
      var n := |keys| - 1;
      RejectedInOrder(d, keys[..n], slot, value);
      JudgeExactly(d, keys[n], slot, value);
      hide Judge, Takes;
    }
  }

  /** The authorisation binds the patches and the model of every registered device. */
  ghost predicate Binds(d: Bindings, a: Authorization, id: string, turn: Option<string>, patches: seq<Patch>) {
    && a.id == id && a.turn == turn && a.patches == patches && a.snapshot.Keys == d.Keys
    && forall k :: k in d ==> a.snapshot[k] == d[k].model
  }

  /** Planning, exactly: it succeeds if and only if every target takes the value, with one patch per target, all bound
      by the authorisation; else it names just the targets that do not, in their order. */
  lemma {:induction false} PlanExactly(d: Bindings, keys: seq<string>, slot: Slot, value: Data, id: string,
                                       turn: Option<string>)
    ensures var r := PlanOf(d, keys, slot, value, id, turn);
            if forall i :: 0 <= i < |keys| ==> Takes(d, keys[i], slot, value) then
              && r.Planned? && |r.patches| == |keys| && Binds(d, r.authorization, id, turn, r.patches)
              && forall i :: 0 <= i < |keys| ==> IsPatch(d, r.patches[i], keys[i], slot, value)
            else r.Refused? && TargetsOf(r.rejected) == Filter(keys, (k: string) => !Takes(d, k, slot, value))
  {
    AllOrNothing(d, keys, slot, value, id, turn);
    RejectedInOrder(d, keys, slot, value);
    hide Judge, Takes, Rejections, Patches, IsPatch;
    forall i | 0 <= i < |keys|
      ensures Judge(d, keys[i], slot, value).Accept? <==> Takes(d, keys[i], slot, value)
      ensures Judge(d, keys[i], slot, value).Accept?
          ==> IsPatch(d, Judge(d, keys[i], slot, value).patch, keys[i], slot, value)
    {
      JudgeExactly(d, keys[i], slot, value);
    }
  }

  /** A registered key is never reported unbound; it is malformed exactly when its parts contain the separator. */
  lemma RegisteredIsBound(d: Bindings, key: string, slot: Slot, value: Data)
    requires key in d
    ensures var v := Judge(d, key, slot, value);
            && (v.Reject? ==> v.rejection.reason != Unbound)
            && (v == Reject(Rejection(key, MalformedKey)) <==> |Split(key)| != 3)
  {
    if |Split(key)| == 3 {
      JudgeRegistered(d, key, slot, value);
      InvalidReasons(d[key].model, slot, value);
      hide Split, ValidateValue, Judge;
    }
  }

  /** Composed against the registry's own keys, a plan fails only over values: it covers every composed target or
      names the invalid ones. */
  lemma {:induction false} ComposedPlan(d: Bindings, roomLogits: seq<real>, entityLogits: seq<real>, roomCount: int,
      entityCount: int,
                     slot: Slot, value: Data, id: string, turn: Option<string>)
    requires |roomLogits| >= |RoomNames()| && |entityLogits| >= |EntityNames()|
    ensures var keys := Compose(roomLogits, entityLogits, roomCount, entityCount, Some(d.Keys));
            var r := PlanOf(d, keys, slot, value, id, turn);
            && Distinct(keys) && (forall k :: k in keys ==> k in d)
            && (r.Planned? <==> forall k :: k in keys ==> ValidateValue(d[k].model, slot, value).Valid?)
            && (r.Planned? ==> |r.patches| == |keys| && forall i :: 0 <= i < |keys| ==>
                  r.patches[i] == Patch(keys[i], d[keys[i]].model, slot,
                      ValidateValue(d[keys[i]].model, slot, value).code, value))
            && (r.Refused? ==> forall x :: x in r.rejected
                                ==> x.target in keys && x.reason in {UnsupportedSlot, NumericRequired, OutOfRange})
  {
    var keys := Compose(roomLogits, entityLogits, roomCount, entityCount, Some(d.Keys));
    ComposedKeys(roomLogits, entityLogits, roomCount, entityCount, Some(d.Keys));
    AllOrNothing(d, keys, slot, value, id, turn);
    hide Compose, PlanOf, RoomNames, EntityNames;
    PlanOverRegistered(d, keys, slot, value, id, turn);
  }

  lemma PlanOverRegistered(d: Bindings, keys: seq<string>, slot: Slot, value: Data, id: string, turn: Option<string>)
    requires forall k :: k in keys ==> k in d && |Split(k)| == 3
    ensures var r := PlanOf(d, keys, slot, value, id, turn);
            && (r.Planned? <==> forall k :: k in keys ==> ValidateValue(d[k].model, slot, value).Valid?)
            && (r.Planned? ==> |r.patches| == |keys| && forall i :: 0 <= i < |keys| ==>
                  r.patches[i] == Patch(keys[i], d[keys[i]].model, slot,
                      ValidateValue(d[keys[i]].model, slot, value).code, value))
            && (r.Refused? ==> forall x :: x in r.rejected
                                ==> x.target in keys && x.reason in {UnsupportedSlot, NumericRequired, OutOfRange})
  {
    AllOrNothing(d, keys, slot, value, id, turn);
    forall i | 0 <= i < |keys|
      ensures keys[i] in d
      ensures var v := ValidateValue(d[keys[i]].model, slot, value);
              && (v.Invalid? ==> v.reason in {UnsupportedSlot, NumericRequired, OutOfRange})
              && Judge(d, keys[i], slot, value)
              == if v.Valid? then Accept(Patch(keys[i], d[keys[i]].model, slot, v.code, value))
                  else Reject(Rejection(keys[i], v.reason))
    {
      JudgeRegistered(d, keys[i], slot, value);
      InvalidReasons(d[keys[i]].model, slot, value);
    }
    hide PlanOf, Split, ValidateValue, Judge;
  }
}
