/** The whole-home state of the benchmark: its devices, their slots and initial values, and the two independent ways
    in which the generator and the validator compare two states of it. */
module HomeState {
  import opened Wrappers

  datatype Room = LivingRoom | MasterBedroom | Study | SecondBedroom
  datatype Entity = AirConditioner | Light | Window
  datatype Device = Device(room: Room, entity: Entity)

  datatype Slot = Brightness | Opening | Power | Temperature
  datatype Value = Num(n: int) | Switch(on: bool)

  type Home = map<Device, map<Slot, Value>>

  /** `devices.{device}.slots.{slot}`. */
  datatype Path = Path(device: Device, slot: Slot)

  // ---------- the twelve devices ----------

  /** `ROOMS`. */
  function Rooms(): seq<Room> { [LivingRoom, MasterBedroom, Study, SecondBedroom] }

  /** Rooms in code-point order of their names. */
  function RoomOrder(): seq<Room> { [MasterBedroom, Study, LivingRoom, SecondBedroom] }

  /** Entities in code-point order of their names. */
  function EntityOrder(): seq<Entity> { [Light, AirConditioner, Window] }

  function SlotOrder(): seq<Slot> { [Brightness, Opening, Power, Temperature] }

  function InRoom(r: Room, es: seq<Entity>): seq<Device> {
    if es == [] then [] else [Device(r, es[0])] + InRoom(r, es[1..])
  }

  function InRooms(rs: seq<Room>, es: seq<Entity>): seq<Device> {
    if rs == [] then [] else InRoom(rs[0], es) + InRooms(rs[1..], es)
  }

  /** Every device key, sorted. */
  function KeyOrder(): seq<Device> { InRooms(RoomOrder(), EntityOrder()) }

  /** `DEVICES` in the order they are declared. */
  function DeclaredEntities(): seq<Entity> { [AirConditioner, Light, Window] }

  /** Every device, in the order the runtime mounts them. */
  function Mounted(): seq<Device> { InRooms(Rooms(), DeclaredEntities()) }

  lemma {:induction false} InRoomMembers(r: Room, es: seq<Entity>, d: Device)
    ensures d in InRoom(r, es) <==> d.room == r && d.entity in es
  {
    if es != [] {
      InRoomMembers(r, es[1..], d);
      assert es == [es[0]] + es[1..];
    }
  }

  lemma {:induction false} InRoomsMembers(rs: seq<Room>, es: seq<Entity>, d: Device)
    ensures d in InRooms(rs, es) <==> d.room in rs && d.entity in es
  {
    if rs != [] {
      InRoomMembers(rs[0], es, d);
      InRoomsMembers(rs[1..], es, d);
      assert rs == [rs[0]] + rs[1..];
    }
  }

  lemma Enumerated(r: Room, e: Entity, s: Slot)
    ensures r in Rooms() && r in RoomOrder()
    ensures e in DeclaredEntities() && e in EntityOrder()
    ensures s in SlotOrder()
  {
    assert Rooms()[0] == LivingRoom && Rooms()[1] == MasterBedroom && Rooms()[2] == Study
        && Rooms()[3] == SecondBedroom;
    assert RoomOrder()[0] == MasterBedroom && RoomOrder()[1] == Study && RoomOrder()[2] == LivingRoom
        && RoomOrder()[3] == SecondBedroom;
    assert DeclaredEntities()[0] == AirConditioner && DeclaredEntities()[1] == Light && DeclaredEntities()[2] == Window;
    assert EntityOrder()[0] == Light && EntityOrder()[1] == AirConditioner && EntityOrder()[2] == Window;
    assert SlotOrder()[0] == Brightness && SlotOrder()[1] == Opening && SlotOrder()[2] == Power
        && SlotOrder()[3] == Temperature;
  }

  /** The key order and the mounting order both list every device. */
  lemma EveryDeviceListed(d: Device)
    ensures d in KeyOrder() && d in Mounted()
  {
    Enumerated(d.room, d.entity, Power);
    hide Rooms, RoomOrder, DeclaredEntities, EntityOrder;
    InRoomsMembers(RoomOrder(), EntityOrder(), d);
    InRoomsMembers(Rooms(), DeclaredEntities(), d);
    hide InRooms;
  }

  // ---------- initial state ----------

  /** The slot an entity has besides `power`. */
  function NativeSlot(e: Entity): Slot {
    match e case AirConditioner => Temperature case Light => Brightness case Window => Opening
  }

  function InitialNative(e: Entity): int {
    match e case AirConditioner => 24 case Light => 50 case Window => 0
  }

  function InitialSlots(e: Entity): map<Slot, Value> {
    map[Power := Switch(false), NativeSlot(e) := Num(InitialNative(e))]
  }

  /** `state_template`. */
  function InitialHome(): Home {
    map d: Device | d in Mounted() :: InitialSlots(d.entity)
  }

  /** The device is present with exactly its power and its numeric native slot. */
  predicate DeviceOk(h: Home, d: Device) {
    && d in h && h[d].Keys == {Power, NativeSlot(d.entity)}
    && h[d][Power].Switch? && h[d][NativeSlot(d.entity)].Num?
  }

  ghost predicate WellFormed(h: Home) {
    forall d: Device :: DeviceOk(h, d)
  }

  lemma InitialAt(d: Device)
    ensures d in InitialHome() && InitialHome()[d] == InitialSlots(d.entity)
  {
    EveryDeviceListed(d);
    hide Mounted, KeyOrder, InitialSlots;
  }

  lemma InitialSlotsOk(e: Entity)
    ensures var m := InitialSlots(e); m.Keys == {Power, NativeSlot(e)} && m[Power].Switch? && m[NativeSlot(e)].Num?
  {
    assert NativeSlot(e) != Power;
  }

  lemma InitialWellFormed()
    ensures WellFormed(InitialHome())
  {
    hide InitialHome, InitialSlots, NativeSlot, InitialNative;
    forall d: Device ensures DeviceOk(InitialHome(), d) {
      InitialAt(d);
      InitialSlotsOk(d.entity);
    }
  }

  // ---------- comparing two states ----------

  /** `state.get(k, {}).get(slot)`. */
  function Read(h: Home, p: Path): Option<Value> {
    if p.device in h && p.slot in h[p.device] then Some(h[p.device][p.slot]) else None
  }

  function Slotted(m: map<Slot, Value>, s: Slot): Option<Value> {
    if s in m then Some(m[s]) else None
  }

  /** `state.get(k, {})`. */
  function SlotsOf(h: Home, d: Device): map<Slot, Value> {
    if d in h then h[d] else map[]
  }

  /** The sorted keys of a dictionary of devices. */
  function SortedKeys(keys: set<Device>): seq<Device> {
    KeepDevices(KeyOrder(), keys)
  }

  function KeepDevices(ds: seq<Device>, keys: set<Device>): seq<Device>
    decreases |ds|, keys
  {
    if ds == [] then [] else if ds[0] in keys then [ds[0]] + KeepDevices(ds[1..], keys) else KeepDevices(ds[1..], keys)
  }

  function SortedSlots(keys: set<Slot>): seq<Slot> {
    KeepSlots(SlotOrder(), keys)
  }

  function KeepSlots(ss: seq<Slot>, keys: set<Slot>): seq<Slot>
    decreases |ss|, keys
  {
    if ss == [] then [] else if ss[0] in keys then [ss[0]] + KeepSlots(ss[1..], keys) else KeepSlots(ss[1..], keys)
  }

  /** The listed slots of one device on which the two dictionaries differ. */
  function DiffSlots(d: Device, ss: seq<Slot>, x: map<Slot, Value>, y: map<Slot, Value>): seq<Path> {
    if ss == [] then []
    else
      var s := ss[|ss| - 1];
      DiffSlots(d, ss[..|ss| - 1], x, y) + if Slotted(x, s) != Slotted(y, s) then [Path(d, s)] else []
  }

  function DiffDevices(ds: seq<Device>, a: Home, b: Home): seq<Path> {
    if ds == [] then []
    else
      var d := ds[|ds| - 1];
      var x, y := SlotsOf(a, d), SlotsOf(b, d);
      DiffDevices(ds[..|ds| - 1], a, b) + DiffSlots(d, SortedSlots(x.Keys + y.Keys), x, y)
  }

  /** The paths that read differently in the two states, in key order. */
  function Difference(a: Home, b: Home): seq<Path> {
    DiffDevices(SortedKeys(a.Keys + b.Keys), a, b)
  }

  lemma {:induction false} KeepDevicesMembers(ds: seq<Device>, keys: set<Device>, d: Device)
    ensures d in KeepDevices(ds, keys) <==> d in ds && d in keys
  {
    if ds != [] {
      KeepDevicesMembers(ds[1..], keys, d);
      assert ds == [ds[0]] + ds[1..];
    }
  }

  lemma {:induction false} KeepSlotsMembers(ss: seq<Slot>, keys: set<Slot>, s: Slot)
    ensures s in KeepSlots(ss, keys) <==> s in ss && s in keys
  {
    if ss != [] {
      KeepSlotsMembers(ss[1..], keys, s);
      assert ss == [ss[0]] + ss[1..];
    }
  }

  lemma {:induction false} DiffSlotsMembers(d: Device, ss: seq<Slot>, x: map<Slot, Value>, y: map<Slot, Value>, p: Path)
    ensures p in DiffSlots(d, ss, x, y) <==> p.device == d && p.slot in ss && Slotted(x, p.slot) != Slotted(y, p.slot)
  {
    if ss != [] {
      DiffSlotsMembers(d, ss[..|ss| - 1], x, y, p);
      LastOf(ss);
      hide Slotted;
    }
  }

  lemma LastOf<T>(xs: seq<T>)
    requires xs != []
    ensures xs == xs[..|xs| - 1] + [xs[|xs| - 1]]
  {}

  /** The differing slots of one device, whichever dictionary holds them. */
  lemma DiffAllSlots(d: Device, x: map<Slot, Value>, y: map<Slot, Value>, p: Path)
    ensures p in DiffSlots(d, SortedSlots(x.Keys + y.Keys), x, y)
        <==> p.device == d && Slotted(x, p.slot) != Slotted(y, p.slot)
  {
    Enumerated(Study, Light, p.slot);
    KeepSlotsMembers(SlotOrder(), x.Keys + y.Keys, p.slot);
    DiffSlotsMembers(d, SortedSlots(x.Keys + y.Keys), x, y, p);
    hide SlotOrder, KeepSlots, DiffSlots;
  }

  lemma {:induction false} DiffDevicesMembers(ds: seq<Device>, a: Home, b: Home, p: Path)
    ensures p in DiffDevices(ds, a, b) <==> p.device in ds && Read(a, p) != Read(b, p)
  {
    if ds != [] {
      var n := |ds| - 1;
      DiffDevicesMembers(ds[..n], a, b, p);
      DiffAllSlots(ds[n], SlotsOf(a, ds[n]), SlotsOf(b, ds[n]), p);
      assert ds == ds[..n] + [ds[n]];
      hide Read, Slotted, SlotsOf, SortedSlots, DiffSlots;
    }
  }

  /** A write-set lists exactly the cells that read differently. */
  lemma DifferenceExactly(a: Home, b: Home, p: Path)
    ensures p in Difference(a, b) <==> Read(a, p) != Read(b, p)
  {
    EveryDeviceListed(p.device);
    KeepDevicesMembers(KeyOrder(), a.Keys + b.Keys, p.device);
    DiffDevicesMembers(SortedKeys(a.Keys + b.Keys), a, b, p);
    hide KeyOrder, KeepDevices, DiffDevices;
  }

  // ---------- the order of a write-set ----------

  /** Places in code-point order of the names. */
  function RoomPlace(r: Room): nat {
    match r case MasterBedroom => 0 case Study => 1 case LivingRoom => 2 case SecondBedroom => 3
  }

  function EntityPlace(e: Entity): nat {
    match e case Light => 0 case AirConditioner => 1 case Window => 2
  }

  function SlotPlace(s: Slot): nat {
    match s case Brightness => 0 case Opening => 1 case Power => 2 case Temperature => 3
  }

  function DevicePlace(d: Device): nat { 3 * RoomPlace(d.room) + EntityPlace(d.entity) }

  function PathPlace(p: Path): nat { 4 * DevicePlace(p.device) + SlotPlace(p.slot) }

  ghost predicate Rising<T(!new)>(xs: seq<T>, place: T -> nat) {
    forall i, j :: 0 <= i < j < |xs| ==> place(xs[i]) < place(xs[j])
  }

  lemma RisingConcat<T(!new)>(a: seq<T>, b: seq<T>, place: T -> nat)
    requires Rising(a, place) && Rising(b, place) && forall x, y :: x in a && y in b ==> place(x) < place(y)
    ensures Rising(a + b, place)
  {
    forall i, j | 0 <= i < j < |a + b| ensures place((a + b)[i]) < place((a + b)[j]) {
      if i < |a| <= j { assert a[i] in a && b[j - |a|] in b; }
    }
  }

  lemma {:induction false} InRoomRises(r: Room, es: seq<Entity>)
    requires Rising(es, EntityPlace)
    ensures Rising(InRoom(r, es), DevicePlace)
  {
    if es != [] {
      InRoomRises(r, es[1..]);
      forall y | y in InRoom(r, es[1..]) ensures DevicePlace(Device(r, es[0])) < DevicePlace(y) {
        InRoomMembers(r, es[1..], y);
        var k :| 0 <= k < |es[1..]| && es[1..][k] == y.entity;
        assert es[k + 1] == y.entity;
      }
      hide DevicePlace;
      RisingConcat([Device(r, es[0])], InRoom(r, es[1..]), DevicePlace);
    }
  }

  lemma {:induction false} InRoomsRise(rs: seq<Room>, es: seq<Entity>)
    requires Rising(rs, RoomPlace) && Rising(es, EntityPlace)
    ensures Rising(InRooms(rs, es), DevicePlace)
  {
    if rs != [] {
      InRoomsRise(rs[1..], es);
      InRoomRises(rs[0], es);
      forall x, y | x in InRoom(rs[0], es) && y in InRooms(rs[1..], es) ensures DevicePlace(x) < DevicePlace(y) {
        InRoomMembers(rs[0], es, x);
        InRoomsMembers(rs[1..], es, y);
        var k :| 0 <= k < |rs[1..]| && rs[1..][k] == y.room;
        assert rs[k + 1] == y.room;
      }
      hide DevicePlace;
      RisingConcat(InRoom(rs[0], es), InRooms(rs[1..], es), DevicePlace);
    }
  }

  lemma KeysRise()
    ensures Rising(KeyOrder(), DevicePlace) && Rising(SlotOrder(), SlotPlace)
  {
    assert Rising(RoomOrder(), RoomPlace) && Rising(EntityOrder(), EntityPlace);
    InRoomsRise(RoomOrder(), EntityOrder());
    hide InRooms;
  }

  lemma {:induction false} KeptDevicesRise(ds: seq<Device>, keys: set<Device>)
    requires Rising(ds, DevicePlace)
    ensures Rising(KeepDevices(ds, keys), DevicePlace)
  {
    hide DevicePlace;
    if ds != [] {
      KeptDevicesRise(ds[1..], keys);
      forall y | y in KeepDevices(ds[1..], keys) ensures DevicePlace(ds[0]) < DevicePlace(y) {
        KeepDevicesMembers(ds[1..], keys, y);
        var k :| 0 <= k < |ds[1..]| && ds[1..][k] == y;
        assert ds[k + 1] == y;
      }
      RisingConcat([ds[0]], KeepDevices(ds[1..], keys), DevicePlace);
    }
  }

  lemma {:induction false} KeptSlotsRise(ss: seq<Slot>, keys: set<Slot>)
    requires Rising(ss, SlotPlace)
    ensures Rising(KeepSlots(ss, keys), SlotPlace)
  {
    hide SlotPlace;
    if ss != [] {
      KeptSlotsRise(ss[1..], keys);
      forall y | y in KeepSlots(ss[1..], keys) ensures SlotPlace(ss[0]) < SlotPlace(y) {
        KeepSlotsMembers(ss[1..], keys, y);
        var k :| 0 <= k < |ss[1..]| && ss[1..][k] == y;
        assert ss[k + 1] == y;
      }
      RisingConcat([ss[0]], KeepSlots(ss[1..], keys), SlotPlace);
    }
  }

  lemma {:induction false} DiffSlotsRise(d: Device, ss: seq<Slot>, x: map<Slot, Value>, y: map<Slot, Value>)
    requires Rising(ss, SlotPlace)
    ensures Rising(DiffSlots(d, ss, x, y), PathPlace)
  {
    if ss != [] {
      var n := |ss| - 1;
      DiffSlotsRise(d, ss[..n], x, y);
      forall p | p in DiffSlots(d, ss[..n], x, y) ensures PathPlace(p) < PathPlace(Path(d, ss[n])) {
        DiffSlotsMembers(d, ss[..n], x, y, p);
        var k :| 0 <= k < n && ss[..n][k] == p.slot;
        assert ss[k] == p.slot;
      }
      hide PathPlace, Slotted;
      RisingConcat(DiffSlots(d, ss[..n], x, y), if Slotted(x, ss[n]) != Slotted(y, ss[n]) then [Path(d, ss[n])] else [],
          PathPlace);
    }
  }

  lemma {:induction false} RowRises(d: Device, x: map<Slot, Value>, y: map<Slot, Value>)
    ensures Rising(DiffSlots(d, SortedSlots(x.Keys + y.Keys), x, y), PathPlace)
  {
    hide DiffSlots, PathPlace, SlotPlace, SlotOrder, KeyOrder, KeepSlots;
    KeysRise();
    KeptSlotsRise(SlotOrder(), x.Keys + y.Keys);
    DiffSlotsRise(d, SortedSlots(x.Keys + y.Keys), x, y);
  }

  lemma PlacesApart(p: Path, q: Path)
    requires DevicePlace(p.device) < DevicePlace(q.device)
    ensures PathPlace(p) < PathPlace(q)
  {
    hide DevicePlace;
  }

  /** The paths of a device come after those of every earlier device. */
  lemma {:induction false} NextDevice(ds: seq<Device>, n: nat, a: Home, b: Home)
    requires n < |ds| && Rising(ds, DevicePlace)
    ensures var x, y := SlotsOf(a, ds[n]), SlotsOf(b, ds[n]);
            forall p, q :: p in DiffDevices(ds[..n], a, b) && q in DiffSlots(ds[n], SortedSlots(x.Keys + y.Keys), x, y)
              ==> PathPlace(p) < PathPlace(q)
  {
    hide *;
    var x, y := SlotsOf(a, ds[n]), SlotsOf(b, ds[n]);
    forall p, q | p in DiffDevices(ds[..n], a, b) && q in DiffSlots(ds[n], SortedSlots(x.Keys + y.Keys), x, y)
      ensures PathPlace(p) < PathPlace(q)
    {
      DiffDevicesMembers(ds[..n], a, b, p);
      DiffAllSlots(ds[n], x, y, q);
      EarlierDevice(ds, n, p.device);
      PlacesApart(p, q);
    }
  }

  lemma EarlierDevice(ds: seq<Device>, n: nat, d: Device)
    requires n < |ds| && Rising(ds, DevicePlace) && d in ds[..n]
    ensures DevicePlace(d) < DevicePlace(ds[n])
  {
    hide DevicePlace;
    var k :| 0 <= k < n && ds[..n][k] == d;
    assert ds[k] == d;
  }

  lemma {:induction false} DiffDevicesRise(ds: seq<Device>, a: Home, b: Home)
    requires Rising(ds, DevicePlace)
    ensures Rising(DiffDevices(ds, a, b), PathPlace)
  {
    if ds != [] {
      hide SlotsOf, SortedSlots, DiffSlots, PathPlace, DevicePlace, Rising;
      var n := |ds| - 1;
      DiffDevicesRise(ds[..n], a, b);
      var x, y := SlotsOf(a, ds[n]), SlotsOf(b, ds[n]);
      RowRises(ds[n], x, y);
      NextDevice(ds, n, a, b);
      RisingConcat(DiffDevices(ds[..n], a, b), DiffSlots(ds[n], SortedSlots(x.Keys + y.Keys), x, y), PathPlace);
    }
  }

  /** A write-set is in the order of the device names and then of the slot names, so it lists no cell twice. */
  lemma DifferenceRises(a: Home, b: Home)
    ensures Rising(Difference(a, b), PathPlace)
  {
    KeysRise();
    KeptDevicesRise(KeyOrder(), a.Keys + b.Keys);
    DiffDevicesRise(SortedKeys(a.Keys + b.Keys), a, b);
    hide KeyOrder, KeepDevices, DiffDevices;
  }

  ghost predicate AgreeEverywhere(a: Home, b: Home) {
    forall p :: Read(a, p) == Read(b, p)
  }

  lemma {:induction false} NothingListed(a: Home, b: Home)
    ensures Difference(a, b) == [] <==> AgreeEverywhere(a, b)
  {
    hide Difference, Read;
    if Difference(a, b) == [] {
      forall p ensures Read(a, p) == Read(b, p) {
        DifferenceExactly(a, b, p);
        assert p !in Difference(a, b);
      }
    } else {
      var p := Difference(a, b)[0];
      assert p in Difference(a, b);
      DifferenceExactly(a, b, p);
    }
  }

  /** Nothing is listed exactly when every device has the same slots, a missing device having none; so two states are
      equal exactly when nothing is listed and they have the same devices. */
  lemma NoDifference(a: Home, b: Home)
    ensures Difference(a, b) == [] <==> forall d :: SlotsOf(a, d) == SlotsOf(b, d)
    ensures a == b <==> Difference(a, b) == [] && a.Keys == b.Keys
  {
    NothingListed(a, b);
    hide Difference;
    if AgreeEverywhere(a, b) {
      forall d: Device ensures SlotsOf(a, d) == SlotsOf(b, d) { SameSlots(a, b, d); }
      hide AgreeEverywhere;
      if a.Keys == b.Keys {
        forall d | d in a ensures a[d] == b[d] { assert SlotsOf(a, d) == SlotsOf(b, d); }
      }
    } else {
      var p :| Read(a, p) != Read(b, p);
      assert SlotsOf(a, p.device) != SlotsOf(b, p.device);
    }
  }

  lemma SameSlots(a: Home, b: Home, d: Device)
    requires AgreeEverywhere(a, b)
    ensures SlotsOf(a, d) == SlotsOf(b, d)
  {
    forall s ensures Slotted(SlotsOf(a, d), s) == Slotted(SlotsOf(b, d), s) {
      assert Read(a, Path(d, s)) == Read(b, Path(d, s));
    }
    var x, y := SlotsOf(a, d), SlotsOf(b, d);
    forall s: Slot ensures s in x <==> s in y { assert Slotted(x, s) == Slotted(y, s); }
    forall s | s in x ensures x[s] == y[s] { assert Slotted(x, s) == Slotted(y, s); }
  }

  // ---------- the loops ----------

  /** The inner loop of both comparisons. */
  method CompareDevice(d: Device, x: map<Slot, Value>, y: map<Slot, Value>) returns (out: seq<Path>)
    ensures out == DiffSlots(d, SortedSlots(x.Keys + y.Keys), x, y)
  {
    out := [];
    var ss := SortedSlots(x.Keys + y.Keys);
    hide SortedSlots, Slotted;
    for i := 0 to |ss|
      invariant out == DiffSlots(d, ss[..i], x, y)
    {
      assert ss[..i + 1][..i] == ss[..i];
      if Slotted(x, ss[i]) != Slotted(y, ss[i]) { out := out + [Path(d, ss[i])]; }
    }
    assert ss[..|ss|] == ss;
  }

  /** The generator's comparison: `after` must know every device of `before`. */
  method ChangedPaths(before: Home, after: Home) returns (out: seq<Path>)
    requires before.Keys <= after.Keys
    ensures out == DiffDevices(SortedKeys(before.Keys), before, after)
  {
    out := [];
    var ks := SortedKeys(before.Keys);
    forall d | d in ks ensures d in before.Keys { KeepDevicesMembers(KeyOrder(), before.Keys, d); }
    hide KeyOrder, SortedKeys, SortedSlots, DiffSlots;
    for i := 0 to |ks|
      invariant out == DiffDevices(ks[..i], before, after)
    {
      assert ks[..i + 1][..i] == ks[..i];
      assert ks[i] in ks;
      var row := CompareDevice(ks[i], before[ks[i]], after[ks[i]]);
      out := out + row;
    }
    assert ks[..|ks|] == ks;
  }

  /** The validator's comparison, total on any two states. */
  method DiffState(prev: Home, gold: Home) returns (out: seq<Path>)
    ensures out == Difference(prev, gold)
  {
    out := [];
    var ks := SortedKeys(prev.Keys + gold.Keys);
    hide KeyOrder, SortedKeys, SortedSlots, DiffSlots, SlotsOf;
    for i := 0 to |ks|
      invariant out == DiffDevices(ks[..i], prev, gold)
    {
      assert ks[..i + 1][..i] == ks[..i];
      var row := CompareDevice(ks[i], SlotsOf(prev, ks[i]), SlotsOf(gold, ks[i]));
      out := out + row;
    }
    assert ks[..|ks|] == ks;
  }

  /** On states over the same devices the two comparisons agree. */
  lemma ComparisonsAgree(before: Home, after: Home)
    requires before.Keys == after.Keys
    ensures DiffDevices(SortedKeys(before.Keys), before, after) == Difference(before, after)
  {
    hide SortedKeys, DiffDevices;
    assert before.Keys + after.Keys == before.Keys;
  }
}
