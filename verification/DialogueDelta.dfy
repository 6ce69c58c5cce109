/** The bounded dialogue state, its deltas and their encoding. */
module DialogueDelta {
  import opened Wrappers

  const NONE: nat := 12

  datatype Op = Add | Revise | Retract | Clear | Pause | Resume | Retain | Ood
  datatype Reference = NoReference | Explicit | FocusCoreference | ExplicitNamed

  const OPS := [Add, Revise, Retract, Clear, Pause, Resume, Retain, Ood]
  const REFS := [NoReference, Explicit, FocusCoreference, ExplicitNamed]

  datatype State = State(values: seq<nat>, paused: seq<bool>, focus: nat, ood: bool)
  datatype Delta = Delta(op: Op, targets: seq<nat>, values: seq<nat>, reference: Reference, count: nat)

  function EmptyState(): State {
    State([0, 0, 0, 0, 0, 0, 0, 0, 0, 0, 0, 0],
          [false, false, false, false, false, false, false, false, false, false, false, false], NONE, false)
  }

  ghost predicate Shape(s: State) {
    |s.values| == |s.paused| == 12 && s.focus <= NONE && forall k :: 0 <= k < 12 ==> s.values[k] <= 4
  }

  /** A set focus has a value, and nothing without a value is paused. */
  ghost predicate Coherent(s: State) {
    && Shape(s) && (s.focus < NONE ==> s.values[s.focus] != 0)
    && forall k :: 0 <= k < 12 && s.values[k] == 0 ==> !s.paused[k]
  }

  ghost predicate DeltaShape(d: Delta) {
    |d.targets| == |d.values| == 2 && d.count <= 2 && forall i :: 0 <= i < 2
                                                       ==> d.targets[i] <= NONE && d.values[i] <= 4
  }

  /** `list(xs)[:2]` padded with `pad`. */
  function FirstTwo(xs: seq<nat>, pad: nat): (r: seq<nat>)
    ensures |r| == 2
    ensures r[0] == (if |xs| > 0 then xs[0] else pad) && r[1] == (if |xs| > 1 then xs[1] else pad)
  {
    ((if |xs| > 2 then xs[..2] else xs) + [pad, pad])[..2]
  }

  /** `delta(op, targets, values, reference)`: padded to two slots. */
  function MakeDelta(op: Op, targets: seq<nat>, values: seq<nat>, reference: Reference): Delta {
    Delta(op, FirstTwo(targets, NONE), FirstTwo(values, 0), reference, if |targets| < 2 then |targets| else 2)
  }

  // ---------- applying a delta ----------

  function SetAt(s: State, k: nat, v: nat): State
    requires |s.values| == |s.paused| == 12
  {
    if k < NONE then s.(values := s.values[k := v], paused := s.paused[k := false], focus := k) else s
  }

  function ClearAt(s: State, k: nat): State
    requires |s.values| == |s.paused| == 12
  {
    if k < NONE then s.(values := s.values[k := 0], paused := s.paused[k := false]) else s
  }

  function PauseAt(s: State, k: nat, on: bool): State
    requires |s.values| == |s.paused| == 12
  {
    if k < NONE then s.(paused := s.paused[k := on]) else s
  }

  function Unfocused(s: State, targets: seq<nat>): State {
    if s.focus in targets then s.(focus := NONE) else s
  }

  /** What a delta does to a state, slot after slot. */
  function Applied(s: State, d: Delta): State
    requires |s.values| == |s.paused| == 12 && |d.targets| == |d.values| == 2
  {
    match d.op
    case Clear => EmptyState()
    case Add => SetAt(SetAt(s, d.targets[0], d.values[0]), d.targets[1], d.values[1])
    case Revise => SetAt(SetAt(s, d.targets[0], d.values[0]), d.targets[1], d.values[1])
    case Retract => Unfocused(ClearAt(ClearAt(s, d.targets[0]), d.targets[1]), d.targets)
    case Pause => PauseAt(PauseAt(s, d.targets[0], true), d.targets[1], true)
    case Resume => PauseAt(PauseAt(s, d.targets[0], false), d.targets[1], false)
    case Retain => s
    case Ood => s.(ood := true)
  }

  method Apply(state: State, d: Delta) returns (s: State)
    requires |state.values| == |state.paused| == 12 && |d.targets| == |d.values| == 2
    ensures s == Applied(state, d)
  {
    if d.op.Clear? { return EmptyState(); }
    var values: seq<nat>, paused, focus: nat, ood := state.values, state.paused, state.focus, state.ood;
    if d.op.Add? || d.op.Revise? {
      for i := 0 to 2
        invariant |values| == |paused| == 12
        invariant i == 0 ==> State(values, paused, focus, ood) == state
        invariant i == 1 ==> State(values, paused, focus, ood) == SetAt(state, d.targets[0], d.values[0])
        invariant i == 2
            ==> State(values, paused, focus, ood)
                == SetAt(SetAt(state, d.targets[0], d.values[0]), d.targets[1], d.values[1])
      {
        var k := d.targets[i];
        if k < NONE { values, paused, focus := values[k := d.values[i]], paused[k := false], k; }
      }
    } else if d.op.Retract? {
      for i := 0 to 2
        invariant |values| == |paused| == 12
        invariant i == 0 ==> State(values, paused, focus, ood) == state
        invariant i == 1 ==> State(values, paused, focus, ood) == ClearAt(state, d.targets[0])
        invariant i == 2 ==> State(values, paused, focus, ood) == ClearAt(ClearAt(state, d.targets[0]), d.targets[1])
      {
        var k := d.targets[i];
        if k < NONE { values, paused := values[k := 0], paused[k := false]; }
      }
      if focus in d.targets { focus := NONE; }
    } else if d.op.Pause? || d.op.Resume? {
      for i := 0 to 2
        invariant |values| == |paused| == 12
        invariant i == 0 ==> State(values, paused, focus, ood) == state
        invariant i == 1 ==> State(values, paused, focus, ood) == PauseAt(state, d.targets[0], d.op.Pause?)
        invariant i == 2
            ==> State(values, paused, focus, ood)
                == PauseAt(PauseAt(state, d.targets[0], d.op.Pause?), d.targets[1], d.op.Pause?)
      {
        var k := d.targets[i];
        if k < NONE { paused := paused[k := d.op.Pause?]; }
      }
    } else if d.op.Ood? {
      ood := true;
    }
    return State(values, paused, focus, ood);
  }

  /** Any well-shaped delta, such as a network prediction, keeps the state well-shaped. */
  lemma ApplyKeepsShape(s: State, d: Delta)
    requires Shape(s) && DeltaShape(d)
    ensures Shape(Applied(s, d))
  {}

  /** One of the two slots names the key. */
  predicate Hits(d: Delta, k: nat)
    requires |d.targets| == 2
  {
    d.targets[0] == k || d.targets[1] == k
  }

  /** The two slots of a delta act one after the other on one cell. */
  lemma SetsCell(s: State, d: Delta, k: nat)
    requires Shape(s) && DeltaShape(d) && SetsValues(d.op) && k < NONE
    ensures var r := Applied(s, d);
            && |r.values| == |r.paused| == 12
            && (if d.targets[1] == k then r.values[k] == d.values[1] && !r.paused[k]
                else if d.targets[0] == k then r.values[k] == d.values[0] && !r.paused[k]
                else r.values[k] == s.values[k] && r.paused[k] == s.paused[k])
  {}

  lemma EmptiesCell(s: State, d: Delta, k: nat)
    requires Shape(s) && DeltaShape(d) && d.op.Retract? && k < NONE
    ensures var r := Applied(s, d);
            && |r.values| == |r.paused| == 12
            && (if Hits(d, k) then r.values[k] == 0 && !r.paused[k]
                else r.values[k] == s.values[k] && r.paused[k] == s.paused[k])
  {}

  lemma PausesCell(s: State, d: Delta, k: nat)
    requires Shape(s) && DeltaShape(d) && (d.op.Pause? || d.op.Resume?) && k < NONE
    ensures var r := Applied(s, d);
            && |r.values| == |r.paused| == 12
            && r.values[k] == s.values[k] && r.paused[k] == if Hits(d, k) then d.op.Pause? else s.paused[k]
  {}

  /** Cell by cell: a delta other than a clear touches its targets only; setting takes the last value given for the key,
      retracting empties the cell, pausing and resuming flip the flag alone. */
  lemma {:induction false} DeltaTouchesTargets(s: State, d: Delta, k: nat)
    requires Shape(s) && DeltaShape(d) && !d.op.Clear? && k < NONE
    ensures var r := Applied(s, d);
            && (!Hits(d, k) || d.op.Retain? || d.op.Ood? ==> r.values[k] == s.values[k] && r.paused[k] == s.paused[k])
            && (Hits(d, k) && SetsValues(d.op)
              ==> r.values[k] == (if d.targets[1] == k then d.values[1] else d.values[0]) && !r.paused[k])
            && (Hits(d, k) && d.op.Retract? ==> r.values[k] == 0 && !r.paused[k])
            && (Hits(d, k) && (d.op.Pause? || d.op.Resume?)
              ==> r.values[k] == s.values[k] && r.paused[k] == d.op.Pause?)
  {
    hide SetAt, ClearAt, PauseAt;
    match d.op
    case Add => SetsCell(s, d, k);
    case Revise => SetsCell(s, d, k);
    case Retract => EmptiesCell(s, d, k);
    case Pause => PausesCell(s, d, k);
    case Resume => PausesCell(s, d, k);
    case _ =>
  }

  /** Where the focus and the out-of-domain flag end up. */
  lemma {:induction false} FocusAfter(s: State, d: Delta)
    requires Shape(s) && DeltaShape(d) && !d.op.Clear?
    ensures var r := Applied(s, d);
            && (SetsValues(d.op) ==> r.focus == if d.targets[1] < NONE then d.targets[1]
                 else if d.targets[0] < NONE then d.targets[0] else s.focus)
            && (d.op.Retract? && s.focus in d.targets ==> r.focus == NONE)
            && (!SetsValues(d.op) && !(d.op.Retract? && s.focus in d.targets) ==> r.focus == s.focus)
            && r.ood == (s.ood || d.op.Ood?)
  {
  }

  /** A clear leaves nothing: no value, nothing paused, no focus, no flag. */
  lemma {:induction false} ClearLeavesNothing(s: State, d: Delta, k: nat)
    requires Shape(s) && DeltaShape(d) && d.op.Clear? && k < NONE
    ensures var r := Applied(s, d);
            Shape(r) && r.values[k] == 0 && !r.paused[k] && r.focus == NONE && !r.ood
  {}

  /** Resuming undoes a pause. */
  lemma {:induction false} ResumeUndoesPause(s: State, k: nat)
    requires Shape(s) && k < NONE && !s.paused[k]
    ensures Applied(Applied(s, MakeDelta(Pause, [k], [], FocusCoreference)),
        MakeDelta(Resume, [k], [], FocusCoreference))
       == s
  {
    hide FirstTwo;
    var t := s.paused[k := true];
    assert t[k := false] == s.paused;
  }

  /** Retracting a goal just added to an empty cell restores everything but the focus. */
  lemma {:induction false} RetractUndoesAdd(s: State, k: nat, v: nat)
    requires Coherent(s) && k < NONE && s.values[k] == 0
    ensures Applied(Applied(s, MakeDelta(Add, [k], [v], Explicit)), MakeDelta(Retract, [k], [], ExplicitNamed))
       == s.(focus := NONE)
  {
    hide FirstTwo;
    assert s.values[k := v][k := 0] == s.values && s.paused[k := false] == s.paused;
  }

  // ---------- label rows ----------

  type Row = seq<nat>

  function Parts(k: nat): seq<nat> {
    if k == NONE then [3, 2, 2] else [k / 4, k % 4 / 2, k % 2]
  }

  function OpIndex(op: Op): nat {
    match op
    case Add => 0
    case Revise => 1
    case Retract => 2
    case Clear => 3
    case Pause => 4
    case Resume => 5
    case Retain => 6
    case Ood => 7
  }

  function RefIndex(r: Reference): nat {
    match r case NoReference => 0 case Explicit => 1 case FocusCoreference => 2 case ExplicitNamed => 3
  }

  /** The label row of one turn. */
  function Pack(d: Delta): Row
    requires |d.targets| == |d.values| == 2
  {
    [OpIndex(d.op), d.count, RefIndex(d.reference)] + Parts(d.targets[0]) + [d.values[0]] + Parts(d.targets[1])
        + [d.values[1]]
  }

  /** Every head within its size: 8 operations, counts to 2, 4 references, then twice 4 rooms, 3 objects, 3
      properties, 5 values. */
  ghost predicate InRange(row: Row) {
    && |row| == 11 && row[0] < 8 && row[1] < 3 && row[2] < 4
    && row[3] < 4 && row[4] < 3 && row[5] < 3 && row[6] < 5
    && row[7] < 4 && row[8] < 3 && row[9] < 3 && row[10] < 5
  }

  function TargetOf(row: Row, j: nat): nat
    requires j + 2 < |row|
  {
    if row[j] < 3 && row[j + 1] < 2 && row[j + 2] < 2 then (row[j] * 2 + row[j + 1]) * 2 + row[j + 2] else NONE
  }

  function Targets(row: Row, n: nat): (r: seq<nat>)
    requires n <= 2 && |row| == 11
    ensures |r| == n
  {
    if n == 0 then [] else Targets(row, n - 1) + [TargetOf(row, 3 + (n - 1) * 4)]
  }

  function Values(row: Row, n: nat): (r: seq<nat>)
    requires n <= 2 && |row| == 11
    ensures |r| == n
  {
    if n == 0 then [] else Values(row, n - 1) + [row[6 + (n - 1) * 4]]
  }

  /** The delta a row stands for. */
  function Decoded(row: Row, reference: Reference): (d: Delta)
    requires InRange(row)
    ensures |d.targets| == |d.values| == 2
  {
    var n := row[1];
    Delta(OPS[row[0]], Targets(row, n) + [NONE, NONE][n..], Values(row, n) + [0, 0][n..], reference, n)
  }

  method TensorDelta(row: Row, reference: Reference) returns (d: Delta)
    requires InRange(row)
    ensures d == Decoded(row, reference)
  {
    var count, targets, values := row[1], [], [];
    for i := 0 to count
      invariant targets == Targets(row, i) && values == Values(row, i)
    {
      var j := 3 + i * 4;
      var r, o, p, v := row[j], row[j + 1], row[j + 2], row[j + 3];
      targets := targets + [if r < 3 && o < 2 && p < 2 then (r * 2 + o) * 2 + p else NONE];
      values := values + [v];
    }
    return Delta(OPS[row[0]], targets + [NONE, NONE][count..], values + [0, 0][count..], reference, count);
  }

  /** Decoding is total: every in-range network row is a well-shaped delta. */
  lemma {:induction false} DecodeTotal(row: Row, reference: Reference)
    requires InRange(row)
    ensures DeltaShape(Decoded(row, reference))
  {
    assert Targets(row, 0) == [] && Values(row, 0) == [];
    assert row[1] >= 1 ==> Targets(row, 1) == [TargetOf(row, 3)] && Values(row, 1) == [row[6]];
    assert row[1] >= 2 ==> Targets(row, 2) == [TargetOf(row, 3), TargetOf(row, 7)];
    assert row[1] >= 2 ==> Values(row, 2) == [row[6], row[10]];
  }

  /** A slot names a key exactly by its room, object and property, or no key when one of them is "none". */
  lemma {:induction false} TargetNames(row: Row, j: nat)
    requires j + 2 < |row|
    ensures var k, named := TargetOf(row, j), row[j] < 3 && row[j + 1] < 2 && row[j + 2] < 2;
            && (k == NONE <==> !named) && k <= NONE
            && (named ==> k / 4 == row[j] && k % 4 / 2 == row[j + 1] && k % 2 == row[j + 2])
  {}

  /** What a network row says, slot by slot: used slots name their key and value, unused ones hold the padding. */
  lemma {:induction false} DecodedSlots(row: Row, reference: Reference)
    requires InRange(row)
    ensures var d := Decoded(row, reference);
            && d.op == OPS[row[0]] && d.count == row[1] && d.reference == reference
            && d.targets == [if row[1] > 0 then TargetOf(row, 3) else NONE,
                             if row[1] > 1 then TargetOf(row, 7) else NONE]
            && d.values == [if row[1] > 0 then row[6] else 0, if row[1] > 1 then row[10] else 0]
  {
    hide TargetOf;
    assert Targets(row, 0) == [] && Values(row, 0) == [];
    assert row[1] >= 1 ==> Targets(row, 1) == [TargetOf(row, 3)] && Values(row, 1) == [row[6]];
    assert row[1] >= 2 ==> Targets(row, 2) == [TargetOf(row, 3), TargetOf(row, 7)];
    assert row[1] >= 2 ==> Values(row, 2) == [row[6], row[10]];
  }

  lemma PartsBack(k: nat)
    requires k <= NONE
    ensures |Parts(k)| == 3 && Parts(k)[0] < 4 && Parts(k)[1] < 3 && Parts(k)[2] < 3
    ensures (if Parts(k)[0] < 3 && Parts(k)[1] < 2
        && Parts(k)[2] < 2 then (Parts(k)[0] * 2 + Parts(k)[1]) * 2 + Parts(k)[2] else NONE)
       == k
  {
    if k < NONE { assert k % 2 == k % 4 % 2; }
  }

  lemma {:induction false} PackCells(d: Delta)
    requires DeltaShape(d)
    ensures var row := Pack(d);
            && InRange(row) && row[0] == OpIndex(d.op) && row[1] == d.count && row[2] == RefIndex(d.reference)
            && row[3..6] == Parts(d.targets[0]) && row[6] == d.values[0] && row[7..10] == Parts(d.targets[1])
                 && row[10] == d.values[1]
  {
    PartsBack(d.targets[0]);
    PartsBack(d.targets[1]);
    var p, q := Parts(d.targets[0]), Parts(d.targets[1]);
    hide Parts;
    assert Pack(d) == [OpIndex(d.op), d.count, RefIndex(d.reference), p[0], p[1], p[2], d.values[0], q[0], q[1], q[2],
        d.values[1]];
  }

  lemma {:induction false} PackTargets(d: Delta)
    requires DeltaShape(d)
    ensures InRange(Pack(d)) && TargetOf(Pack(d), 3) == d.targets[0] && TargetOf(Pack(d), 7) == d.targets[1]
  {
    PackCells(d);
    PartsBack(d.targets[0]);
    PartsBack(d.targets[1]);
    var row := Pack(d);
    hide Parts, Pack;
    assert row[3] == row[3..6][0] && row[4] == row[3..6][1] && row[5] == row[3..6][2];
    assert row[7] == row[7..10][0] && row[8] == row[7..10][1] && row[9] == row[7..10][2];
  }

  lemma {:induction false} PackPrefix(d: Delta, n: nat)
    requires DeltaShape(d) && n <= 2 && InRange(Pack(d))
    ensures Targets(Pack(d), n) == d.targets[..n] && Values(Pack(d), n) == d.values[..n]
  {
    PackCells(d);
    PackTargets(d);
    var row := Pack(d);
    hide Pack, Parts, TargetOf, InRange;
    assert Targets(row, 0) == [] && Values(row, 0) == [];
    assert Targets(row, 1) == [d.targets[0]] && Values(row, 1) == [d.values[0]];
    assert Targets(row, 2) == [d.targets[0], d.targets[1]] && Values(row, 2) == [d.values[0], d.values[1]];
    hide Targets, Values;
    assert d.targets[..1] == [d.targets[0]] && d.values[..1] == [d.values[0]];
  }

  /** What decoding makes of an encoded delta. */
  lemma {:induction false} DecodedPack(d: Delta)
    requires DeltaShape(d)
    ensures InRange(Pack(d))
    ensures Decoded(Pack(d), d.reference)
         == Delta(d.op, d.targets[..d.count] + [NONE, NONE][d.count..], d.values[..d.count] + [0, 0][d.count..],
             d.reference, d.count)
  {
    PackCells(d);
    PackPrefix(d, d.count);
    hide Pack, Parts, InRange, Targets, Values, OpIndex;
  }

  /** Decoding an encoded delta gives it back exactly when its unused slots hold the padding. */
  lemma {:induction false} EncodeDecode(d: Delta)
    requires DeltaShape(d)
    ensures InRange(Pack(d))
    ensures Decoded(Pack(d), d.reference) == d
        <==> forall i :: d.count <= i < 2 ==> d.targets[i] == NONE && d.values[i] == 0
  {
    DecodedPack(d);
    hide Pack, Decoded, InRange;
    Padding(d.targets, NONE, d.count);
    Padding(d.values, 0, d.count);
  }

  lemma Padding(xs: seq<nat>, pad: nat, n: nat)
    requires |xs| == 2 && n <= 2
    ensures xs[..n] + [pad, pad][n..] == xs <==> forall i :: n <= i < 2 ==> xs[i] == pad
  {
    var r := xs[..n] + [pad, pad][n..];
    assert r[0] == if n > 0 then xs[0] else pad;
    assert r[1] == if n > 1 then xs[1] else pad;
    assert r == xs <==> r[0] == xs[0] && r[1] == xs[1];
  }

  lemma {:induction false} MadeDelta(op: Op, targets: seq<nat>, values: seq<nat>, reference: Reference)
    requires forall i :: 0 <= i < |targets| ==> targets[i] <= NONE
    requires forall i :: 0 <= i < |values| ==> values[i] <= 4
    ensures var d := MakeDelta(op, targets, values, reference);
            && DeltaShape(d) && d.reference == reference && d.count == (if |targets| < 2 then |targets| else 2)
            && forall i :: 0 <= i < 2
                 ==> d.targets[i] == (if i < |targets| then targets[i] else NONE)
                     && d.values[i] == (if i < |values| then values[i] else 0)
  {
  }

  /** Encoding then decoding `delta(op, targets, values, reference)` gives it back exactly when no value was supplied
      beyond the targets, except zeros. */
  lemma {:induction false} RoundTrip(op: Op, targets: seq<nat>, values: seq<nat>, reference: Reference)
    requires forall i :: 0 <= i < |targets| ==> targets[i] <= NONE
    requires forall i :: 0 <= i < |values| ==> values[i] <= 4
    ensures var d := MakeDelta(op, targets, values, reference);
            InRange(Pack(d)) && (Decoded(Pack(d), reference) == d
                <==> forall i :: |targets| <= i < |values| && i < 2 ==> values[i] == 0)
  {
    hide Pack, Decoded, MakeDelta, InRange, DeltaShape;
    MadeDelta(op, targets, values, reference);
    EncodeDecode(MakeDelta(op, targets, values, reference));
  }

  /** A second value without a second target is lost on the way. */
  lemma {:induction false} SurplusValueLost()
    ensures var d := MakeDelta(Add, [0], [1, 2], Explicit);
            InRange(Pack(d)) && Decoded(Pack(d), Explicit) != d && Decoded(Pack(d), Explicit) == d.(values := [1, 0])
  {
    var d := MakeDelta(Add, [0], [1, 2], Explicit);
    MadeDelta(Add, [0], [1, 2], Explicit);
    assert d.targets == [0, NONE] && d.values == [1, 2];
    hide MakeDelta;
    OneOfTwo(d);
  }

  lemma OneOfTwo(d: Delta)
    requires DeltaShape(d) && d.count == 1 && d.targets[1] == NONE && d.values == [1, 2]
    ensures InRange(Pack(d)) && Decoded(Pack(d), d.reference) == d.(values := [1, 0])
  {
    DecodedPack(d);
    hide Pack, Decoded, InRange;
    assert d.targets[..1] + [NONE, NONE][1..] == d.targets && d.values[..1] + [0, 0][1..] == [1, 0];
  }

  // ---------- the reference resolver ----------

  /** Keys of the given room and object that have a value, in key order. */
  function Active(values: seq<nat>, r: nat, o: nat, n: nat): seq<nat>
    requires n <= |values|
  {
    if n == 0 then []
    else Active(values, r, o, n - 1) + if values[n - 1] != 0 && (n - 1) / 4 == r && (n - 1) % 4 / 2 == o then [n - 1]
        else []
  }

  predicate SetsValues(op: Op) { op.Add? || op.Revise? }

  function Resolved(row: Row, before: State): Row
    requires InRange(row) && |before.values| == 12
  {
    if row[2] == 2 && before.focus < NONE then
      var k := before.focus;
      var moved := row[3 := k / 4][4 := k % 4 / 2];
      if SetsValues(OPS[row[0]]) then moved else moved[5 := k % 2]
    else if row[2] == 3 && row[3] < 3 && row[4] < 2 then
      var active := Active(before.values, row[3], row[4], 12);
      if |active| == 1 && !SetsValues(OPS[row[0]]) then row[5 := active[0] % 2] else row
    else row
  }

  /** Overwrites cells of the cloned predictions, row by row. */
  method Resolve(pred: seq<Row>, befores: seq<State>) returns (out: seq<Row>)
    requires |pred| == |befores| && forall i :: 0 <= i < |pred| ==> InRange(pred[i]) && |befores[i].values| == 12
    ensures |out| == |pred| && forall i :: 0 <= i < |pred| ==> out[i] == Resolved(pred[i], befores[i])
  {
    out := pred;
    for i := 0 to |pred|
      invariant |out| == |pred|
      invariant forall j :: 0 <= j < i ==> out[j] == Resolved(pred[j], befores[j])
      invariant forall j :: i <= j < |pred| ==> out[j] == pred[j]
    {
      var row, before := out[i], befores[i];
      if row[2] == 2 && before.focus < NONE {
        var k := before.focus;
        row := row[3 := k / 4];
        row := row[4 := k % 4 / 2];
        if !SetsValues(OPS[row[0]]) { row := row[5 := k % 2]; }
      } else if row[2] == 3 {
        var r, o := row[3], row[4];
        if r < 3 && o < 2 {
          var active := Active(before.values, r, o, 12);
          if |active| == 1 && !SetsValues(OPS[row[0]]) { row := row[5 := active[0] % 2]; }
        }
      }
      out := out[i := row];
    }
  }

  // ---------- the dialogue generator ----------

  /** One random draw of the generator: what it says next. */
  datatype Choice =
    | SayAdd(first: (nat, nat, nat), second: Option<(nat, nat, nat)>, corrected: bool)
    | SayRevise(value: nat) | SayRetract | SayPause | SayResume
    | SayRetractNamed(key: nat) | SayReviseNamed(key: nat, value: nat)
    | SayRetain | SayOod | SayClear

  function KeyFor(room: nat, obj: nat, value: nat): nat {
    (room * 2 + obj) * 2 + if value >= 3 then 1 else 0
  }

  ghost predicate ItemOk(i: (nat, nat, nat)) { i.0 < 3 && i.1 < 2 && 1 <= i.2 <= 4 }

  function Twin(k: nat): nat { if k % 2 == 0 then k + 1 else k - 1 }

  /** A key that can be named by room and object alone: it has a value and its twin property has none. */
  ghost predicate Nameable(s: State, k: nat) {
    Shape(s) && k < NONE && s.values[k] != 0 && s.values[Twin(k)] == 0
  }

  /** What the generator may draw in this state. */
  ghost predicate Offered(s: State, turn: nat, c: Choice) {
    Shape(s) && (turn == 0 ==> c.SayAdd?) &&
    match c
    case SayAdd(first, second, _) => ItemOk(first) && (second.Some? ==> ItemOk(second.value))
    case SayRevise(v) => s.focus < NONE && s.values[s.focus] != 0 && 1 <= v <= 4
    case SayRetract => s.focus < NONE && s.values[s.focus] != 0
    case SayPause => s.focus < NONE && s.values[s.focus] != 0 && !s.paused[s.focus]
    case SayResume => s.focus < NONE && s.values[s.focus] != 0 && s.paused[s.focus]
    case SayRetractNamed(k) => Nameable(s, k)
    case SayReviseNamed(k, v) => Nameable(s, k) && 1 <= v <= 4
    case _ => true
  }

  /** `{1:2, 2:1, 3:4, 4:3}`. */
  function Flip(v: nat): nat { if v == 1 then 2 else if v == 2 then 1 else if v == 3 then 4 else 3 }

  function Gold(s: State, c: Choice): Delta {
    match c
    case SayAdd(first, second, corrected) =>
      var k := KeyFor(first.0, first.1, first.2);
      if second.Some? && KeyFor(second.value.0, second.value.1, second.value.2) != k
      then MakeDelta(Add, [k, KeyFor(second.value.0, second.value.1, second.value.2)], [first.2, second.value.2],
          Explicit)
      else MakeDelta(Add, [k], [if corrected then Flip(first.2) else first.2], Explicit)
    case SayRevise(v) => MakeDelta(Revise, [s.focus / 2 * 2 + if v >= 3 then 1 else 0], [v], FocusCoreference)
    case SayRetract => MakeDelta(Retract, [s.focus], [], FocusCoreference)
    case SayPause => MakeDelta(Pause, [s.focus], [], FocusCoreference)
    case SayResume => MakeDelta(Resume, [s.focus], [], FocusCoreference)
    case SayRetractNamed(k) => MakeDelta(Retract, [k], [], ExplicitNamed)
    case SayReviseNamed(k, v) => MakeDelta(Revise, [KeyFor(k / 4, k % 4 / 2, v)], [v], ExplicitNamed)
    case SayRetain => MakeDelta(Retain, [], [], NoReference)
    case SayOod => MakeDelta(Ood, [], [], NoReference)
    case SayClear => MakeDelta(Clear, [], [], NoReference)
  }

  lemma GoldShape(s: State, turn: nat, c: Choice)
    requires Offered(s, turn, c)
    ensures DeltaShape(Gold(s, c))
    ensures Gold(s, c).op.Add? || Gold(s, c).op.Revise? ==> Gold(s, c).targets[0] < NONE && Gold(s, c).values[0] >= 1
    ensures Gold(s, c).op.Add? || Gold(s, c).op.Revise? ==> Gold(s, c).targets[1] < NONE ==> Gold(s, c).values[1] >= 1
  {}

  /** Whatever the generator draws, a coherent state stays coherent. */
  lemma {:induction false} GoldKeepsCoherent(s: State, turn: nat, c: Choice)
    requires Coherent(s) && Offered(s, turn, c)
    ensures Coherent(Applied(s, Gold(s, c)))
  {
    GoldShape(s, turn, c);
    ApplyKeepsShape(s, Gold(s, c));
  }

  /** The state with this value in one cell, not paused and in focus. */
  ghost function Given(s: State, k: nat, v: nat): State
    requires |s.values| == |s.paused| == 12 && k < NONE
  {
    State(s.values[k := v], s.paused[k := false], k, s.ood)
  }

  /** A value belongs to its room and object, switches to the first property and levels to the second. */
  lemma {:induction false} KeyForBelongs(room: nat, obj: nat, v: nat)
    requires room < 3 && obj < 2
    ensures var k := KeyFor(room, obj, v);
            k < NONE && k / 4 == room && k % 4 / 2 == obj && (k % 2 == 1 <==> v >= 3)
  {}

  /** What saying something does: an addition gives the named cells their values, a corrected one the opposite value; a
      revision gives the focused or named object the value; and the others do what they say. */
  lemma {:induction false} GoldMeans(s: State, turn: nat, c: Choice)
    requires Offered(s, turn, c)
    ensures var r := Applied(s, Gold(s, c));
            match c
            case SayAdd(a, b, corrected) =>
              var k := KeyFor(a.0, a.1, a.2);
              if b.Some? && KeyFor(b.value.0, b.value.1, b.value.2) != k
              then r == Given(Given(s, k, a.2), KeyFor(b.value.0, b.value.1, b.value.2), b.value.2)
              else r == Given(s, k, if corrected then Flip(a.2) else a.2)
            case SayRevise(v) => r == Given(s, KeyFor(s.focus / 4, s.focus % 4 / 2, v), v)
            case SayReviseNamed(k, v) => r == Given(s, KeyFor(k / 4, k % 4 / 2, v), v)
            case SayRetract => r == State(s.values[s.focus := 0], s.paused[s.focus := false], NONE, s.ood)
            case SayRetractNamed(k) =>
              r == State(s.values[k := 0], s.paused[k := false], if s.focus == k then NONE else s.focus, s.ood)
            case SayPause => r == s.(paused := s.paused[s.focus := true])
            case SayResume => r == s.(paused := s.paused[s.focus := false])
            case SayRetain => r == s
            case SayOod => r == s.(ood := true)
            case SayClear => r == EmptyState()
  {
    match c
    case SayAdd(a, b, corrected) =>
      KeyForBelongs(a.0, a.1, a.2);
      if b.Some? { KeyForBelongs(b.value.0, b.value.1, b.value.2); }
    case SayRevise(v) => SameHalf(s.focus, v);
    case SayReviseNamed(k, v) => KeyForBelongs(k / 4, k % 4 / 2, v);
    case _ =>
  }

  lemma SameHalf(k: nat, v: nat)
    requires k < NONE
    ensures k / 2 * 2 + (if v >= 3 then 1 else 0) == KeyFor(k / 4, k % 4 / 2, v) < NONE
  {}

  lemma {:induction false} OnlyActive(values: seq<nat>, k: nat, n: nat)
    requires |values| == 12 && k < n <= 12 && values[k] != 0 && values[Twin(k)] == 0
    ensures Active(values, k / 4, k % 4 / 2, n) == [k]
    decreases n
  {
    if n - 1 == k {
      NoneActive(values, k, k);
    } else {
      OnlyActive(values, k, n - 1);
      SameObject(n - 1, k);
    }
  }

  lemma {:induction false} NoneActive(values: seq<nat>, k: nat, n: nat)
    requires |values| == 12 && n <= k < 12 && values[Twin(k)] == 0
    ensures Active(values, k / 4, k % 4 / 2, n) == []
  {
    if n > 0 {
      NoneActive(values, k, n - 1);
      SameObject(n - 1, k);
    }
  }

  lemma {:induction false} SameObject(a: nat, b: nat)
    ensures a / 4 == b / 4 && a % 4 / 2 == b % 4 / 2 ==> a == b || a == Twin(b)
  {
    Quarters(a);
    Quarters(b);
  }

  lemma Quarters(a: nat)
    ensures a == a / 4 * 4 + a % 4 / 2 * 2 + a % 2
  {
    assert a % 4 % 2 == a % 2;
  }

  /** `k` is the only key of the room and object with a value. */
  ghost predicate Sole(values: seq<nat>, r: nat, o: nat, k: nat)
    requires |values| == 12
  {
    && k < NONE && Fits(values, r, o, k)
    && forall m :: 0 <= m < NONE && Fits(values, r, o, m) ==> m == k
  }

  ghost predicate Fits(values: seq<nat>, r: nat, o: nat, k: nat)
    requires k < |values|
  {
    values[k] != 0 && k / 4 == r && k % 4 / 2 == o
  }

  lemma {:induction false} ActiveMembers(values: seq<nat>, r: nat, o: nat, n: nat)
    requires n <= |values|
    ensures forall k: nat :: k in Active(values, r, o, n) <==> k < n && Fits(values, r, o, k)
  {
    if n > 0 { ActiveMembers(values, r, o, n - 1); }
  }

  /** The resolver finds one active key exactly when there is one. */
  lemma {:induction false} OneActive(values: seq<nat>, r: nat, o: nat)
    requires |values| == 12
    ensures |Active(values, r, o, 12)| == 1 ==> Sole(values, r, o, Active(values, r, o, 12)[0])
    ensures forall k: nat :: Sole(values, r, o, k) ==> Active(values, r, o, 12) == [k]
  {
    ActiveMembers(values, r, o, 12);
    var active := Active(values, r, o, 12);
    if |active| == 1 { assert active[0] in active; }
    forall k: nat | Sole(values, r, o, k) ensures active == [k] {
      SameObject(Twin(k), k);
      TwinShares(k);
      assert !Fits(values, r, o, Twin(k));
      OnlyActive(values, k, 12);
    }
  }

  lemma TwinShares(k: nat)
    requires k < NONE
    ensures Twin(k) < NONE && Twin(k) != k && Twin(k) / 4 == k / 4 && Twin(k) % 4 / 2 == k % 4 / 2
  {}

  /** The focus is meant: its room and object replace the predicted ones, and its property too unless a value is set. */
  lemma {:induction false} FocusIsMeant(row: Row, s: State)
    requires InRange(row) && Shape(s) && REFS[row[2]].FocusCoreference? && s.focus < NONE
    ensures InRange(Resolved(row, s)) && Resolved(row, s)[3..5] == Parts(s.focus)[..2]
    ensures Resolved(row, s)[5] == if SetsValues(OPS[row[0]]) then row[5] else Parts(s.focus)[2]
    ensures var d, k := Decoded(Resolved(row, s), FocusCoreference), s.focus;
            d.count > 0 ==>
              && (!SetsValues(d.op) ==> d.targets[0] == k)
              && (SetsValues(d.op) && row[5] == 2 ==> d.targets[0] == NONE)
              && (SetsValues(d.op) && row[5] < 2 ==> d.targets[0] / 4 == k / 4 && d.targets[0] % 4 / 2 == k % 4 / 2)
              && (SetsValues(d.op) && row[5] < 2 ==> d.targets[0] % 2 == row[5])
  {
    var r := Resolved(row, s);
    DecodedSlots(r, FocusCoreference);
    TargetNames(r, 3);
    Quarters(s.focus);
    Quarters(TargetOf(r, 3));
    hide Decoded, TargetOf, Active;
  }

  /** A room and object with one active key mean that key, unless a value is set. */
  lemma {:induction false} SoleKeyIsMeant(row: Row, s: State, k: nat)
    requires InRange(row) && Shape(s) && REFS[row[2]].ExplicitNamed? && !SetsValues(OPS[row[0]])
    requires Sole(s.values, row[3], row[4], k)
    ensures InRange(Resolved(row, s)) && Resolved(row, s)[3..6] == Parts(k)
    ensures var d := Decoded(Resolved(row, s), ExplicitNamed); d.count > 0 ==> d.targets[0] == k
  {
    OneActive(s.values, row[3], row[4]);
    var r := Resolved(row, s);
    assert r == row[5 := k % 2];
    DecodedSlots(r, ExplicitNamed);
    TargetNames(r, 3);
    Quarters(k);
    Quarters(TargetOf(r, 3));
    hide Decoded, TargetOf, Active, Resolved;
  }

  /** Nothing else is resolved: only the first target can change, and it stays as predicted unless the focus or a sole
      active key is meant. */
  lemma {:induction false} RestAsPredicted(row: Row, s: State)
    requires InRange(row) && Shape(s)
    ensures var r := Resolved(row, s);
            |r| == 11 && forall c :: 0 <= c < 11 && !(3 <= c <= 5) ==> r[c] == row[c]
    ensures InRange(Resolved(row, s))
    ensures var ref, r := REFS[row[2]], Resolved(row, s);
            Decoded(r, ref) == Decoded(row, ref).(targets := [Decoded(r, ref).targets[0], Decoded(row, ref).targets[1]])
    ensures var ref := REFS[row[2]];
            || Resolved(row, s) == row || (ref.FocusCoreference? && s.focus < NONE)
            || (ref.ExplicitNamed? && !SetsValues(OPS[row[0]]) && exists k: nat :: Sole(s.values, row[3], row[4], k))
  {
    var r := Resolved(row, s);
    OneActive(s.values, row[3], row[4]);
    hide Active, Sole;
    DecodedSlots(row, REFS[row[2]]);
    DecodedSlots(r, REFS[row[2]]);
    assert TargetOf(r, 7) == TargetOf(row, 7);
    hide Decoded, TargetOf;
  }

  /** Resolving twice is resolving once, on every in-range network row. */
  lemma {:induction false} ResolveIdempotent(row: Row, before: State)
    requires InRange(row) && |before.values| == 12 && before.focus <= NONE
    ensures InRange(Resolved(row, before)) && Resolved(Resolved(row, before), before) == Resolved(row, before)
  {
    hide Active;
  }

  /** The packed gold row of any generated turn is a fixed point of the reference resolver. */
  lemma {:induction false} GoldIsFixedPoint(s: State, turn: nat, c: Choice)
    requires Offered(s, turn, c)
    ensures InRange(Pack(Gold(s, c))) && Resolved(Pack(Gold(s, c)), s) == Pack(Gold(s, c))
  {
    GoldShape(s, turn, c);
    var d := Gold(s, c);
    PackCells(d);
    var row := Pack(d);
    hide Pack, Resolved, Active, Twin, DeltaShape;
    assert row[3] == row[3..6][0] && row[4] == row[3..6][1] && row[5] == row[3..6][2];
    AlreadyMeant(row, s);
    match c
    case SayRetractNamed(k) => OnlyActive(s.values, k, 12);
    case SayRevise(v) => HalfKey(s.focus, v);
    case _ =>
  }

  ghost predicate NamesFocus(row: Row, s: State)
    requires InRange(row)
  {
    row[3] == s.focus / 4 && row[4] == s.focus % 4 / 2 && (SetsValues(OPS[row[0]]) || row[5] == s.focus % 2)
  }

  ghost predicate NamesActive(row: Row, s: State)
    requires InRange(row) && |s.values| == 12
  {
    var active := Active(s.values, row[3], row[4], 12);
    SetsValues(OPS[row[0]]) || (|active| == 1 && row[5] == active[0] % 2)
  }

  /** A row that names what is meant already is left alone. */
  lemma AlreadyMeant(row: Row, s: State)
    requires InRange(row) && |s.values| == 12
    ensures (row[2] == 2 && s.focus < NONE ==> NamesFocus(row, s)) && (row[2] == 3 ==> NamesActive(row, s))
        ==> Resolved(row, s) == row
  {
    hide Active;
  }

  lemma HalfKey(k: nat, v: nat)
    requires k < NONE
    ensures var m := k / 2 * 2 + if v >= 3 then 1 else 0; m < NONE && m / 4 == k / 4 && m % 4 / 2 == k % 4 / 2
  {}

  datatype Turn = Turn(before: State, delta: Delta, after: State)

  /** A generated turn: coherent states, a delta that explains the change, labels the resolver leaves alone and
      the encoding gives back. */
  ghost predicate GoldTurn(t: Turn) {
    && Coherent(t.before) && Coherent(t.after) && DeltaShape(t.delta) && t.after == Applied(t.before, t.delta)
    && InRange(Pack(t.delta)) && Resolved(Pack(t.delta), t.before) == Pack(t.delta)
    && Decoded(Pack(t.delta), t.delta.reference) == t.delta
  }

  /** No surplus values: the encoding gives the delta back. */
  lemma {:induction false} RoundTripFull(op: Op, targets: seq<nat>, values: seq<nat>, reference: Reference)
    requires forall i :: 0 <= i < |targets| ==> targets[i] <= NONE
    requires forall i :: 0 <= i < |values| ==> values[i] <= 4
    requires |values| <= |targets|
    ensures var d := MakeDelta(op, targets, values, reference); InRange(Pack(d)) && Decoded(Pack(d), d.reference) == d
  {
    RoundTrip(op, targets, values, reference);
    hide Pack, Decoded, InRange;
  }

  lemma {:induction false} GoldRoundTrip(s: State, turn: nat, c: Choice)
    requires Offered(s, turn, c)
    ensures InRange(Pack(Gold(s, c))) && Decoded(Pack(Gold(s, c)), Gold(s, c).reference) == Gold(s, c)
  {
    hide Pack, Decoded, InRange, MakeDelta;
    match c
    case SayAdd(first, second, corrected) =>
      var k := KeyFor(first.0, first.1, first.2);
      if second.Some? && KeyFor(second.value.0, second.value.1, second.value.2) != k {
        RoundTripFull(Add, [k, KeyFor(second.value.0, second.value.1, second.value.2)], [first.2, second.value.2],
            Explicit);
      } else {
        RoundTripFull(Add, [k], [if corrected then Flip(first.2) else first.2], Explicit);
      }
    case SayRevise(v) => RoundTripFull(Revise, [s.focus / 2 * 2 + if v >= 3 then 1 else 0], [v], FocusCoreference);
    case SayRetract => RoundTripFull(Retract, [s.focus], [], FocusCoreference);
    case SayPause => RoundTripFull(Pause, [s.focus], [], FocusCoreference);
    case SayResume => RoundTripFull(Resume, [s.focus], [], FocusCoreference);
    case SayRetractNamed(k) => RoundTripFull(Retract, [k], [], ExplicitNamed);
    case SayReviseNamed(k, v) => RoundTripFull(Revise, [KeyFor(k / 4, k % 4 / 2, v)], [v], ExplicitNamed);
    case SayRetain => RoundTripFull(Retain, [], [], NoReference);
    case SayOod => RoundTripFull(Ood, [], [], NoReference);
    case SayClear => RoundTripFull(Clear, [], [], NoReference);
  }

  /** One generated dialogue of `length` turns; `draw` stands for the random generator. */
  method MakeDialogue(draw: (State, nat) -> Choice, length: nat) returns (turns: seq<Turn>)
    requires forall s, t :: Coherent(s) ==> Offered(s, t, draw(s, t))
    ensures |turns| == length && forall i :: 0 <= i < length ==> GoldTurn(turns[i])
    ensures forall i :: 0 <= i < length ==> turns[i].delta == Gold(turns[i].before, draw(turns[i].before, i))
    ensures forall i :: 1 <= i < length ==> turns[i].before == turns[i - 1].after
    ensures length > 0 ==> turns[0].before == EmptyState()
  {
    hide Offered, Applied, Gold, Pack, Resolved, Decoded, InRange;
    var state := EmptyState();
    turns := [];
    for i := 0 to length
      invariant |turns| == i && Coherent(state) && state == (if i == 0 then EmptyState() else turns[i - 1].after)
      invariant forall j :: 0 <= j < i ==> GoldTurn(turns[j])
      invariant forall j :: 0 <= j < i ==> turns[j].delta == Gold(turns[j].before, draw(turns[j].before, j))
      invariant forall j :: 1 <= j < i ==> turns[j].before == turns[j - 1].after
      invariant i > 0 ==> turns[0].before == EmptyState()
    {
      var c := draw(state, i);
      GoldShape(state, i, c);
      GoldKeepsCoherent(state, i, c);
      GoldIsFixedPoint(state, i, c);
      GoldRoundTrip(state, i, c);
      var d := Gold(state, c);
      var after := Apply(state, d);
      turns := turns + [Turn(state, d, after)];
      assert GoldTurn(turns[i]);
      state := after;
    }
  }
}
