/** The local inference loop and the evidence it records. */
module InferenceSession {
  import opened Wrappers
  import opened TrajectoryStore
  import Dialogue = DialogueDelta

  /** Everything about one turn the loop does not compute: the text, whether it carries the cue for clearing all and the
      cue for retracting, the predicted row, and whether inference raises. */
  datatype Input = Input(text: Json, clearCue: bool, retractCue: bool, raw: Dialogue.Row, raises: bool)

  /** What a session carries from turn to turn: the dialogue state and the pending out-of-domain requests. */
  datatype Progress = Progress(state: Dialogue.State, pending: seq<Json>)

  /** How values are shown as JSON; any functions will do. */
  datatype Display = Display(state: Dialogue.State -> Json, row: Dialogue.Row -> Json)

  datatype Verdict = Allowed | ClearRequiresExplicitAll | RetractRequiresExplicitCue

  /** `authorized`: clearing and retracting need their cue in the text. */
  function Authorized(op: Dialogue.Op, x: Input): Verdict {
    if op.Clear? && !x.clearCue then ClearRequiresExplicitAll
    else if op.Retract? && !x.retractCue then RetractRequiresExplicitCue
    else Allowed
  }

  function Reason(v: Verdict): Json {
    match v
    case Allowed => Null
    case ClearRequiresExplicitAll => Str("clear_requires_explicit_all")
    case RetractRequiresExplicitCue => Str("retract_requires_explicit_cue")
  }

  function Pending(text: Json): Json {
    Obj(map[Other("text") := text, Other("status") := Str("pending_generation")])
  }

  function Execute(v: Verdict, pending: seq<Json>): Json {
    Obj(map[Other("accepted") := Bool(v.Allowed?), Other("reason") := Reason(v), Other("pending_ood") := Arr(pending)])
  }

  function Observed(x: Input, ep: string, id: string, step: nat, before: Progress, after: Progress,
                    resolved: Dialogue.Row, v: Verdict, show: Display, runtime: Json, sha: Json): Event {
    map[EventId := Str(id), EpisodeId := Str(ep), StepNo := Int(step), Observation := x.text,
        StateBefore := show.state(before.state), RawAction := show.row(x.raw), Action := show.row(resolved),
        StateAfter := show.state(after.state), Provenance := Obj(map[Runtime := runtime, ModelSha := sha]),
        Execution := Execute(v, after.pending)]
  }

  ghost predicate InputOk(x: Input) { Dialogue.InRange(x.raw) }

  ghost predicate InputsOk(inputs: seq<Input>) { forall i :: 0 <= i < |inputs| ==> InputOk(inputs[i]) }

  const START := Progress(Dialogue.EmptyState(), [])

  /** The delta a prediction stands for in a state. */
  function DeltaOf(x: Input, state: Dialogue.State): (d: Dialogue.Delta)
    requires Dialogue.InRange(x.raw) && Dialogue.Shape(state)
    ensures Dialogue.DeltaShape(d) && d.op == Dialogue.OPS[x.raw[0]]
  {
    var resolved := Dialogue.Resolved(x.raw, state);
    Dialogue.DecodeTotal(resolved, Dialogue.REFS[resolved[2]]);
    Dialogue.Decoded(resolved, Dialogue.REFS[resolved[2]])
  }

  /** Where one turn leads: the resolved delta applied if the gate allows it, an allowed out-of-domain request
      noted, and the notes dropped by an allowed clear. */
  function Next(x: Input, p: Progress): (r: Progress)
    requires Dialogue.InRange(x.raw) && Dialogue.Shape(p.state)
    ensures Dialogue.Shape(r.state)
  {
    var d := DeltaOf(x, p.state);
    Dialogue.ApplyKeepsShape(p.state, d);
    if !Authorized(d.op, x).Allowed? then p
    else Progress(Dialogue.Applied(p.state, d), if d.op.Ood? then p.pending + [Pending(x.text)]
        else if d.op.Clear? then [] else p.pending)
  }

  /** Where the first `n` turns lead. */
  ghost function After(inputs: seq<Input>, n: nat): (r: Progress)
    requires n <= |inputs| && InputsOk(inputs)
    ensures Dialogue.Shape(r.state)
  {
    if n == 0 then START else assert InputOk(inputs[n - 1]); Next(inputs[n - 1], After(inputs, n - 1))
  }

  lemma AfterNext(inputs: seq<Input>, n: nat)
    requires n < |inputs| && InputsOk(inputs)
    ensures InputOk(inputs[n]) && Dialogue.Shape(After(inputs, n).state)
    ensures After(inputs, n + 1) == Next(inputs[n], After(inputs, n))
  {
    assert InputOk(inputs[n]);
    hide Next, Dialogue.Shape;
  }

  /** One turn: resolve the predicted references, decode the delta, gate it, apply it if allowed. */
  method TakeTurn(x: Input, p: Progress) returns (resolved: Dialogue.Row, v: Verdict, after: Progress)
    requires InputOk(x) && Dialogue.Shape(p.state)
    ensures resolved == Dialogue.Resolved(x.raw, p.state) && Dialogue.InRange(resolved)
    ensures v == Authorized(Dialogue.OPS[x.raw[0]], x)
    ensures after == Next(x, p) && Dialogue.Shape(after.state)
  {
    var rows := Dialogue.Resolve([x.raw], [p.state]);
    resolved := rows[0];
    assert DeltaOf(x, p.state) == Dialogue.Decoded(resolved, Dialogue.REFS[resolved[2]]);
    hide Dialogue.Resolved, Dialogue.Applied, DeltaOf, Dialogue.DeltaShape;
    Dialogue.DecodeTotal(resolved, Dialogue.REFS[resolved[2]]);
    var d := Dialogue.TensorDelta(resolved, Dialogue.REFS[resolved[2]]);
    v := Authorized(d.op, x);
    var state, pending := p.state, p.pending;
    if v.Allowed? {
      Dialogue.ApplyKeepsShape(p.state, d);
      state := Dialogue.Apply(p.state, d);
      if d.op.Ood? { pending := pending + [Pending(x.text)]; }
      if d.op.Clear? { pending := []; }
    }
    after := Progress(state, pending);
  }

  // ---------- what one turn does ----------

  /** A clear without its cue, or a retraction without its. */
  ghost predicate Uncued(op: Dialogue.Op, x: Input) {
    (op.Clear? && !x.clearCue) || (op.Retract? && !x.retractCue)
  }

  /** The gate refuses exactly the clears and retractions without their cue; a refused turn changes nothing, any other
      applies the resolved delta, in full. */
  lemma {:induction false} GateExactly(x: Input, p: Progress)
    requires InputOk(x) && Dialogue.Shape(p.state)
    ensures var op, v := Dialogue.OPS[x.raw[0]], Authorized(Dialogue.OPS[x.raw[0]], x);
            && (v.Allowed? <==> !Uncued(op, x))
            && (v == ClearRequiresExplicitAll <==> op.Clear? && !x.clearCue)
            && (if Uncued(op, x) then Next(x, p) == p
                else Next(x, p).state == Dialogue.Applied(p.state, DeltaOf(x, p.state)))
  {
    hide Dialogue.Resolved, Dialogue.Applied, DeltaOf, Dialogue.Shape;
  }

  /** The key a one-target turn without a value means: the focus it refers to, or the one active key of the named room
      and object. */
  ghost predicate Meant(x: Input, state: Dialogue.State, k: nat)
    requires InputOk(x) && Dialogue.Shape(state)
  {
    && x.raw[1] == 1 && k < Dialogue.NONE && !Dialogue.SetsValues(Dialogue.OPS[x.raw[0]])
    && match Dialogue.REFS[x.raw[2]]
       case FocusCoreference => k == state.focus
       case ExplicitNamed => Dialogue.Sole(state.values, x.raw[3], x.raw[4], k)
       case _ => false
  }

  lemma {:induction false} MeantIsTarget(x: Input, state: Dialogue.State, k: nat)
    requires InputOk(x) && Dialogue.Shape(state) && Meant(x, state, k)
    ensures DeltaOf(x, state).targets == [k, Dialogue.NONE]
  {
    var ref, r := Dialogue.REFS[x.raw[2]], Dialogue.Resolved(x.raw, state);
    Dialogue.RestAsPredicted(x.raw, state);
    Dialogue.DecodedSlots(r, ref);
    if ref.FocusCoreference? {
      Dialogue.FocusIsMeant(x.raw, state);
    } else {
      Dialogue.SoleKeyIsMeant(x.raw, state, k);
    }
    hide Dialogue.Resolved, Dialogue.Decoded, Dialogue.Sole;
  }

  /** A pause, resumption or retraction of one target acts on the key that is meant, whatever property was predicted,
      and on no other; a retraction without its cue does nothing. */
  lemma {:induction false} ActsOnMeant(x: Input, p: Progress, k: nat, m: nat)
    requires InputOk(x) && Dialogue.Shape(p.state) && Meant(x, p.state, k) && m < Dialogue.NONE
    ensures var op, s, r := Dialogue.OPS[x.raw[0]], p.state, Next(x, p).state;
            && (op.Pause? ==> r.paused[m] == (m == k || s.paused[m]) && r.values[m] == s.values[m])
            && (op.Resume? ==> r.paused[m] == (m != k && s.paused[m]) && r.values[m] == s.values[m])
            && (op.Retract? && x.retractCue
                ==> r.values[m] == (if m == k then 0 else s.values[m]) && r.paused[m] == (m != k && s.paused[m]))
            && (op.Retract? && !x.retractCue ==> r == s)
  {
    MeantIsTarget(x, p.state, k);
    GateExactly(x, p);
    var d := DeltaOf(x, p.state);
    if !d.op.Clear? { Dialogue.DeltaTouchesTargets(p.state, d, m); }
    hide Dialogue.Resolved, Dialogue.Applied, DeltaOf, Dialogue.DeltaShape, Next;
  }

  // ---------- what only a cue can undo ----------

  ghost predicate Clears(x: Input) {
    |x.raw| > 0 && x.raw[0] < 8 && Dialogue.OPS[x.raw[0]].Clear? && x.clearCue
  }

  ghost predicate AsksOutside(x: Input) {
    |x.raw| > 0 && x.raw[0] < 8 && Dialogue.OPS[x.raw[0]].Ood?
  }

  /** This turn empties the cell: an allowed clear, an allowed retraction of it, or the value 0 set for it. */
  ghost predicate Empties(x: Input, state: Dialogue.State, k: nat)
    requires InputOk(x) && Dialogue.Shape(state)
  {
    var d := DeltaOf(x, state);
    match d.op
    case Clear => x.clearCue
    case Retract => x.retractCue && Dialogue.Hits(d, k)
    case Add => Dialogue.Hits(d, k) && (if d.targets[1] == k then d.values[1] else d.values[0]) == 0
    case Revise => Dialogue.Hits(d, k) && (if d.targets[1] == k then d.values[1] else d.values[0]) == 0
    case _ => false
  }

  lemma {:induction false} TurnEmpties(x: Input, p: Progress, k: nat)
    requires InputOk(x) && Dialogue.Shape(p.state) && k < Dialogue.NONE
    requires p.state.values[k] != 0 && Next(x, p).state.values[k] == 0
    ensures Empties(x, p.state, k)
  {
    var d := DeltaOf(x, p.state);
    if !d.op.Clear? { Dialogue.DeltaTouchesTargets(p.state, d, k); }
    hide Dialogue.Resolved, Dialogue.Applied, DeltaOf, Dialogue.DeltaShape;
  }

  /** What the cell holds after `n` turns. */
  ghost function ValueAt(inputs: seq<Input>, n: nat, k: nat): nat
    requires n <= |inputs| && InputsOk(inputs) && k < Dialogue.NONE
  {
    After(inputs, n).state.values[k]
  }

  /** Turn `i` empties the cell. */
  ghost predicate EmptiesAt(inputs: seq<Input>, i: nat, k: nat)
    requires i < |inputs| && InputsOk(inputs)
  {
    InputOk(inputs[i]) && Empties(inputs[i], After(inputs, i).state, k)
  }

  lemma ValueLost(inputs: seq<Input>, i: nat, k: nat)
    requires i < |inputs| && InputsOk(inputs) && k < Dialogue.NONE && ValueAt(inputs, i, k) != 0
    requires ValueAt(inputs, i + 1, k) == 0
    ensures EmptiesAt(inputs, i, k)
  {
    AfterNext(inputs, i);
    hide Next, After, Empties, Dialogue.InRange;
    TurnEmpties(inputs[i], After(inputs, i), k);
  }

  /** Over every session a value vanishes only by a turn that empties its cell; without the cue for clearing all no
      clear does, and without the cue for retracting no retraction does. */
  lemma {:induction false} ValuesNeedACue(inputs: seq<Input>, m: nat, n: nat, k: nat)
    requires m <= n <= |inputs| && InputsOk(inputs) && k < Dialogue.NONE
    requires ValueAt(inputs, m, k) != 0 && ValueAt(inputs, n, k) == 0
    ensures exists i :: m <= i < n && EmptiesAt(inputs, i, k)
    decreases n
  {
    hide *;
    if ValueAt(inputs, n - 1, k) == 0 { ValuesNeedACue(inputs, m, n - 1, k); } else { ValueLost(inputs, n - 1, k); }
  }

  /** The requests outside the domain among turns `c` to `n`, in order. */
  ghost function Asked(inputs: seq<Input>, c: nat, n: nat): seq<Json>
    requires c <= n <= |inputs|
  {
    if n == c then [] else Asked(inputs, c, n - 1) + if AsksOutside(inputs[n - 1]) then [Pending(inputs[n - 1].text)]
        else []
  }

  /** Turn `c` is the first after the last allowed clear. */
  ghost predicate SinceClear(inputs: seq<Input>, c: nat, n: nat) {
    && c <= n <= |inputs| && (c > 0 ==> Clears(inputs[c - 1]))
    && forall i :: c <= i < n ==> !Clears(inputs[i])
  }

  lemma SinceNext(inputs: seq<Input>, b: nat, n: nat)
    requires 0 < n <= |inputs| && SinceClear(inputs, b, n - 1)
    ensures !Clears(inputs[n - 1]) ==> SinceClear(inputs, b, n)
    ensures Asked(inputs, b, n)
       == Asked(inputs, b, n - 1) + if AsksOutside(inputs[n - 1]) then [Pending(inputs[n - 1].text)] else []
  {
    hide Clears, AsksOutside;
  }

  lemma NoneYet(inputs: seq<Input>, n: nat)
    requires n <= |inputs|
    ensures n == 0 || Clears(inputs[n - 1]) ==> SinceClear(inputs, n, n) && Asked(inputs, n, n) == []
    ensures InputsOk(inputs) ==> After(inputs, 0).pending == [] && !After(inputs, 0).state.ood
  {
    hide Clears;
  }

  lemma PendingAfterTurn(x: Input, p: Progress)
    requires InputOk(x) && Dialogue.Shape(p.state)
    ensures Next(x, p).pending
       == if Clears(x) then [] else if AsksOutside(x) then p.pending + [Pending(x.text)] else p.pending
    ensures Next(x, p).state.ood == if Clears(x) then false else p.state.ood || AsksOutside(x)
  {
    var d := DeltaOf(x, p.state);
    if !d.op.Clear? { Dialogue.FocusAfter(p.state, d); }
    hide Dialogue.Resolved, DeltaOf, Dialogue.DeltaShape;
  }

  /** Over every session exactly the out-of-domain requests since the last allowed clear are pending, and the state is
      flagged out of domain exactly while some are. */
  lemma {:induction false} PendingExactly(inputs: seq<Input>, n: nat) returns (c: nat)
    requires n <= |inputs| && InputsOk(inputs)
    ensures SinceClear(inputs, c, n) && After(inputs, n).pending == Asked(inputs, c, n)
    ensures After(inputs, n).state.ood <==> After(inputs, n).pending != []
  {
    hide *;
    c := n;
    NoneYet(inputs, n);
    if n > 0 {
      var b := PendingExactly(inputs, n - 1);
      AfterNext(inputs, n - 1);
      PendingAfterTurn(inputs[n - 1], After(inputs, n - 1));
      SinceNext(inputs, b, n);
      if !Clears(inputs[n - 1]) { c := b; }
    }
  }

  // ---------- the evidence of a session ----------

  /** The session's evidence so far: `n` chained turns of an open episode ending in this state. */
  ghost predicate Ongoing(db: Db, ep: string, n: nat, last: Json, ids: seq<string>) {
    && Inv(db) && |Log(db.turns, ep)| == n
    && (if n == 0 then ep !in db.episodes
        else ep in db.episodes && !db.episodes[ep].closed
             && StateAfter in Log(db.turns, ep)[n - 1].payload && Log(db.turns, ep)[n - 1].payload[StateAfter] == last)
    && Unused(db.turns, ids, n)
  }

  ghost predicate Unused(turns: seq<Turn>, ids: seq<string>, n: nat) {
    forall i :: n <= i < |ids| ==> FindTurn(turns, ids[i]).None?
  }

  lemma StillUnused(turns: seq<Turn>, ids: seq<string>, n: nat, t: Turn)
    requires Unused(turns, ids, n) && n < |ids| && t.id == ids[n]
    requires forall i, j :: 0 <= i < j < |ids| ==> ids[i] != ids[j]
    ensures Unused(turns + [t], ids, n + 1)
  {
    hide FindTurn;
    forall i | n + 1 <= i < |ids| ensures FindTurn(turns + [t], ids[i]).None? { FindTurnSnoc(turns, t, ids[i]); }
  }

  lemma NextIsAccepted(db: Db, ep: string, n: nat, last: Json, ids: seq<string>, e: Event, before: Json, after: Json)
    requires Ongoing(db, ep, n, last, ids) && n < |ids| && IsTurn(e, ep, ids[n], n + 1, before, after)
    requires (n > 0 ==> before == last)
    ensures RecordOutcome(db, e) == Accepted(true)
  {
    hide Inv, Log, FindTurn;
  }

  /** The store cannot refuse the next turn of an ongoing session, and the session goes on. */
  lemma {:induction false} GoesOn(db: Db, ep: string, n: nat, last: Json, ids: seq<string>, e: Event, before: Json,
                                  after: Json)
    requires Ongoing(db, ep, n, last, ids) && n < |ids| && IsTurn(e, ep, ids[n], n + 1, before, after)
    requires (n > 0 ==> before == last)
    requires forall i, j :: 0 <= i < j < |ids| ==> ids[i] != ids[j]
    ensures RecordOutcome(db, e) == Accepted(true)
    ensures Ongoing(AfterRecord(db, e), ep, n + 1, after, ids)
  {
    NextIsAccepted(db, ep, n, last, ids, e, before, after);
    ApplyKeepsInv(db, Record(e));
    LogSnoc(db.turns, Row(e), ep);
    StillUnused(db.turns, ids, n, Row(e));
    assert AfterRecord(db, e).turns == db.turns + [Row(e)];
    assert Row(e).payload == e;
    EpisodeAfter(db, e);
    hide Inv, Log, RecordOutcome, WellFormed, Unused, AfterRecord, Row;
  }

  /** Recording opens an unknown episode and leaves a known one as it was. */
  lemma EpisodeAfter(db: Db, e: Event)
    requires RecordOutcome(db, e) == Accepted(true)
    ensures var ep, d := Row(e).episode, AfterRecord(db, e);
            ep in d.episodes && (ep in db.episodes ==> d.episodes[ep].closed == db.episodes[ep].closed)
                && (ep !in db.episodes ==> !d.episodes[ep].closed)
  {
    hide Inv, Log, FindTurn;
  }

  lemma StartIsOngoing(db: Db, ep: string, ids: seq<string>, last: Json)
    requires Inv(db) && ep !in db.episodes && Unused(db.turns, ids, 0)
    ensures Ongoing(db, ep, 0, last, ids)
  {
    UnknownNoLog(db.turns, db.episodes, ep);
  }

  function Ended(raised: bool): Episode {
    Episode(true, false, Some(if raised then "runtime_error" else "input_exhausted"))
  }

  /** What the store reads off a recorded turn. */
  ghost predicate IsTurn(e: Event, ep: string, id: string, step: nat, before: Json, after: Json) {
    && WellFormed(e) && Row(e).id == id && Row(e).episode == ep && Row(e).step == step
    && StateBefore in e && e[StateBefore] == before && StateAfter in e && e[StateAfter] == after
  }

  lemma ObservedIsTurn(x: Input, ep: string, id: string, step: nat, before: Progress, after: Progress,
                       resolved: Dialogue.Row, v: Verdict, show: Display, runtime: Json, sha: Json)
    requires ep != "" && id != "" && step >= 1 && Truthy(runtime)
    ensures IsTurn(Observed(x, ep, id, step, before, after, resolved, v, show, runtime, sha), ep, id, step,
        show.state(before.state), show.state(after.state))
  {}

  /** The evidence turn `i` of a session must leave. */
  ghost function Evidence(inputs: seq<Input>, i: nat, ep: string, ids: seq<string>, show: Display, runtime: Json,
                          sha: Json): Event
    requires i < |inputs| && |ids| == |inputs| && InputsOk(inputs)
  {
    var before := After(inputs, i);
    assert InputOk(inputs[i]);
    Observed(inputs[i], ep, ids[i], i + 1, before, After(inputs, i + 1), Dialogue.Resolved(inputs[i].raw, before.state),
             Authorized(Dialogue.OPS[inputs[i].raw[0]], inputs[i]), show, runtime, sha)
  }

  /** The log holds the evidence of the first `n` turns and nothing else. */
  ghost predicate Recorded(log: seq<Turn>, inputs: seq<Input>, n: nat, ep: string, ids: seq<string>, show: Display,
                           runtime: Json, sha: Json)
    requires n <= |inputs| && |ids| == |inputs| && InputsOk(inputs)
  {
    |log| == n && forall i :: 0 <= i < n
                   ==> log[i] == Stored(Evidence(inputs, i, ep, ids, show, runtime, sha), ep, ids[i], i + 1)
  }

  ghost predicate GoodIds(ids: seq<string>) {
    (forall i :: 0 <= i < |ids| ==> ids[i] != "") && forall i, j :: 0 <= i < j < |ids| ==> ids[i] != ids[j]
  }

  /** The row of a recorded turn. */
  function Stored(e: Event, ep: string, id: string, step: nat): Turn {
    Turn(id, ep, step, e, None)
  }

  /** One turn and its record. */
  method PlayTurn(store: Store, x: Input, before: Progress, ep: string, ids: seq<string>, n: nat,
                  show: Display, runtime: Json, sha: Json) returns (after: Progress)
    requires Ongoing(store.Tables(), ep, n, show.state(before.state), ids) && n < |ids| && GoodIds(ids) && ep != ""
    requires Truthy(runtime)
    requires InputOk(x) && Dialogue.Shape(before.state)
    modifies store
    ensures after == Next(x, before) && Dialogue.Shape(after.state)
    ensures Ongoing(store.Tables(), ep, n + 1, show.state(after.state), ids)
    ensures Log(store.turns, ep) == old(Log(store.turns, ep))
      + [Stored(Observed(x, ep, ids[n], n + 1, before, after, Dialogue.Resolved(x.raw, before.state),
                         Authorized(Dialogue.OPS[x.raw[0]], x), show, runtime, sha), ep, ids[n], n + 1)]
  {
    assert ids[n] != "";
    hide *;
    var resolved, v;
    resolved, v, after := TakeTurn(x, before);
    var e := Observed(x, ep, ids[n], n + 1, before, after, resolved, v, show, runtime, sha);
    ObservedIsTurn(x, ep, ids[n], n + 1, before, after, resolved, v, show, runtime, sha);
    TurnIsLogged(store.Tables(), ep, n, ids, e, show.state(before.state), show.state(after.state));
    var o := store.Record(e);
  }

  lemma TurnIsLogged(db: Db, ep: string, n: nat, ids: seq<string>, e: Event, before: Json, after: Json)
    requires Ongoing(db, ep, n, before, ids) && n < |ids| && GoodIds(ids) && IsTurn(e, ep, ids[n], n + 1, before, after)
    ensures Inv(db) && WellFormed(e) && Ongoing(AfterRecord(db, e), ep, n + 1, after, ids)
    ensures Log(AfterRecord(db, e).turns, ep) == Log(db.turns, ep) + [Stored(e, ep, ids[n], n + 1)]
  {
    GoesOn(db, ep, n, before, ids, e, before, after);
    hide Ongoing, Inv, RecordOutcome, Log;
    OngoingInv(db, ep, n, before, ids);
    LogSnoc(db.turns, Row(e), ep);
  }

  /** Every input before `n` was played and the `n`-th, if any, raised. */
  ghost predicate Played(inputs: seq<Input>, n: nat) {
    NoneRaised(inputs, n) && (n < |inputs| ==> inputs[n].raises)
  }

  ghost predicate NoneRaised(inputs: seq<Input>, n: nat) {
    n <= |inputs| && forall i :: 0 <= i < n ==> !inputs[i].raises
  }

  lemma NoneRaisedNext(inputs: seq<Input>, n: nat)
    requires n < |inputs| && NoneRaised(inputs, n) && !inputs[n].raises
    ensures NoneRaised(inputs, n + 1)
  {}

  lemma RecordedNext(log: seq<Turn>, t: Turn, inputs: seq<Input>, n: nat, ep: string, ids: seq<string>, show: Display,
                     runtime: Json, sha: Json)
    requires n < |inputs| && |ids| == |inputs| && InputsOk(inputs)
    requires Recorded(log, inputs, n, ep, ids, show, runtime, sha)
    requires t == Stored(Evidence(inputs, n, ep, ids, show, runtime, sha), ep, ids[n], n + 1)
    ensures Recorded(log + [t], inputs, n + 1, ep, ids, show, runtime, sha)
  {
    hide Evidence;
  }

  lemma EvidenceOf(inputs: seq<Input>, n: nat, ep: string, ids: seq<string>, show: Display, runtime: Json, sha: Json)
    requires n < |inputs| && |ids| == |inputs| && InputsOk(inputs)
    ensures InputOk(inputs[n]) && Dialogue.Shape(After(inputs, n).state)
    ensures After(inputs, n + 1) == Next(inputs[n], After(inputs, n))
    ensures Evidence(inputs, n, ep, ids, show, runtime, sha)
         == Observed(inputs[n], ep, ids[n], n + 1, After(inputs, n), Next(inputs[n], After(inputs, n)),
                     Dialogue.Resolved(inputs[n].raw, After(inputs, n).state),
                         Authorized(Dialogue.OPS[inputs[n].raw[0]], inputs[n]), show, runtime, sha)
  {
    AfterNext(inputs, n);
    hide Next, Dialogue.Resolved, Dialogue.Shape, After, Observed, Authorized;
  }

  /** What a turn's evidence says: the prediction as made and as resolved, the states it led from and to, the requests
      pending after it, and that it was accepted exactly when its cue was given if it needed one. */
  lemma {:induction false} EvidenceSays(inputs: seq<Input>, n: nat, ep: string, ids: seq<string>, show: Display,
                                        runtime: Json, sha: Json)
    requires n < |inputs| && |ids| == |inputs| && InputsOk(inputs)
    ensures InputOk(inputs[n])
    ensures var e, before, after := Evidence(inputs, n, ep, ids, show, runtime, sha), After(inputs, n),
                                    After(inputs, n + 1);
            && REQUIRED <= e.Keys && e[Observation] == inputs[n].text && e[RawAction] == show.row(inputs[n].raw)
            && e[Action] == show.row(Dialogue.Resolved(inputs[n].raw, before.state))
            && e[StateBefore] == show.state(before.state) && e[StateAfter] == show.state(after.state)
            && Reports(e[Execution], !Uncued(Dialogue.OPS[inputs[n].raw[0]], inputs[n]), after.pending)
  {
    hide *;
    EvidenceOf(inputs, n, ep, ids, show, runtime, sha);
    var x, before, after := inputs[n], After(inputs, n), After(inputs, n + 1);
    InputIs(x, before.state);
    ObservedSays(x, ep, ids[n], n + 1, before, after, Dialogue.Resolved(x.raw, before.state),
                 Authorized(Dialogue.OPS[x.raw[0]], x), show, runtime, sha);
    ReportsGate(x, Dialogue.OPS[x.raw[0]], after.pending);
  }

  lemma InputIs(x: Input, state: Dialogue.State)
    requires InputOk(x) && Dialogue.Shape(state)
    ensures Dialogue.InRange(x.raw) && |x.raw| == 11 && x.raw[0] < |Dialogue.OPS| && |state.values| == 12
  {}

  lemma ObservedSays(x: Input, ep: string, id: string, step: nat, before: Progress, after: Progress,
                     resolved: Dialogue.Row, v: Verdict, show: Display, runtime: Json, sha: Json)
    ensures var e := Observed(x, ep, id, step, before, after, resolved, v, show, runtime, sha);
            && e.Keys == REQUIRED && e[Observation] == x.text && e[RawAction] == show.row(x.raw)
            && e[Action] == show.row(resolved) && e[StateBefore] == show.state(before.state)
            && e[StateAfter] == show.state(after.state) && e[Execution] == Execute(v, after.pending)
  {
    hide Reason;
  }

  lemma ReportsGate(x: Input, op: Dialogue.Op, pending: seq<Json>)
    ensures Reports(Execute(Authorized(op, x), pending), !Uncued(op, x), pending)
  {}

  ghost predicate Reports(execution: Json, accepted: bool, pending: seq<Json>) {
    && execution.Obj? && execution.fields.Keys == {Other("accepted"), Other("reason"), Other("pending_ood")}
    && execution.fields[Other("accepted")] == Bool(accepted) && execution.fields[Other("pending_ood")] == Arr(pending)
    && (execution.fields[Other("reason")] == Null <==> accepted)
  }

  /** The turn loop, up to the first turn that raises. */
  method PlayAll(store: Store, inputs: seq<Input>, ep: string, ids: seq<string>, show: Display, runtime: Json,
                 sha: Json)
    returns (recorded: nat)
    requires Ongoing(store.Tables(), ep, 0, show.state(START.state), ids) && ep != "" && |ids| == |inputs|
    requires Truthy(runtime)
    requires GoodIds(ids) && InputsOk(inputs) && Log(store.turns, ep) == []
    modifies store
    ensures recorded <= |inputs|
    ensures Ongoing(store.Tables(), ep, recorded, show.state(After(inputs, recorded).state), ids)
    ensures Recorded(Log(store.turns, ep), inputs, recorded, ep, ids, show, runtime, sha)
    ensures Played(inputs, recorded)
  {
    var p := START;
    assert p == After(inputs, 0) && NoneRaised(inputs, 0) && Recorded([], inputs, 0, ep, ids, show, runtime, sha);
    hide *;
    recorded := 0;
    while recorded < |inputs| && !inputs[recorded].raises
      invariant 0 <= recorded <= |inputs| && p == After(inputs, recorded)
      invariant Ongoing(store.Tables(), ep, recorded, show.state(p.state), ids)
      invariant Recorded(Log(store.turns, ep), inputs, recorded, ep, ids, show, runtime, sha)
      invariant NoneRaised(inputs, recorded)
    {
      NoneRaisedNext(inputs, recorded);
      EvidenceOf(inputs, recorded, ep, ids, show, runtime, sha);
      ghost var t := Stored(Evidence(inputs, recorded, ep, ids, show, runtime, sha), ep, ids[recorded], recorded + 1);
      RecordedNext(Log(store.turns, ep), t, inputs, recorded, ep, ids, show, runtime, sha);
      p := PlayTurn(store, inputs[recorded], p, ep, ids, recorded, show, runtime, sha);
      recorded := recorded + 1;
    }
  }

  /** A session over fresh identifiers. Whatever the network predicts and the texts say, the store accepts every
      turn up to the first that raises; the episode ends closed and holds exactly their evidence, and a session that
      recorded nothing leaves no empty episode behind. */
  method RunSession(store: Store, inputs: seq<Input>, ep: string, ids: seq<string>, show: Display, runtime: Json,
                    sha: Json)
    returns (recorded: nat)
    requires Inv(store.Tables()) && ep != "" && ep !in store.episodes && |ids| == |inputs| && Truthy(runtime)
    requires GoodIds(ids) && Unused(store.turns, ids, 0) && InputsOk(inputs)
    modifies store
    ensures Inv(store.Tables()) && recorded <= |inputs|
    ensures Recorded(Log(store.turns, ep), inputs, recorded, ep, ids, show, runtime, sha)
    ensures Played(inputs, recorded)
    ensures recorded == 0 ==> ep !in store.episodes
    ensures recorded > 0 ==> ep in store.episodes && store.episodes[ep] == Ended(recorded < |inputs|)
  {
    StartIsOngoing(store.Tables(), ep, ids, show.state(START.state));
    OngoingInv(store.Tables(), ep, 0, show.state(START.state), ids);
    hide Inv, Ongoing, Log, GoodIds, Unused, InputsOk, Ended, After, Truthy, Played, Recorded;
    recorded := PlayAll(store, inputs, ep, ids, show, runtime, sha);
    OngoingInv(store.Tables(), ep, recorded, show.state(After(inputs, recorded).state), ids);
    if recorded > 0 { FinishSession(store, ep, recorded < |inputs|); }
  }

  method FinishSession(store: Store, ep: string, raised: bool)
    requires Inv(store.Tables()) && ep in store.episodes && !store.episodes[ep].closed
    modifies store
    ensures Inv(store.Tables()) && store.turns == old(store.turns)
    ensures ep in store.episodes && store.episodes[ep] == Ended(raised)
  {
    ApplyKeepsInv(store.Tables(), Call.Finish(ep, false, Ended(raised).reason));
    hide Inv;
    var o := store.Finish(ep, false, Ended(raised).reason);
    assert o == Done;
  }

  lemma OngoingInv(db: Db, ep: string, n: nat, last: Json, ids: seq<string>)
    requires Ongoing(db, ep, n, last, ids)
    ensures Inv(db) && |Log(db.turns, ep)| == n && (n == 0 ==> ep !in db.episodes)
    ensures n > 0 ==> ep in db.episodes && !db.episodes[ep].closed
  {}
}
