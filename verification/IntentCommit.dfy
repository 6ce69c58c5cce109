/** The intent commit boundary. */
module IntentCommit {
  import opened Sorting
  import opened Wrappers

  /** A goal key is its position in the key table and a value its position in the value table; others are not listed. */
  const KEYS: nat := 12
  const TOP_VALUE: nat := 4

  datatype Op = Clear | Retract | Add | Revise | Pause | Resume | OutOfDomain | Retain | Unknown

  /** `goals` lists the proposed dictionary in its own order. */
  datatype Proposal = Proposal(op: Op, goals: seq<(nat, nat)>, focus: Option<nat>)

  /** The utterance and whether its stripped text is an explicit clear or retract command. */
  datatype Utterance = Utterance(text: string, clears: bool, retracts: bool)

  datatype Pending = Pending(id: int, text: string)
  datatype Tree = Tree(goals: map<nat, nat>, paused: seq<nat>, focus: Option<nat>, oodPending: bool,
      pending: seq<Pending>, revision: int)

  datatype Change = Cleared | Added(key: nat, value: nat) | Patched(key: nat, value: nat) | Removed(key: nat)
                  | Paused(key: nat) | Resumed(key: nat) | Mounted

  datatype Result = Clarify | Accepted(changes: seq<Change>)

  function EmptyTree(): Tree { Tree(map[], [], None, false, [], 0) }

  predicate Listed(g: (nat, nat)) { g.0 < KEYS && 1 <= g.1 <= TOP_VALUE }

  ghost predicate DictOk(goals: seq<(nat, nat)>) {
    forall i, j :: 0 <= i < j < |goals| ==> goals[i].0 != goals[j].0
  }

  /** `{k: v for k, v in goals if k in KEYS and v in VALUES[1:]}` as a dictionary. */
  function Valid(goals: seq<(nat, nat)>): map<nat, nat> {
    if goals == [] then map[]
    else
      var g := goals[|goals| - 1];
      if Listed(g) then Valid(goals[..|goals| - 1])[g.0 := g.1] else Valid(goals[..|goals| - 1])
  }

  /** A proposed goal is written when its key is new, or when it is the proposed focus and the value differs. */
  predicate Writes(goals: map<nat, nat>, focus: Option<nat>, g: (nat, nat)) {
    Listed(g) && (g.0 !in goals || (goals[g.0] != g.1 && focus == Some(g.0)))
  }

  function Written(goals: map<nat, nat>, focus: Option<nat>, valid: map<nat, nat>): map<nat, nat> {
    goals + map k | k in valid && Writes(goals, focus, (k, valid[k])) :: valid[k]
  }

  function ChangeOf(goals: map<nat, nat>, focus: Option<nat>, g: (nat, nat)): seq<Change> {
    if !Writes(goals, focus, g) then [] else if g.0 in goals then [Patched(g.0, g.1)] else [Added(g.0, g.1)]
  }

  function WriteLog(goals: map<nat, nat>, focus: Option<nat>, proposed: seq<(nat, nat)>): seq<Change> {
    if proposed == [] then []
    else WriteLog(goals, focus, proposed[..|proposed| - 1]) + ChangeOf(goals, focus, proposed[|proposed| - 1])
  }

  function Without(paused: seq<nat>, k: nat): seq<nat> {
    Filter(paused, (x: nat) => x != k)
  }

  predicate Focused(t: Tree) { t.focus.Some? && t.focus.value in t.goals }

  // ---------- the commit as a function ----------

  function Answer(t: Tree, p: Proposal, u: Utterance): Result {
    var valid := Valid(p.goals);
    match p.op
    case Clear => if u.clears then Accepted([Cleared]) else Clarify
    case Retract => if u.retracts && Focused(t) then Accepted([Removed(t.focus.value)]) else Clarify
    case Add => Accepted(WriteLog(t.goals, p.focus, p.goals))
    case Revise =>
      if t.focus.Some? && p.focus == t.focus && t.focus.value in valid
      then Accepted([Patched(t.focus.value, valid[t.focus.value])]) else Clarify
    case Pause => if Focused(t) then Accepted([Paused(t.focus.value)]) else Clarify
    case Resume => if Focused(t) then Accepted([Resumed(t.focus.value)]) else Clarify
    case OutOfDomain => Accepted([Mounted])
    case Retain => Accepted([])
    case Unknown => Clarify
  }

  function After(t: Tree, p: Proposal, u: Utterance): Tree {
    if Answer(t, p, u).Clarify? then t
    else
      var n, valid := t.(revision := t.revision + 1), Valid(p.goals);
      match p.op
      case Clear => EmptyTree().(revision := t.revision + 1)
      case Retract => n.(goals := t.goals - {t.focus.value}, paused := Without(t.paused, t.focus.value), focus := None)
      case Add => n.(goals := Written(t.goals, p.focus, valid), focus := if p.focus.Some?
          && p.focus.value in valid then p.focus else t.focus)
      case Revise => n.(goals := t.goals[t.focus.value := valid[t.focus.value]])
      case Pause => n.(paused := Without(t.paused, t.focus.value) + [t.focus.value])
      case Resume => n.(paused := Without(t.paused, t.focus.value))
      case OutOfDomain => n.(oodPending := true, pending := t.pending + [Pending(t.revision + 1, u.text)])
      case _ => n
  }

  lemma {:induction false} ValidAt(goals: seq<(nat, nat)>, n: nat)
    requires DictOk(goals) && n <= |goals|
    ensures forall k :: k in Valid(goals[..n]) <==> exists i :: 0 <= i < n && goals[i].0 == k && Listed(goals[i])
    ensures forall i :: 0 <= i < n && Listed(goals[i])
             ==> goals[i].0 in Valid(goals[..n]) && Valid(goals[..n])[goals[i].0] == goals[i].1
    ensures forall k :: k in Valid(goals[..n]) ==> Listed((k, Valid(goals[..n])[k]))
  {
    if n > 0 {
      ValidAt(goals, n - 1);
      assert goals[..n][..n - 1] == goals[..n - 1];
      hide Listed;
      forall k ensures k in Valid(goals[..n]) <==> exists i :: 0 <= i < n && goals[i].0 == k && Listed(goals[i]) {
        if i :| 0 <= i < n && goals[i].0 == k && Listed(goals[i]) { assert i < n - 1 ==> k in Valid(goals[..n - 1]); }
      }
    }
  }

  /** The next proposed goal is written, or not, without regard to the earlier ones. */
  lemma WrittenNext(goals: map<nat, nat>, focus: Option<nat>, proposed: seq<(nat, nat)>, n: nat)
    requires DictOk(proposed) && n < |proposed|
    ensures var w, g := Written(goals, focus, Valid(proposed[..n])), proposed[n];
            && (g.0 in w <==> g.0 in goals) && (g.0 in goals ==> w[g.0] == goals[g.0])
            && Written(goals, focus, Valid(proposed[..n + 1])) == (if Writes(goals, focus, g) then w[g.0 := g.1] else w)
            && WriteLog(goals, focus, proposed[..n + 1])
                 == WriteLog(goals, focus, proposed[..n]) + ChangeOf(goals, focus, g)
  {
    var g := proposed[n];
    assert proposed[..n + 1][..n] == proposed[..n];
    ValidAt(proposed, n);
    assert g.0 !in Valid(proposed[..n]);
    assert Valid(proposed[..n + 1]) == if Listed(g) then Valid(proposed[..n])[g.0 := g.1] else Valid(proposed[..n]);
    WrittenExtended(goals, focus, Valid(proposed[..n]), g);
    hide Valid, Written, Listed;
  }

  lemma WrittenExtended(goals: map<nat, nat>, focus: Option<nat>, valid: map<nat, nat>, g: (nat, nat))
    requires g.0 !in valid
    ensures var w := Written(goals, focus, valid);
            && (g.0 in w <==> g.0 in goals) && (g.0 in goals ==> w[g.0] == goals[g.0])
            && Written(goals, focus, if Listed(g) then valid[g.0 := g.1] else valid)
                 == (if Writes(goals, focus, g) then w[g.0 := g.1] else w)
  {
    hide Listed;
    var next := if Listed(g) then valid[g.0 := g.1] else valid;
    assert (g.0, g.1) == g;
    var w, w' := Written(goals, focus, valid), Written(goals, focus, next);
    forall k: nat | k != g.0 ensures (k in w' <==> k in w) && (k in w ==> w'[k] == w[k]) {
      assert k in next <==> k in valid;
    }
    assert Writes(goals, focus, g) ==> w' == w[g.0 := g.1];
    assert !Writes(goals, focus, g) ==> w' == w;
  }

  /** The loop of an `add`, over the proposed dictionary. */
  method AddGoals(goals: map<nat, nat>, focus: Option<nat>, proposed: seq<(nat, nat)>)
    returns (after: map<nat, nat>, changes: seq<Change>)
    requires DictOk(proposed)
    ensures after == Written(goals, focus, Valid(proposed)) && changes == WriteLog(goals, focus, proposed)
  {
    after, changes := goals, [];
    for n := 0 to |proposed|
      invariant after == Written(goals, focus, Valid(proposed[..n])) && changes == WriteLog(goals, focus, proposed[..n])
    {
      var g := proposed[n];
      assert proposed[..n + 1][..n] == proposed[..n];
      WrittenNext(goals, focus, proposed, n);
      hide Written, Valid, WriteLog, Listed;
      if !Listed(g) { continue; }
      if g.0 !in after {
        after, changes := after[g.0 := g.1], changes + [Added(g.0, g.1)];
      } else if after[g.0] != g.1 {
        if focus == Some(g.0) { after, changes := after[g.0 := g.1], changes + [Patched(g.0, g.1)]; }
      }
    }
    assert proposed[..|proposed|] == proposed;
  }

  method Commit(t: Tree, p: Proposal, u: Utterance) returns (after: Tree, result: Result)
    requires DictOk(p.goals)
    ensures after == After(t, p, u) && result == Answer(t, p, u)
  {
    var goals, paused, focus, oodPending, pending := t.goals, t.paused, t.focus, t.oodPending, t.pending;
    var valid := Valid(p.goals);
    var changes: seq<Change> := [];
    if p.op.Clear? {
      if !u.clears { return t, Clarify; }
      goals, paused, focus, oodPending, pending := map[], [], None, false, [];
      changes := [Cleared];
    } else if p.op.Retract? {
      if !u.retracts || focus.None? || focus.value !in goals { return t, Clarify; }
      var k := focus.value;
      goals, paused, focus, changes := goals - {k}, Without(paused, k), None, [Removed(k)];
    } else if p.op.Add? {
      goals, changes := AddGoals(goals, p.focus, p.goals);
      if p.focus.Some? && p.focus.value in valid { focus := p.focus; }
    } else if p.op.Revise? {
      if focus.None? || p.focus != focus || focus.value !in valid { return t, Clarify; }
      goals, changes := goals[focus.value := valid[focus.value]], [Patched(focus.value, valid[focus.value])];
    } else if p.op.Pause? || p.op.Resume? {
      if focus.None? || focus.value !in goals { return t, Clarify; }
      paused := Without(paused, focus.value);
      if p.op.Pause? { paused := paused + [focus.value]; }
      changes := [if p.op.Pause? then Paused(focus.value) else Resumed(focus.value)];
    } else if p.op.OutOfDomain? {
      oodPending, pending, changes := true, pending + [Pending(t.revision + 1, u.text)], [Mounted];
    } else if !p.op.Retain? {
      return t, Clarify;
    }
    return Tree(goals, paused, focus, oodPending, pending, t.revision + 1), Accepted(changes);
  }

  // ---------- the invariant ----------

  ghost predicate Inv(t: Tree) {
    && t.revision >= 0
    && (forall k :: k in t.goals ==> Listed((k, t.goals[k])))
    && (t.focus.Some? ==> t.focus.value in t.goals)
    && Distinct(t.paused) && (forall k :: k in t.paused ==> k in t.goals)
    && (t.oodPending <==> t.pending != [])
    && (forall i, j :: 0 <= i < j < |t.pending| ==> t.pending[i].id < t.pending[j].id)
    && (forall i :: 0 <= i < |t.pending| ==> t.pending[i].id <= t.revision)
  }

  lemma {:induction false} WithoutFacts(paused: seq<nat>, k: nat)
    ensures forall x :: x in Without(paused, k) <==> x in paused && x != k
    ensures Distinct(paused) ==> Distinct(Without(paused, k))
  {
    FilterMembers(paused, (x: nat) => x != k);
    if paused != [] && Distinct(paused) {
      var n := |paused| - 1;
      WithoutFacts(paused[..n], k);
      assert Distinct(paused[..n]);
      forall x | x in Without(paused[..n], k) ensures x != paused[n] { assert x in paused[..n]; }
      var r := Without(paused[..n], k);
      forall i | 0 <= i < |r| ensures r[i] != paused[n] { assert r[i] in r; }
    }
  }

  lemma ValidFacts(goals: seq<(nat, nat)>)
    requires DictOk(goals)
    ensures forall k :: k in Valid(goals) ==> Listed((k, Valid(goals)[k]))
  {
    ValidAt(goals, |goals|);
    assert goals[..|goals|] == goals;
  }

  lemma AddKeepsInv(t: Tree, p: Proposal, u: Utterance)
    requires Inv(t) && DictOk(p.goals) && p.op == Add
    ensures Inv(After(t, p, u))
  {
    ValidFacts(p.goals);
    hide Valid, WriteLog, Listed;
    var r := After(t, p, u);
    forall k: nat | k in r.goals ensures Listed((k, r.goals[k])) { ListedWrites(t.goals, p.focus, k); }
  }

  lemma PauseKeepsInv(t: Tree, p: Proposal, u: Utterance)
    requires Inv(t) && p.op == Pause
    ensures Inv(After(t, p, u))
  {
    hide Valid, Without, Listed;
    if Focused(t) {
      WithoutFacts(t.paused, t.focus.value);
      var r := After(t, p, u);
      forall i | 0 <= i < |r.paused| - 1 ensures r.paused[i] != t.focus.value {
        assert r.paused[i] in Without(t.paused, t.focus.value);
      }
    }
  }

  lemma FocusStepKeepsInv(t: Tree, p: Proposal, u: Utterance)
    requires Inv(t) && DictOk(p.goals) && (p.op == Revise || p.op == Resume || p.op == Retract)
    ensures Inv(After(t, p, u))
  {
    ValidFacts(p.goals);
    if t.focus.Some? { WithoutFacts(t.paused, t.focus.value); }
    hide Valid, Without, Listed;
  }

  /** Every commit keeps the invariant: a live focus, duplicate-free paused goals, a faithful out-of-domain flag with
      strictly increasing ids. */
  lemma CommitKeepsInv(t: Tree, p: Proposal, u: Utterance)
    requires Inv(t) && DictOk(p.goals)
    ensures Inv(After(t, p, u))
  {
    match p.op
    case Add => AddKeepsInv(t, p, u);
    case Pause => PauseKeepsInv(t, p, u);
    case Revise => FocusStepKeepsInv(t, p, u);
    case Resume => FocusStepKeepsInv(t, p, u);
    case Retract => FocusStepKeepsInv(t, p, u);
    case _ => hide Valid, Without, Listed;
  }

  lemma ListedWrites(goals: map<nat, nat>, focus: Option<nat>, k: nat)
    ensures forall v: nat :: Writes(goals, focus, (k, v)) ==> Listed((k, v))
  {}

  // ---------- what each operation does ----------

  /** The proposal gives this goal this value, and both are in their tables. */
  ghost predicate Proposes(p: Proposal, k: nat, v: nat) {
    k < KEYS && 1 <= v <= TOP_VALUE && (k, v) in p.goals
  }

  ghost predicate Lists(p: Proposal, k: nat) { exists v: nat :: Proposes(p, k, v) }

  ghost predicate HasGoal(t: Tree, k: Option<nat>) { k.Some? && k.value in t.goals }

  lemma ProposesExactly(p: Proposal)
    requires DictOk(p.goals)
    ensures forall k: nat, v: nat :: Proposes(p, k, v) <==> k in Valid(p.goals) && Valid(p.goals)[k] == v
    ensures forall k: nat :: Lists(p, k) <==> k in Valid(p.goals)
  {
    ValidAt(p.goals, |p.goals|);
    assert p.goals[..|p.goals|] == p.goals;
    forall k: nat, v: nat ensures Proposes(p, k, v) <==> k in Valid(p.goals) && Valid(p.goals)[k] == v {
      if Proposes(p, k, v) {
        var i :| 0 <= i < |p.goals| && p.goals[i] == (k, v);
        assert Listed(p.goals[i]);
      }
    }
    hide Proposes, Valid;
    forall k: nat ensures Lists(p, k) <==> k in Valid(p.goals) {
      if k in Valid(p.goals) { assert Proposes(p, k, Valid(p.goals)[k]); }
    }
  }

  /** Which proposals are accepted: a clear and a retraction need their command, a retraction, pause or resumption
      needs a goal in focus, a revision the focus it names and a listed value for it. */
  lemma AcceptedExactly(t: Tree, p: Proposal, u: Utterance)
    requires DictOk(p.goals)
    ensures var accepted := Answer(t, p, u).Accepted?;
            && (p.op.Clear? ==> (accepted <==> u.clears))
            && (p.op.Retract? ==> (accepted <==> u.retracts && HasGoal(t, t.focus)))
            && (p.op.Pause? || p.op.Resume? ==> (accepted <==> HasGoal(t, t.focus)))
            && (p.op.Revise? ==> (accepted <==> p.focus.Some? && t.focus == p.focus && Lists(p, p.focus.value)))
            && (p.op.Add? || p.op.OutOfDomain? || p.op.Retain? ==> accepted)
            && (p.op.Unknown? ==> !accepted)
  {
    ProposesExactly(p);
    hide Valid, WriteLog, Proposes, Lists;
  }

  /** An accepted clear leaves the empty tree, one revision later. */
  lemma ClearEmpties(t: Tree, p: Proposal, u: Utterance)
    requires p.op.Clear? && Answer(t, p, u).Accepted?
    ensures Answer(t, p, u) == Accepted([Cleared])
    ensures After(t, p, u) == Tree(map[], [], None, false, [], t.revision + 1)
  {}

  /** An accepted retraction removes the focus from the goals and the paused goals and leaves no focus. */
  lemma {:induction false} RetractRemovesFocus(t: Tree, p: Proposal, u: Utterance)
    requires p.op.Retract? && Answer(t, p, u).Accepted?
    ensures t.focus.Some? && Answer(t, p, u) == Accepted([Removed(t.focus.value)])
    ensures var a, f := After(t, p, u), t.focus.value;
            && a == t.(goals := a.goals, paused := a.paused, focus := None, revision := t.revision + 1)
            && (forall k :: k in a.goals <==> k in t.goals && k != f)
            && (forall k :: k in a.goals ==> a.goals[k] == t.goals[k])
            && DropsOnly(t.paused, a.paused, f)
  {
    WithoutDrops(t.paused, t.focus.value);
    hide Valid, WriteLog, Without, DropsOnly;
  }

  /** `b` is `a` without `k`, in the same order. */
  ghost predicate DropsOnly(a: seq<nat>, b: seq<nat>, k: nat) {
    && k !in b && (k !in a ==> b == a)
    && (Distinct(a) ==> forall i :: 0 <= i < |a| && a[i] == k ==> b == a[..i] + a[i + 1..])
  }

  lemma {:induction false} WithoutDrops(paused: seq<nat>, k: nat)
    ensures DropsOnly(paused, Without(paused, k), k)
  {
    WithoutFacts(paused, k);
    if paused != [] {
      var n := |paused| - 1;
      WithoutDrops(paused[..n], k);
      assert paused == paused[..n] + [paused[n]];
      assert k !in paused ==> k !in paused[..n];
      assert Distinct(paused) ==> Distinct(paused[..n]);
      forall i | Distinct(paused) && 0 <= i < |paused| && paused[i] == k
        ensures Without(paused, k) == paused[..i] + paused[i + 1..]
      {
        if i < n {
          assert paused[..n][i] == k;
          assert paused[..n][..i] + paused[..n][i + 1..] + [paused[n]] == paused[..i] + paused[i + 1..];
        } else {
          assert k !in paused[..n];
        }
      }
    }
  }

  /** An addition stores every new listed goal with its proposed value, changes an existing goal only if it is the
      proposed focus, and moves the focus there if the proposal lists it. */
  lemma AddStoresProposed(t: Tree, p: Proposal, u: Utterance)
    requires DictOk(p.goals) && p.op.Add?
    ensures var a := After(t, p, u);
            && a == t.(goals := a.goals, focus := a.focus, revision := t.revision + 1)
            && (forall k: nat :: k in a.goals <==> k in t.goals || Lists(p, k))
            && (forall k: nat, v: nat :: Proposes(p, k, v) && (k !in t.goals || p.focus == Some(k)) ==> a.goals[k] == v)
            && (forall k: nat :: k in t.goals && (p.focus != Some(k) || !Lists(p, k)) ==> a.goals[k] == t.goals[k])
            && a.focus == if p.focus.Some? && Lists(p, p.focus.value) then p.focus else t.focus
  {
    ProposesExactly(p);
    hide Valid, WriteLog, Proposes, Lists;
  }

  /** An accepted revision gives the focus the value listed for it, and changes nothing else. */
  lemma ReviseStoresProposed(t: Tree, p: Proposal, u: Utterance, v: nat)
    requires DictOk(p.goals) && p.op.Revise? && Answer(t, p, u).Accepted?
    ensures t.focus.Some? && (Proposes(p, t.focus.value, v)
        ==> After(t, p, u) == t.(goals := t.goals[t.focus.value := v], revision := t.revision + 1)
            && Answer(t, p, u) == Accepted([Patched(t.focus.value, v)]))
  {
    ProposesExactly(p);
    hide Valid, WriteLog, Proposes;
  }

  /** An accepted pause puts the focus last among the paused goals, an accepted resumption takes it out; the others keep
      their order. */
  lemma {:induction false} PauseMovesFocus(t: Tree, p: Proposal, u: Utterance)
    requires (p.op.Pause? || p.op.Resume?) && Answer(t, p, u).Accepted?
    ensures t.focus.Some? && Answer(t, p, u) == Accepted([if p.op.Pause? then Paused(t.focus.value)
                                                          else Resumed(t.focus.value)])
    ensures var a, f := After(t, p, u), t.focus.value;
            && a == t.(paused := a.paused, revision := t.revision + 1)
            && (p.op.Resume? ==> DropsOnly(t.paused, a.paused, f))
            && (p.op.Pause? ==> a.paused != [] && a.paused[|a.paused| - 1] == f)
            && (p.op.Pause? ==> DropsOnly(t.paused, a.paused[..|a.paused| - 1], f))
  {
    WithoutDrops(t.paused, t.focus.value);
    hide Valid, WriteLog, Without, DropsOnly;
    var rest := Without(t.paused, t.focus.value);
    assert (rest + [t.focus.value])[..|rest|] == rest;
  }

  /** An out-of-domain request is noted under the new revision with its text; retaining only counts. */
  lemma NoteOrRetain(t: Tree, p: Proposal, u: Utterance)
    requires p.op.OutOfDomain? || p.op.Retain?
    ensures p.op.Retain? ==> After(t, p, u) == t.(revision := t.revision + 1) && Answer(t, p, u) == Accepted([])
    ensures p.op.OutOfDomain?
        ==> Answer(t, p, u) == Accepted([Mounted])
            && After(t, p, u) == Tree(t.goals, t.paused, t.focus, true,
                                      t.pending + [Pending(t.revision + 1, u.text)], t.revision + 1)
  {}

  /** What an addition reports: each new listed goal as added, a changed focus as patched, with the proposed value. */
  lemma {:induction false} AddReports(t: Tree, p: Proposal, u: Utterance)
    requires DictOk(p.goals) && p.op.Add?
    ensures Answer(t, p, u).Accepted?
    ensures var log := Answer(t, p, u).changes;
            && (forall k: nat, v: nat :: Added(k, v) in log <==> Proposes(p, k, v) && k !in t.goals)
            && (forall k: nat, v: nat :: Patched(k, v) in log
                  <==> Proposes(p, k, v) && p.focus == Some(k) && k in t.goals && t.goals[k] != v)
            && (forall c :: c in log ==> c.Added? || c.Patched?)
  {
    WriteLogMembers(t.goals, p.focus, p.goals);
    hide Valid, WriteLog;
  }

  lemma {:induction false} WriteLogMembers(goals: map<nat, nat>, focus: Option<nat>, proposed: seq<(nat, nat)>)
    ensures var log := WriteLog(goals, focus, proposed);
            && (forall k: nat, v: nat :: Added(k, v) in log
                  <==> (k, v) in proposed && Writes(goals, focus, (k, v)) && k !in goals)
            && (forall k: nat, v: nat :: Patched(k, v) in log
                  <==> (k, v) in proposed && Writes(goals, focus, (k, v)) && k in goals)
            && (forall c :: c in log ==> c.Added? || c.Patched?)
  {
    hide Writes;
    if proposed != [] {
      var n := |proposed| - 1;
      WriteLogMembers(goals, focus, proposed[..n]);
      assert proposed == proposed[..n] + [proposed[n]];
      var g := proposed[n];
      assert (g.0, g.1) == g;
    }
  }

  /** The changes are reported in the order of the proposal. */
  lemma {:induction false} WriteLogConcat(goals: map<nat, nat>, focus: Option<nat>, a: seq<(nat, nat)>,
                                          b: seq<(nat, nat)>)
    ensures WriteLog(goals, focus, a + b) == WriteLog(goals, focus, a) + WriteLog(goals, focus, b)
  {
    hide ChangeOf;
    if b == [] {
      assert a + b == a;
    } else {
      WriteLogConcat(goals, focus, a, b[..|b| - 1]);
      assert (a + b)[..|a + b| - 1] == a + b[..|b| - 1];
    }
  }

  // ---------- what a step may do ----------

  /** The goal was removed or given another value. */
  ghost predicate Altered(a: Tree, b: Tree, k: nat) {
    k < KEYS && k in a.goals && (k !in b.goals || b.goals[k] != a.goals[k])
  }

  /** A rejected step leaves the tree untouched and an accepted one raises the revision by exactly one; a goal
      disappears only by an explicitly authorised clear, or by an explicitly authorised retraction of the focus; and
      an accepted step other than a clear alters at most one goal that was there, the focus it names. */
  lemma StepIsBounded(t: Tree, p: Proposal, u: Utterance)
    requires Inv(t) && DictOk(p.goals)
    ensures Answer(t, p, u).Clarify? ==> After(t, p, u) == t
    ensures Answer(t, p, u).Accepted? ==> After(t, p, u).revision == t.revision + 1
    ensures forall k: nat :: k in t.goals && k !in After(t, p, u).goals ==> MayRemove(t, p, u, k)
    ensures !p.op.Clear? ==> forall k: nat :: Altered(t, After(t, p, u), k) ==> k == Named(t, p)
  {
    hide Valid, Without, WriteLog;
  }

  ghost predicate MayRemove(t: Tree, p: Proposal, u: Utterance, k: nat) {
    (p.op.Clear? && u.clears) || (p.op.Retract? && u.retracts && t.focus == Some(k))
  }

  /** The goal a step may alter: the committed focus for a retraction, the proposed focus otherwise. */
  function Named(t: Tree, p: Proposal): nat {
    var f := if p.op.Retract? then t.focus else p.focus;
    if f.Some? then f.value else KEYS
  }

  // ---------- replaying the change log ----------

  /** The goals and paused goals a change log produces. */
  datatype View = View(goals: map<nat, nat>, paused: seq<nat>)

  function Redo(v: View, c: Change): View {
    match c
    case Cleared => View(map[], [])
    case Added(k, x) => v.(goals := v.goals[k := x])
    case Patched(k, x) => v.(goals := v.goals[k := x])
    case Removed(k) => View(v.goals - {k}, Without(v.paused, k))
    case Paused(k) => v.(paused := Without(v.paused, k) + [k])
    case Resumed(k) => v.(paused := Without(v.paused, k))
    case Mounted => v
  }

  function Replay(v: View, log: seq<Change>): View {
    if log == [] then v else Redo(Replay(v, log[..|log| - 1]), log[|log| - 1])
  }

  lemma {:induction false} ReplayConcat(v: View, a: seq<Change>, b: seq<Change>)
    ensures Replay(v, a + b) == Replay(Replay(v, a), b)
  {
    if b == [] { assert a + b == a; }
    else {
      ReplayConcat(v, a, b[..|b| - 1]);
      assert (a + b)[..|a + b| - 1] == a + b[..|b| - 1];
    }
  }

  lemma {:induction false} ReplayWrites(v: View, focus: Option<nat>, proposed: seq<(nat, nat)>)
    requires DictOk(proposed)
    ensures Replay(v, WriteLog(v.goals, focus, proposed)) == v.(goals := Written(v.goals, focus, Valid(proposed)))
  {
    if proposed == [] {
      assert Written(v.goals, focus, map[]) == v.goals;
    } else {
      var n := |proposed| - 1;
      var g := proposed[n];
      ReplayWrites(v, focus, proposed[..n]);
      assert proposed[..n + 1] == proposed;
      WrittenNext(v.goals, focus, proposed, n);
      var log := WriteLog(v.goals, focus, proposed[..n]);
      ReplayConcat(v, log, ChangeOf(v.goals, focus, g));
      hide WriteLog, Replay, Written, Valid;
      if Writes(v.goals, focus, g) {
        var c := if g.0 in v.goals then Patched(g.0, g.1) else Added(g.0, g.1);
        assert ChangeOf(v.goals, focus, g) == [c];
      } else {
        assert log + ChangeOf(v.goals, focus, g) == log;
      }
    }
  }

  function ViewOf(t: Tree): View { View(t.goals, t.paused) }

  function ChangesOf(r: Result): seq<Change> { if r.Accepted? then r.changes else [] }

  /** Replaying a step's change log on the old goals and paused goals gives the new ones. */
  lemma StepReplays(t: Tree, p: Proposal, u: Utterance)
    requires DictOk(p.goals)
    ensures Replay(ViewOf(t), ChangesOf(Answer(t, p, u))) == ViewOf(After(t, p, u))
  {
    if p.op.Add? { ReplayWrites(ViewOf(t), p.focus, p.goals); }
    else if |ChangesOf(Answer(t, p, u))| == 1 {
      assert ChangesOf(Answer(t, p, u)) == [ChangesOf(Answer(t, p, u))[0]];
    }
  }

  // ---------- whole sessions ----------

  datatype Session = Session(tree: Tree, log: seq<Change>)

  function Played(turns: seq<(Proposal, Utterance)>): Session {
    if turns == [] then Session(EmptyTree(), [])
    else
      var s, step := Played(turns[..|turns| - 1]), turns[|turns| - 1];
      Session(After(s.tree, step.0, step.1), s.log + ChangesOf(Answer(s.tree, step.0, step.1)))
  }

  /** Over every session from the empty tree the invariant holds, the revision counts the accepted steps at most, and
      the accumulated change log alone reproduces the goals and the paused list. */
  lemma {:induction false} EverySession(turns: seq<(Proposal, Utterance)>)
    requires forall i :: 0 <= i < |turns| ==> DictOk(turns[i].0.goals)
    ensures var s := Played(turns);
            Inv(s.tree) && s.tree.revision <= |turns| && Replay(View(map[], []), s.log) == ViewOf(s.tree)
  {
    if turns != [] {
      var n := |turns| - 1;
      EverySession(turns[..n]);
      SessionNext(Played(turns[..n]), turns[n].0, turns[n].1);
    }
  }

  lemma SessionNext(s: Session, p: Proposal, u: Utterance)
    requires DictOk(p.goals) && Inv(s.tree) && Replay(View(map[], []), s.log) == ViewOf(s.tree)
    ensures Inv(After(s.tree, p, u)) && After(s.tree, p, u).revision <= s.tree.revision + 1
    ensures Replay(View(map[], []), s.log + ChangesOf(Answer(s.tree, p, u))) == ViewOf(After(s.tree, p, u))
  {
    assert After(s.tree, p, u).revision <= s.tree.revision + 1 by {
      hide Inv, Replay, Valid, Without, WriteLog, Written;
    }
    hide Replay, Inv, DictOk, After, Answer;
    CommitKeepsInv(s.tree, p, u);
    StepReplays(s.tree, p, u);
    ReplayConcat(View(map[], []), s.log, ChangesOf(Answer(s.tree, p, u)));
  }
}
