/** What is derived from the evidence tables: the transition export and the human review queue. */
module TrajectoryViews {
  import opened Sorting
  import opened Wrappers
  import opened TrajectoryStore

  // ---------- row order and feedback of a turn ----------

  /** `ORDER BY t.episode, t.step`. */
  predicate RowLe(a: Turn, b: Turn) {
    if a.episode == b.episode then a.step <= b.step else StrLe(a.episode, b.episode)
  }

  lemma RowOrder()
    ensures TotalPreorder(RowLe)
  {
    StrOrder();
  }

  /** `ORDER BY created_ns, id`. */
  predicate FeedbackLe(a: Feedback, b: Feedback) {
    a.created < b.created || (a.created == b.created && StrLe(a.id, b.id))
  }

  lemma FeedbackOrder()
    ensures TotalPreorder(FeedbackLe)
  {
    StrOrder();
  }

  function FeedbackOf(db: Db, id: string): seq<Feedback> {
    Sort(Filter(db.feedback, (f: Feedback) => f.turn == id), FeedbackLe)
  }

  predicate HumanRating(f: Feedback) {
    f.body.source.Human? && !f.body.score.Null?
  }

  function ProvenanceField(t: Turn, k: Key): Json {
    if Provenance in t.payload && t.payload[Provenance].Obj? && k in t.payload[Provenance].fields
    then t.payload[Provenance].fields[k] else Null
  }

  const REAL := Str("real_flywire_delta")

  // ---------- the export, row by row ----------

  datatype ExportRow = ExportRow(turn: Turn, feedback: seq<Feedback>, reward: Option<Json>, rewardId: Option<string>,
                                 terminated: bool, truncated: bool, closed: bool, reason: Option<string>,
                                     eligible: bool)

  /** Whether a turn may be trained on, without looking at the export. */
  ghost predicate Eligible(db: Db, t: Turn) {
    && t.episode in db.episodes && db.episodes[t.episode].closed
    && (exists f :: f in db.feedback && f.turn == t.id && HumanRating(f))
    && RawAction in t.payload && t.payload[RawAction] != Null
    && ProvenanceField(t, Runtime) == REAL && Truthy(ProvenanceField(t, ModelSha))
  }

  /** The exported form of a turn: its boundary flags read off the length of its episode's log. */
  ghost predicate Exports(db: Db, t: Turn, r: ExportRow) {
    && r.turn == t && r.feedback == FeedbackOf(db, t.id)
    && t.episode in db.episodes && r.closed == db.episodes[t.episode].closed
         && r.reason == db.episodes[t.episode].reason
    && (r.eligible <==> Eligible(db, t))
    && (r.terminated <==> t.step == |Log(db.turns, t.episode)| && db.episodes[t.episode].terminated)
    && (r.truncated <==> t.step == |Log(db.turns, t.episode)| && !db.episodes[t.episode].terminated)
    && RewardOk(r)
  }

  /** The reward is the score of the latest human rating, and absent exactly when no human rated. */
  ghost predicate RewardOk(r: ExportRow) {
    if r.reward.None? then r.rewardId.None? && forall f :: f in r.feedback ==> !HumanRating(f)
    else exists f :: f in r.feedback && HumanRating(f) && r.reward == Some(f.body.score) && r.rewardId == Some(f.id)
                     && forall g :: g in r.feedback && HumanRating(g) ==> FeedbackLe(g, f)
  }

  ghost predicate ExportsAll(db: Db, rows: seq<Turn>, out: seq<ExportRow>) {
    |out| == |rows| && forall i :: 0 <= i < |rows| ==> Exports(db, rows[i], out[i])
  }

  lemma FeedbackOfMembers(db: Db, id: string)
    ensures forall f :: f in FeedbackOf(db, id) <==> f in db.feedback && f.turn == id
    ensures Sorted(FeedbackOf(db, id), FeedbackLe)
  {
    FeedbackOrder();
    FilterMembers(db.feedback, (f: Feedback) => f.turn == id);
    SortSorts(Filter(db.feedback, (f: Feedback) => f.turn == id), FeedbackLe);
    SortMembers(Filter(db.feedback, (f: Feedback) => f.turn == id), FeedbackLe);
  }

  /** `last` holds, for every episode of the rows, its greatest step. */
  ghost predicate GreatestSteps(rows: seq<Turn>, last: map<string, int>) {
    && (forall t :: t in rows ==> t.episode in last && t.step <= last[t.episode])
    && (forall ep :: ep in last ==> exists t :: t in rows && t.episode == ep && t.step == last[ep])
  }

  /** The dictionary of last steps: later rows overwrite earlier ones. */
  method LastSteps(rows: seq<Turn>) returns (last: map<string, int>)
    requires Sorted(rows, RowLe)
    ensures GreatestSteps(rows, last)
  {
    last := map[];
    for i := 0 to |rows|
      invariant forall k :: 0 <= k < i ==> rows[k].episode in last && rows[k].step <= last[rows[k].episode]
      invariant forall ep :: ep in last ==> exists t :: t in rows[..i] && t.episode == ep && t.step == last[ep]
    {
      ghost var before := last;
      assert rows[..i + 1] == rows[..i] + [rows[i]];
      forall k | 0 <= k < i ensures rows[k].episode == rows[i].episode ==> rows[k].step <= rows[i].step {
        assert RowLe(rows[k], rows[i]);
      }
      last := last[rows[i].episode := rows[i].step];
      forall ep | ep in last ensures exists t :: t in rows[..i + 1] && t.episode == ep && t.step == last[ep] {
        if ep == rows[i].episode {
          assert rows[i] in rows[..i + 1];
        } else {
          var t :| t in rows[..i] && t.episode == ep && t.step == before[ep];
          assert t in rows[..i + 1];
        }
      }
    }
    assert rows[..|rows|] == rows;
  }

  /** The last human rating in (created, id) order, if any. */
  method LatestRating(feedback: seq<Feedback>) returns (newest: Option<Feedback>)
    requires Sorted(feedback, FeedbackLe)
    ensures newest.None? ==> forall f :: f in feedback ==> !HumanRating(f)
    ensures newest.Some? ==> newest.value in feedback && HumanRating(newest.value)
    ensures newest.Some? ==> forall g :: g in feedback && HumanRating(g) ==> FeedbackLe(g, newest.value)
  {
    hide StrLe;
    var ratings := Filter(feedback, HumanRating);
    FilterMembers(feedback, HumanRating);
    FilterSorted(feedback, HumanRating, FeedbackLe);
    if ratings == [] {
      forall f | f in feedback ensures !HumanRating(f) { assert f in ratings <==> HumanRating(f); }
      return None;
    }
    var last := ratings[|ratings| - 1];
    assert last in ratings;
    FeedbackOrder();
    forall g | g in feedback && HumanRating(g) ensures FeedbackLe(g, last) {
      assert g in ratings;
      var k :| 0 <= k < |ratings| && ratings[k] == g;
      assert FeedbackLe(last, last);
    }
    return Some(last);
  }

  /** One exported row. */
  method ExportOne(db: Db, t: Turn, lastStep: int) returns (r: ExportRow)
    requires Inv(db) && t in db.turns && lastStep == |Log(db.turns, t.episode)|
    ensures Exports(db, t, r)
  {
    hide Log, RowsOk, LogsOk, FeedbackOk, SentOk, WellFormed, Truthy, StrLe, FeedbackLe, ProvenanceField;
    assert t.episode in db.episodes && RawAction in t.payload by { TurnKnown(db, t); }
    var episode := db.episodes[t.episode];
    var feedback := FeedbackOf(db, t.id);
    FeedbackOfMembers(db, t.id);
    hide FeedbackOf;
    var newest := LatestRating(feedback);
    var reward := if newest.None? then None else Some(newest.value.body.score);
    assert reward.Some? <==> exists f :: f in db.feedback && f.turn == t.id && HumanRating(f);
    var eligible := episode.closed && reward.Some? && t.payload[RawAction] != Null
                    && ProvenanceField(t, Runtime) == REAL && Truthy(ProvenanceField(t, ModelSha));
    var last := t.step == lastStep;
    r := ExportRow(t, feedback, reward, if newest.None? then None else Some(newest.value.id),
                   last && episode.terminated, last && !episode.terminated, episode.closed, episode.reason, eligible);
    assert RewardOk(r);
  }

  lemma TurnKnown(db: Db, t: Turn)
    requires RowsOk(db.turns, db.episodes) && t in db.turns
    ensures t.episode in db.episodes && RawAction in t.payload
  {
    var i :| 0 <= i < |db.turns| && db.turns[i] == t;
    assert TurnOk(db.turns[i], db.episodes);
  }

  function EligibleRows(rows: seq<ExportRow>): seq<ExportRow> {
    Filter(rows, (r: ExportRow) => r.eligible)
  }

  lemma EligibleSnoc(rows: seq<ExportRow>, r: ExportRow)
    ensures EligibleRows(rows + [r]) == EligibleRows(rows) + if r.eligible then [r] else []
  {
    assert (rows + [r])[..|rows|] == rows;
  }

  function ReviewedRows(rows: seq<ExportRow>): seq<ExportRow> {
    Filter(rows, IsReviewed)
  }

  /** `export`: one row per turn in (episode, step) order, or exactly the eligible ones of them. */
  method Export(db: Db, trainingOnly: bool) returns (out: seq<ExportRow>, ghost full: seq<ExportRow>)
    requires Inv(db)
    ensures ExportsAll(db, Sort(db.turns, RowLe), full)
    ensures out == if trainingOnly then EligibleRows(full) else full
  {
    var rows := Sort(db.turns, RowLe);
    RowOrder();
    SortSorts(db.turns, RowLe);
    SortMembers(db.turns, RowLe);
    hide *;
    var last := LastSteps(rows);
    out, full := [], [];
    NothingExported(db, rows, trainingOnly);
    for i := 0 to |rows|
      invariant Exported(db, rows, i, full, out, trainingOnly)
    {
      assert rows[i] in rows;
      LastStepIsLength(db, rows, last, rows[i]);
      var r := ExportOne(db, rows[i], last[rows[i].episode]);
      ExportedNext(db, rows, i, full, out, trainingOnly, r);
      full := full + [r];
      if trainingOnly && !r.eligible { continue; }
      out := out + [r];
    }
    AllExported(db, rows, full, out, trainingOnly);
  }

  /** The first `i` rows have been exported. */
  ghost predicate Exported(db: Db, rows: seq<Turn>, i: nat, full: seq<ExportRow>, out: seq<ExportRow>,
                           trainingOnly: bool) {
    i <= |rows| && ExportsAll(db, rows[..i], full) && out == if trainingOnly then EligibleRows(full) else full
  }

  lemma NothingExported(db: Db, rows: seq<Turn>, trainingOnly: bool)
    ensures Exported(db, rows, 0, [], [], trainingOnly)
  {}

  lemma {:induction false} ExportedNext(db: Db, rows: seq<Turn>, i: nat, full: seq<ExportRow>, out: seq<ExportRow>,
                                        trainingOnly: bool, r: ExportRow)
    requires i < |rows| && Exported(db, rows, i, full, out, trainingOnly) && Exports(db, rows[i], r)
    ensures Exported(db, rows, i + 1, full + [r], if trainingOnly && !r.eligible then out else out + [r], trainingOnly)
  {
    EligibleSnoc(full, r);
    hide EligibleRows, Exports;
  }

  lemma AllExported(db: Db, rows: seq<Turn>, full: seq<ExportRow>, out: seq<ExportRow>, trainingOnly: bool)
    requires Exported(db, rows, |rows|, full, out, trainingOnly)
    ensures ExportsAll(db, rows, full) && out == if trainingOnly then EligibleRows(full) else full
  {
    hide EligibleRows, Exports;
    assert rows[..|rows|] == rows;
  }

  lemma {:induction false} LastStepIsLength(db: Db, rows: seq<Turn>, last: map<string, int>, t: Turn)
    requires Inv(db) && t in rows && GreatestSteps(rows, last)
    requires forall x :: x in rows <==> x in db.turns
    ensures t.episode in last && last[t.episode] == |Log(db.turns, t.episode)|
  {
    hide RowsOk, Log, WellFormed;
    var ep := t.episode;
    var x :| x in rows && x.episode == ep && x.step == last[ep];
    StepWithinLog(db, x);
    LogMembers(db.turns, ep);
    var end := Log(db.turns, ep)[|Log(db.turns, ep)| - 1];
    assert end in Log(db.turns, ep);
    StepWithinLog(db, end);
    assert end in rows;
    assert end.step == |Log(db.turns, ep)| by { LatestIsLast(db.turns, db.episodes, ep); }
  }

  // ---------- what the export means ----------

  /** Every known episode has exactly one boundary row in the full export: the row of its last step, flagged
      either terminated or truncated and never both. */
  lemma {:induction false} OneBoundaryPerEpisode(db: Db, out: seq<ExportRow>, ep: string)
    requires Inv(db) && ep in db.episodes && ExportsAll(db, Sort(db.turns, RowLe), out)
    ensures exists i :: 0 <= i < |out| && BoundaryAt(db, out, ep, i)
  {
    var rows := Sort(db.turns, RowLe);
    SortMembers(db.turns, RowLe);
    SortDistinct(db.turns, RowLe) by { DistinctRows(db.turns, db.episodes); }
    var end := LastOf(db, ep);
    assert end in rows;
    hide Sort, Log, Inv, Exports, FlagsOf, BoundaryAt;
    var i :| 0 <= i < |rows| && rows[i] == end;
    forall j | 0 <= j < |out| ensures FlagsOf(db, rows[j], out[j]) {
      FlagsFollow(db, rows[j], out[j]);
    }
    forall j | 0 <= j < |out| && j != i ensures !IsEnd(db, rows[j], ep) {
      assert rows[j] in rows;
      OnlyOneEnd(db, rows[j], end, ep);
    }
    BoundaryFromFlags(db, rows, out, ep, i);
  }

  ghost predicate IsEnd(db: Db, t: Turn, ep: string) {
    t.episode == ep && t.step == |Log(db.turns, ep)|
  }

  lemma {:induction false} OnlyOneEnd(db: Db, t: Turn, end: Turn, ep: string)
    requires Inv(db) && t in db.turns && Log(db.turns, ep) != [] && end == Log(db.turns, ep)[|Log(db.turns, ep)| - 1]
    ensures IsEnd(db, t, ep) ==> t == end
  {
    hide Inv, Log, WellFormed;
    StepWithinLog(db, t);
  }

  lemma BoundaryFromFlags(db: Db, rows: seq<Turn>, out: seq<ExportRow>, ep: string, i: nat)
    requires |out| == |rows| && i < |rows| && IsEnd(db, rows[i], ep)
    requires forall j :: 0 <= j < |out| ==> FlagsOf(db, rows[j], out[j])
    requires forall j :: 0 <= j < |out| && j != i ==> !IsEnd(db, rows[j], ep)
    ensures BoundaryAt(db, out, ep, i)
  {
    hide Log;
    forall j | 0 <= j < |out| && j != i && out[j].turn.episode == ep ensures !out[j].terminated && !out[j].truncated {
      assert FlagsOf(db, rows[j], out[j]);
    }
    assert FlagsOf(db, rows[i], out[i]);
  }

  /** The boundary flags an exported row must carry. */
  ghost predicate FlagsOf(db: Db, t: Turn, r: ExportRow) {
    && r.turn == t && t.episode in db.episodes
    && (r.terminated <==> t.step == |Log(db.turns, t.episode)| && db.episodes[t.episode].terminated)
    && (r.truncated <==> t.step == |Log(db.turns, t.episode)| && !db.episodes[t.episode].terminated)
  }

  lemma FlagsFollow(db: Db, t: Turn, r: ExportRow)
    requires Exports(db, t, r)
    ensures FlagsOf(db, t, r)
  {
    hide Log, RewardOk, Eligible, FeedbackOf;
  }

  lemma LastOf(db: Db, ep: string) returns (end: Turn)
    requires Inv(db) && ep in db.episodes
    ensures end in db.turns && end.episode == ep && Log(db.turns, ep) != []
    ensures end.step == |Log(db.turns, ep)| && end == Log(db.turns, ep)[|Log(db.turns, ep)| - 1]
  {
    LogMembers(db.turns, ep);
    LatestIsLast(db.turns, db.episodes, ep);
    assert Log(db.turns, ep) != [];
    hide *;
    var log := Log(db.turns, ep);
    end := log[|log| - 1];
    assert end in log;
  }

  ghost predicate BoundaryAt(db: Db, out: seq<ExportRow>, ep: string, i: nat) {
    && i < |out| && out[i].turn.episode == ep && out[i].turn.step == |Log(db.turns, ep)|
    && out[i].terminated != out[i].truncated
    && forall j :: 0 <= j < |out| && j != i && out[j].turn.episode == ep ==> !out[j].terminated && !out[j].truncated
  }

  lemma DistinctRows(turns: seq<Turn>, episodes: map<string, Episode>)
    requires RowsOk(turns, episodes)
    ensures Distinct(turns)
  {}

  /** Once a turn may be trained on, it stays so under every later call. */
  lemma {:induction false} EligibleForever(db: Db, i: nat, later: seq<Call>)
    requires Inv(db) && i < |db.turns| && Eligible(db, db.turns[i])
    ensures i < |Run(db, later).turns| && Eligible(Run(db, later), Run(db, later).turns[i])
  {
    RunGrows(db, later);
    hide Run, Inv, Truthy;
    var d := Run(db, later);
    assert SameEvidence(db.turns[i], d.turns[i]);
    var f :| f in db.feedback && f.turn == db.turns[i].id && HumanRating(f);
    assert f in d.feedback;
    assert ProvenanceField(d.turns[i], Runtime) == ProvenanceField(db.turns[i], Runtime);
    assert ProvenanceField(d.turns[i], ModelSha) == ProvenanceField(db.turns[i], ModelSha);
  }

  // ---------- eligibility from the calls alone ----------

  /** The call closes the episode, or closes it again in the same way. */
  ghost predicate Closes(db: Db, c: Call, ep: string) {
    c.Finish? && c.episode == ep && Answer(db, c) == Done
  }

  /** The call is an accepted human rating of the turn. */
  ghost predicate Rates(db: Db, c: Call, id: string) {
    c.GiveFeedback? && c.turn == id && c.body.source == Human && c.body.score != Null && !Answer(db, c).Rejected?
  }

  ghost predicate EverClosed(calls: seq<Call>, ep: string) {
    exists i :: 0 <= i < |calls| && Closes(Run(EMPTY, calls[..i]), calls[i], ep)
  }

  ghost predicate EverRated(calls: seq<Call>, id: string) {
    exists i :: 0 <= i < |calls| && Rates(Run(EMPTY, calls[..i]), calls[i], id)
  }

  lemma EverSnoc(calls: seq<Call>, c: Call, name: string)
    ensures EverClosed(calls + [c], name) <==> EverClosed(calls, name) || Closes(Run(EMPTY, calls), c, name)
    ensures EverRated(calls + [c], name) <==> EverRated(calls, name) || Rates(Run(EMPTY, calls), c, name)
  {
    hide Run, Closes, Rates;
    var more := calls + [c];
    assert more[..|calls|] == calls && more[|calls|] == c;
    forall i | 0 <= i < |calls| ensures more[..i] == calls[..i] && more[i] == calls[i] {}
    if EverClosed(calls, name) {
      var i :| 0 <= i < |calls| && Closes(Run(EMPTY, calls[..i]), calls[i], name);
      assert Closes(Run(EMPTY, more[..i]), more[i], name);
    }
    if EverRated(calls, name) {
      var i :| 0 <= i < |calls| && Rates(Run(EMPTY, calls[..i]), calls[i], name);
      assert Rates(Run(EMPTY, more[..i]), more[i], name);
    }
  }

  ghost predicate IsClosed(db: Db, ep: string) { ep in db.episodes && db.episodes[ep].closed }

  ghost predicate IsRated(db: Db, id: string) {
    exists f :: f in db.feedback && f.turn == id && HumanRating(f)
  }

  lemma ClosesExactly(db: Db, c: Call, ep: string)
    ensures IsClosed(Apply(db, c), ep) <==> IsClosed(db, ep) || Closes(db, c, ep)
  {
    match c
    case Record(e) => if Answer(db, c) == Accepted(true) { RecordOpens(db, e); }
    case Finish(e, terminated, reason) => FinishExactly(db, e, terminated, reason);
    case _ => hide FeedbackOutcome, RecordOutcome, FinishOutcome;
  }

  lemma RatesExactly(db: Db, c: Call, id: string)
    requires Inv(db)
    ensures IsRated(Apply(db, c), id) <==> IsRated(db, id) || Rates(db, c, id)
  {
    hide Inv, RecordOutcome, FinishOutcome, FeedbackOutcome, KnowsFeedback;
    match c
    case GiveFeedback(turn, fid, body, now) =>
      FeedbackStores(db, turn, fid, body, now);
      var r := db.feedback + [Feedback(fid, turn, body, now)];
      assert r[|db.feedback|] in r;
      if Rates(db, c, id) { StoredRating(Apply(db, c), fid, turn, body); }
      hide AfterFeedback, HasFeedback, Supported;
    case _ =>
  }

  lemma StoredRating(db: Db, id: string, turn: string, body: Body)
    requires HasFeedback(db.feedback, id, turn, body) && body.source == Human && body.score != Null
    ensures IsRated(db, turn)
  {
    var i :| 0 <= i < |db.feedback| && db.feedback[i].id == id && db.feedback[i].turn == turn
             && db.feedback[i].body == body;
    assert db.feedback[i] in db.feedback && HumanRating(db.feedback[i]);
  }

  lemma {:induction false} HistoryExactly(calls: seq<Call>, name: string)
    ensures IsClosed(Run(EMPTY, calls), name) <==> EverClosed(calls, name)
    ensures IsRated(Run(EMPTY, calls), name) <==> EverRated(calls, name)
  {
    hide *;
    if calls == [] {
      NothingEver(calls, name);
    } else {
      var before, c := calls[..|calls| - 1], calls[|calls| - 1];
      assert calls == before + [c];
      HistoryExactly(before, name);
      EverSnoc(before, c, name);
      EmptyInv();
      RunKeepsInv(EMPTY, before);
      RunSnoc(EMPTY, before, c);
      ClosesExactly(Run(EMPTY, before), c, name);
      RatesExactly(Run(EMPTY, before), c, name);
    }
  }

  lemma NothingEver(calls: seq<Call>, name: string)
    requires calls == []
    ensures !IsClosed(Run(EMPTY, calls), name) && !EverClosed(calls, name)
    ensures !IsRated(Run(EMPTY, calls), name) && !EverRated(calls, name)
  {}

  /** Over every run a turn may be trained on exactly when its episode was finished and the turn rated by a human, both
      in accepted calls, and its evidence has a raw action, the real runtime and a model digest. */
  lemma {:induction false} EligibleByHistory(calls: seq<Call>, t: Turn)
    requires t in Run(EMPTY, calls).turns
    ensures Eligible(Run(EMPTY, calls), t)
        <==> EverClosed(calls, t.episode) && EverRated(calls, t.id)
             && RawAction in t.payload && t.payload[RawAction] != Null
             && ProvenanceField(t, Runtime) == REAL && Truthy(ProvenanceField(t, ModelSha))
  {
    HistoryExactly(calls, t.episode);
    HistoryExactly(calls, t.id);
    hide Run, EverClosed, EverRated, ProvenanceField, Truthy, HumanRating;
  }

  // ---------- the review queue ----------

  datatype Status = Unreviewed | Reviewed | AnyStatus | BadStatus
  datatype RuntimeFilter = AnyRuntime | RealRuntime | BrowserRuntime | BadRuntime
  datatype Counts = Counts(returned: nat, reviewed: nat, unreviewed: nat, eligible: nat)
  datatype Queue = Refused | Queue(items: seq<ExportRow>, counts: Counts)

  predicate IsReviewed(r: ExportRow) {
    exists f :: f in r.feedback && HumanRating(f)
  }

  predicate TurnInRuntime(t: Turn, runtime: RuntimeFilter) {
    match runtime
    case AnyRuntime => true
    case RealRuntime => ProvenanceField(t, Runtime) == REAL
    case BrowserRuntime => ProvenanceField(t, Runtime) == Str("browser_rule_runtime")
    case BadRuntime => false
  }

  predicate InRuntime(r: ExportRow, runtime: RuntimeFilter) {
    TurnInRuntime(r.turn, runtime)
  }

  predicate Wanted(r: ExportRow, status: Status, runtime: RuntimeFilter) {
    && (status.Reviewed? ==> IsReviewed(r)) && (status.Unreviewed? ==> !IsReviewed(r)) && InRuntime(r, runtime)
  }

  function InReview(rows: seq<ExportRow>, runtime: RuntimeFilter): seq<ExportRow> {
    Filter(rows, (r: ExportRow) => InRuntime(r, runtime))
  }

  function WantedOf(rows: seq<ExportRow>, status: Status, runtime: RuntimeFilter): seq<ExportRow> {
    Filter(rows, (r: ExportRow) => Wanted(r, status, runtime))
  }

  /** The selecting loop of `review_queue`: walk the rows backwards up to `limit` wanted ones. */
  method SelectRows(rows: seq<ExportRow>, status: Status, runtime: RuntimeFilter, limit: nat)
    returns (items: seq<ExportRow>)
    requires limit >= 1
    ensures items == Take(Reversed(WantedOf(rows, status, runtime)), limit)
  {
    hide *;
    assert Reversed(WantedOf(rows[|rows|..], status, runtime)) == [] by { WantedNone(rows[|rows|..], status, runtime); }
    items := [];
    var i := |rows|;
    while i > 0
      invariant 0 <= i <= |rows| && |items| < limit
      invariant items == Reversed(WantedOf(rows[i..], status, runtime))
    {
      i := i - 1;
      var row := rows[i];
      WantedCons(rows, i, status, runtime);
      if !Wanted(row, status, runtime) { continue; }
      items := items + [row];
      if |items| == limit { break; }
    }
    TakeFromSuffix(rows, i, items, status, runtime, limit);
  }

  /** `review_queue`: at most `limit` wanted rows of the full export, last exported first. These are the most
      recently recorded wanted turns, newest first, exactly when their episode ids are in order; the counts cover
      every row of the chosen runtime, whatever the status filter and the limit. */
  method ReviewQueue(db: Db, status: Status, runtime: RuntimeFilter, limit: int)
    returns (q: Queue, ghost full: seq<ExportRow>)
    requires Inv(db)
    ensures q.Refused? <==> status.BadStatus? || runtime.BadRuntime? || !(1 <= limit <= 200)
    ensures q.Queue?
        ==> ExportsAll(db, Sort(db.turns, RowLe), full)
            && q.items == Take(Reversed(WantedOf(full, status, runtime)), limit)
    ensures q.Queue? ==> TurnsOf(q.items) == Take(Reversed(Sort(WantedTurns(db, status, runtime), RowLe)), limit)
    ensures q.Queue? ==> (TurnsOf(q.items) == Take(Reversed(WantedTurns(db, status, runtime)), limit)
                          <==> EpisodesInOrder(WantedTurns(db, status, runtime), limit))
    ensures q.Queue? ==> q.counts.returned == |q.items|
    ensures q.Queue? ==> q.counts.reviewed == |ReviewedRows(InReview(full, runtime))|
    ensures q.Queue? ==> q.counts.reviewed + q.counts.unreviewed == |InReview(full, runtime)|
    ensures q.Queue? ==> q.counts.eligible == |EligibleRows(InReview(full, runtime))|
  {
    hide *;
    full := [];
    if status.BadStatus? || runtime.BadRuntime? || limit < 1 || limit > 200 { return Refused, full; }
    var rows;
    rows, full := Export(db, false);
    var items := SelectRows(rows, status, runtime, limit);
    var reviewed, unreviewed, eligible := CountRows(rows, runtime);
    q := Queue(items, Counts(|items|, reviewed, unreviewed, eligible));
    QueueByEpisode(db, full, status, runtime, limit);
    NewestFirstExactly(db, full, status, runtime, limit);
  }

  /** The counting loop of `review_queue`. */
  method CountRows(rows: seq<ExportRow>, runtime: RuntimeFilter) returns (reviewed: nat, unreviewed: nat, eligible: nat)
    ensures reviewed == |ReviewedRows(InReview(rows, runtime))|
    ensures reviewed + unreviewed == |InReview(rows, runtime)|
    ensures eligible == |EligibleRows(InReview(rows, runtime))|
  {
    hide *;
    reviewed, unreviewed, eligible := 0, 0, 0;
    CountNone(rows[..0], runtime);
    for k := 0 to |rows|
      invariant reviewed == |ReviewedRows(InReview(rows[..k], runtime))|
      invariant reviewed + unreviewed == |InReview(rows[..k], runtime)|
      invariant eligible == |EligibleRows(InReview(rows[..k], runtime))|
    {
      CountStep(rows, k, runtime);
      if !InRuntime(rows[k], runtime) { continue; }
      if IsReviewed(rows[k]) { reviewed := reviewed + 1; } else { unreviewed := unreviewed + 1; }
      if rows[k].eligible { eligible := eligible + 1; }
    }
    assert rows[..|rows|] == rows;
  }

  lemma WantedNone(rows: seq<ExportRow>, status: Status, runtime: RuntimeFilter)
    requires rows == []
    ensures Reversed(WantedOf(rows, status, runtime)) == []
  {}

  lemma CountNone(rows: seq<ExportRow>, runtime: RuntimeFilter)
    requires rows == []
    ensures |InReview(rows, runtime)|
       == |ReviewedRows(InReview(rows, runtime))| == |EligibleRows(InReview(rows, runtime))| == 0
  {}

  lemma CountStep(rows: seq<ExportRow>, k: nat, runtime: RuntimeFilter)
    requires k < |rows|
    ensures var a, b := InReview(rows[..k], runtime), InReview(rows[..k + 1], runtime);
            if !InRuntime(rows[k], runtime) then b == a
            else && |b| == |a| + 1
                 && |ReviewedRows(b)| == |ReviewedRows(a)| + (if IsReviewed(rows[k]) then 1 else 0)
                 && |EligibleRows(b)| == |EligibleRows(a)| + (if rows[k].eligible then 1 else 0)
  {
    hide InRuntime, IsReviewed;
    assert rows[..k + 1][..k] == rows[..k];
    var a := InReview(rows[..k], runtime);
    assert (a + [rows[k]])[..|a|] == a;
  }

  lemma WantedCons(rows: seq<ExportRow>, i: nat, status: Status, runtime: RuntimeFilter)
    requires i < |rows|
    ensures Reversed(WantedOf(rows[i..], status, runtime))
         == Reversed(WantedOf(rows[i + 1..], status, runtime)) + if Wanted(rows[i], status, runtime) then [rows[i]]
             else []
  {
    hide Wanted;
    var p := (r: ExportRow) => Wanted(r, status, runtime);
    assert rows[i..] == [rows[i]] + rows[i + 1..];
    FilterConcat([rows[i]], rows[i + 1..], p);
    assert [rows[i]][..0] == [];
    assert Filter([rows[i]], p) == if Wanted(rows[i], status, runtime) then [rows[i]] else [];
    ReversedConcat(Filter([rows[i]], p), Filter(rows[i + 1..], p));
    assert Reversed([rows[i]]) == [rows[i]];
  }

  lemma TakeFromSuffix(rows: seq<ExportRow>, i: nat, items: seq<ExportRow>, status: Status, runtime: RuntimeFilter,
                       limit: nat)
    requires i <= |rows| && items == Reversed(WantedOf(rows[i..], status, runtime))
    requires |items| == limit || (i == 0 && |items| < limit)
    ensures items == Take(Reversed(WantedOf(rows, status, runtime)), limit)
  {
    assert rows == rows[..i] + rows[i..];
    FilterConcat(rows[..i], rows[i..], (r: ExportRow) => Wanted(r, status, runtime));
    ReversedConcat(WantedOf(rows[..i], status, runtime), WantedOf(rows[i..], status, runtime));
    if i == 0 { assert rows[..i] == []; }
  }

  /** No row can be trained on before a human has reviewed it, so the queue never counts more eligible rows than
      reviewed ones. */
  lemma EligibleAreReviewed(db: Db, rows: seq<ExportRow>, runtime: RuntimeFilter)
    requires ExportsAll(db, Sort(db.turns, RowLe), rows)
    ensures |EligibleRows(InReview(rows, runtime))|
         <= |ReviewedRows(InReview(rows, runtime))|
  {
    hide Sort, Log, Truthy, FeedbackLe, FeedbackOf;
    var xs := InReview(rows, runtime);
    FilterMembers(rows, (r: ExportRow) => InRuntime(r, runtime));
    forall r | r in xs && r.eligible ensures IsReviewed(r) {
      var i :| 0 <= i < |rows| && rows[i] == r;
      assert Exports(db, r.turn, r);
      FeedbackOfMembers(db, r.turn.id);
      var f :| f in db.feedback && f.turn == r.turn.id && HumanRating(f);
      assert f in r.feedback;
    }
    FilterImplies(xs, (r: ExportRow) => r.eligible, IsReviewed);
  }

  // ---------- how new the queue's rows are ----------

  function TurnsOf(rows: seq<ExportRow>): (r: seq<Turn>)
    ensures |r| == |rows| && forall i :: 0 <= i < |rows| ==> r[i] == rows[i].turn
  {
    seq(|rows|, i requires 0 <= i < |rows| => rows[i].turn)
  }

  /** Whether the queue wants a stored turn, without looking at the export. */
  ghost predicate WantedTurn(db: Db, t: Turn, status: Status, runtime: RuntimeFilter) {
    var rated := exists f :: f in db.feedback && f.turn == t.id && HumanRating(f);
    && (status.Reviewed? ==> rated) && (status.Unreviewed? ==> !rated) && TurnInRuntime(t, runtime)
  }

  /** The wanted turns in the order in which they were recorded. */
  ghost function WantedTurns(db: Db, status: Status, runtime: RuntimeFilter): seq<Turn> {
    Filter(db.turns, (t: Turn) => WantedTurn(db, t, status, runtime))
  }

  /** The last `n` turns recorded have episode ids that no earlier recorded one exceeds. */
  ghost predicate EpisodesInOrder(turns: seq<Turn>, n: nat) {
    forall i, j :: 0 <= i < j < |turns| && |turns| - n <= j ==> StrLe(turns[i].episode, turns[j].episode)
  }

  lemma WantedMeans(db: Db, t: Turn, r: ExportRow, status: Status, runtime: RuntimeFilter)
    requires Exports(db, t, r)
    ensures Wanted(r, status, runtime) <==> WantedTurn(db, t, status, runtime)
  {
    hide Log, Truthy, StrLe, FeedbackLe, FeedbackOf, ProvenanceField, RewardOk, Eligible, HumanRating;
    FeedbackOfMembers(db, t.id);
  }

  lemma {:induction false} WantedTurnsOf(db: Db, rows: seq<Turn>, full: seq<ExportRow>, status: Status,
                                         runtime: RuntimeFilter)
    requires ExportsAll(db, rows, full)
    ensures TurnsOf(WantedOf(full, status, runtime)) == Filter(rows, (t: Turn) => WantedTurn(db, t, status, runtime))
  {
    if full != [] {
      hide Wanted, WantedTurn, Exports;
      var n := |full| - 1;
      WantedTurnsOf(db, rows[..n], full[..n], status, runtime);
      assert Exports(db, rows[n], full[n]);
      WantedMeans(db, rows[n], full[n], status, runtime);
      assert full[n].turn == rows[n] by { ExportsItsTurn(db, rows[n], full[n]); }
    }
  }

  lemma ExportsItsTurn(db: Db, t: Turn, r: ExportRow)
    requires Exports(db, t, r)
    ensures r.turn == t
  {}

  lemma TakeTurns(rows: seq<ExportRow>, n: nat)
    ensures TurnsOf(Take(Reversed(rows), n)) == Take(Reversed(TurnsOf(rows)), n)
  {}

  /** The queue shows the wanted turns by episode id and step, the greatest first. */
  lemma {:induction false} QueueByEpisode(db: Db, full: seq<ExportRow>, status: Status, runtime: RuntimeFilter,
                                          limit: nat)
    requires ExportsAll(db, Sort(db.turns, RowLe), full)
    ensures TurnsOf(Take(Reversed(WantedOf(full, status, runtime)), limit))
         == Take(Reversed(Sort(WantedTurns(db, status, runtime), RowLe)), limit)
  {
    RowOrder();
    hide RowLe, ExportsAll, Sort, WantedTurn, WantedOf;
    WantedTurnsOf(db, Sort(db.turns, RowLe), full, status, runtime);
    FilterSort(db.turns, (t: Turn) => WantedTurn(db, t, status, runtime), RowLe);
    TakeTurns(WantedOf(full, status, runtime), limit);
  }

  /** Two stored turns of one episode stand in step order. */
  predicate StepsGrow(a: Turn, b: Turn) {
    a.episode == b.episode ==> a.step < b.step
  }

  /** Every log counts its steps from 1. */
  ghost predicate StepsCount(turns: seq<Turn>) {
    forall ep, k :: 0 <= k < |Log(turns, ep)| ==> Log(turns, ep)[k].step == k + 1
  }

  lemma StoredCount(db: Db)
    requires Inv(db)
    ensures StepsCount(db.turns)
  {
    hide Log, WellFormed, Row;
    forall ep, k | 0 <= k < |Log(db.turns, ep)| ensures Log(db.turns, ep)[k].step == k + 1 {
      LogIsChained(db.turns, db.episodes, ep);
    }
  }

  lemma CountPrefix(turns: seq<Turn>, t: Turn)
    requires StepsCount(turns + [t])
    ensures StepsCount(turns) && t.step == |Log(turns, t.episode)| + 1
  {
    forall ep ensures Log(turns + [t], ep) == Log(turns, ep) + if t.episode == ep then [t] else [] {
      LogSnoc(turns, t, ep);
    }
    hide Log;
    forall ep, k | 0 <= k < |Log(turns, ep)| ensures Log(turns, ep)[k].step == k + 1 {
      assert Log(turns + [t], ep)[k] == Log(turns, ep)[k];
    }
    assert Log(turns + [t], t.episode)[|Log(turns, t.episode)|] == t;
  }

  lemma {:induction false} RecordedInStepOrder(turns: seq<Turn>)
    requires StepsCount(turns)
    ensures Sorted(turns, StepsGrow)
  {
    if turns != [] {
      var n := |turns| - 1;
      var t := turns[n];
      assert turns == turns[..n] + [t];
      CountPrefix(turns[..n], t);
      RecordedInStepOrder(turns[..n]);
      LogMembers(turns[..n], t.episode);
      var log := Log(turns[..n], t.episode);
      hide Log;
      forall i | 0 <= i < n ensures StepsGrow(turns[i], t) {
        if turns[i].episode == t.episode {
          assert turns[..n][i] in log;
          var k :| 0 <= k < |log| && log[k] == turns[i];
        }
      }
      forall i, j | 0 <= i < j < |turns| ensures StepsGrow(turns[i], turns[j]) {
        if j < n { assert turns[i] == turns[..n][i] && turns[j] == turns[..n][j]; }
      }
    }
  }

  /** Among stored turns row order is episode order. */
  lemma {:induction false} RowOrderIsEpisodeOrder(db: Db, status: Status, runtime: RuntimeFilter, n: nat)
    requires Inv(db)
    ensures var w := WantedTurns(db, status, runtime); TailInOrder(w, n, RowLe) <==> EpisodesInOrder(w, n)
  {
    StoredCount(db);
    RecordedInStepOrder(db.turns);
    FilterSorted(db.turns, (t: Turn) => WantedTurn(db, t, status, runtime), StepsGrow);
    hide Inv, WantedTurns, Log, StrLe;
    StrOrder();
    var w := WantedTurns(db, status, runtime);
    forall i, j | 0 <= i < j < |w| ensures RowLe(w[i], w[j]) <==> StrLe(w[i].episode, w[j].episode) {
      assert StepsGrow(w[i], w[j]);
    }
  }

  /** The queue is newest-first, as documented, exactly when no episode id among the last `limit` wanted turns
      recorded is exceeded by that of a wanted turn recorded before. */
  lemma {:induction false} NewestFirstExactly(db: Db, full: seq<ExportRow>, status: Status, runtime: RuntimeFilter,
                                              limit: nat)
    requires Inv(db) && ExportsAll(db, Sort(db.turns, RowLe), full)
    ensures var w := WantedTurns(db, status, runtime);
            var shown := Take(Reversed(WantedOf(full, status, runtime)), limit);
            TurnsOf(shown) == Take(Reversed(w), limit) <==> EpisodesInOrder(w, limit)
  {
    hide *;
    var w := WantedTurns(db, status, runtime);
    var n := if limit <= |w| then limit else |w|;
    QueueByEpisode(db, full, status, runtime, limit);
    RowOrderIsEpisodeOrder(db, status, runtime, n);
    RowOrder();
    SortKeepsTail(w, n, RowLe);
    TakeReversed(Sort(w, RowLe), w, limit);
    EnoughTurns(w, limit, n);
  }

  lemma EnoughTurns(w: seq<Turn>, limit: nat, n: nat)
    requires n == if limit <= |w| then limit else |w|
    ensures EpisodesInOrder(w, n) <==> EpisodesInOrder(w, limit)
  {}

  /** In every run the whole export backwards is the recorded turns backwards exactly when episode ids never decrease as
      turns are recorded. */
  lemma {:induction false} ExportNewestFirstExactly(calls: seq<Call>, full: seq<ExportRow>)
    requires ExportsAll(Run(EMPTY, calls), Sort(Run(EMPTY, calls).turns, RowLe), full)
    ensures var turns := Run(EMPTY, calls).turns;
            Reversed(TurnsOf(full)) == Reversed(turns) <==> EpisodesInOrder(turns, |turns|)
  {
    var db := Run(EMPTY, calls);
    RunKeepsInv(EMPTY, calls);
    hide *;
    WantedAll(db, full);
    NewestFirstExactly(db, full, AnyStatus, AnyRuntime, |db.turns|);
    TakeAll(db, full);
  }

  lemma TakeAll(db: Db, full: seq<ExportRow>)
    requires ExportsAll(db, Sort(db.turns, RowLe), full)
    ensures TurnsOf(Take(Reversed(full), |db.turns|)) == Reversed(TurnsOf(full))
    ensures Take(Reversed(db.turns), |db.turns|) == Reversed(db.turns)
  {
    SortMembers(db.turns, RowLe);
    TakeTurns(full, |db.turns|);
  }

  /** Without filters every row and every turn is wanted. */
  lemma WantedAll(db: Db, full: seq<ExportRow>)
    ensures WantedOf(full, AnyStatus, AnyRuntime) == full && WantedTurns(db, AnyStatus, AnyRuntime) == db.turns
  {
    hide HumanRating;
    FilterAll(full, (r: ExportRow) => Wanted(r, AnyStatus, AnyRuntime));
    FilterAll(db.turns, (t: Turn) => WantedTurn(db, t, AnyStatus, AnyRuntime));
  }

  /** The documented order fails: when a second episode has a smaller id, its newer turn is shown after the older
      one. */
  lemma {:induction false} OlderTurnFirst(full: seq<ExportRow>, limit: nat)
    requires var db := Run(EMPTY, TwoEpisodes()); ExportsAll(db, Sort(db.turns, RowLe), full)
    ensures var turns := Run(EMPTY, TwoEpisodes()).turns;
            |turns| == 2 && turns[0] != turns[1]
                && TurnsOf(Take(Reversed(WantedOf(full, Unreviewed, AnyRuntime)), limit)) == Take(turns, limit)
  {
    TwoEpisodesStored();
    hide Run, TwoEpisodes;
    OlderFirst(Run(EMPTY, TwoEpisodes()), full, limit);
  }

  lemma {:induction false} OlderFirst(db: Db, full: seq<ExportRow>, limit: nat)
    requires ExportsAll(db, Sort(db.turns, RowLe), full) && |db.turns| == 2 && db.feedback == []
    requires !RowLe(db.turns[0], db.turns[1])
    ensures TurnsOf(Take(Reversed(WantedOf(full, Unreviewed, AnyRuntime)), limit)) == Take(db.turns, limit)
  {
    assert !RowLe(db.turns[0], db.turns[1]);
    hide *;
    QueueByEpisode(db, full, Unreviewed, AnyRuntime, limit);
    NothingRated(db);
    SortSwaps(db.turns[0], db.turns[1]);
    assert db.turns == [db.turns[0], db.turns[1]];
    assert Reversed([db.turns[1], db.turns[0]]) == db.turns;
  }

  lemma NothingRated(db: Db)
    requires db.feedback == []
    ensures WantedTurns(db, Unreviewed, AnyRuntime) == db.turns
  {
    FilterAll(db.turns, (t: Turn) => WantedTurn(db, t, Unreviewed, AnyRuntime));
  }

  lemma SortSwaps(a: Turn, b: Turn)
    requires !RowLe(a, b)
    ensures Sort([a, b], RowLe) == [b, a]
  {
    assert [a, b][1..] == [b] && [b][1..] == [];
    assert Sort([b], RowLe) == [b];
    assert Insert(a, [b], RowLe) == [b, a];
  }

  lemma TwoEpisodesStored()
    ensures var db := Run(EMPTY, TwoEpisodes());
            |db.turns| == 2 && db.feedback == [] && db.turns[0] != db.turns[1] && !RowLe(db.turns[0], db.turns[1])
  {
    var e, f := FirstOf("b", "1"), FirstOf("a", "2");
    RunTwo(EMPTY, Record(e), Record(f));
    hide Run;
    BothStored(e, f);
    hide Apply;
    assert !RowLe(Row(e), Row(f));
  }

  lemma BothStored(e: Event, f: Event)
    requires WellFormed(e) && WellFormed(f) && Row(e).step == Row(f).step == 1
    requires Row(e).id != Row(f).id && Row(e).episode != Row(f).episode
    ensures var db := Apply(Apply(EMPTY, Record(e)), Record(f)); db.turns == [Row(e), Row(f)] && db.feedback == []
  {
    assert RecordOutcome(EMPTY, e) == Accepted(true);
    LogSnoc([], Row(e), Row(f).episode);
    FindTurnSnoc([], Row(e), Row(f).id);
    assert [] + [Row(e)] == [Row(e)];
    assert RecordOutcome(AfterRecord(EMPTY, e), f) == Accepted(true);
  }

  lemma RunTwo(db: Db, c: Call, d: Call)
    ensures Run(db, [c, d]) == Apply(Apply(db, c), d)
  {
    assert [c, d][..1] == [c] && [c][..0] == [];
    assert Run(db, [c]) == Apply(db, c);
  }

  function FirstOf(ep: string, id: string): Event {
    map[EventId := Str(id), EpisodeId := Str(ep), StepNo := Int(1), Observation := Null, StateBefore := Null,
        RawAction := Null,
        Action := Null, StateAfter := Null, Provenance := Obj(map[Runtime := REAL]), Execution := Null]
  }

  /** Episode "b" is opened before episode "a". */
  function TwoEpisodes(): seq<Call> {
    [Record(FirstOf("b", "1")), Record(FirstOf("a", "2"))]
  }
}
