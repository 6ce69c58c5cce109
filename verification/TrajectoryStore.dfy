/** The append-only evidence store: episodes, turns and feedback kept in four tables. */
module TrajectoryStore {
  import opened Wrappers

  /** JSON values; canonical text (sorted keys, no NaN) is equal exactly when the values are. */
  datatype Json = Null | Bool(b: bool) | Int(i: int) | Real(r: real) | Str(s: string) | Arr(items: seq<Json>)
                | Obj(fields: map<Key, Json>)

  /** The object keys the program reads, and all others. */
  datatype Key = EventId | EpisodeId | StepNo | Observation | StateBefore | RawAction | Action | StateAfter | Provenance
               | Execution | Runtime | ModelSha | Phases | Other(name: string)

  type Event = map<Key, Json>

  datatype Error = Incomplete | BadStep | BadIds | NoRuntime | EvidenceConflict | EpisodeClosed | Reordered
                 | Discontinuous | FirstStepNotOne | Unsupported | BadScore | CandidateReward
                 | FeedbackConflict | UnknownTurn | UnknownEpisode | OutcomeConflict

  datatype Outcome = Accepted(inserted: bool) | AcceptedId(id: string) | Done | Rejected(error: Error)

  /** Collector identifiers, written together with the export mark. */
  datatype Link = Link(trace: nat, span: nat)
  datatype Episode = Episode(closed: bool, terminated: bool, reason: Option<string>)
  datatype Turn = Turn(id: string, episode: string, step: int, payload: Event, link: Option<Link>)
  datatype Kind = Incorrect | Correct | Rating | CorrectionCandidate | OtherKind(name: string)
  datatype Source = Human | Device | Evaluator | OtherSource(name: string)
  datatype Body = Body(kind: Kind, source: Source, score: Json, correction: Json)
  datatype Feedback = Feedback(id: string, turn: string, body: Body, created: int)

  datatype Db = Db(episodes: map<string, Episode>, turns: seq<Turn>, feedback: seq<Feedback>, sent: map<string, int>)

  const EMPTY := Db(map[], [], [], map[])

  predicate Truthy(j: Json) {
    match j
    case Null => false
    case Bool(b) => b
    case Int(i) => i != 0
    case Real(r) => r != 0.0
    case Str(s) => s != ""
    case Arr(items) => items != []
    case Obj(fields) => fields != map[]
  }

  predicate Complete(e: Event) {
    && EventId in e && EpisodeId in e && StepNo in e && Observation in e && StateBefore in e && RawAction in e
    && Action in e && StateAfter in e && Provenance in e && Execution in e
  }

  predicate PositiveStep(e: Event)
    requires Complete(e)
  {
    e[StepNo].Int? && e[StepNo].i >= 1
  }

  predicate Named(e: Event)
    requires Complete(e)
  {
    e[EventId].Str? && e[EventId].s != "" && e[EpisodeId].Str? && e[EpisodeId].s != ""
  }

  predicate Sourced(e: Event)
    requires Complete(e)
  {
    e[Provenance].Obj? && Runtime in e[Provenance].fields && Truthy(e[Provenance].fields[Runtime])
  }

  predicate WellFormed(e: Event) {
    Complete(e) && PositiveStep(e) && Named(e) && Sourced(e)
  }

  function Row(e: Event): Turn
    requires WellFormed(e)
  {
    Turn(e[EventId].s, e[EpisodeId].s, e[StepNo].i, e, None)
  }

  predicate ValidScore(j: Json) {
    j.Null? || (j.Int? && -1 <= j.i <= 1) || (j.Real? && -1.0 <= j.r <= 1.0)
  }

  // ---------- queries ----------

  function FindTurn(turns: seq<Turn>, id: string): Option<Turn> {
    if turns == [] then None else if turns[0].id == id then Some(turns[0]) else FindTurn(turns[1..], id)
  }

  function FindFeedback(fs: seq<Feedback>, id: string): Option<Feedback> {
    if fs == [] then None else if fs[0].id == id then Some(fs[0]) else FindFeedback(fs[1..], id)
  }

  /** `ORDER BY step DESC LIMIT 1` over one episode. */
  function Latest(turns: seq<Turn>, ep: string): Option<Turn> {
    if turns == [] then None
    else
      var rest := Latest(turns[1..], ep);
      if turns[0].episode == ep && (rest.None? || rest.value.step < turns[0].step) then Some(turns[0]) else rest
  }

  /** The turns of one episode in the order they were stored. */
  function Log(turns: seq<Turn>, ep: string): seq<Turn> {
    if turns == [] then []
    else Log(turns[..|turns| - 1], ep) + if turns[|turns| - 1].episode == ep then [turns[|turns| - 1]] else []
  }

  /** With unique ids the lookup finds exactly the stored rows. */
  lemma {:induction false} FindTurnAt(turns: seq<Turn>, id: string)
    ensures FindTurn(turns, id).None? ==> forall i :: 0 <= i < |turns| ==> turns[i].id != id
    ensures FindTurn(turns, id).Some?
        ==> exists i :: 0 <= i < |turns| && turns[i] == FindTurn(turns, id).value && turns[i].id == id
  {
    if turns != [] && turns[0].id != id {
      FindTurnAt(turns[1..], id);
      if FindTurn(turns, id).Some? {
        var i :| 0 <= i < |turns[1..]| && turns[1..][i] == FindTurn(turns, id).value && turns[1..][i].id == id;
        assert turns[i + 1] == FindTurn(turns, id).value;
      }
    }
  }

  lemma {:induction false} FindFeedbackAt(fs: seq<Feedback>, id: string)
    ensures FindFeedback(fs, id).None? ==> forall i :: 0 <= i < |fs| ==> fs[i].id != id
    ensures FindFeedback(fs, id).Some?
        ==> exists i :: 0 <= i < |fs| && fs[i] == FindFeedback(fs, id).value && fs[i].id == id
  {
    if fs != [] && fs[0].id != id {
      FindFeedbackAt(fs[1..], id);
      if FindFeedback(fs, id).Some? {
        var i :| 0 <= i < |fs[1..]| && fs[1..][i] == FindFeedback(fs, id).value && fs[1..][i].id == id;
        assert fs[i + 1] == FindFeedback(fs, id).value;
      }
    }
  }

  lemma {:induction false} LogMembers(turns: seq<Turn>, ep: string)
    ensures forall t :: t in Log(turns, ep) <==> t in turns && t.episode == ep
  {
    if turns != [] {
      var n := |turns| - 1;
      LogMembers(turns[..n], ep);
      assert turns == turns[..n] + [turns[n]];
    }
  }

  lemma {:induction false} LatestIsGreatest(turns: seq<Turn>, ep: string)
    ensures Latest(turns, ep).None? ==> forall t :: t in turns ==> t.episode != ep
    ensures Latest(turns, ep).Some? ==> Latest(turns, ep).value in turns && Latest(turns, ep).value.episode == ep
    ensures Latest(turns, ep).Some?
        ==> forall t :: t in turns && t.episode == ep ==> t.step <= Latest(turns, ep).value.step
  {
    if turns != [] {
      LatestIsGreatest(turns[1..], ep);
      assert turns == [turns[0]] + turns[1..];
    }
  }

  lemma LogSnoc(turns: seq<Turn>, t: Turn, ep: string)
    ensures Log(turns + [t], ep) == Log(turns, ep) + if t.episode == ep then [t] else []
  {
    assert (turns + [t])[..|turns|] == turns;
  }

  // ---------- what the store promises ----------

  ghost predicate Continues(a: Event, b: Event) {
    StateAfter in a && StateBefore in b && b[StateBefore] == a[StateAfter]
  }

  /** Steps are exactly 1..n and every state continues the previous one. */
  ghost predicate Chained(log: seq<Turn>) {
    && (forall k :: 0 <= k < |log| ==> WellFormed(log[k].payload) && log[k].step == k + 1)
    && (forall k :: 1 <= k < |log| ==> Continues(log[k - 1].payload, log[k].payload))
  }

  ghost predicate TurnOk(t: Turn, episodes: map<string, Episode>) {
    WellFormed(t.payload) && Row(t.payload).(link := t.link) == t && t.episode in episodes
  }

  ghost predicate RowsOk(turns: seq<Turn>, episodes: map<string, Episode>) {
    && (forall i :: 0 <= i < |turns| ==> TurnOk(turns[i], episodes))
    && (forall i, j :: 0 <= i < j < |turns| ==> turns[i].id != turns[j].id)
  }

  ghost predicate LogsOk(turns: seq<Turn>, episodes: map<string, Episode>) {
    forall ep :: ep in episodes ==> Log(turns, ep) != [] && Chained(Log(turns, ep))
  }

  ghost predicate FeedbackOk(fs: seq<Feedback>, turns: seq<Turn>) {
    && (forall i, j :: 0 <= i < j < |fs| ==> fs[i].id != fs[j].id)
    && (forall i :: 0 <= i < |fs| ==> FindTurn(turns, fs[i].turn).Some? && ValidScore(fs[i].body.score))
  }

  ghost predicate SentOk(sent: map<string, int>, fs: seq<Feedback>) {
    forall id :: id in sent ==> FindFeedback(fs, id).Some?
  }

  ghost predicate Inv(db: Db) {
    && RowsOk(db.turns, db.episodes) && LogsOk(db.turns, db.episodes)
    && FeedbackOk(db.feedback, db.turns) && SentOk(db.sent, db.feedback)
  }

  /** Under the invariant the newest row by step is the last one logged, and its step is the log's length. */
  lemma {:induction false} LatestIsLast(turns: seq<Turn>, episodes: map<string, Episode>, ep: string)
    requires RowsOk(turns, episodes) && LogsOk(turns, episodes)
    ensures var log := Log(turns, ep);
            if log == [] then Latest(turns, ep).None?
            else
              && Latest(turns, ep) == Some(log[|log| - 1]) && log[|log| - 1].step == |log|
              && StateAfter in log[|log| - 1].payload
  {
    hide WellFormed, Row;
    var log := Log(turns, ep);
    LogMembers(turns, ep);
    LatestIsGreatest(turns, ep);
    if log != [] {
      LogIsChained(turns, episodes, ep);
      assert log[|log| - 1] in log;
      hide RowsOk, LogsOk, Log, Latest, Chained;
      LastIsBest(log, Latest(turns, ep).value);
      HasStates(log[|log| - 1].payload);
    }
  }

  lemma {:induction false} LastIsBest(log: seq<Turn>, best: Turn)
    requires Chained(log) && best in log && forall t :: t in log ==> t.step <= best.step
    ensures best == log[|log| - 1] && best.step == |log|
  {
    hide WellFormed, Continues;
    var k :| 0 <= k < |log| && log[k] == best;
    assert log[|log| - 1] in log;
  }

  lemma {:induction false} LogIsChained(turns: seq<Turn>, episodes: map<string, Episode>, ep: string)
    requires RowsOk(turns, episodes) && LogsOk(turns, episodes) && Log(turns, ep) != []
    ensures Chained(Log(turns, ep)) && forall t :: t in Log(turns, ep) ==> t in turns && WellFormed(t.payload)
  {
    LogMembers(turns, ep);
    hide WellFormed, Row, Chained, Log;
    var log := Log(turns, ep);
    assert log[0] in log;
    forall t | t in log ensures t in turns && WellFormed(t.payload) && ep in episodes {
      var i :| 0 <= i < |turns| && turns[i] == t;
      assert TurnOk(turns[i], episodes);
    }
  }

  lemma HasStates(e: Event)
    requires WellFormed(e)
    ensures StateAfter in e && StateBefore in e
  {}

  /** The step of every row is at most the length of its episode's log, and equal for the last one only. */
  lemma {:induction false} StepWithinLog(db: Db, t: Turn)
    requires Inv(db) && t in db.turns
    ensures 1 <= t.step <= |Log(db.turns, t.episode)|
    ensures Log(db.turns, t.episode)[t.step - 1] == t
  {
    hide WellFormed, Row, Log;
    LogMembers(db.turns, t.episode);
    var i :| 0 <= i < |db.turns| && db.turns[i] == t;
    assert TurnOk(db.turns[i], db.episodes);
    var log := Log(db.turns, t.episode);
    assert Chained(log);
    assert t in log;
    var k :| 0 <= k < |log| && log[k] == t;
  }

  // ---------- operations as functions of the tables ----------

  /** What `record` answers, read off the episode's stored log. */
  function RecordOutcome(db: Db, e: Event): Outcome {
    if !Complete(e) then Rejected(Incomplete)
    else if !PositiveStep(e) then Rejected(BadStep)
    else if !Named(e) then Rejected(BadIds)
    else if !Sourced(e) then Rejected(NoRuntime)
    else
      var row, seen := Row(e), FindTurn(db.turns, e[EventId].s);
      if seen.Some? then (if seen.value.payload == e then Accepted(false) else Rejected(EvidenceConflict))
      else
        var log := Log(db.turns, row.episode);
        if row.episode in db.episodes && db.episodes[row.episode].closed then Rejected(EpisodeClosed)
        else if row.step != |log| + 1 then Rejected(if log == [] then FirstStepNotOne else Reordered)
        else if log != [] && StateAfter in log[|log| - 1].payload
                && e[StateBefore] != log[|log| - 1].payload[StateAfter] then Rejected(Discontinuous)
        else Accepted(true)
  }

  function AfterRecord(db: Db, e: Event): Db {
    if RecordOutcome(db, e) != Accepted(true) then db
    else
      var ep := e[EpisodeId].s;
      db.(turns := db.turns + [Row(e)],
          episodes := if ep in db.episodes then db.episodes else db.episodes[ep := Episode(false, false, None)])
  }

  function FeedbackOutcome(db: Db, turn: string, id: string, body: Body): Outcome {
    if body.kind.OtherKind? || body.source.OtherSource? then Rejected(Unsupported)
    else if !ValidScore(body.score) then Rejected(BadScore)
    else if body.kind.CorrectionCandidate? && !body.score.Null? then Rejected(CandidateReward)
    else
      var seen := FindFeedback(db.feedback, id);
      if seen.Some? then (if seen.value.turn == turn && seen.value.body == body then AcceptedId(id)
          else Rejected(FeedbackConflict))
      else if FindTurn(db.turns, turn).None? then Rejected(UnknownTurn)
      else AcceptedId(id)
  }

  function AfterFeedback(db: Db, turn: string, id: string, body: Body, now: int): Db {
    if FeedbackOutcome(db, turn, id, body).AcceptedId? && FindFeedback(db.feedback, id).None?
    then db.(feedback := db.feedback + [Feedback(id, turn, body, now)]) else db
  }

  function FinishOutcome(db: Db, ep: string, terminated: bool, reason: Option<string>): Outcome {
    if ep !in db.episodes then Rejected(UnknownEpisode)
    else if db.episodes[ep].closed
        && db.episodes[ep] != Episode(true, terminated, reason) then Rejected(OutcomeConflict)
    else Done
  }

  function AfterFinish(db: Db, ep: string, terminated: bool, reason: Option<string>): Db {
    if FinishOutcome(db, ep, terminated, reason) == Done
    then db.(episodes := db.episodes[ep := Episode(true, terminated, reason)]) else db
  }

  /** `UPDATE turns SET trace_id, span_id, exported_at WHERE id=?`. */
  function Linked(turns: seq<Turn>, id: string, link: Link): (r: seq<Turn>)
    ensures |r| == |turns|
    ensures forall i :: 0 <= i < |turns| ==> r[i] == if turns[i].id == id then turns[i].(link := Some(link))
        else turns[i]
  {
    seq(|turns|, i requires 0 <= i < |turns| => if turns[i].id == id then turns[i].(link := Some(link)) else turns[i])
  }

  /** `feedback_id or uuid4()`. */
  function FeedbackId(given: Option<string>, uuid: string): string {
    if given.Some? && given.value != "" then given.value else uuid
  }

  // ---------- the store object ----------

  class Store {
    var episodes: map<string, Episode>
    var turns: seq<Turn>
    var feedback: seq<Feedback>
    var sent: map<string, int>

    function Tables(): Db
      reads this
    {
      Db(episodes, turns, feedback, sent)
    }

    constructor ()
      ensures Tables() == EMPTY
    {
      episodes, turns, feedback, sent := map[], [], [], map[];
    }

    /** Undo everything since the transaction began. */
    method Rollback(saved: Db)
      modifies this
      ensures Tables() == saved
    {
      episodes, turns, feedback, sent := saved.episodes, saved.turns, saved.feedback, saved.sent;
    }

    method Record(e: Event) returns (o: Outcome)
      requires Inv(Tables())
      modifies this
      ensures o == RecordOutcome(old(Tables()), e)
      ensures Tables() == AfterRecord(old(Tables()), e)
    {
      if WellFormed(e) { LatestIsLast(turns, episodes, e[EpisodeId].s); }
      hide Latest, Log, Inv, FindTurn, Truthy;
      if !Complete(e) { return Rejected(Incomplete); }
      if !PositiveStep(e) { return Rejected(BadStep); }
      if !Named(e) { return Rejected(BadIds); }
      if !Sourced(e) { return Rejected(NoRuntime); }
      var saved := Tables();
      var ep, step := e[EpisodeId].s, e[StepNo].i;
      var seen := FindTurn(turns, e[EventId].s);
      if seen.Some? {
        if seen.value.payload != e { Rollback(saved); return Rejected(EvidenceConflict); }
        return Accepted(false);
      }
      if ep !in episodes { episodes := episodes[ep := Episode(false, false, None)]; }
      if episodes[ep].closed { Rollback(saved); return Rejected(EpisodeClosed); }
      var previous := Latest(turns, ep);
      if previous.Some? {
        if step != previous.value.step + 1 { Rollback(saved); return Rejected(Reordered); }
        if e[StateBefore] != previous.value.payload[StateAfter] { Rollback(saved); return Rejected(Discontinuous); }
      } else if step != 1 {
        Rollback(saved);
        return Rejected(FirstStepNotOne);
      }
      turns := turns + [Turn(e[EventId].s, ep, step, e, None)];
      return Accepted(true);
    }

    method GiveFeedback(turn: string, given: Option<string>, body: Body, now: int, uuid: string) returns (o: Outcome)
      modifies this
      ensures o == FeedbackOutcome(old(Tables()), turn, FeedbackId(given, uuid), body)
      ensures o.AcceptedId? ==> o.id == if given.Some? && |given.value| > 0 then given.value else uuid
      ensures Tables() == AfterFeedback(old(Tables()), turn, FeedbackId(given, uuid), body, now)
    {
      if body.kind.OtherKind? || body.source.OtherSource? { return Rejected(Unsupported); }
      if !body.score.Null?
          && !((body.score.Int? && -1 <= body.score.i <= 1) || (body.score.Real? && -1.0 <= body.score.r <= 1.0)) {
        return Rejected(BadScore);
      }
      if body.kind.CorrectionCandidate? && !body.score.Null? { return Rejected(CandidateReward); }
      var id := FeedbackId(given, uuid);
      var saved := Tables();
      var existing := FindFeedback(feedback, id);
      if existing.Some? {
        if existing.value.turn != turn || existing.value.body != body {
          Rollback(saved);
          return Rejected(FeedbackConflict);
        }
        return AcceptedId(id);
      }
      if FindTurn(turns, turn).None? { Rollback(saved); return Rejected(UnknownTurn); }
      feedback := feedback + [Feedback(id, turn, body, now)];
      return AcceptedId(id);
    }

    method Finish(ep: string, terminated: bool, reason: Option<string>) returns (o: Outcome)
      modifies this
      ensures o == FinishOutcome(old(Tables()), ep, terminated, reason)
      ensures Tables() == AfterFinish(old(Tables()), ep, terminated, reason)
    {
      if ep !in episodes { return Rejected(UnknownEpisode); }
      var row := episodes[ep];
      if row.closed && (row.terminated != terminated || row.reason != reason) { return Rejected(OutcomeConflict); }
      episodes := episodes[ep := Episode(true, terminated, reason)];
      return Done;
    }
  }

  // ---------- whole runs ----------

  /** Every way the tables are written: the three public calls and the exporter's two marks. */
  datatype Call =
    | Record(e: Event)
    | GiveFeedback(turn: string, id: string, body: Body, now: int)
    | Finish(episode: string, terminated: bool, reason: Option<string>)
    | MarkTurn(id: string, link: Link)
    | MarkFeedback(id: string, at: int)

  function Answer(db: Db, c: Call): Outcome {
    match c
    case Record(e) => RecordOutcome(db, e)
    case GiveFeedback(turn, id, body, _) => FeedbackOutcome(db, turn, id, body)
    case Finish(ep, terminated, reason) => FinishOutcome(db, ep, terminated, reason)
    case MarkTurn(_, _) => Done
    case MarkFeedback(_, _) => Done
  }

  function Apply(db: Db, c: Call): Db {
    match c
    case Record(e) => AfterRecord(db, e)
    case GiveFeedback(turn, id, body, now) => AfterFeedback(db, turn, id, body, now)
    case Finish(ep, terminated, reason) => AfterFinish(db, ep, terminated, reason)
    case MarkTurn(id, link) => db.(turns := Linked(db.turns, id, link))
    case MarkFeedback(id, at) =>
      if FindFeedback(db.feedback, id).Some? && id !in db.sent then db.(sent := db.sent[id := at]) else db
  }

  function Run(db: Db, calls: seq<Call>): Db {
    if calls == [] then db else Apply(Run(db, calls[..|calls| - 1]), calls[|calls| - 1])
  }

  lemma {:induction false} LogLinked(turns: seq<Turn>, id: string, link: Link, ep: string)
    ensures Log(Linked(turns, id, link), ep) == Linked(Log(turns, ep), id, link)
  {
    if turns != [] {
      var n := |turns| - 1;
      LogLinked(turns[..n], id, link, ep);
      assert Linked(turns, id, link)[..n] == Linked(turns[..n], id, link);
    }
  }

  lemma {:induction false} FindLinked(turns: seq<Turn>, id: string, link: Link, other: string)
    ensures FindTurn(Linked(turns, id, link), other).Some? <==> FindTurn(turns, other).Some?
  {
    if turns != [] {
      FindLinked(turns[1..], id, link, other);
      assert Linked(turns, id, link)[1..] == Linked(turns[1..], id, link);
    }
  }

  lemma {:induction false} FindTurnSnoc(turns: seq<Turn>, t: Turn, id: string)
    ensures FindTurn(turns + [t], id)
       == if FindTurn(turns, id).Some? then FindTurn(turns, id) else if t.id == id then Some(t) else None
  {
    if turns != [] {
      FindTurnSnoc(turns[1..], t, id);
      assert (turns + [t])[1..] == turns[1..] + [t];
    }
  }

  lemma {:induction false} FindFeedbackSnoc(fs: seq<Feedback>, f: Feedback, id: string)
    ensures FindFeedback(fs + [f], id)
       == if FindFeedback(fs, id).Some? then FindFeedback(fs, id) else if f.id == id then Some(f) else None
  {
    if fs != [] {
      FindFeedbackSnoc(fs[1..], f, id);
      assert (fs + [f])[1..] == fs[1..] + [f];
    }
  }

  /** What an insertion presupposes. */
  lemma InsertedMeans(db: Db, e: Event)
    requires RecordOutcome(db, e) == Accepted(true)
    ensures WellFormed(e) && FindTurn(db.turns, Row(e).id).None?
    ensures Row(e).episode in db.episodes ==> !db.episodes[Row(e).episode].closed
    ensures var log := Log(db.turns, Row(e).episode);
            Row(e).step == |log| + 1
                && (log != [] && StateAfter in log[|log| - 1].payload ==> Continues(log[|log| - 1].payload, e))
  {
    hide FindTurn, Log;
  }

  lemma {:induction false} NoTurnNoLog(turns: seq<Turn>, ep: string)
    requires forall i :: 0 <= i < |turns| ==> turns[i].episode != ep
    ensures Log(turns, ep) == []
  {
    if turns != [] { NoTurnNoLog(turns[..|turns| - 1], ep); }
  }

  lemma SnocKeepsLogs(turns: seq<Turn>, episodes: map<string, Episode>, t: Turn, ep: string)
    requires ep in episodes ==> Log(turns, ep) != [] && Chained(Log(turns, ep))
    requires ep !in episodes ==> Log(turns, ep) == []
    requires ep in episodes || ep == t.episode
    requires t.episode == ep ==> WellFormed(t.payload) && t.step == |Log(turns, ep)| + 1
    requires t.episode == ep && Log(turns, ep) != []
        ==> Continues(Log(turns, ep)[|Log(turns, ep)| - 1].payload, t.payload)
    ensures Log(turns + [t], ep) != [] && Chained(Log(turns + [t], ep))
  {
    LogSnoc(turns, t, ep);
    hide Log, WellFormed, Continues;
    var a, b := Log(turns, ep), Log(turns + [t], ep);
    assert a == [] || b == a || b == a + [t];
  }

  lemma {:induction false} RecordKeepsLogs(db: Db, e: Event)
    requires RowsOk(db.turns, db.episodes) && LogsOk(db.turns, db.episodes) && RecordOutcome(db, e) == Accepted(true)
    ensures LogsOk(AfterRecord(db, e).turns, AfterRecord(db, e).episodes)
  {
    InsertedMeans(db, e);
    var t := Row(e);
    LatestIsLast(db.turns, db.episodes, t.episode);
    hide Latest, WellFormed, Log, RecordOutcome, FindTurn, Chained, Continues;
    var d := AfterRecord(db, e);
    forall ep | ep in d.episodes ensures Log(d.turns, ep) != [] && Chained(Log(d.turns, ep)) {
      if ep !in db.episodes { UnknownNoLog(db.turns, db.episodes, ep); }
      SnocKeepsLogs(db.turns, db.episodes, t, ep);
    }
  }

  lemma UnknownNoLog(turns: seq<Turn>, episodes: map<string, Episode>, ep: string)
    requires RowsOk(turns, episodes) && ep !in episodes
    ensures Log(turns, ep) == []
  {
    hide WellFormed, Row, Log;
    forall i | 0 <= i < |turns| ensures turns[i].episode != ep { assert TurnOk(turns[i], episodes); }
    NoTurnNoLog(turns, ep);
  }

  lemma SnocKeepsRows(turns: seq<Turn>, before: map<string, Episode>, after: map<string, Episode>, t: Turn)
    requires RowsOk(turns, before) && TurnOk(t, after) && FindTurn(turns, t.id).None?
    requires forall ep :: ep in before ==> ep in after
    ensures RowsOk(turns + [t], after)
  {
    FindTurnAt(turns, t.id);
    hide WellFormed, Row, FindTurn;
    var r := turns + [t];
    forall i | 0 <= i < |r| ensures TurnOk(r[i], after) {
      if i < |turns| { assert TurnOk(turns[i], before); }
    }
  }

  lemma SnocKeepsFeedback(turns: seq<Turn>, t: Turn, fs: seq<Feedback>)
    requires FeedbackOk(fs, turns)
    ensures FeedbackOk(fs, turns + [t])
  {
    forall i | 0 <= i < |fs| ensures FindTurn(turns + [t], fs[i].turn).Some? { FindTurnSnoc(turns, t, fs[i].turn); }
  }

  lemma {:induction false} RecordKeepsInv(db: Db, e: Event)
    requires Inv(db) && RecordOutcome(db, e) == Accepted(true)
    ensures Inv(AfterRecord(db, e))
  {
    RecordKeepsLogs(db, e);
    InsertedMeans(db, e);
    hide Log, FindTurn, LogsOk, RowsOk, FeedbackOk, RecordOutcome, WellFormed;
    SnocKeepsRows(db.turns, db.episodes, AfterRecord(db, e).episodes, Row(e));
    SnocKeepsFeedback(db.turns, Row(e), db.feedback);
  }

  lemma {:induction false} MarkKeepsInv(db: Db, id: string, link: Link)
    requires Inv(db)
    ensures Inv(db.(turns := Linked(db.turns, id, link)))
  {
    hide WellFormed, Row, Log, FindTurn;
    var d := db.(turns := Linked(db.turns, id, link));
    forall ep | ep in d.episodes ensures Log(d.turns, ep) != [] && Chained(Log(d.turns, ep)) {
      LogLinked(db.turns, id, link, ep);
    }
    forall i | 0 <= i < |d.feedback| ensures FindTurn(d.turns, d.feedback[i].turn).Some? {
      FindLinked(db.turns, id, link, d.feedback[i].turn);
    }
    forall i | 0 <= i < |d.turns| ensures TurnOk(d.turns[i], d.episodes) {}
  }

  lemma FeedbackKeepsInv(db: Db, turn: string, id: string, body: Body, now: int)
    requires Inv(db)
    ensures Inv(AfterFeedback(db, turn, id, body, now))
  {
    hide RowsOk, LogsOk, FindTurn, FindFeedback;
    FindFeedbackAt(db.feedback, id);
    forall x | x in db.sent ensures FindFeedback(AfterFeedback(db, turn, id, body, now).feedback, x).Some? {
      FindFeedbackSnoc(db.feedback, Feedback(id, turn, body, now), x);
    }
  }

  lemma {:induction false} ApplyKeepsInv(db: Db, c: Call)
    requires Inv(db)
    ensures Inv(Apply(db, c))
  {
    hide WellFormed, Row, Log, FindTurn, FindFeedback, Chained;
    match c
    case Record(e) => if RecordOutcome(db, e) == Accepted(true) { RecordKeepsInv(db, e); }
    case GiveFeedback(turn, id, body, now) => FeedbackKeepsInv(db, turn, id, body, now);
    case Finish(ep, terminated, reason) =>
      hide FeedbackOk, SentOk;
      var d := Apply(db, c);
      assert forall x :: x in d.episodes <==> x in db.episodes;
      forall i | 0 <= i < |d.turns| ensures TurnOk(d.turns[i], d.episodes) {
        assert TurnOk(db.turns[i], db.episodes);
      }
    case MarkTurn(id, link) => MarkKeepsInv(db, id, link);
    case MarkFeedback(_, _) => hide RowsOk, LogsOk, FeedbackOk;
  }

  /** Every run, whatever mix of accepted, rejected and retried calls, keeps the store's promises. */
  lemma {:induction false} RunKeepsInv(db: Db, calls: seq<Call>)
    requires Inv(db)
    ensures Inv(Run(db, calls))
  {
    if calls != [] {
      RunKeepsInv(db, calls[..|calls| - 1]);
      ApplyKeepsInv(Run(db, calls[..|calls| - 1]), calls[|calls| - 1]);
    }
  }

  /** A rejected call leaves all four tables untouched. */
  lemma RejectedChangesNothing(db: Db, c: Call)
    requires Answer(db, c).Rejected?
    ensures Apply(db, c) == db
  {}

  // ---------- which calls are accepted ----------

  const REQUIRED := {EventId, EpisodeId, StepNo, Observation, StateBefore, RawAction, Action, StateAfter, Provenance,
                     Execution}

  /** A stored turn has this event's id and this event as its evidence. */
  ghost predicate Holds(turns: seq<Turn>, e: Event) {
    && EventId in e && e[EventId].Str?
    && exists i :: 0 <= i < |turns| && turns[i].id == e[EventId].s && turns[i].payload == e
  }

  ghost predicate KnowsTurn(turns: seq<Turn>, id: string) { exists i :: 0 <= i < |turns| && turns[i].id == id }

  /** A malformed event is refused, whatever is stored, by the first check it fails. */
  lemma MalformedExactly(db: Db, e: Event)
    ensures var o := Answer(db, Record(e));
            if !(REQUIRED <= e.Keys) then o == Rejected(Incomplete)
            else if !(e[StepNo].Int? && e[StepNo].i >= 1) then o == Rejected(BadStep)
            else if !e[EventId].Str? || e[EventId].s == "" || !e[EpisodeId].Str? || e[EpisodeId].s == ""
            then o == Rejected(BadIds)
            else if !e[Provenance].Obj? || Runtime !in e[Provenance].fields || !Truthy(e[Provenance].fields[Runtime])
            then o == Rejected(NoRuntime)
            else WellFormed(e) && !(o.Rejected? && o.error in {Incomplete, BadStep, BadIds, NoRuntime})
  {
    hide FindTurn, Log, Truthy;
  }

  /** The lookup finds the evidence stored under an id, under the invariant. */
  lemma LookupMeans(turns: seq<Turn>, episodes: map<string, Episode>, e: Event)
    requires RowsOk(turns, episodes) && EventId in e && e[EventId].Str?
    ensures var seen := FindTurn(turns, e[EventId].s);
            && (seen.Some? <==> KnowsTurn(turns, e[EventId].s))
            && (seen.Some? && seen.value.payload == e <==> Holds(turns, e))
  {
    FindTurnAt(turns, e[EventId].s);
    hide FindTurn, TurnOk;
  }

  /** An answer to a well-formed event: a known id is accepted again exactly with its stored evidence; a new one only
      at the end of its open or unknown episode. */
  lemma RecordAnswers(db: Db, e: Event)
    requires Inv(db) && WellFormed(e)
    ensures var o, ep, log := Answer(db, Record(e)), e[EpisodeId].s, Log(db.turns, e[EpisodeId].s);
            if KnowsTurn(db.turns, e[EventId].s)
            then o == if Holds(db.turns, e) then Accepted(false) else Rejected(EvidenceConflict)
            else if ep !in db.episodes
            then o == if e[StepNo].i == 1 then Accepted(true) else Rejected(FirstStepNotOne)
            else if db.episodes[ep].closed then o == Rejected(EpisodeClosed)
            else
              && log != []
              && o == if e[StepNo].i != |log| + 1 then Rejected(Reordered)
                      else if Continues(log[|log| - 1].payload, e) then Accepted(true) else Rejected(Discontinuous)
  {
    assert RowsOk(db.turns, db.episodes) && LogsOk(db.turns, db.episodes) && EventId in e && e[EventId].Str?;
    hide FindTurn, Log, Latest, RowsOk, LogsOk, Chained, FeedbackOk, SentOk;
    hide Holds, KnowsTurn, RecordOutcome, WellFormed;
    LookupMeans(db.turns, db.episodes, e);
    LogEnds(db, e[EpisodeId].s);
    FreshAnswer(db, e);
  }

  lemma {:induction false} LogEnds(db: Db, ep: string)
    requires Inv(db)
    ensures var log := Log(db.turns, ep);
            (ep in db.episodes <==> log != []) && (log != [] ==> StateAfter in log[|log| - 1].payload)
  {
    if ep !in db.episodes { UnknownNoLog(db.turns, db.episodes, ep); }
    LatestIsLast(db.turns, db.episodes, ep);
  }

  /** An answer to a well-formed event, by what the lookup and the log give. */
  lemma {:induction false} FreshAnswer(db: Db, e: Event)
    requires WellFormed(e)
    requires var log := Log(db.turns, e[EpisodeId].s);
             (e[EpisodeId].s in db.episodes <==> log != []) && (log != [] ==> StateAfter in log[|log| - 1].payload)
    ensures var o, ep, log := RecordOutcome(db, e), e[EpisodeId].s, Log(db.turns, e[EpisodeId].s);
            var seen := FindTurn(db.turns, e[EventId].s);
            if seen.Some? then o == if seen.value.payload == e then Accepted(false) else Rejected(EvidenceConflict)
            else if ep !in db.episodes
            then o == if e[StepNo].i == 1 then Accepted(true) else Rejected(FirstStepNotOne)
            else if db.episodes[ep].closed then o == Rejected(EpisodeClosed)
            else
              && log != []
              && o == if e[StepNo].i != |log| + 1 then Rejected(Reordered)
                      else if Continues(log[|log| - 1].payload, e) then Accepted(true) else Rejected(Discontinuous)
  {
    hide FindTurn, Log;
  }

  /** Over every run: an event is accepted exactly when afterwards its id is stored with it as evidence; it is accepted
      without a new row exactly when it was already stored, rejected as a conflict exactly when its id is stored with
      other evidence, and a new row is the event itself, last. */
  lemma {:induction false} RecordInEveryRun(calls: seq<Call>, e: Event)
    ensures var db := Run(EMPTY, calls);
            var o, after := Answer(db, Record(e)), Run(EMPTY, calls + [Record(e)]);
            && (!o.Rejected? <==> Holds(after.turns, e))
            && (o == Accepted(false) <==> Holds(db.turns, e))
            && (WellFormed(e)
                ==> (o == Rejected(EvidenceConflict) <==> KnowsTurn(db.turns, e[EventId].s) && !Holds(db.turns, e)))
            && (!WellFormed(e) ==> !Holds(db.turns, e) && o != Rejected(EvidenceConflict))
            && after.feedback == db.feedback && after.sent == db.sent
            && (if o == Accepted(true)
                then after.turns == db.turns + [Turn(e[EventId].s, e[EpisodeId].s, e[StepNo].i, e, None)]
                else after == db)
  {
    hide *;
    var db := Run(EMPTY, calls);
    EmptyInv();
    RunKeepsInv(EMPTY, calls);
    RunSnoc(EMPTY, calls, Record(e));
    RecordStores(db, e);
  }

  lemma EmptyInv()
    ensures Inv(EMPTY)
  {}

  lemma RunSnoc(db: Db, calls: seq<Call>, c: Call)
    ensures Run(db, calls + [c]) == Apply(Run(db, calls), c)
  {
    assert (calls + [c])[..|calls|] == calls;
  }

  lemma HeldIsWellFormed(turns: seq<Turn>, episodes: map<string, Episode>, e: Event)
    requires RowsOk(turns, episodes) && Holds(turns, e)
    ensures WellFormed(e) && KnowsTurn(turns, e[EventId].s)
  {
    var i :| 0 <= i < |turns| && turns[i].id == e[EventId].s && turns[i].payload == e;
    assert TurnOk(turns[i], episodes);
  }

  lemma {:induction false} RecordStores(db: Db, e: Event)
    requires Inv(db)
    ensures var o, after := Answer(db, Record(e)), Apply(db, Record(e));
            && (!o.Rejected? <==> Holds(after.turns, e))
            && (o == Accepted(false) <==> Holds(db.turns, e))
            && (WellFormed(e)
                ==> (o == Rejected(EvidenceConflict) <==> KnowsTurn(db.turns, e[EventId].s) && !Holds(db.turns, e)))
            && (!WellFormed(e) ==> !Holds(db.turns, e) && o != Rejected(EvidenceConflict))
            && after.feedback == db.feedback && after.sent == db.sent
            && (if o == Accepted(true)
                then after.turns == db.turns + [Turn(e[EventId].s, e[EpisodeId].s, e[StepNo].i, e, None)]
                else after == db)
  {
    var after := Apply(db, Record(e));
    hide FindTurn, Log, RowsOk, LogsOk, FeedbackOk, SentOk, Truthy, Holds, KnowsTurn;
    if WellFormed(e) {
      RecordAnswers(db, e);
      HoldsSnoc(db.turns, Row(e), e);
      if Holds(db.turns, e) { HeldIsWellFormed(db.turns, db.episodes, e); }
    } else if Holds(db.turns, e) {
      HeldIsWellFormed(db.turns, db.episodes, e);
    }
  }

  lemma HoldsSnoc(turns: seq<Turn>, t: Turn, e: Event)
    requires t.payload == e && EventId in e && e[EventId] == Str(t.id)
    ensures Holds(turns + [t], e)
  {
    var r := turns + [t];
    assert r[|turns|].id == e[EventId].s && r[|turns|].payload == e;
  }

  /** An inserted turn's episode is open afterwards, newly if it was unknown; no other episode changes. */
  lemma {:induction false} RecordOpens(db: Db, e: Event)
    requires Answer(db, Record(e)) == Accepted(true)
    ensures var ep, after := e[EpisodeId].s, Apply(db, Record(e)).episodes;
            && after.Keys == db.episodes.Keys + {ep} && !after[ep].closed
            && (ep !in db.episodes ==> after[ep] == Episode(false, false, None))
            && forall x :: x in db.episodes ==> after[x] == db.episodes[x]
  {
    hide FindTurn, Log, Truthy;
  }

  /** The row stored under this feedback id, if any, is for this turn and says this. */
  ghost predicate HasFeedback(fs: seq<Feedback>, id: string, turn: string, body: Body) {
    exists i :: 0 <= i < |fs| && fs[i].id == id && fs[i].turn == turn && fs[i].body == body
  }

  ghost predicate KnowsFeedback(fs: seq<Feedback>, id: string) { exists i :: 0 <= i < |fs| && fs[i].id == id }

  ghost predicate Supported(o: Outcome) {
    !(o.Rejected? && o.error in {Unsupported, BadScore, CandidateReward})
  }

  /** Feedback that says nothing the store supports is refused by the first check it fails. */
  lemma UnsupportedExactly(db: Db, turn: string, id: string, body: Body, now: int)
    ensures var o, score := Answer(db, GiveFeedback(turn, id, body, now)), body.score;
            if !(body.kind in {Incorrect, Correct, Rating, CorrectionCandidate}
                 && body.source in {Human, Device, Evaluator}) then o == Rejected(Unsupported)
            else if !(score.Null? || (score.Int? && score.i in {-1, 0, 1}) || (score.Real? && -1.0 <= score.r <= 1.0))
            then o == Rejected(BadScore)
            else if body.kind == CorrectionCandidate && score != Null then o == Rejected(CandidateReward)
            else Supported(o)
  {
    hide FindTurn, FindFeedback;
  }

  /** Over every run, for supported feedback: it is accepted exactly when afterwards a row with its id is for its turn
      and says the same; a conflict is exactly a known id with another turn or another statement; an unknown turn is
      exactly a fresh id for a turn not stored; and a fresh accepted row is appended as given. */
  lemma {:induction false} FeedbackInEveryRun(calls: seq<Call>, turn: string, id: string, body: Body, now: int)
    ensures var db, c := Run(EMPTY, calls), GiveFeedback(turn, id, body, now);
            var o, after := Answer(db, c), Run(EMPTY, calls + [c]);
            var known := KnowsFeedback(db.feedback, id);
            && after.episodes == db.episodes && after.turns == db.turns && after.sent == db.sent
            && (if !o.Rejected? && !known then after.feedback == db.feedback + [Feedback(id, turn, body, now)]
                else after == db)
            && (Supported(o) ==>
                  && (!o.Rejected? <==> HasFeedback(after.feedback, id, turn, body))
                  && (o == Rejected(FeedbackConflict) <==> known && !HasFeedback(db.feedback, id, turn, body))
                  && (o == Rejected(UnknownTurn) <==> !known && !KnowsTurn(db.turns, turn))
                  && (o in {AcceptedId(id), Rejected(FeedbackConflict), Rejected(UnknownTurn)}))
  {
    hide *;
    EmptyInv();
    RunKeepsInv(EMPTY, calls);
    RunSnoc(EMPTY, calls, GiveFeedback(turn, id, body, now));
    FeedbackStores(Run(EMPTY, calls), turn, id, body, now);
  }

  lemma {:induction false} FeedbackStores(db: Db, turn: string, id: string, body: Body, now: int)
    requires Inv(db)
    ensures var c := GiveFeedback(turn, id, body, now);
            var o, after, known := Answer(db, c), Apply(db, c), KnowsFeedback(db.feedback, id);
            && after.episodes == db.episodes && after.turns == db.turns && after.sent == db.sent
            && (if !o.Rejected? && !known then after.feedback == db.feedback + [Feedback(id, turn, body, now)]
                else after == db)
            && (Supported(o) ==>
                  && (!o.Rejected? <==> HasFeedback(after.feedback, id, turn, body))
                  && (o == Rejected(FeedbackConflict) <==> known && !HasFeedback(db.feedback, id, turn, body))
                  && (o == Rejected(UnknownTurn) <==> !known && !KnowsTurn(db.turns, turn))
                  && (o in {AcceptedId(id), Rejected(FeedbackConflict), Rejected(UnknownTurn)}))
  {
    hide FindTurn, FindFeedback, HasFeedback, KnowsFeedback, KnowsTurn, RowsOk, LogsOk, FeedbackOk, SentOk, ValidScore;
    HasSnoc(db.feedback, Feedback(id, turn, body, now));
    FeedbackLookup(db.feedback, db.turns, id, turn, body);
    TurnLookup(db.turns, turn);
  }

  lemma HasSnoc(fs: seq<Feedback>, f: Feedback)
    ensures HasFeedback(fs + [f], f.id, f.turn, f.body)
  {
    assert (fs + [f])[|fs|] == f;
  }

  lemma FeedbackLookup(fs: seq<Feedback>, turns: seq<Turn>, id: string, turn: string, body: Body)
    requires FeedbackOk(fs, turns)
    ensures var seen := FindFeedback(fs, id);
            && (seen.Some? <==> KnowsFeedback(fs, id))
            && (seen.Some? && seen.value.turn == turn && seen.value.body == body <==> HasFeedback(fs, id, turn, body))
  {
    FindFeedbackAt(fs, id);
    hide FindFeedback, FindTurn, ValidScore;
  }

  lemma TurnLookup(turns: seq<Turn>, id: string)
    ensures FindTurn(turns, id).Some? <==> KnowsTurn(turns, id)
  {
    FindTurnAt(turns, id);
  }

  ghost predicate ClosedOtherwise(row: Episode, terminated: bool, reason: Option<string>) {
    row.closed && (row.terminated != terminated || row.reason != reason)
  }

  /** Finishing: only a known episode, and a closed one only with the outcome it has; afterwards it has this outcome,
      and nothing else changes. */
  lemma FinishExactly(db: Db, ep: string, terminated: bool, reason: Option<string>)
    ensures var c := Finish(ep, terminated, reason);
            var o, after := Answer(db, c), Apply(db, c);
            && (o == Rejected(UnknownEpisode) <==> ep !in db.episodes)
            && (o == Rejected(OutcomeConflict)
                <==> ep in db.episodes && ClosedOtherwise(db.episodes[ep], terminated, reason))
            && (o != Done ==> o in {Rejected(UnknownEpisode), Rejected(OutcomeConflict)})
            && (o == Done <==> ep in after.episodes && after.episodes[ep] == Episode(true, terminated, reason))
            && after.episodes.Keys == db.episodes.Keys
            && (forall x :: x in db.episodes && x != ep ==> after.episodes[x] == db.episodes[x])
            && (o != Done ==> after == db)
            && after.turns == db.turns && after.feedback == db.feedback && after.sent == db.sent
  {}

  // ---------- append-only ----------

  predicate SameEvidence(a: Turn, b: Turn) {
    a.(link := None) == b.(link := None) && (a.link.Some? ==> b.link.Some?)
  }

  /** `b` only adds to `a`: stored evidence, outcomes and feedback never change and closed episodes gain no turn. */
  ghost predicate Grows(a: Db, b: Db) {
    && |a.turns| <= |b.turns|
    && (forall i :: 0 <= i < |a.turns| ==> SameEvidence(a.turns[i], b.turns[i]))
    && a.feedback <= b.feedback
    && (forall ep :: ep in a.episodes ==> ep in b.episodes)
    && (forall ep :: ep in a.episodes && a.episodes[ep].closed ==> b.episodes[ep] == a.episodes[ep])
    && (forall i :: |a.turns| <= i < |b.turns| && b.turns[i].episode in a.episodes
                    ==> !a.episodes[b.turns[i].episode].closed)
    && (forall id :: id in a.sent ==> id in b.sent)
  }

  lemma GrowsTransitive(a: Db, b: Db, c: Db)
    requires Grows(a, b) && Grows(b, c)
    ensures Grows(a, c)
  {
    forall i | |a.turns| <= i < |c.turns|
      ensures c.turns[i].episode in a.episodes ==> !a.episodes[c.turns[i].episode].closed
    {
      if i < |b.turns| { assert SameEvidence(b.turns[i], c.turns[i]); }
    }
  }

  lemma {:induction false} ApplyGrows(db: Db, c: Call)
    ensures Grows(db, Apply(db, c))
  {
    hide FindTurn, FindFeedback, Log, WellFormed, FeedbackOutcome;
  }

  lemma NothingGrows(db: Db)
    ensures Grows(db, db)
  {}

  lemma {:induction false} RunGrows(db: Db, calls: seq<Call>)
    ensures Grows(db, Run(db, calls))
  {
    hide Apply, Grows;
    if calls == [] {
      NothingGrows(db);
    } else {
      var m := Run(db, calls[..|calls| - 1]);
      RunGrows(db, calls[..|calls| - 1]);
      ApplyGrows(m, calls[|calls| - 1]);
      GrowsTransitive(db, m, Run(db, calls));
    }
  }

  // ---------- retries ----------

  lemma StoredTurn(a: Db, b: Db, e: Event)
    requires RowsOk(b.turns, b.episodes) && Grows(a, b) && WellFormed(e)
    requires FindTurn(a.turns, e[EventId].s).Some? && FindTurn(a.turns, e[EventId].s).value.payload == e
    ensures RecordOutcome(b, e) == Accepted(false)
  {
    var id := e[EventId].s;
    hide FindTurn, Log, TurnOk, Row;
    FindTurnAt(a.turns, id);
    FindTurnAt(b.turns, id);
    var i :| 0 <= i < |a.turns| && a.turns[i] == FindTurn(a.turns, id).value && a.turns[i].id == id;
    assert SameEvidence(a.turns[i], b.turns[i]);
    var j :| 0 <= j < |b.turns| && b.turns[j] == FindTurn(b.turns, id).value && b.turns[j].id == id;
    assert i == j;
  }

  lemma StoredFeedback(a: Db, b: Db, id: string)
    requires FeedbackOk(b.feedback, b.turns) && Grows(a, b) && FindFeedback(a.feedback, id).Some?
    ensures FindFeedback(b.feedback, id) == FindFeedback(a.feedback, id)
  {
    hide FindFeedback, FindTurn;
    FindFeedbackAt(a.feedback, id);
    FindFeedbackAt(b.feedback, id);
    var i :| 0 <= i < |a.feedback| && a.feedback[i] == FindFeedback(a.feedback, id).value && a.feedback[i].id == id;
    assert b.feedback[i] == a.feedback[i];
    var j :| 0 <= j < |b.feedback| && b.feedback[j] == FindFeedback(b.feedback, id).value && b.feedback[j].id == id;
    assert i == j;
  }

  /** Repeating any accepted record, finish or explicit-id feedback later, after any further calls, is
      accepted again and changes nothing, even when the episode has been closed meanwhile. */
  lemma RetryIsIdempotent(db: Db, c: Call, later: seq<Call>)
    requires Inv(db) && !Answer(db, c).Rejected? && (c.Record? || c.GiveFeedback? || c.Finish?)
    ensures var d := Run(Apply(db, c), later);
            Apply(d, c) == d && !Answer(d, c).Rejected? && (c.Record? ==> Answer(d, c) == Accepted(false))
  {
    ApplyKeepsInv(db, c);
    RunKeepsInv(Apply(db, c), later);
    RunGrows(Apply(db, c), later);
    hide Run, RowsOk, LogsOk, FeedbackOk, SentOk, Grows, RecordOutcome, FeedbackOutcome, FinishOutcome;
    var d := Run(Apply(db, c), later);
    match c
    case Record(e) => RecordTwice(db, d, e);
    case GiveFeedback(turn, id, body, now) => FeedbackTwice(db, d, turn, id, body, now);
    case Finish(ep, terminated, reason) => FinishTwice(db, d, ep, terminated, reason);
  }

  lemma FinishTwice(db: Db, d: Db, ep: string, terminated: bool, reason: Option<string>)
    requires FinishOutcome(db, ep, terminated, reason) == Done && Grows(AfterFinish(db, ep, terminated, reason), d)
    ensures FinishOutcome(d, ep, terminated, reason) == Done && AfterFinish(d, ep, terminated, reason) == d
  {
    assert AfterFinish(db, ep, terminated, reason).episodes[ep] == Episode(true, terminated, reason);
    assert d.episodes[ep := Episode(true, terminated, reason)] == d.episodes;
  }

  lemma FeedbackTwice(db: Db, d: Db, turn: string, id: string, body: Body, now: int)
    requires !FeedbackOutcome(db, turn, id, body).Rejected? && FeedbackOk(d.feedback, d.turns)
    requires Grows(AfterFeedback(db, turn, id, body, now), d)
    ensures FeedbackOutcome(d, turn, id, body) == AcceptedId(id) && AfterFeedback(d, turn, id, body, now) == d
  {
    hide Grows, FeedbackOk, FindFeedback, FindTurn;
    FindFeedbackSnoc(db.feedback, Feedback(id, turn, body, now), id);
    StoredFeedback(AfterFeedback(db, turn, id, body, now), d, id);
  }

  lemma RecordTwice(db: Db, d: Db, e: Event)
    requires !RecordOutcome(db, e).Rejected? && RowsOk(d.turns, d.episodes) && Grows(AfterRecord(db, e), d)
    ensures RecordOutcome(d, e) == Accepted(false)
  {
    hide Grows, RowsOk, Log, FindTurn;
    assert WellFormed(e);
    FindTurnSnoc(db.turns, Row(e), e[EventId].s);
    StoredTurn(AfterRecord(db, e), d, e);
  }

  /** After an episode is closed, its log never changes again, whatever is called. */
  lemma {:induction false} ClosedLogIsFrozen(db: Db, ep: string, later: seq<Call>)
    requires Inv(db) && ep in db.episodes && db.episodes[ep].closed
    ensures var d := Run(db, later);
            |Log(d.turns, ep)| == |Log(db.turns, ep)| && ep in d.episodes && d.episodes[ep] == db.episodes[ep]
    ensures forall k :: 0 <= k < |Log(db.turns, ep)|
             ==> SameEvidence(Log(db.turns, ep)[k], Log(Run(db, later).turns, ep)[k])
  {
    RunGrows(db, later);
    LogGrows(db.turns, Run(db, later).turns, ep);
  }

  lemma {:induction false} LogGrows(a: seq<Turn>, b: seq<Turn>, ep: string)
    requires |a| <= |b| && forall i :: 0 <= i < |a| ==> SameEvidence(a[i], b[i])
    requires forall i :: |a| <= i < |b| ==> b[i].episode != ep
    ensures |Log(a, ep)| == |Log(b, ep)|
    ensures forall k :: 0 <= k < |Log(a, ep)| ==> SameEvidence(Log(a, ep)[k], Log(b, ep)[k])
    decreases |b|
  {
    if |a| < |b| {
      LogGrows(a, b[..|b| - 1], ep);
    } else if a != [] {
      LogGrows(a[..|a| - 1], b[..|b| - 1], ep);
      assert SameEvidence(a[|a| - 1], b[|b| - 1]);
    }
  }
}
