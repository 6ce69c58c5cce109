/** The exporter: fetch, send, acknowledge, mark. */
module PhoenixExport {
  import opened Sorting
  import opened Wrappers
  import opened TrajectoryStore
  import Views = TrajectoryViews

  /** What became of one export call: acknowledged under these identifiers, refused by the collector, or
      never sent because the recorded span count was wrong. */
  datatype Reply = Ack(link: Link) | Refused | Incomplete

  datatype Entry =
    | SentTurn(id: string) | AckedTurn(id: string, link: Link) | MarkedTurn(id: string, link: Link)
    | SentFeedback(id: string, turn: string, link: Link) | AckedFeedback(id: string) | MarkedFeedback(id: string)

  datatype Pending = Pending(f: Feedback, turn: Turn)

  /** The worker: idle, or holding the rows it fetched and, for their head, an acknowledgement not yet marked. */
  datatype Worker = Idle | Turns(turns: seq<Turn>, acked: Option<Link>) | Feedbacks(rows: seq<Pending>, done: bool)

  /** One worker runs against the store while clients keep calling it; any send may be refused and the worker may
      crash at any point, including between an acknowledgement and its mark. */
  datatype Sys = Sys(db: Db, worker: Worker, log: seq<Entry>)

  datatype Move = Client(c: Call) | Start | Send(reply: Reply) | Mark(at: int) | Fetch | Crash

  predicate Unsent(t: Turn) { t.link.None? }

  /** `WHERE exported_at IS NULL ORDER BY episode, step`. */
  function Backlog(turns: seq<Turn>): seq<Turn> {
    Sort(Filter(turns, Unsent), Views.RowLe)
  }

  /** Feedback not yet exported whose turn has stored collector identifiers. */
  function FeedbackBacklog(db: Db, n: nat): seq<Pending>
    requires n <= |db.feedback|
  {
    if n == 0 then []
    else
      var f := db.feedback[n - 1];
      var t := FindTurn(db.turns, f.turn);
      FeedbackBacklog(db, n - 1)
      + if f.id !in db.sent && t.Some? && t.value.link.Some? then [Pending(f, t.value)] else []
  }

  function Next(s: Sys, m: Move): Sys {
    match m
    case Client(c) => if c.Record? || c.GiveFeedback? || c.Finish? then s.(db := Apply(s.db, c)) else s
    case Start => if s.worker.Idle? then s.(worker := Turns(Backlog(s.db.turns), None)) else s
    case Fetch =>
      if s.worker.Turns? && s.worker.turns == []
      then s.(worker := Feedbacks(FeedbackBacklog(s.db, |s.db.feedback|), false)) else s
    case Send(reply) => NextSend(s, reply)
    case Mark(at) => NextMark(s, at)
    case Crash => s.(worker := Idle)
  }

  function NextSend(s: Sys, reply: Reply): Sys {
    match s.worker
    case Turns(rows, None) =>
      if rows == [] then s
      else (match reply
            case Incomplete => s.(worker := Idle)
            case Refused => s.(worker := Idle, log := s.log + [SentTurn(rows[0].id)])
            case Ack(link) => s.(worker := Turns(rows, Some(link)),
                log := s.log + [SentTurn(rows[0].id), AckedTurn(rows[0].id, link)]))
    case Feedbacks(rows, false) =>
      if rows == [] || rows[0].turn.link.None? then s
      else
        var sent := SentFeedback(rows[0].f.id, rows[0].turn.id, rows[0].turn.link.value);
        (match reply
         case Ack(_) => s.(worker := Feedbacks(rows, true), log := s.log + [sent, AckedFeedback(rows[0].f.id)])
         case _ => s.(worker := Idle, log := s.log + [sent]))
    case _ => s
  }

  function NextMark(s: Sys, at: int): Sys {
    match s.worker
    case Turns(rows, Some(link)) =>
      if rows == [] then s
      else s.(db := Apply(s.db, MarkTurn(rows[0].id, link)), worker := Turns(rows[1..], None),
              log := s.log + [MarkedTurn(rows[0].id, link)])
    case Feedbacks(rows, true) =>
      if rows == [] then s
      else s.(db := Apply(s.db, MarkFeedback(rows[0].f.id, at)), worker := Feedbacks(rows[1..], false),
              log := s.log + [MarkedFeedback(rows[0].f.id)])
    case _ => s
  }

  function Moves(s: Sys, ms: seq<Move>): Sys {
    if ms == [] then s else Next(Moves(s, ms[..|ms| - 1]), ms[|ms| - 1])
  }

  const START := Sys(EMPTY, Idle, [])

  // ---------- the invariant ----------

  /** Within an episode, everything before an exported turn is exported. */
  ghost predicate PrefixOk(turns: seq<Turn>) {
    forall t, u :: t in turns && u in turns && u.episode == t.episode && u.step < t.step && t.link.Some?
        ==> u.link.Some?
  }

  /** Every unexported turn of the same episode with a smaller step is queued earlier. */
  ghost predicate Ahead(turns: seq<Turn>, queue: seq<Turn>) {
    forall u, k ::
      u in turns && 0 <= k < |queue| && u.link.None? && u.episode == queue[k].episode && u.step < queue[k].step
      ==> u in queue[..k]
  }

  ghost predicate QueueOk(turns: seq<Turn>, queue: seq<Turn>) {
    && Distinct(queue) && Ahead(turns, queue)
    && (forall k :: 0 <= k < |queue| ==> queue[k] in turns && queue[k].link.None?)
  }

  ghost predicate FeedbackQueueOk(db: Db, rows: seq<Pending>) {
    && (forall i, j :: 0 <= i < j < |rows| ==> rows[i].f.id != rows[j].f.id)
    && (forall k :: 0 <= k < |rows| ==> rows[k].f in db.feedback && rows[k].f.id !in db.sent)
    && (forall k :: 0 <= k < |rows| ==> rows[k].turn in db.turns && rows[k].turn.link.Some?)
  }

  ghost predicate WorkerOk(s: Sys) {
    match s.worker
    case Idle => true
    case Turns(rows, acked) => QueueOk(s.db.turns, rows)
        && (acked.Some? ==> rows != [] && AckedTurn(rows[0].id, acked.value) in s.log)
    case Feedbacks(rows, done) => FeedbackQueueOk(s.db, rows)
                                     && (done ==> rows != [] && AckedFeedback(rows[0].f.id) in s.log)
  }

  /** The log and the tables agree on what was acknowledged and marked. */
  ghost predicate Agree(db: Db, log: seq<Entry>) {
    && (forall t :: t in db.turns && t.link.Some?
         ==> AckedTurn(t.id, t.link.value) in log && MarkedTurn(t.id, t.link.value) in log)
    && (forall e :: e in log && e.MarkedTurn? ==> exists t :: t in db.turns && t.id == e.id && t.link == Some(e.link))
    && (forall id :: id in db.sent ==> AckedFeedback(id) in log)
    && (forall e :: e in log && e.MarkedFeedback? ==> e.id in db.sent)
  }

  /** Nothing is sent again after its mark, and feedback is sent only after its turn was marked. */
  ghost predicate Ordered(log: seq<Entry>) {
    && (forall i, j :: 0 <= i < j < |log| && log[i].MarkedTurn? && log[j].SentTurn? ==> log[i].id != log[j].id)
    && (forall i, j :: 0 <= i < j < |log| && log[i].MarkedFeedback? && log[j].SentFeedback? ==> log[i].id != log[j].id)
    && (forall j :: 0 <= j < |log| && log[j].SentFeedback? ==> MarkedTurn(log[j].turn, log[j].link) in log[..j])
  }

  ghost predicate SysInv(s: Sys) {
    Inv(s.db) && PrefixOk(s.db.turns) && WorkerOk(s) && Agree(s.db, s.log) && Ordered(s.log)
  }

  // ---------- growth of the log ----------

  /** What the last event must satisfy for the log to stay ordered. */
  ghost predicate Fresh(log: seq<Entry>, e: Entry) {
    && (e.SentTurn? ==> forall i :: 0 <= i < |log| && log[i].MarkedTurn? ==> log[i].id != e.id)
    && (e.SentFeedback? ==> MarkedTurn(e.turn, e.link) in log && forall i :: 0 <= i < |log| && log[i].MarkedFeedback?
                                                                  ==> log[i].id != e.id)
  }

  lemma {:induction false} OrderedSnoc(log: seq<Entry>, e: Entry)
    requires Ordered(log) && Fresh(log, e)
    ensures Ordered(log + [e])
  {
    var r := log + [e];
    forall j | 0 <= j < |r| && r[j].SentFeedback? ensures MarkedTurn(r[j].turn, r[j].link) in r[..j] {
      if j < |log| { assert r[..j] == log[..j]; } else { assert r[..j] == log; }
    }
  }

  lemma {:induction false} AgreeSnoc(db: Db, log: seq<Entry>, e: Entry)
    requires Agree(db, log) && !e.MarkedTurn? && !e.MarkedFeedback?
    ensures Agree(db, log + [e])
  {}

  lemma {:induction false} OnlyRowWithId(turns: seq<Turn>, episodes: map<string, Episode>, t: Turn, u: Turn)
    requires RowsOk(turns, episodes) && t in turns && u in turns && t.id == u.id
    ensures t == u
  {
    hide TurnOk;
    var i :| 0 <= i < |turns| && turns[i] == t;
    var j :| 0 <= j < |turns| && turns[j] == u;
    assert i == j;
  }

  lemma {:induction false} UnmarkedIsFresh(s: Sys, t: Turn)
    requires RowsOk(s.db.turns, s.db.episodes) && Agree(s.db, s.log) && t in s.db.turns && t.link.None?
    ensures Fresh(s.log, SentTurn(t.id))
  {
    hide RowsOk;
    forall i | 0 <= i < |s.log| && s.log[i].MarkedTurn? ensures s.log[i].id != t.id {
      assert s.log[i] in s.log;
      var u :| u in s.db.turns && u.id == s.log[i].id && u.link == Some(s.log[i].link);
      if u.id == t.id { OnlyRowWithId(s.db.turns, s.db.episodes, t, u); }
    }
  }

  // ---------- each move keeps the invariant ----------

  lemma {:induction false} SendKeeps(s: Sys, reply: Reply)
    requires SysInv(s)
    ensures SysInv(NextSend(s, reply))
  {
    hide Inv, PrefixOk, Agree, Ordered, Fresh, QueueOk, FeedbackQueueOk;
    match s.worker
    case Turns(rows, None) =>
      if rows != [] && !reply.Incomplete? {
        var sent := SentTurn(rows[0].id);
        HeadIsUnmarked(s, rows);
        OrderedSnoc(s.log, sent);
        AgreeSnoc(s.db, s.log, sent);
        if reply.Ack? {
          var acked := AckedTurn(rows[0].id, reply.link);
          assert Fresh(s.log + [sent], acked) by { NotASend(s.log + [sent], acked); }
          OrderedSnoc(s.log + [sent], acked);
          AgreeSnoc(s.db, s.log + [sent], acked);
          assert s.log + [sent] + [acked] == s.log + [sent, acked];
        }
      }
    case Feedbacks(rows, false) =>
      if rows != [] && rows[0].turn.link.Some? {
        var sent := SentFeedback(rows[0].f.id, rows[0].turn.id, rows[0].turn.link.value);
        FeedbackHeadIsFresh(s, rows);
        OrderedSnoc(s.log, sent);
        AgreeSnoc(s.db, s.log, sent);
        if reply.Ack? {
          var acked := AckedFeedback(rows[0].f.id);
          assert Fresh(s.log + [sent], acked) by { NotASend(s.log + [sent], acked); }
          OrderedSnoc(s.log + [sent], acked);
          AgreeSnoc(s.db, s.log + [sent], acked);
          assert s.log + [sent] + [acked] == s.log + [sent, acked];
        }
      }
    case _ =>
  }

  lemma {:induction false} NotASend(log: seq<Entry>, e: Entry)
    requires !e.SentTurn? && !e.SentFeedback?
    ensures Fresh(log, e)
  {}

  lemma {:induction false} HeadIsUnmarked(s: Sys, rows: seq<Turn>)
    requires Inv(s.db) && Agree(s.db, s.log) && QueueOk(s.db.turns, rows) && rows != []
    ensures Fresh(s.log, SentTurn(rows[0].id))
  {
    hide RowsOk, LogsOk, FeedbackOk, SentOk, Agree, Fresh;
    UnmarkedIsFresh(s, rows[0]);
  }

  lemma {:induction false} FeedbackHeadIsFresh(s: Sys, rows: seq<Pending>)
    requires Agree(s.db, s.log) && FeedbackQueueOk(s.db, rows) && rows != [] && rows[0].turn.link.Some?
    ensures Fresh(s.log, SentFeedback(rows[0].f.id, rows[0].turn.id, rows[0].turn.link.value))
  {
    assert rows[0].f.id !in s.db.sent;
    forall i | 0 <= i < |s.log| && s.log[i].MarkedFeedback? ensures s.log[i].id != rows[0].f.id {
      assert s.log[i] in s.log;
    }
  }

  /** Only the marked row changes, from unexported to exported. */
  lemma {:induction false} MarkedRows(turns: seq<Turn>, episodes: map<string, Episode>, t: Turn, link: Link)
    requires RowsOk(turns, episodes) && t in turns
    ensures var r := Linked(turns, t.id, link);
            t.(link := Some(link)) in r && forall u :: u in r
                                            <==> (u in turns && u.id != t.id) || u == t.(link := Some(link))
  {
    hide TurnOk;
    var r := Linked(turns, t.id, link);
    var i :| 0 <= i < |turns| && turns[i] == t;
    assert r[i] == t.(link := Some(link));
    forall u ensures u in r <==> (u in turns && u.id != t.id) || u == t.(link := Some(link)) {
      if u in turns && u.id != t.id { var j :| 0 <= j < |turns| && turns[j] == u; assert r[j] == u; }
      if u in r {
        var j :| 0 <= j < |r| && r[j] == u;
        if turns[j].id == t.id { assert j == i; }
      }
    }
  }

  /** `r` is `turns` with the row of `t` marked. */
  ghost predicate Remarked(turns: seq<Turn>, r: seq<Turn>, t: Turn, link: Link) {
    && t in turns && t.link.None?
    && (forall u :: u in r <==> (u in turns && u.id != t.id) || u == t.(link := Some(link)))
    && (forall u :: u in turns && u.id == t.id ==> u == t)
  }

  lemma {:induction false} PrefixAfterMark(turns: seq<Turn>, r: seq<Turn>, rows: seq<Turn>, link: Link)
    requires rows != [] && Remarked(turns, r, rows[0], link) && PrefixOk(turns) && Ahead(turns, rows)
    ensures PrefixOk(r)
  {
    forall a, b | a in r && b in r && b.episode == a.episode && b.step < a.step && a.link.Some? ensures b.link.Some? {
      assert b in turns || b.link.Some?;
      assert a in turns || (a.episode == rows[0].episode && a.step == rows[0].step);
      assert b !in rows[..0];
    }
  }

  lemma {:induction false} QueueAfterMark(turns: seq<Turn>, r: seq<Turn>, rows: seq<Turn>, link: Link)
    requires rows != [] && Remarked(turns, r, rows[0], link) && QueueOk(turns, rows)
    ensures QueueOk(r, rows[1..])
  {
    var q := rows[1..];
    forall k | 0 <= k < |q| ensures q[k] in r && q[k].link.None? && q[k] in turns {
      assert q[k] == rows[k + 1] && rows[k + 1] != rows[0];
    }
    forall u, k | u in r && 0 <= k < |q| && u.link.None? && u.episode == q[k].episode && u.step < q[k].step
      ensures u in q[..k]
    {
      assert q[k] == rows[k + 1];
      assert u in turns && u in rows[..k + 1] && u != rows[0];
      assert rows[..k + 1] == [rows[0]] + q[..k];
    }
  }

  lemma {:induction false} MarkTurnKeeps(s: Sys, rows: seq<Turn>, link: Link)
    requires RowsOk(s.db.turns, s.db.episodes) && PrefixOk(s.db.turns) && QueueOk(s.db.turns, rows) && rows != []
    ensures var r := Linked(s.db.turns, rows[0].id, link); PrefixOk(r) && QueueOk(r, rows[1..])
  {
    var turns, t := s.db.turns, rows[0];
    var r := Linked(turns, t.id, link);
    MarkedRows(turns, s.db.episodes, t, link);
    forall u | u in turns && u.id == t.id ensures u == t { OnlyRowWithId(turns, s.db.episodes, u, t); }
    hide RowsOk, PrefixOk, Ahead;
    PrefixAfterMark(turns, r, rows, link);
    QueueAfterMark(turns, r, rows, link);
  }

  lemma {:induction false} MarkTurnAgrees(s: Sys, t: Turn, link: Link)
    requires RowsOk(s.db.turns, s.db.episodes) && Agree(s.db, s.log) && t in s.db.turns && t.link.None?
    requires AckedTurn(t.id, link) in s.log
    ensures Agree(Apply(s.db, MarkTurn(t.id, link)), s.log + [MarkedTurn(t.id, link)])
  {
    MarkedRows(s.db.turns, s.db.episodes, t, link);
    hide RowsOk;
    var d, log := Apply(s.db, MarkTurn(t.id, link)), s.log + [MarkedTurn(t.id, link)];
    assert MarkedTurn(t.id, link) in log;
    forall e | e in log && e.MarkedTurn? ensures exists u :: u in d.turns && u.id == e.id && u.link == Some(e.link) {
      if e == MarkedTurn(t.id, link) {
        assert t.(link := Some(link)) in d.turns;
      } else {
        var u :| u in s.db.turns && u.id == e.id && u.link == Some(e.link);
        if u.id == t.id { OnlyRowWithId(s.db.turns, s.db.episodes, t, u); }
        assert u in d.turns;
      }
    }
  }

  lemma {:induction false} MarkFeedbackKeeps(s: Sys, rows: seq<Pending>, at: int)
    requires Inv(s.db) && FeedbackQueueOk(s.db, rows) && rows != [] && Agree(s.db, s.log)
    requires AckedFeedback(rows[0].f.id) in s.log
    ensures var d := Apply(s.db, MarkFeedback(rows[0].f.id, at));
            FeedbackQueueOk(d, rows[1..]) && Agree(d, s.log + [MarkedFeedback(rows[0].f.id)])
  {
    hide RowsOk, LogsOk, SentOk;
    var id := rows[0].f.id;
    assert FindFeedback(s.db.feedback, id).Some? by {
      FindFeedbackAt(s.db.feedback, id);
      var i :| 0 <= i < |s.db.feedback| && s.db.feedback[i] == rows[0].f;
    }
    var d := Apply(s.db, MarkFeedback(id, at));
    assert forall x :: x in d.sent <==> x in s.db.sent || x == id;
  }

  lemma {:induction false} MarkKeeps(s: Sys, at: int)
    requires SysInv(s)
    ensures SysInv(NextMark(s, at))
  {
    hide PrefixOk, Agree, Ordered, Fresh, RowsOk, LogsOk, FeedbackOk, SentOk, Ahead;
    match s.worker
    case Turns(rows, Some(link)) =>
      ApplyKeepsInv(s.db, MarkTurn(rows[0].id, link));
      MarkTurnKeeps(s, rows, link);
      assert rows[0] in s.db.turns && rows[0].link.None?;
      MarkTurnAgrees(s, rows[0], link);
      NotASend(s.log, MarkedTurn(rows[0].id, link));
      OrderedSnoc(s.log, MarkedTurn(rows[0].id, link));
    case Feedbacks(rows, true) =>
      hide QueueOk, FeedbackQueueOk;
      ApplyKeepsInv(s.db, MarkFeedback(rows[0].f.id, at));
      MarkFeedbackKeeps(s, rows, at);
      NotASend(s.log, MarkedFeedback(rows[0].f.id));
      OrderedSnoc(s.log, MarkedFeedback(rows[0].f.id));
    case _ =>
  }

  lemma {:induction false} BacklogExact(turns: seq<Turn>)
    ensures forall t :: t in Backlog(turns) <==> t in turns && t.link.None?
    ensures Sorted(Backlog(turns), Views.RowLe)
  {
    FilterMembers(turns, Unsent);
    SortMembers(Filter(turns, Unsent), Views.RowLe);
    Views.RowOrder();
    SortSorts(Filter(turns, Unsent), Views.RowLe);
  }

  /** A fetch queues exactly the unexported turns, none lost and none twice, earlier steps first. */
  lemma {:induction false} StartKeeps(db: Db)
    requires Inv(db)
    ensures QueueOk(db.turns, Backlog(db.turns))
  {
    var q := Backlog(db.turns);
    assert Distinct(q) by {
      Views.DistinctRows(db.turns, db.episodes);
      FilterDistinct(db.turns, Unsent);
      SortDistinct(Filter(db.turns, Unsent), Views.RowLe);
    }
    BacklogExact(db.turns);
    hide *;
    SortedIsAhead(db.turns, q);
  }

  lemma {:induction false} SmallerIsEarlier(q: seq<Turn>, j: nat, k: nat)
    requires Sorted(q, Views.RowLe) && j < |q| && k < |q| && q[j].episode == q[k].episode && q[j].step < q[k].step
    ensures j < k
  {
    StrTotal(q[j].episode, q[k].episode);
  }

  lemma {:induction false} SortedIsAhead(turns: seq<Turn>, q: seq<Turn>)
    requires Distinct(q) && Sorted(q, Views.RowLe) && forall t :: t in q <==> t in turns && t.link.None?
    ensures QueueOk(turns, q)
  {
    forall u, k | u in turns && 0 <= k < |q| && u.link.None? && u.episode == q[k].episode && u.step < q[k].step
      ensures u in q[..k]
    {
      assert u in q;
      var j :| 0 <= j < |q| && q[j] == u;
      SmallerIsEarlier(q, j, k);
      assert q[..k][j] == u;
    }
    forall k | 0 <= k < |q| ensures q[k] in turns && q[k].link.None? { assert q[k] in q; }
  }

  ghost predicate FromFirst(db: Db, rows: seq<Pending>, n: nat)
    requires n <= |db.feedback|
  {
    forall k :: 0 <= k < |rows| ==> rows[k].f in db.feedback[..n]
  }

  /** The next feedback row joins the queue exactly when it is unexported and its turn `t` has a link. */
  lemma {:induction false} FetchStep(db: Db, n: nat) returns (t: Turn)
    requires n < |db.feedback| && FeedbackOk(db.feedback, db.turns)
    ensures t in db.turns
    ensures var f, rows := db.feedback[n], FeedbackBacklog(db, n);
            FeedbackBacklog(db, n + 1) == if f.id !in db.sent && t.link.Some? then rows + [Pending(f, t)] else rows
  {
    FindTurnAt(db.turns, db.feedback[n].turn);
    t := FindTurn(db.turns, db.feedback[n].turn).value;
    hide FindTurn;
    var rows := FeedbackBacklog(db, n);
    assert rows + [] == rows;
  }

  lemma {:induction false} FreshFeedback(db: Db, rows: seq<Pending>, n: nat)
    requires n < |db.feedback| && FeedbackOk(db.feedback, db.turns) && FromFirst(db, rows, n)
    ensures forall k :: 0 <= k < |rows| ==> rows[k].f.id != db.feedback[n].id
    ensures FromFirst(db, rows, n + 1)
  {
    forall k | 0 <= k < |rows| ensures rows[k].f.id != db.feedback[n].id && rows[k].f in db.feedback[..n + 1] {
      var i :| 0 <= i < n && db.feedback[..n][i] == rows[k].f;
      assert db.feedback[i] == rows[k].f && db.feedback[..n + 1][i] == rows[k].f;
    }
  }

  lemma {:induction false} QueueSnoc(db: Db, rows: seq<Pending>, n: nat, t: Turn)
    requires n < |db.feedback| && FeedbackOk(db.feedback, db.turns) && FromFirst(db, rows, n)
    requires FeedbackQueueOk(db, rows)
    requires t in db.turns && t.link.Some? && db.feedback[n].id !in db.sent
    ensures FeedbackQueueOk(db, rows + [Pending(db.feedback[n], t)])
    ensures FromFirst(db, rows + [Pending(db.feedback[n], t)], n + 1)
  {
    FreshFeedback(db, rows, n);
    hide FeedbackOk;
    assert db.feedback[..n + 1][n] == db.feedback[n];
  }

  lemma {:induction false} NothingFetched(db: Db)
    ensures FeedbackQueueOk(db, FeedbackBacklog(db, 0)) && FromFirst(db, FeedbackBacklog(db, 0), 0)
  {
  }

  lemma {:induction false} FetchKeeps(db: Db, n: nat)
    requires FeedbackOk(db.feedback, db.turns) && n <= |db.feedback|
    ensures FeedbackQueueOk(db, FeedbackBacklog(db, n)) && FromFirst(db, FeedbackBacklog(db, n), n)
  {
    hide *;
    if n == 0 {
      NothingFetched(db);
    } else {
      var rows := FeedbackBacklog(db, n - 1);
      FetchKeeps(db, n - 1);
      var t := FetchStep(db, n - 1);
      FreshFeedback(db, rows, n - 1);
      if db.feedback[n - 1].id !in db.sent && t.link.Some? { QueueSnoc(db, rows, n - 1, t); }
    }
  }

  lemma {:induction false} CoveredMore(fs: seq<Feedback>, f: Feedback, sent: map<string, int>, rows: seq<Pending>,
                                       t: Turn)
    requires Covered(fs, sent, rows)
    ensures Covered(fs + [f], sent, if f.id in sent then rows else rows + [Pending(f, t)])
  {
    var now := if f.id in sent then rows else rows + [Pending(f, t)];
    forall g | g in fs + [f] && g.id !in sent ensures exists p :: p in now && p.f == g {
      if g in fs {
        var p :| p in rows && p.f == g;
        assert p in now;
      } else {
        assert now[|rows|].f == g;
      }
    }
  }

  /** With every turn exported, a fetch queues every unexported feedback row. */
  lemma {:induction false} FetchCovers(db: Db, n: nat)
    requires FeedbackOk(db.feedback, db.turns) && n <= |db.feedback| && forall t :: t in db.turns ==> t.link.Some?
    ensures Covered(db.feedback[..n], db.sent, FeedbackBacklog(db, n))
  {
    hide *;
    if n == 0 {
      NothingCovered(db.feedback[..n], db.sent, FeedbackBacklog(db, n));
    } else {
      FetchCovers(db, n - 1);
      var t := FetchStep(db, n - 1);
      assert db.feedback[..n] == db.feedback[..n - 1] + [db.feedback[n - 1]];
      CoveredMore(db.feedback[..n - 1], db.feedback[n - 1], db.sent, FeedbackBacklog(db, n - 1), t);
    }
  }

  lemma NothingCovered(fs: seq<Feedback>, sent: map<string, int>, rows: seq<Pending>)
    requires fs == []
    ensures Covered(fs, sent, rows)
  {}

  /** Every unexported feedback row is queued. */
  ghost predicate Covered(fs: seq<Feedback>, sent: map<string, int>, rows: seq<Pending>) {
    forall g :: g in fs && g.id !in sent ==> exists p :: p in rows && p.f == g
  }

  lemma {:induction false} OtherCallDisturbsNothing(s: Sys, d: Db)
    requires WorkerOk(s) && Agree(s.db, s.log)
    requires d.turns == s.db.turns && d.sent == s.db.sent && forall f :: f in s.db.feedback ==> f in d.feedback
    ensures WorkerOk(s.(db := d)) && Agree(d, s.log)
  {
    hide QueueOk;
  }

  lemma {:induction false} OtherCallKeepsTurns(d: Db, c: Call)
    requires c.GiveFeedback? || c.Finish? || (c.Record? && RecordOutcome(d, c.e) != Accepted(true))
    ensures var n := Apply(d, c);
            n.turns == d.turns && n.sent == d.sent && forall f :: f in d.feedback ==> f in n.feedback
  {
    hide RecordOutcome, FeedbackOutcome, FinishOutcome;
  }

  /** A client call never disturbs the exporter: rows already exported or queued stay what they were. */
  lemma {:induction false} ClientKeeps(s: Sys, c: Call)
    requires SysInv(s) && (c.Record? || c.GiveFeedback? || c.Finish?)
    ensures SysInv(s.(db := Apply(s.db, c)))
  {
    ApplyKeepsInv(s.db, c);
    hide Inv, Agree, Ordered, PrefixOk, WorkerOk, RecordOutcome, FeedbackOutcome, FinishOutcome;
    if c.Record? && RecordOutcome(s.db, c.e) == Accepted(true) {
      RecordDisturbsNothing(s, c.e);
    } else {
      OtherCallKeepsTurns(s.db, c);
      hide Apply;
      OtherCallDisturbsNothing(s, Apply(s.db, c));
    }
  }

  /** A new last turn is harmless to the exported prefix, to the queue and to the log. */
  lemma {:induction false} NewTurnHarmless(s: Sys, d: Db, t: Turn)
    requires PrefixOk(s.db.turns) && WorkerOk(s) && Agree(s.db, s.log)
    requires d.turns == s.db.turns + [t] && d.feedback == s.db.feedback && d.sent == s.db.sent && t.link.None?
    requires forall u :: u in s.db.turns && u.episode == t.episode ==> u.step < t.step
    ensures PrefixOk(d.turns) && Agree(d, s.log) && WorkerOk(s.(db := d))
  {
    assert forall u :: u in d.turns <==> u in s.db.turns || u == t;
    assert PrefixOk(d.turns);
    assert Agree(d, s.log);
    match s.worker
    case Idle =>
    case Turns(rows, acked) =>
      forall u, k | u in d.turns && 0 <= k < |rows| && u.link.None? && u.episode == rows[k].episode
          && u.step < rows[k].step
        ensures u in rows[..k]
      {
        assert rows[k] in s.db.turns;
      }
    case Feedbacks(rows, done) =>
  }

  lemma {:induction false} RecordDisturbsNothing(s: Sys, e: Event)
    requires SysInv(s) && RecordOutcome(s.db, e) == Accepted(true)
    ensures var d := AfterRecord(s.db, e); PrefixOk(d.turns) && WorkerOk(s.(db := d)) && Agree(d, s.log)
  {
    InsertedMeans(s.db, e);
    var t := Row(e);
    forall u | u in s.db.turns && u.episode == t.episode ensures u.step < t.step {
      hide RecordOutcome, WellFormed, Log, Inv, Agree, WorkerOk, PrefixOk, Ordered;
      StepWithinLog(s.db, u);
    }
    hide Inv, RecordOutcome, WellFormed, Log, Agree, WorkerOk, PrefixOk, Ordered;
    NewTurnHarmless(s, AfterRecord(s.db, e), t);
  }

  lemma {:induction false} NextKeeps(s: Sys, m: Move)
    requires SysInv(s)
    ensures SysInv(Next(s, m))
  {
    hide PrefixOk, Agree, Ordered, QueueOk, FeedbackQueueOk, RowsOk, LogsOk, SentOk, FeedbackOk;
    match m
    case Client(c) => if c.Record? || c.GiveFeedback? || c.Finish? { ClientKeeps(s, c); }
    case Start => StartKeeps(s.db);
    case Fetch => FetchKeeps(s.db, |s.db.feedback|);
    case Send(reply) => SendKeeps(s, reply);
    case Mark(at) => MarkKeeps(s, at);
    case Crash =>
  }

  /** Every interleaving of client calls, sends, refusals, crashes and marks keeps the invariant. */
  lemma {:induction false} MovesKeep(s: Sys, ms: seq<Move>)
    requires SysInv(s)
    ensures SysInv(Moves(s, ms))
  {
    if ms != [] {
      MovesKeep(s, ms[..|ms| - 1]);
      NextKeeps(Moves(s, ms[..|ms| - 1]), ms[|ms| - 1]);
    }
  }

  // ---------- what every run promises ----------

  /** In every run from the empty store: an exported turn carries identifiers the collector acknowledged for it;
      no turn and no feedback is sent again after its mark; feedback is sent only after its turn's identifiers were
      stored, and under those identifiers. */
  lemma {:induction false} ExporterRuns(ms: seq<Move>)
    ensures var s := Moves(START, ms);
            && (forall t :: t in s.db.turns && t.link.Some? ==> AckedTurn(t.id, t.link.value) in s.log)
            && (forall id :: id in s.db.sent ==> AckedFeedback(id) in s.log)
            && Ordered(s.log)
  {
    MovesKeep(START, ms);
  }

  // ---------- how often something is acknowledged ----------

  datatype Item = TurnItem(id: string) | FeedbackItem(id: string)

  predicate Acknowledges(e: Entry, x: Item) {
    e.id == x.id && if x.TurnItem? then e.AckedTurn? else e.AckedFeedback?
  }

  predicate Marks(e: Entry, x: Item) {
    e.id == x.id && if x.TurnItem? then e.MarkedTurn? else e.MarkedFeedback?
  }

  function Acks(log: seq<Entry>, x: Item): nat {
    if log == [] then 0 else Acks(log[..|log| - 1], x) + if Acknowledges(log[|log| - 1], x) then 1 else 0
  }

  function MarksOf(log: seq<Entry>, x: Item): nat {
    if log == [] then 0 else MarksOf(log[..|log| - 1], x) + if Marks(log[|log| - 1], x) then 1 else 0
  }

  /** The worker holds an acknowledgement of this item that it has not marked yet. */
  predicate InHand(s: Sys, x: Item) {
    match s.worker
    case Turns(rows, Some(_)) => rows != [] && x == TurnItem(rows[0].id)
    case Feedbacks(rows, true) => rows != [] && x == FeedbackItem(rows[0].f.id)
    case _ => false
  }

  /** The crashes of a run that hit between an acknowledgement of this item and its mark. */
  function Lost(s: Sys, ms: seq<Move>, x: Item): nat {
    if ms == [] then 0
    else Lost(s, ms[..|ms| - 1], x) + if ms[|ms| - 1].Crash? && InHand(Moves(s, ms[..|ms| - 1]), x) then 1 else 0
  }

  function Held(s: Sys, x: Item): nat { if InHand(s, x) then 1 else 0 }

  lemma CountSnoc(log: seq<Entry>, e: Entry, x: Item)
    ensures Acks(log + [e], x) == Acks(log, x) + if Acknowledges(e, x) then 1 else 0
    ensures MarksOf(log + [e], x) == MarksOf(log, x) + if Marks(e, x) then 1 else 0
  {
    assert (log + [e])[..|log|] == log;
  }

  lemma CountTwo(log: seq<Entry>, d: Entry, e: Entry, x: Item)
    ensures Acks(log + [d, e], x)
       == Acks(log, x) + (if Acknowledges(d, x) then 1 else 0) + (if Acknowledges(e, x) then 1 else 0)
    ensures MarksOf(log + [d, e], x)
       == MarksOf(log, x) + (if Marks(d, x) then 1 else 0) + (if Marks(e, x) then 1 else 0)
  {
    CountSnoc(log, d, x);
    CountSnoc(log + [d], e, x);
    assert log + [d] + [e] == log + [d, e];
  }

  lemma {:induction false} NoneMarked(log: seq<Entry>, x: Item)
    requires forall i :: 0 <= i < |log| ==> !Marks(log[i], x)
    ensures MarksOf(log, x) == 0
  {
    if log != [] { NoneMarked(log[..|log| - 1], x); }
  }

  /** What is in hand has never been marked. */
  lemma {:induction false} HandUnmarked(s: Sys, x: Item)
    requires SysInv(s) && InHand(s, x)
    ensures MarksOf(s.log, x) == 0
  {
    hide RowsOk, LogsOk, FeedbackOk, SentOk, PrefixOk, Ordered, Agree, QueueOk, FeedbackQueueOk;
    match s.worker {
      case Turns(rows, _) => HeadIsUnmarked(s, rows);
      case Feedbacks(rows, _) =>
        assert rows[0].turn.link.Some? by { HeadHasLink(s.db, rows); }
        FeedbackHeadIsFresh(s, rows);
    }
    NoneMarked(s.log, x);
  }

  lemma HeadHasLink(db: Db, rows: seq<Pending>)
    requires FeedbackQueueOk(db, rows) && rows != []
    ensures rows[0].turn.link.Some?
  {}

  /** Every acknowledgement is in hand until it is marked or lost. */
  lemma NextBalance(s: Sys, m: Move, x: Item)
    ensures var n := Next(s, m);
            Acks(n.log, x) + MarksOf(s.log, x) + Held(s, x)
              == Acks(s.log, x) + MarksOf(n.log, x) + Held(n, x) + if m.Crash? && InHand(s, x) then 1 else 0
    ensures MarksOf(Next(s, m).log, x) <= MarksOf(s.log, x) + Held(s, x)
  {
    hide Apply, Backlog, FeedbackBacklog, Acks, MarksOf;
    match s.worker
    case Turns(rows, acked) =>
      if rows != [] {
        CountSnoc(s.log, SentTurn(rows[0].id), x);
        if m.Send? && m.reply.Ack? { CountTwo(s.log, SentTurn(rows[0].id), AckedTurn(rows[0].id, m.reply.link), x); }
        if acked.Some? { CountSnoc(s.log, MarkedTurn(rows[0].id, acked.value), x); }
      }
    case Feedbacks(rows, done) =>
      if rows != [] {
        CountSnoc(s.log, MarkedFeedback(rows[0].f.id), x);
        if rows[0].turn.link.Some? {
          var sent := SentFeedback(rows[0].f.id, rows[0].turn.id, rows[0].turn.link.value);
          CountSnoc(s.log, sent, x);
          CountTwo(s.log, sent, AckedFeedback(rows[0].f.id), x);
        }
      }
    case Idle =>
  }

  /** At-least-once delivery, exactly: in every run each acknowledgement of a turn or of a feedback row is its only
      mark, is in hand, or was lost to a crash before the mark. So n acknowledgements of one item need n - 1
      crashes. */
  lemma {:induction false} AcknowledgedTwice(ms: seq<Move>, x: Item)
    ensures var s := Moves(START, ms);
            Acks(s.log, x) == MarksOf(s.log, x) + Held(s, x) + Lost(START, ms, x) && MarksOf(s.log, x) + Held(s, x) <= 1
    ensures Lost(START, ms, x) <= |Filter(ms, (m: Move) => m.Crash?)|
  {
    if ms != [] {
      var prefix, m := ms[..|ms| - 1], ms[|ms| - 1];
      AcknowledgedTwice(prefix, x);
      MovesKeep(START, prefix);
      MovesKeep(START, ms);
      hide SysInv, Next, InHand, Acks, MarksOf;
      NextBalance(Moves(START, prefix), m, x);
      if InHand(Moves(START, prefix), x) { HandUnmarked(Moves(START, prefix), x); }
      if InHand(Moves(START, ms), x) { HandUnmarked(Moves(START, ms), x); }
    }
  }

  /** In every run, each episode's exported turns are exactly the first `k` of its log. */
  lemma {:induction false} ExportedPrefix(ms: seq<Move>, ep: string) returns (k: nat)
    ensures var log := Log(Moves(START, ms).db.turns, ep);
            k <= |log| && forall i :: 0 <= i < |log| ==> (log[i].link.Some? <==> i < k)
  {
    MovesKeep(START, ms);
    var db := Moves(START, ms).db;
    var log := Log(db.turns, ep);
    LogMembers(db.turns, ep);
    forall i | 0 <= i < |log| ensures log[i] in db.turns && log[i].episode == ep && log[i].step == i + 1 {
      assert log[i] in log;
      EpisodeKnown(db, log[i]);
    }
    hide *;
    assert PrefixOk(db.turns) by { PrefixHolds(Moves(START, ms)); }
    k := PrefixLength(db.turns, log);
  }

  lemma {:induction false} PrefixHolds(s: Sys)
    requires SysInv(s)
    ensures PrefixOk(s.db.turns)
  {}

  lemma {:induction false} EpisodeKnown(db: Db, t: Turn)
    requires Inv(db) && t in db.turns
    ensures t.episode in db.episodes && Chained(Log(db.turns, t.episode))
  {
    var i :| 0 <= i < |db.turns| && db.turns[i] == t;
    assert TurnOk(db.turns[i], db.episodes);
  }

  lemma {:induction false} PrefixLength(turns: seq<Turn>, log: seq<Turn>) returns (k: nat)
    requires PrefixOk(turns)
    requires forall i :: 0 <= i < |log| ==> log[i] in turns && log[i].step == i + 1
    requires forall i, j :: 0 <= i < |log| && 0 <= j < |log| ==> log[i].episode == log[j].episode
    ensures k <= |log| && forall i :: 0 <= i < |log| ==> (log[i].link.Some? <==> i < k)
  {
    if log == [] { return 0; }
    var n := |log| - 1;
    if log[n].link.Some? { return |log|; }
    k := PrefixLength(turns, log[..n]);
  }

  // ---------- one uninterrupted pass of the program ----------

  /** All turns not yet exported are still queued. */
  ghost predicate StillQueued(turns: seq<Turn>, queue: seq<Turn>) {
    forall t :: t in turns && t.link.None? ==> t in queue
  }

  lemma {:induction false} MarkDequeues(db: Db, rows: seq<Turn>, link: Link)
    requires RowsOk(db.turns, db.episodes) && QueueOk(db.turns, rows) && rows != [] && StillQueued(db.turns, rows)
    ensures StillQueued(Linked(db.turns, rows[0].id, link), rows[1..])
  {
    MarkedRows(db.turns, db.episodes, rows[0], link);
    hide RowsOk;
    assert rows == [rows[0]] + rows[1..];
  }

  lemma {:induction false} MarkUncovers(db: Db, rows: seq<Pending>, at: int)
    requires FeedbackOk(db.feedback, db.turns) && FeedbackQueueOk(db, rows) && rows != []
    requires Covered(db.feedback, db.sent, rows)
    ensures var d := Apply(db, MarkFeedback(rows[0].f.id, at)); Covered(d.feedback, d.sent, rows[1..])
  {
    hide FindTurn, ValidScore;
    var d := Apply(db, MarkFeedback(rows[0].f.id, at));
    FindFeedbackAt(db.feedback, rows[0].f.id);
    assert rows[0].f in db.feedback;
    forall g | g in d.feedback && g.id !in d.sent ensures exists p :: p in rows[1..] && p.f == g {
      var p :| p in rows && p.f == g;
      assert rows == [rows[0]] + rows[1..];
    }
  }

  /** The state machine reached from `s0` by `ms` is in a good state over these tables. */
  ghost predicate At(s0: Sys, ms: seq<Move>, db: Db, worker: Worker) {
    SysInv(Moves(s0, ms)) && Moves(s0, ms).db == db && Moves(s0, ms).worker == worker
  }

  /** The turns once the first `n` rows are marked with the identifiers acknowledged for them. */
  ghost function MarkedRowsOf(turns: seq<Turn>, rows: seq<Turn>, net: nat -> Reply, n: nat): seq<Turn>
    requires n <= |rows|
  {
    if n == 0 then turns
    else
      var before := MarkedRowsOf(turns, rows, net, n - 1);
      if net(n - 1).Ack? then Linked(before, rows[n - 1].id, net(n - 1).link) else before
  }

  /** The marks once the first `n` feedback rows are marked. */
  ghost function MarkedSent(sent: map<string, int>, rows: seq<Pending>, n: nat, now: int): map<string, int>
    requires n <= |rows|
  {
    if n == 0 then sent else MarkedSent(sent, rows, n - 1, now)[rows[n - 1].f.id := now]
  }

  /** The sends from the `from`-th on were acknowledged up to the one before `n`. */
  ghost predicate AllAcked(net: nat -> Reply, from: nat, n: nat) {
    forall k: nat :: from <= k < n ==> net(k).Ack?
  }

  /** The loop over unexported turns. */
  method ExportTurns(store: Store, net: nat -> Reply, rows: seq<Turn>, now: int, ghost s0: Sys, ghost ms0: seq<Move>)
    returns (sent: nat, ghost ms: seq<Move>)
    requires At(s0, ms0, store.Tables(), Turns(rows, None)) && StillQueued(store.turns, rows)
    modifies store
    ensures sent <= |rows| && AllAcked(net, 0, sent) && (sent < |rows| ==> !net(sent).Ack?)
    ensures store.Tables() == old(store.Tables()).(turns := MarkedRowsOf(old(store.turns), rows, net, sent))
    ensures Moves(s0, ms).db == store.Tables()
    ensures sent == |rows| ==> At(s0, ms, store.Tables(), Turns([], None)) && StillQueued(store.turns, [])
  {
    hide At, StillQueued, Covered, Moves, Next, Backlog, FeedbackBacklog, SysInv;
    sent, ms := 0, ms0;
    assert rows[0..] == rows;
    while sent < |rows|
      invariant 0 <= sent <= |rows|
      invariant At(s0, ms, store.Tables(), Turns(rows[sent..], None)) && StillQueued(store.turns, rows[sent..])
      invariant AllAcked(net, 0, sent)
      invariant store.Tables() == old(store.Tables()).(turns := MarkedRowsOf(old(store.turns), rows, net, sent))
    {
      var reply := net(sent);
      if !reply.Ack? {
        ms := SnocMove(s0, ms, Send(reply));
        SendStops(s0, ms[..|ms| - 1], store.Tables(), Turns(rows[sent..], None), reply);
        return;
      }
      ghost var before := ms;
      ms := SnocMove(s0, ms, Send(reply));
      ms := SnocMove(s0, ms, Mark(now));
      SendMarkTurn(s0, before, store.Tables(), rows[sent..], reply.link, now, ms);
      store.turns := Linked(store.turns, rows[sent].id, reply.link);
      assert rows[sent..][1..] == rows[sent + 1..];
      sent := sent + 1;
    }
    assert rows[sent..] == [];
    AtTables(s0, ms, store.Tables(), Turns([], None));
  }

  /** The loop over unexported feedback. */
  method ExportFeedback(store: Store, net: nat -> Reply, rows: seq<Pending>, sent: nat, now: int, ghost s0: Sys,
                        ghost ms0: seq<Move>)
    returns (done: nat, ghost ms: seq<Move>)
    requires At(s0, ms0, store.Tables(), Feedbacks(rows, false)) && Covered(store.feedback, store.sent, rows)
    modifies store`sent
    ensures Moves(s0, ms).db == store.Tables()
    ensures done <= |rows| && AllAcked(net, sent, sent + done) && (done < |rows| ==> !net(sent + done).Ack?)
    ensures store.sent == MarkedSent(old(store.sent), rows, done, now)
    ensures done == |rows| ==> forall f :: f in store.feedback ==> f.id in store.sent
  {
    hide At, StillQueued, Covered, Moves, Next, Backlog, FeedbackBacklog, SysInv;
    done, ms := 0, ms0;
    assert rows[0..] == rows;
    while done < |rows|
      invariant 0 <= done <= |rows|
      invariant At(s0, ms, store.Tables(), Feedbacks(rows[done..], false))
      invariant Covered(store.feedback, store.sent, rows[done..])
      invariant AllAcked(net, sent, sent + done) && store.sent == MarkedSent(old(store.sent), rows, done, now)
    {
      var reply := net(sent + done);
      if !reply.Ack? {
        ms := SnocMove(s0, ms, Send(reply));
        SendStops(s0, ms[..|ms| - 1], store.Tables(), Feedbacks(rows[done..], false), reply);
        return;
      }
      ghost var before := ms;
      ms := SnocMove(s0, ms, Send(reply));
      ms := SnocMove(s0, ms, Mark(now));
      SendMarkFeedback(s0, before, store.Tables(), rows[done..], reply.link, now, ms);
      store.sent := store.sent[rows[done].f.id := now];
      assert rows[done..][1..] == rows[done + 1..];
      done := done + 1;
    }
    NoneLeft(store.feedback, store.sent, rows[done..]);
    AtTables(s0, ms, store.Tables(), Feedbacks(rows[done..], false));
  }

  /** What a pass that marked `sent` turns and then `fed` feedback rows leaves behind. */
  ghost predicate PassDone(before: Db, after: Db, net: nat -> Reply, now: int, sent: nat, fed: nat) {
    var rows := Backlog(before.turns);
    var turnsDone := before.(turns := after.turns);
    var feedback := FeedbackBacklog(turnsDone, |before.feedback|);
    && sent <= |rows| && fed <= |feedback| && (sent < |rows| ==> fed == 0)
    && after.turns == MarkedRowsOf(before.turns, rows, net, sent)
    && after == turnsDone.(sent := MarkedSent(before.sent, feedback, fed, now))
  }

  /** The pass had another row to send. */
  ghost predicate MoreToSend(before: Db, after: Db, sent: nat, fed: nat) {
    || sent < |Backlog(before.turns)|
    || fed < |FeedbackBacklog(before.(turns := after.turns), |before.feedback|)|
  }

  /** One call of the exporter against a network that answers the k-th send with `net(k)`. It is a run of the
      machine above. It marks exactly the rows acknowledged before the first send of its own that is not, where it
      fails; without such a send it leaves no turn and no feedback unexported. */
  method ExportPass(store: Store, net: nat -> Reply, now: int, ghost log0: seq<Entry>)
    returns (sent: nat, ok: bool, ghost fed: nat, ghost ms: seq<Move>)
    requires SysInv(Sys(store.Tables(), Idle, log0))
    modifies store
    ensures Moves(Sys(old(store.Tables()), Idle, log0), ms).db == store.Tables()
    ensures PassDone(old(store.Tables()), store.Tables(), net, now, sent, fed)
    ensures AllAcked(net, 0, sent + fed)
    ensures ok <==> !MoreToSend(old(store.Tables()), store.Tables(), sent, fed)
    ensures !ok ==> !net(sent + fed).Ack?
    ensures ok
        ==> (forall t :: t in store.turns ==> t.link.Some?) && (forall f :: f in store.feedback ==> f.id in store.sent)
    ensures ok ==> sent == |Backlog(old(store.turns))|
  {
    hide *;
    ghost var s0 := Sys(store.Tables(), Idle, log0);
    ghost var before := store.Tables();
    TablesMean(store);
    var rows := Backlog(store.turns);
    StartAt(s0);
    ok, fed := false, 0;
    sent, ms := ExportTurns(store, net, rows, now, s0, [Start]);
    TablesMean(store);
    NoneFed(before, store.turns, net, now, sent);
    if sent < |rows| { return; }
    FetchAt(s0, ms, store.Tables());
    ms := SnocMove(s0, ms, Fetch);
    var feedback := FeedbackBacklog(store.Tables(), |store.feedback|);
    var done;
    done, ms := ExportFeedback(store, net, feedback, sent, now, s0, ms);
    TablesMean(store);
    ok, fed := done == |feedback|, done;
    SomeFed(before, store.Tables(), net, now, sent, fed);
    AckedUpTo(net, sent, done);
  }

  lemma TablesMean(store: Store)
    ensures store.Tables() == Db(store.episodes, store.turns, store.feedback, store.sent)
  {}

  lemma NoneFed(before: Db, turns: seq<Turn>, net: nat -> Reply, now: int, sent: nat)
    requires sent <= |Backlog(before.turns)| && turns == MarkedRowsOf(before.turns, Backlog(before.turns), net, sent)
    ensures PassDone(before, before.(turns := turns), net, now, sent, 0)
    ensures sent < |Backlog(before.turns)| ==> MoreToSend(before, before.(turns := turns), sent, 0)
  {
    hide Backlog, FeedbackBacklog, MarkedRowsOf;
  }

  lemma SomeFed(before: Db, after: Db, net: nat -> Reply, now: int, sent: nat, fed: nat)
    requires sent == |Backlog(before.turns)|
    requires after.turns == MarkedRowsOf(before.turns, Backlog(before.turns), net, sent)
    requires var d := before.(turns := after.turns); var rows := FeedbackBacklog(d, |d.feedback|);
             fed <= |rows| && after == d.(sent := MarkedSent(before.sent, rows, fed, now))
    ensures PassDone(before, after, net, now, sent, fed)
    ensures var d := before.(turns := after.turns);
            MoreToSend(before, after, sent, fed) <==> fed < |FeedbackBacklog(d, |d.feedback|)|
  {
    hide Backlog, FeedbackBacklog, MarkedRowsOf, MarkedSent;
  }

  lemma AckedUpTo(net: nat -> Reply, n: nat, m: nat)
    requires AllAcked(net, 0, n) && AllAcked(net, n, n + m)
    ensures AllAcked(net, 0, n + m)
  {}

  lemma {:induction false} StartAt(s0: Sys)
    requires SysInv(s0) && s0.worker.Idle?
    ensures At(s0, [Start], s0.db, Turns(Backlog(s0.db.turns), None)) && StillQueued(s0.db.turns, Backlog(s0.db.turns))
  {
    BacklogExact(s0.db.turns);
    assert [Start][..0] == [];
    assert Moves(s0, []) == s0;
    NextKeeps(s0, Start);
    hide SysInv, Backlog;
  }

  lemma {:induction false} AtTables(s0: Sys, ms: seq<Move>, db: Db, w: Worker)
    requires At(s0, ms, db, w)
    ensures Moves(s0, ms).db == db
  {}

  lemma {:induction false} NoneLeft(fs: seq<Feedback>, sent: map<string, int>, rows: seq<Pending>)
    requires Covered(fs, sent, rows) && rows == []
    ensures forall f :: f in fs ==> f.id in sent
  {}

  ghost method SnocMove(s0: Sys, ms: seq<Move>, m: Move) returns (r: seq<Move>)
    ensures r == ms + [m] && Moves(s0, r) == Next(Moves(s0, ms), m) && r[..|r| - 1] == ms
  {
    r := ms + [m];
    assert r[..|r| - 1] == ms;
  }

  lemma {:induction false} SendStops(s0: Sys, ms: seq<Move>, db: Db, w: Worker, reply: Reply)
    requires At(s0, ms, db, w) && !reply.Ack?
    ensures Next(Moves(s0, ms), Send(reply)).db == db
  {
    hide SysInv, Moves;
  }

  /** An acknowledged send and its mark take the head turn off the queue. */
  lemma {:induction false} SendMarkTurn(s0: Sys, ms: seq<Move>, db: Db, rows: seq<Turn>, link: Link, at: int,
                                        ms': seq<Move>)
    requires At(s0, ms, db, Turns(rows, None)) && rows != [] && StillQueued(db.turns, rows)
    requires Moves(s0, ms') == Next(Next(Moves(s0, ms), Send(Ack(link))), Mark(at))
    ensures var d := db.(turns := Linked(db.turns, rows[0].id, link));
            At(s0, ms', d, Turns(rows[1..], None)) && StillQueued(d.turns, rows[1..])
  {
    hide Moves, Inv, PrefixOk, Agree, Ordered, QueueOk, StillQueued, RowsOk;
    var s := Moves(s0, ms);
    NextKeeps(s, Send(Ack(link)));
    NextKeeps(Next(s, Send(Ack(link))), Mark(at));
    assert QueueOk(db.turns, rows);
    assert RowsOk(db.turns, db.episodes) by { InvRows(db); }
    hide SysInv, WorkerOk;
    MarkDequeues(db, rows, link);
  }

  lemma {:induction false} InvRows(db: Db)
    requires Inv(db)
    ensures RowsOk(db.turns, db.episodes) && FeedbackOk(db.feedback, db.turns)
  {}

  /** An acknowledged send and its mark take the head feedback off the queue. */
  lemma {:induction false} SendMarkFeedback(s0: Sys, ms: seq<Move>, db: Db, rows: seq<Pending>, link: Link, at: int,
                                            ms': seq<Move>)
    requires At(s0, ms, db, Feedbacks(rows, false)) && rows != [] && Covered(db.feedback, db.sent, rows)
    requires Moves(s0, ms') == Next(Next(Moves(s0, ms), Send(Ack(link))), Mark(at))
    ensures var d := db.(sent := db.sent[rows[0].f.id := at]);
            At(s0, ms', d, Feedbacks(rows[1..], false)) && Covered(d.feedback, d.sent, rows[1..])
  {
    hide Moves, Inv, PrefixOk, Agree, Ordered, Covered, RowsOk, FeedbackOk, FindFeedback;
    var s := Moves(s0, ms);
    NextKeeps(s, Send(Ack(link)));
    NextKeeps(Next(s, Send(Ack(link))), Mark(at));
    assert FeedbackQueueOk(db, rows) && rows[0].f in db.feedback && rows[0].f.id !in db.sent && rows[0].turn.link.Some?;
    assert FeedbackOk(db.feedback, db.turns) by { InvRows(db); }
    hide SysInv, WorkerOk, FeedbackQueueOk;
    FindFeedbackAt(db.feedback, rows[0].f.id);
    MarkUncovers(db, rows, at);
  }

  /** Nothing left in the turn queue means that every turn is exported, and a fetch then queues all unexported
      feedback. */
  lemma {:induction false} FetchAt(s0: Sys, ms: seq<Move>, db: Db)
    requires At(s0, ms, db, Turns([], None)) && StillQueued(db.turns, [])
    ensures var rows := FeedbackBacklog(db, |db.feedback|);
            && At(s0, ms + [Fetch], db, Feedbacks(rows, false))
            && Covered(db.feedback, db.sent, rows) && forall t :: t in db.turns ==> t.link.Some?
  {
    hide *;
    FetchMoves(s0, ms, db);
    FetchAll(s0, ms, db);
  }

  lemma {:induction false} FetchMoves(s0: Sys, ms: seq<Move>, db: Db)
    requires At(s0, ms, db, Turns([], None))
    ensures At(s0, ms + [Fetch], db, Feedbacks(FeedbackBacklog(db, |db.feedback|), false))
  {
    hide SysInv, FeedbackBacklog, Moves, NextSend, NextMark, Apply, Backlog;
    MovesSnoc(s0, ms, Fetch);
    NextKeeps(Moves(s0, ms), Fetch);
  }

  lemma MovesSnoc(s0: Sys, ms: seq<Move>, m: Move)
    ensures Moves(s0, ms + [m]) == Next(Moves(s0, ms), m)
  {
    hide Next;
    assert (ms + [m])[..|ms|] == ms;
  }

  lemma {:induction false} FetchAll(s0: Sys, ms: seq<Move>, db: Db)
    requires At(s0, ms, db, Turns([], None)) && StillQueued(db.turns, [])
    ensures Covered(db.feedback, db.sent, FeedbackBacklog(db, |db.feedback|))
    ensures forall t :: t in db.turns ==> t.link.Some?
  {
    assert Inv(db);
    hide At, Moves, Covered, FeedbackBacklog, Inv, FeedbackOk, RowsOk;
    InvRows(db);
    forall t | t in db.turns ensures t.link.Some? {}
    FetchCovers(db, |db.feedback|);
    assert db.feedback[..|db.feedback|] == db.feedback;
  }
}
