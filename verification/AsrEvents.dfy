/** The streaming speech event protocol. */
module AsrEvents {
  import opened Wrappers

  datatype Kind = Partial | Stable | Final

  datatype Event = Event(kind: Kind, text: string, segment: int, revision: int)

  // ---------- text ----------

  /** The characters at which `str.split()` without an argument cuts. */
  predicate IsSpace(c: char) {
    var n := c as int;
    || 0x09 <= n <= 0x0d || 0x1c <= n <= 0x20 || n == 0x85 || n == 0xa0 || n == 0x1680 || 0x2000 <= n <= 0x200a
    || n == 0x2028 || n == 0x2029 || n == 0x202f || n == 0x205f || n == 0x3000
  }

  function WordLength(s: string): (n: nat)
    ensures n <= |s|
    ensures s != "" && !IsSpace(s[0]) ==> n > 0
  {
    if s == "" || IsSpace(s[0]) then 0 else 1 + WordLength(s[1..])
  }

  /** `s.split()`. */
  function Words(s: string): seq<string>
    decreases |s|
  {
    if s == "" then []
    else if IsSpace(s[0]) then Words(s[1..])
    else [s[..WordLength(s)]] + Words(s[WordLength(s)..])
  }

  /** `" ".join(words)`. */
  function Join(ws: seq<string>): string {
    if ws == [] then "" else if |ws| == 1 then ws[0] else ws[0] + " " + Join(ws[1..])
  }

  /** A missing text counts as empty. */
  function Normalize(text: Option<string>): string {
    match text
    case None => ""
    case Some(s) => Join(Words(s))
  }

  ghost predicate IsWord(w: string) {
    w != "" && forall i :: 0 <= i < |w| ==> !IsSpace(w[i])
  }

  lemma {:induction false} WordPrefix(w: string, rest: string)
    requires forall i :: 0 <= i < |w| ==> !IsSpace(w[i])
    requires rest == "" || IsSpace(rest[0])
    ensures WordLength(w + rest) == |w|
  {
    if w == "" { assert w + rest == rest; }
    else {
      WordPrefix(w[1..], rest);
      assert (w + rest)[1..] == w[1..] + rest;
    }
  }

  lemma {:induction false} WordsAreWords(s: string)
    ensures forall w :: w in Words(s) ==> IsWord(w)
    decreases |s|
  {
    if s != "" && IsSpace(s[0]) { WordsAreWords(s[1..]); }
    else if s != "" {
      WordsAreWords(s[WordLength(s)..]);
      WordHasNoSpace(s);
    }
  }

  lemma {:induction false} WordHasNoSpace(s: string)
    ensures forall i :: 0 <= i < WordLength(s) ==> !IsSpace(s[i])
  {
    if s != "" && !IsSpace(s[0]) {
      WordHasNoSpace(s[1..]);
      forall i | 0 <= i < WordLength(s) ensures !IsSpace(s[i]) { if i > 0 { assert s[i] == s[1..][i - 1]; } }
    }
  }

  lemma {:induction false} WordsOfJoin(ws: seq<string>)
    requires forall w :: w in ws ==> IsWord(w)
    ensures Words(Join(ws)) == ws
  {
    if ws != [] {
      assert IsWord(ws[0]);
      var w, s, rest := ws[0], Join(ws), if |ws| == 1 then "" else " " + Join(ws[1..]);
      assert s == w + rest && s[0] == w[0];
      WordPrefix(w, rest);
      assert s[..|w|] == w && s[|w|..] == rest;
      if |ws| > 1 {
        WordsOfJoin(ws[1..]);
        assert rest[1..] == Join(ws[1..]);
        assert Words(rest) == ws[1..];
      }
      assert Words(s) == [w] + Words(rest);
    }
  }

  /** Normalised text is its own normal form, so what the emitter stores always passes the text check again. */
  lemma NormalizeIdempotent(text: Option<string>)
    ensures Normalize(Some(Normalize(text))) == Normalize(text)
  {
    if text.Some? {
      WordsAreWords(text.value);
      WordsOfJoin(Words(text.value));
    }
  }

  /** `validate_asr_event` accepts the event. */
  predicate Valid(e: Event) {
    Normalize(Some(e.text)) != "" && e.segment >= 1 && e.revision >= 1
  }

  // ---------- the emitter as functions of its state ----------

  datatype State = State(segment: int, revision: int, last: string, same: int, stable: Option<string>)

  const START := State(1, 0, "", 0, None)

  function Revise(s: State, text: string): State {
    s.(revision := s.revision + 1, last := text, same := 1, stable := None)
  }

  function NextSegment(s: State): State {
    State(s.segment + 1, 0, "", 0, None)
  }

  function Observed(s: State, repeats: int, raw: Option<string>): (State, seq<Event>) {
    var text := Normalize(raw);
    if text == "" then (s, [])
    else if text != s.last then (Revise(s, text), [Event(Partial, text, s.segment, s.revision + 1)])
    else
      var t := s.(same := s.same + 1);
      if t.same >= repeats && t.stable != Some(text)
      then (t.(stable := Some(text)), [Event(Stable, text, s.segment, s.revision)])
      else (t, [])
  }

  function Finalized(s: State, raw: Option<string>): (State, seq<Event>) {
    var text := if Normalize(raw) != "" then Normalize(raw) else s.last;
    if text == "" then (NextSegment(s), [])
    else
      var t := if text != s.last then Revise(s, text) else s;
      (NextSegment(s), [Event(Final, text, t.segment, t.revision)])
  }

  // ---------- whole runs ----------

  datatype Call = Observe(text: Option<string>) | Finalize(text: Option<string>)

  datatype Run = Run(state: State, events: seq<Event>)

  function Step(r: Run, repeats: int, c: Call): Run {
    var (s, es) := if c.Observe? then Observed(r.state, repeats, c.text) else Finalized(r.state, c.text);
    Run(s, r.events + es)
  }

  function Replay(repeats: int, calls: seq<Call>): Run {
    if calls == [] then Run(START, []) else Step(Replay(repeats, calls[..|calls| - 1]), repeats, calls[|calls| - 1])
  }

  function Rank(k: Kind): int {
    match k case Partial => 0 case Stable => 1 case Final => 2
  }

  /** Strict order by segment, revision and then partial, stable, final. */
  predicate Before(a: Event, b: Event) {
    || a.segment < b.segment
    || (a.segment == b.segment && a.revision < b.revision)
    || (a.segment == b.segment && a.revision == b.revision && Rank(a.kind) < Rank(b.kind))
  }

  ghost predicate Increasing(es: seq<Event>) {
    forall i, j :: 0 <= i < j < |es| ==> Before(es[i], es[j])
  }

  /** Every revision after the first follows an event of the previous revision of its segment. */
  ghost predicate Gapless(es: seq<Event>) {
    forall j :: 0 <= j < |es| && es[j].revision > 1 ==> Reached(es, j, es[j].segment, es[j].revision - 1)
  }

  /** Some event before position `j` carries this revision of this segment. */
  ghost predicate Reached(es: seq<Event>, j: int, segment: int, revision: int)
    requires j <= |es|
  {
    exists i :: 0 <= i < j && es[i].segment == segment && es[i].revision == revision
  }

  ghost predicate SameText(es: seq<Event>) {
    forall i, j :: 0 <= i < |es| && 0 <= j < |es| && es[i].segment == es[j].segment && es[i].revision == es[j].revision
      ==> es[i].text == es[j].text
  }

  /** How the emitter's fields summarise everything emitted so far. */
  ghost predicate StateOk(s: State, es: seq<Event>) {
    && s.segment >= 1 && s.revision >= 0 && (s.last == "" <==> s.revision == 0) && Normalize(Some(s.last)) == s.last
    && (s.stable.Some? ==> s.stable == Some(s.last)) && (s.last == "" ==> s.stable.None?)
    && (forall e :: e in es
         ==> e.segment < s.segment || (e.segment == s.segment && e.revision <= s.revision && !e.kind.Final?))
    && (forall e :: e in es && e.segment == s.segment && e.revision == s.revision
         ==> e.text == s.last && (e.kind.Stable? ==> s.stable.Some?))
    && (s.revision > 0 ==> exists e :: e in es && e.segment == s.segment && e.revision == s.revision)
  }

  /** A final event closes its segment, and only the current segment can lack one. */
  ghost predicate Closed(s: State, es: seq<Event>) {
    && (forall i, j :: 0 <= i < j < |es| && es[i].kind.Final? ==> es[j].segment > es[i].segment)
    && (forall e :: e in es && e.segment < s.segment ==> HasFinal(es, e.segment))
  }

  ghost predicate HasFinal(es: seq<Event>, segment: int) {
    exists f :: f in es && f.kind.Final? && f.segment == segment
  }

  ghost predicate RunOk(r: Run) {
    && Increasing(r.events) && Gapless(r.events) && SameText(r.events) && StateOk(r.state, r.events)
         && Closed(r.state, r.events)
    && forall e :: e in r.events ==> Valid(e)
  }

  /** The event may be appended in this state: it opens the next revision or outranks what its revision has emitted. */
  ghost predicate Fits(s: State, es: seq<Event>, e: Event) {
    && e.segment == s.segment && e.text != "" && Normalize(Some(e.text)) == e.text
    && (|| e.revision == s.revision + 1
        || (e.revision == s.revision > 0 && e.text == s.last && !e.kind.Partial?
            && (e.kind.Stable? ==> s.stable.None?)))
  }

  lemma AppendKeepsOrder(s: State, es: seq<Event>, e: Event)
    requires Increasing(es) && StateOk(s, es) && Fits(s, es, e)
    ensures Increasing(es + [e])
  {
    hide Normalize;
    forall i | 0 <= i < |es| ensures Before(es[i], e) { assert es[i] in es; }
  }

  lemma ReachedGrows(es: seq<Event>, e: Event, j: int, segment: int, revision: int)
    requires 0 <= j <= |es| && Reached(es, j, segment, revision)
    ensures Reached(es + [e], j, segment, revision) && Reached(es + [e], |es|, segment, revision)
  {
    var i :| 0 <= i < j && es[i].segment == segment && es[i].revision == revision;
    assert (es + [e])[i] == es[i];
  }

  /** The previous revision has been emitted before an event that fits. */
  lemma PreviousReached(s: State, es: seq<Event>, e: Event)
    requires Gapless(es) && StateOk(s, es) && Fits(s, es, e) && e.revision > 1
    ensures Reached(es, |es|, e.segment, e.revision - 1)
  {
    hide Normalize;
    var f :| f in es && f.segment == s.segment && f.revision == s.revision;
    var k :| 0 <= k < |es| && es[k] == f;
    if e.revision == s.revision {
      assert Reached(es, k, es[k].segment, es[k].revision - 1);
      var i :| 0 <= i < k && es[i].segment == es[k].segment && es[i].revision == es[k].revision - 1;
      assert es[i].revision == e.revision - 1;
    }
  }

  lemma AppendKeepsGapless(s: State, es: seq<Event>, e: Event)
    requires Gapless(es) && StateOk(s, es) && Fits(s, es, e)
    ensures Gapless(es + [e])
  {
    var r := es + [e];
    if e.revision > 1 { PreviousReached(s, es, e); }
    hide Reached, StateOk, Fits;
    forall j | 0 <= j < |r| && r[j].revision > 1 ensures Reached(r, j, r[j].segment, r[j].revision - 1) {
      if j < |es| {
        ReachedGrows(es, e, j, es[j].segment, es[j].revision - 1);
      } else {
        ReachedGrows(es, e, |es|, e.segment, e.revision - 1);
      }
    }
  }

  lemma AppendKeepsText(s: State, es: seq<Event>, e: Event)
    requires SameText(es) && StateOk(s, es) && Fits(s, es, e)
    ensures SameText(es + [e])
  {
    hide Normalize;
    forall i | 0 <= i < |es|
      ensures es[i].segment == e.segment && es[i].revision == e.revision ==> es[i].text == e.text
    {
      assert es[i] in es;
    }
  }

  lemma AppendKeepsClosed(s: State, es: seq<Event>, e: Event, next: State)
    requires Closed(s, es) && StateOk(s, es) && Fits(s, es, e)
    requires next.segment == (if e.kind.Final? then s.segment + 1 else s.segment)
    ensures Closed(next, es + [e])
  {
    hide Normalize;
    var r := es + [e];
    forall i, j | 0 <= i < j < |r| && r[i].kind.Final? ensures r[j].segment > r[i].segment { assert es[i] in es; }
    forall f | f in r && f.segment < next.segment ensures HasFinal(r, f.segment) {
      if f.segment < s.segment {
        var g :| g in es && g.kind.Final? && g.segment == f.segment;
        assert g in r;
      } else {
        assert e in r;
      }
    }
  }

  lemma {:induction false} AppendKeeps(r: Run, e: Event, next: State)
    requires RunOk(r) && Fits(r.state, r.events, e) && StateOk(next, r.events + [e])
    requires next.segment == (if e.kind.Final? then r.state.segment + 1 else r.state.segment)
    ensures RunOk(Run(next, r.events + [e]))
  {
    hide Normalize, Increasing, Gapless, SameText, Closed;
    AppendKeepsOrder(r.state, r.events, e);
    AppendKeepsGapless(r.state, r.events, e);
    AppendKeepsText(r.state, r.events, e);
    AppendKeepsClosed(r.state, r.events, e, next);
  }

  lemma {:induction false} ObserveKeeps(r: Run, repeats: int, raw: Option<string>)
    requires RunOk(r) && repeats >= 2
    ensures RunOk(Step(r, repeats, Call.Observe(raw)))
  {
    NormalizeIdempotent(raw);
    hide Normalize, Increasing, Gapless, SameText, Closed;
    var (s, es) := Observed(r.state, repeats, raw);
    if es == [] {
      assert r.events + es == r.events;
      assert RunOk(Run(s, r.events)) by { SameSegment(r, s); }
    } else {
      assert es == [es[0]];
      assert StateOk(s, r.events + [es[0]]);
      AppendKeeps(r, es[0], s);
    }
  }

  lemma SameSegment(r: Run, s: State)
    requires RunOk(r) && s.segment == r.state.segment && StateOk(s, r.events)
    ensures RunOk(Run(s, r.events))
  {}

  /** The state a finalisation leaves summarises the log, whether or not it emitted. */
  lemma FinalizedState(r: Run, raw: Option<string>)
    requires RunOk(r)
    ensures var (s, es) := Finalized(r.state, raw);
            && StateOk(s, r.events + es) && |es| <= 1
            && (es != [] ==> Fits(r.state, r.events, es[0]) && es[0].kind.Final?)
            && (es != [] ==> s.segment == r.state.segment + 1)
  {
    NormalizeIdempotent(raw);
    assert Normalize(Some("")) == "";
    hide Normalize, Increasing, Gapless, SameText, Closed;
    var (s, es) := Finalized(r.state, raw);
    assert es == [] ==> r.events + es == r.events;
    assert es != [] ==> es == [es[0]];
  }

  lemma {:induction false} FinalizeKeeps(r: Run, raw: Option<string>)
    requires RunOk(r)
    ensures RunOk(Step(r, 0, Call.Finalize(raw)))
  {
    var (s, es) := Finalized(r.state, raw);
    FinalizedState(r, raw);
    hide Normalize, Increasing, Gapless, SameText, Closed, StateOk, Fits, Finalized, Valid;
    if es == [] {
      assert r.events + es == r.events;
    } else {
      assert es == [es[0]];
      AppendKeeps(r, es[0], s);
    }
  }

  lemma {:induction false} StepKeeps(r: Run, repeats: int, c: Call)
    requires RunOk(r) && repeats >= 2
    ensures RunOk(Step(r, repeats, c))
  {
    hide RunOk, Observed, Finalized;
    match c
    case Observe(t) => ObserveKeeps(r, repeats, t);
    case Finalize(t) => FinalizeKeeps(r, t);
  }

  /** In every run of observe and finalize: events strictly increase, revisions have no gaps from 1, one revision
      has one text, every event passes validation, and a final event is the last of its segment. */
  lemma {:induction false} EveryRun(repeats: int, calls: seq<Call>)
    requires repeats >= 2
    ensures RunOk(Replay(repeats, calls))
  {
    if calls == [] {
      assert Normalize(Some("")) == "";
    } else {
      EveryRun(repeats, calls[..|calls| - 1]);
      StepKeeps(Replay(repeats, calls[..|calls| - 1]), repeats, calls[|calls| - 1]);
    }
  }

  // ---------- when a hypothesis counts as stable ----------

  /** The non-empty texts observed since the last finalisation. */
  function Recent(calls: seq<Call>): seq<string> {
    if calls == [] then []
    else
      var c := calls[|calls| - 1];
      if c.Finalize? then []
      else Recent(calls[..|calls| - 1]) + if Normalize(c.text) == "" then [] else [Normalize(c.text)]
  }

  /** How many equal texts end the list. */
  function TrailingRun(ts: seq<string>): nat {
    if ts == [] then 0
    else if |ts| > 1 && ts[|ts| - 1] == ts[|ts| - 2] then TrailingRun(ts[..|ts| - 1]) + 1
    else 1
  }

  ghost predicate Tracks(s: State, repeats: int, ts: seq<string>) {
    && (s.last == "" <==> ts == []) && (ts != [] ==> s.last == ts[|ts| - 1])
    && s.same == TrailingRun(ts) && (s.stable.Some? <==> TrailingRun(ts) >= repeats)
         && (s.stable.Some? ==> s.stable == Some(s.last))
  }

  lemma ObserveTracks(s: State, repeats: int, ts: seq<string>, raw: Option<string>)
    requires repeats >= 2 && Tracks(s, repeats, ts)
    ensures Tracks(Observed(s, repeats, raw).0, repeats, ts + if Normalize(raw) == "" then [] else [Normalize(raw)])
  {
    assert ts + [] == ts && TrailingRun([]) == 0;
    hide Normalize, TrailingRun;
  }

  lemma {:induction false} StateTracks(repeats: int, calls: seq<Call>)
    requires repeats >= 2
    ensures Tracks(Replay(repeats, calls).state, repeats, Recent(calls))
  {
    if calls == [] {
      assert TrailingRun([]) == 0;
    } else {
      var before, c := calls[..|calls| - 1], calls[|calls| - 1];
      StateTracks(repeats, before);
      if c.Observe? {
        ObserveTracks(Replay(repeats, before).state, repeats, Recent(before), c.text);
      } else {
      }
      hide Normalize, TrailingRun, Tracks, Observed, Finalized;
    }
  }

  /** A stable event is emitted exactly when a non-empty observation is the `repeats`-th equal one in a row since
      the last finalisation, empty ones aside; a partial event exactly when it is the first of its kind in a row. */
  lemma StableExactly(repeats: int, calls: seq<Call>, raw: Option<string>)
    requires repeats >= 2
    ensures var r := Replay(repeats, calls);
            var es, run := Observed(r.state, repeats, raw).1, TrailingRun(Recent(calls + [Observe(raw)]));
            && (|es| <= 1)
            && ((es != [] && es[0].kind.Stable?) <==> (Normalize(raw) != "" && run == repeats))
            && ((es != [] && es[0].kind.Partial?) <==> (Normalize(raw) != "" && run == 1))
  {
    StateTracks(repeats, calls);
    assert (calls + [Observe(raw)])[..|calls|] == calls;
    hide Normalize, TrailingRun;
  }

  // ---------- what every event says ----------

  /** How often the text changes along the list, its first text included. */
  function Changes(ts: seq<string>): nat {
    if ts == [] then 0
    else Changes(ts[..|ts| - 1]) + if |ts| > 1 && ts[|ts| - 1] == ts[|ts| - 2] then 0 else 1
  }

  function Finalizations(calls: seq<Call>): nat {
    if calls == [] then 0
    else Finalizations(calls[..|calls| - 1]) + if calls[|calls| - 1].Finalize? then 1 else 0
  }

  function LastOf(ts: seq<string>): string {
    if ts == [] then "" else ts[|ts| - 1]
  }

  ghost predicate Counts(s: State, calls: seq<Call>) {
    && s.segment == 1 + Finalizations(calls) && s.revision == Changes(Recent(calls))
    && s.last == LastOf(Recent(calls)) && (s.last == "" <==> Recent(calls) == [])
  }

  lemma ChangesSnoc(ts: seq<string>, t: string)
    ensures Changes(ts + [t]) == Changes(ts) + if ts != [] && t == LastOf(ts) then 0 else 1
    ensures LastOf(ts + [t]) == t && Changes([]) == 0
  {
    assert (ts + [t])[..|ts|] == ts;
  }

  lemma RecentSnoc(calls: seq<Call>, c: Call)
    ensures Recent(calls + [c])
         == if c.Finalize? then [] else if Normalize(c.text) == "" then Recent(calls)
            else Recent(calls) + [Normalize(c.text)]
    ensures Finalizations(calls + [c]) == Finalizations(calls) + if c.Finalize? then 1 else 0
  {
    assert (calls + [c])[..|calls|] == calls;
    assert Recent(calls) + [] == Recent(calls);
  }

  /** The emitter's counters, read off the calls: segments count finalisations, revisions the changes of text among the
      recent observations. */
  lemma {:induction false} StateCounts(repeats: int, calls: seq<Call>)
    ensures Counts(Replay(repeats, calls).state, calls)
  {
    hide *;
    if calls == [] {
      CountsAtStart(repeats, calls);
    } else {
      var n := |calls| - 1;
      StateCounts(repeats, calls[..n]);
      assert calls == calls[..n] + [calls[n]];
      ReplaySnoc(repeats, calls[..n], calls[n]);
      CountsNext(Replay(repeats, calls[..n]), repeats, calls[..n], calls[n]);
    }
  }

  lemma CountsAtStart(repeats: int, calls: seq<Call>)
    requires calls == []
    ensures Counts(Replay(repeats, calls).state, calls)
  {}

  lemma {:induction false} CountsNext(r: Run, repeats: int, calls: seq<Call>, c: Call)
    requires Counts(r.state, calls)
    ensures Counts(Step(r, repeats, c).state, calls + [c])
  {
    hide Normalize, Changes, Recent, Finalizations;
    RecentSnoc(calls, c);
    ChangesSnoc(Recent(calls), Normalize(c.text));
  }

  /** Every observation, in every run: an empty text emits nothing; otherwise the event carries that text, the current
      segment and the number of changes of text in it, partial for the first of its kind in a row and stable for the
      `repeats`-th. */
  lemma {:induction false} ObserveSays(repeats: int, calls: seq<Call>, raw: Option<string>)
    requires repeats >= 2
    ensures var text, ts := Normalize(raw), Recent(calls + [Observe(raw)]);
            var segment, run := 1 + Finalizations(calls), TrailingRun(ts);
            Replay(repeats, calls + [Observe(raw)]).events == Replay(repeats, calls).events
                + if text != "" && run == 1 then [Event(Partial, text, segment, Changes(ts))]
                  else if text != "" && run == repeats then [Event(Stable, text, segment, Changes(ts))]
                  else []
  {
    hide *;
    ReplaySnoc(repeats, calls, Observe(raw));
    StableExactly(repeats, calls, raw);
    StateCounts(repeats, calls);
    ObservedSays(Replay(repeats, calls), repeats, calls, raw);
  }

  /** Whatever event the observation emits says what was observed. */
  lemma {:induction false} ObservedSays(r: Run, repeats: int, calls: seq<Call>, raw: Option<string>)
    requires Counts(r.state, calls)
    ensures var es := Observed(r.state, repeats, raw).1;
            && Step(r, repeats, Observe(raw)).events == r.events + es && |es| <= 1
            && (es != [] ==> es == [Event(es[0].kind, Normalize(raw), 1 + Finalizations(calls),
                                          Changes(Recent(calls + [Observe(raw)])))] && !es[0].kind.Final?)
  {
    hide Normalize, Changes, Recent, Finalizations;
    RecentSnoc(calls, Observe(raw));
    ChangesSnoc(Recent(calls), Normalize(raw));
  }

  /** Every finalisation, in every run: it emits exactly when its text or something observed since the last finalisation
      is non-empty; the final event carries its own text if it has one, else the last observed one, in the current
      segment, as a new revision exactly when that text was not the last observed one. */
  lemma {:induction false} FinalizeSays(repeats: int, calls: seq<Call>, raw: Option<string>)
    ensures var text, ts := Normalize(raw), Recent(calls);
            var said := if text != "" then text else LastOf(ts);
            var before, after := Replay(repeats, calls).events, Replay(repeats, calls + [Finalize(raw)]).events;
            && (text == "" && ts == [] ==> after == before)
            && (text != "" || ts != [] ==> after == before + [Event(Final, said, 1 + Finalizations(calls),
                  Changes(ts) + if ts != [] && said == LastOf(ts) then 0 else 1)])
  {
    hide Replay, Normalize, Changes, Recent, Finalizations;
    ReplaySnoc(repeats, calls, Finalize(raw));
    StateCounts(repeats, calls);
  }

  // ---------- the emitter object ----------

  class HypothesisEmitter {
    const repeats: int
    var segment: int
    var revision: int
    var lastText: string
    var sameCount: int
    var stableText: Option<string>

    function Current(): State
      reads this
    {
      State(segment, revision, lastText, sameCount, stableText)
    }

    constructor (repeats: int)
      requires repeats >= 2
      ensures Current() == START && this.repeats == repeats
    {
      this.repeats := repeats;
      segment, revision, lastText, sameCount, stableText := 1, 0, "", 0, None;
    }

    method ResetSegment()
      modifies this
      ensures Current() == NextSegment(old(Current()))
    {
      segment, revision, lastText, sameCount, stableText := segment + 1, 0, "", 0, None;
    }

    method Observe(raw: Option<string>) returns (out: seq<Event>)
      modifies this
      ensures (Current(), out) == Observed(old(Current()), repeats, raw)
    {
      var text := Normalize(raw);
      if text == "" { return []; }
      if text != lastText {
        revision := revision + 1;
        lastText, sameCount, stableText := text, 1, None;
        return [Event(Partial, text, segment, revision)];
      }
      sameCount := sameCount + 1;
      if sameCount >= repeats && stableText != Some(text) {
        stableText := Some(text);
        return [Event(Stable, text, segment, revision)];
      }
      return [];
    }

    method Finalize(raw: Option<string>) returns (out: seq<Event>)
      modifies this
      ensures (Current(), out) == Finalized(old(Current()), raw)
    {
      var text := Normalize(raw);
      if text == "" { text := lastText; }
      if text == "" {
        ResetSegment();
        return [];
      }
      if text != lastText {
        revision := revision + 1;
        lastText, sameCount, stableText := text, 1, None;
      }
      out := [Event(Final, text, segment, revision)];
      ResetSegment();
    }
  }

  // ---------- the decode loop ----------

  /** What the recognizer reports after one audio chunk. */
  datatype Chunk = Chunk(text: string, endpoint: bool)

  datatype Decoded = BadRepeats | NoAudio | Emitted(events: seq<Event>)

  /** `text or last_text` carried across chunks, cleared at an endpoint. */
  function LastText(chunks: seq<Chunk>): string {
    if chunks == [] then ""
    else
      var c := chunks[|chunks| - 1];
      if c.endpoint then "" else if c.text != "" then c.text else LastText(chunks[..|chunks| - 1])
  }

  /** The emitter calls the loop makes for its chunks. */
  function ChunkCalls(chunks: seq<Chunk>): seq<Call> {
    if chunks == [] then []
    else
      var c := chunks[|chunks| - 1];
      ChunkCalls(chunks[..|chunks| - 1]) + [Call.Observe(Some(c.text))] + if c.endpoint
          then [Call.Finalize(Some(c.text))] else []
  }

  function TailText(chunks: seq<Chunk>, tail: string): string {
    if tail != "" then tail else LastText(chunks)
  }

  /** All emitter calls of one decode. */
  function DecodeCalls(chunks: seq<Chunk>, tail: string): seq<Call> {
    ChunkCalls(chunks) + [Call.Observe(Some(TailText(chunks, tail)))] + [Call.Finalize(Some(TailText(chunks, tail)))]
  }

  /** The calls and the carried text after one more chunk. */
  lemma NextChunk(repeats: int, chunks: seq<Chunk>, i: nat)
    requires i < |chunks|
    ensures var c, before := chunks[i], Replay(repeats, ChunkCalls(chunks[..i]));
            var observed := Step(before, repeats, Call.Observe(Some(c.text)));
            && Replay(repeats, ChunkCalls(chunks[..i + 1]))
                 == (if c.endpoint then Step(observed, repeats, Call.Finalize(Some(c.text))) else observed)
            && LastText(chunks[..i + 1]) == if c.endpoint then "" else if c.text != "" then c.text
                 else LastText(chunks[..i])
  {
    hide Step;
    var c, calls := chunks[i], ChunkCalls(chunks[..i]);
    assert chunks[..i + 1][..i] == chunks[..i] && chunks[..i + 1][i] == c;
    ReplaySnoc(repeats, calls, Call.Observe(Some(c.text)));
    ReplaySnoc(repeats, calls + [Call.Observe(Some(c.text))], Call.Finalize(Some(c.text)));
    hide Replay;
    assert ChunkCalls(chunks[..i + 1]) == calls + [Call.Observe(Some(c.text))] + if c.endpoint
        then [Call.Finalize(Some(c.text))] else [];
    assert !c.endpoint ==> ChunkCalls(chunks[..i + 1]) == calls + [Call.Observe(Some(c.text))];
  }

  lemma ReplaySnoc(repeats: int, calls: seq<Call>, c: Call)
    ensures Replay(repeats, calls + [c]) == Step(Replay(repeats, calls), repeats, c)
  {
    hide Step;
    assert (calls + [c])[..|calls|] == calls;
  }

  lemma NoChunks(repeats: int, chunks: seq<Chunk>)
    requires chunks == []
    ensures Replay(repeats, ChunkCalls(chunks)) == Run(START, []) && LastText(chunks) == ""
  {}

  lemma AllChunks(repeats: int, chunks: seq<Chunk>, tail: string)
    ensures Replay(repeats, DecodeCalls(chunks, tail))
         == Step(Step(Replay(repeats, ChunkCalls(chunks)), repeats, Call.Observe(Some(TailText(chunks, tail)))),
             repeats, Call.Finalize(Some(TailText(chunks, tail))))
  {
    var calls, text := ChunkCalls(chunks), TailText(chunks, tail);
    hide Step, TailText, ChunkCalls;
    ReplaySnoc(repeats, calls, Call.Observe(Some(text)));
    ReplaySnoc(repeats, calls + [Call.Observe(Some(text))], Call.Finalize(Some(text)));
  }

  method Decode(repeats: int, chunks: seq<Chunk>, tail: string) returns (d: Decoded)
    ensures d == if repeats < 2 then BadRepeats else if chunks == [] then NoAudio
                 else Emitted(Replay(repeats, DecodeCalls(chunks, tail)).events)
  {
    if repeats < 2 { return BadRepeats; }
    NoChunks(repeats, chunks[..0]);
    AllChunks(repeats, chunks, tail);
    hide Observed, Finalized, Replay, ChunkCalls, LastText, DecodeCalls;
    var emitter := new HypothesisEmitter(repeats);
    var events, lastText, heard := [], "", false;
    for i := 0 to |chunks|
      invariant emitter.repeats == repeats && fresh(emitter)
      invariant heard <==> i > 0
      invariant lastText == LastText(chunks[..i])
      invariant Run(emitter.Current(), events) == Replay(repeats, ChunkCalls(chunks[..i]))
    {
      NextChunk(repeats, chunks, i);
      var text := chunks[i].text;
      heard := true;
      lastText := if text != "" then text else lastText;
      var es := emitter.Observe(Some(text));
      events := events + es;
      if chunks[i].endpoint {
        es := emitter.Finalize(Some(text));
        events := events + es;
        lastText := "";
      }
    }
    assert chunks[..|chunks|] == chunks;
    if !heard { return NoAudio; }
    var text := if tail != "" then tail else lastText;
    var es := emitter.Observe(Some(text));
    events := events + es;
    es := emitter.Finalize(Some(text));
    return Emitted(events + es);
  }

  /** The text carried across chunks is that of the last chunk with a text, if no endpoint came with it or since. */
  lemma {:induction false} CarriedText(chunks: seq<Chunk>)
    ensures LastText(chunks) != ""
        ==> exists i :: 0 <= i < |chunks| && Carries(chunks, i) && chunks[i].text == LastText(chunks)
    ensures LastText(chunks) == "" ==> forall i :: 0 <= i < |chunks| ==> !Carries(chunks, i)
  {
    if chunks != [] {
      var n := |chunks| - 1;
      var before := chunks[..n];
      CarriedText(before);
      if !chunks[n].endpoint && chunks[n].text != "" {
        assert Carries(chunks, n);
      } else if !chunks[n].endpoint && LastText(before) != "" {
        var i :| 0 <= i < n && Carries(before, i) && before[i].text == LastText(before);
        assert Carries(chunks, i);
      }
      forall i | 0 <= i < n && Carries(chunks, i) ensures Carries(before, i) {}
    }
  }

  ghost predicate Carries(chunks: seq<Chunk>, i: nat)
    requires i < |chunks|
  {
    && chunks[i].text != "" && !chunks[i].endpoint
    && forall j :: i < j < |chunks| ==> chunks[j].text == "" && !chunks[j].endpoint
  }

  function Endpoints(chunks: seq<Chunk>): nat {
    if chunks == [] then 0
    else Endpoints(chunks[..|chunks| - 1]) + if chunks[|chunks| - 1].endpoint then 1 else 0
  }

  /** Every endpoint finalises one segment. */
  lemma {:induction false} SegmentsOfChunks(chunks: seq<Chunk>)
    ensures Finalizations(ChunkCalls(chunks)) == Endpoints(chunks)
  {
    if chunks != [] {
      var n := |chunks| - 1;
      var c, calls := chunks[n], ChunkCalls(chunks[..n]);
      SegmentsOfChunks(chunks[..n]);
      RecentSnoc(calls, Call.Observe(Some(c.text)));
      RecentSnoc(calls + [Call.Observe(Some(c.text))], Call.Finalize(Some(c.text)));
      assert calls + [Call.Observe(Some(c.text))] + [] == calls + [Call.Observe(Some(c.text))];
      hide Finalizations, Recent, Normalize;
    }
  }

  /** A chunk with a text and an endpoint ends its segment with a final event for exactly that text, and so does the
      end of the audio for the tail or the carried text. */
  lemma {:induction false} EndpointSays(repeats: int, chunks: seq<Chunk>, tail: string)
    ensures chunks != [] && chunks[|chunks| - 1].endpoint && Normalize(Some(chunks[|chunks| - 1].text)) != ""
        ==> EndsSaying(Replay(repeats, ChunkCalls(chunks)).events, Normalize(Some(chunks[|chunks| - 1].text)),
                       Endpoints(chunks))
    ensures Normalize(Some(TailText(chunks, tail))) != ""
        ==> EndsSaying(Replay(repeats, DecodeCalls(chunks, tail)).events, Normalize(Some(TailText(chunks, tail))),
                       1 + Endpoints(chunks))
  {
    hide *;
    SegmentsOfChunks(chunks);
    CallsObserve(ChunkCalls(chunks), TailText(chunks, tail));
    SaysAtEnd(repeats, ChunkCalls(chunks) + [Call.Observe(Some(TailText(chunks, tail)))], TailText(chunks, tail));
    DecodeEnds(chunks, tail);
    if chunks != [] && chunks[|chunks| - 1].endpoint {
      var calls, text := ChunkCalls(chunks[..|chunks| - 1]), chunks[|chunks| - 1].text;
      SegmentsOfChunks(chunks[..|chunks| - 1]);
      EndpointCalls(chunks);
      CallsObserve(calls, text);
      SaysAtEnd(repeats, calls + [Call.Observe(Some(text))], text);
    }
  }

  lemma CallsObserve(calls: seq<Call>, text: string)
    ensures Finalizations(calls + [Call.Observe(Some(text))]) == Finalizations(calls)
  {
    RecentSnoc(calls, Call.Observe(Some(text)));
  }

  lemma DecodeEnds(chunks: seq<Chunk>, tail: string)
    ensures DecodeCalls(chunks, tail) == ChunkCalls(chunks) + [Call.Observe(Some(TailText(chunks, tail)))]
        + [Call.Finalize(Some(TailText(chunks, tail)))]
  {}

  lemma EndpointCalls(chunks: seq<Chunk>)
    requires chunks != [] && chunks[|chunks| - 1].endpoint
    ensures var text, before := chunks[|chunks| - 1].text, chunks[..|chunks| - 1];
            && ChunkCalls(chunks) == ChunkCalls(before) + [Call.Observe(Some(text))] + [Call.Finalize(Some(text))]
            && Endpoints(chunks) == Endpoints(before) + 1
  {}

  lemma SaysAtEnd(repeats: int, calls: seq<Call>, text: string)
    ensures Normalize(Some(text)) != ""
        ==> EndsSaying(Replay(repeats, calls + [Call.Finalize(Some(text))]).events, Normalize(Some(text)),
                       1 + Finalizations(calls))
  {
    hide Replay, Normalize, Finalizations, Recent, Changes;
    FinalizeSays(repeats, calls, Some(text));
  }

  /** The last event is final, for this text and segment. */
  ghost predicate EndsSaying(es: seq<Event>, text: string, segment: int) {
    es != [] && es[|es| - 1].kind.Final? && es[|es| - 1].text == text && es[|es| - 1].segment == segment
  }

  /** The output of a decode is a well-formed event stream that never ends on a partial or stable event; indeed every
      segment that emitted anything has a final event, which is its last. */
  lemma DecodeEndsFinal(repeats: int, chunks: seq<Chunk>, tail: string)
    requires repeats >= 2
    ensures var es := Replay(repeats, DecodeCalls(chunks, tail)).events;
            && (es != [] ==> es[|es| - 1].kind.Final?)
            && (forall e :: e in es ==> HasFinal(es, e.segment))
            && (forall i, j :: 0 <= i < j < |es| && es[i].kind.Final? ==> es[j].segment > es[i].segment)
  {
    var calls := ChunkCalls(chunks) + [Call.Observe(Some(TailText(chunks, tail)))];
    var last := Call.Finalize(Some(TailText(chunks, tail)));
    hide Normalize, Increasing, Gapless, SameText, StateOk, Closed, Valid, TailText, ChunkCalls, HasFinal;
    EveryRun(repeats, calls);
    hide Replay;
    StepKeeps(Replay(repeats, calls), repeats, last);
    hide RunOk, Step;
    AfterFinalize(Replay(repeats, calls), repeats, Some(TailText(chunks, tail)));
  }

  lemma FinalizeMovesOn(r: Run, repeats: int, raw: Option<string>)
    requires StateOk(r.state, r.events)
    ensures var n := Step(r, repeats, Call.Finalize(raw));
            n.state.segment == r.state.segment + 1 && forall e :: e in n.events ==> e.segment < n.state.segment
  {
    hide Normalize;
  }

  /** After a finalisation every segment with events is closed. */
  lemma AfterFinalize(r: Run, repeats: int, raw: Option<string>)
    requires RunOk(r) && RunOk(Step(r, repeats, Call.Finalize(raw)))
    ensures var es := Step(r, repeats, Call.Finalize(raw)).events;
            && (es != [] ==> es[|es| - 1].kind.Final?)
            && (forall e :: e in es ==> HasFinal(es, e.segment))
            && (forall i, j :: 0 <= i < j < |es| && es[i].kind.Final? ==> es[j].segment > es[i].segment)
  {
    FinalizeMovesOn(r, repeats, raw);
    hide Normalize, Increasing, Gapless, SameText, Valid, StateOk, Closed, HasFinal, Step;
  }
}
