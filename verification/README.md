# FlyThink: verified models of the deterministic layers

The repository wraps neural models for home dialogue in deterministic layers: an evidence log and its exporter,
dialogue state machines, a speech event protocol, training and evaluation algorithms, a benchmark generator with its
validator and target resolver, and a device planner. This project models those layers in Dafny and proves what they are
for. Network outputs, recognisers, the collector, clocks and random generators appear as arbitrary values, functions or
streams, so every statement holds for all of them. `dafny verify dfyconfig.toml` checks the whole project.

## What is proved

- **Evidence log** (`TrajectoryStore`, `TrajectoryViews`). The tables are fields of a class, `with self.db` is a
  transaction that rolls back. Every run of accepted, rejected and retried calls keeps each episode's steps at exactly
  1..n with chained states; evidence and outcomes never change; any accepted call repeated later changes nothing; a
  closed episode is frozen; and every answer, each rejection included, is characterised exactly. The exports, the review
  queue and training eligibility are derived from that invariant.
- **Exporter** (`PhoenixExport`). One worker against an adversarial collector, as a state machine whose moves are client
  calls, fetches, sends, marks and crashes. Marked means acknowledged, nothing marked is sent again, each episode's
  exported turns are a prefix of its log, feedback follows its turn, and anything acknowledged n times met
  n - 1 crashes between acknowledgement and mark. The imperative export pass is a run of that machine and, against a
  collector that acknowledges, drains the backlog.
- **Dialogue machines** (`DialogueDelta`, `InferenceSession`, `IntentCommit`). The bounded state and its deltas, the
  label row and its decoder, the reference resolver, the dialogue generator, the inference loop over the evidence log
  (whose records the store can never refuse, and where only a cue in the text clears or retracts), and the
  intent commit gate: which proposals it accepts, what each does, and that its change log replays to its tree.
- **Speech events** (`AsrEvents`). Every run of the emitter is strictly ordered, gapless and closed by finals, and what
  each call emits is read off the calls before it; the decode loop never ends on a speculative event.
- **Algorithms** (`Perceptron`, `InducedGraph`, `TopologyRewire`, `GraphTopology`, `ThresholdGate`, `RoundRobin`). A
  perceptron mistake bound, and every separable set of examples is learned by enough epochs of the decaying schedule,
  within the program's own 32 whenever a separator's squared norm is below 6.5 squared margins; induced-graph
  construction with its conservation laws; degree-preserving rewiring, which is also reversible; the optimal tie-safe
  threshold; a fair round-robin cap.
- **Benchmark** (`HomeState`, `BenchmarkGenerator`, `BenchmarkTrajectory`, `BenchmarkValues`, `TargetResolver`,
  `BenchmarkAdapter`). For every stream of draws each turn is determined by the turns before it and one draw, the gold
  labels explain the state change, the validator, characterised cell by cell, accepts, held-out combinations stay held
  out, and the target resolver reads each turn's context as the generator meant it; which of the generator's own texts
  it resolves to the gold targets, and which gold values the planner accepts, is stated exactly.
- **Targets to plans** (`TargetComposer`, `AuthorizedPlan`). Top-k composition into device keys, the registry, and the
  all-or-nothing planner; at the level of text, keys parse back exactly when the separator cannot arise in them.
- **No drift** (`MinimalDelta`). What the flattening oracle's acceptance means on trees, and which trees flatten alike.

`Sorting` holds the stable sort, text order and comprehensions the others share, `Wrappers` the optional value.

## Where the code and its documentation differ, or a natural promise needs a condition

- `review_queue` is documented as newest-first; the code returns the reverse of (episode id, step) order. The promise
  holds exactly when none of the last `limit` wanted turns recorded has an episode id exceeded by that of a wanted turn
  recorded before it (`TrajectoryViews.NewestFirstExactly`, for the whole export `ExportNewestFirstExactly`);
  `OlderTurnFirst` is a run of two recorded turns after which the older one is shown first.
- The delta encoding loses a nonzero value given beyond the targets: `DialogueDelta.RoundTrip` gives the exact condition
  and `SurplusValueLost` a failing input.
- The no-drift oracle sees leaves only and reads a missing leaf as null. Nothing outside the write-set changed exactly
  when it accepts, no null leaf vanished or appeared there, and no empty object did (`MinimalDelta.UntouchedExactly`);
  `NullRemovalUnnoticed` and `EmptyObjectVanishes` are the two failing inputs.
- Flattening forgets where a path was cut. Among trees with nonempty keys and no empty objects inside, another tree
  flattens alike exactly when the tree nests an object, or has a root key that reads as a key over a rest where that
  shorter key is no root key (`MinimalDelta.AmbiguousExactly`, literal input `DottedKeyCollides`); an empty key is never
  seen (`EmptyKeyUnseen`).
- With a duplicated edge the rewiring's auxiliary set can lose an edge (`TopologyRewire.DuplicateBreaksSet`): an accepted
  swap keeps it exact exactly when neither edge taken away stands at a third position (`SwapKeepsSetExactly`); built
  graphs have no duplicates (`GraphTopology.GraphPairsDistinct`). A swap is undone by the same draw exactly when it
  touched no self-loop.
- A device key does not always parse back (`TargetComposer.KeyParses` says when) and does not always identify its device:
  no other device has it exactly when no part holds `::`, the area does not end in a colon, the entity neither starts nor
  ends in one and the instance does not start with one (`TargetComposer.KeyIdentifiesExactly`). That is exactly when the
  registry never refuses or replaces a device because of another (`AuthorizedPlan.RefusalExactly`, `ListingExactly`);
  `TrailingColonCollides` is a failing input.

- The generator's relative turns step a value without a bound, while the planner accepts 16 to 30 degrees and up to 100
  percent. The planner accepts a labelled value exactly while the relative turns on the device since its last set value
  are no more than the range leaves steps (`BenchmarkValues.GoldAcceptedExactly`); `BrightnessDrifts` is a generated
  trajectory that labels a brightness of 110 in its fourth turn and 190 in its last.
- Named outright, a two-target turn is a question to the resolver unless its text has a plural marker, and a correction,
  whose text names the wrong room too, is a question or a set with the wrong target in it; every other text resolves to
  its gold target (`BenchmarkAdapter.SpokenTurns`, `EverySpokenTurn`). The generator labels all of them EXECUTE.

## Model

| member | source | states |
|---|---|---|
| TrajectoryStore.Store.constructor | scripts/trajectory_store.py:22-27 | a new store has four empty tables |
| TrajectoryStore.Store.Record | scripts/trajectory_store.py:32-63 | answers as `RecordAnswers` and `MalformedExactly` say and appends the turn or changes nothing; a rejection rolls everything back, so a rejected first turn leaves no episode |
| TrajectoryStore.Store.GiveFeedback | scripts/trajectory_store.py:65-81 | unsupported or conflicting feedback is rejected, an exact repeat is accepted without a write, otherwise one row is added |
| TrajectoryStore.Store.Finish | scripts/trajectory_store.py:83-90 | closes a known episode once; repeating the same outcome is accepted, another outcome is not |
| TrajectoryStore.MalformedExactly | scripts/trajectory_store.py:33-42 | whatever is stored, a malformed event is refused by the first check it fails: missing field, step, identifiers, runtime |
| TrajectoryStore.RecordAnswers | scripts/trajectory_store.py:44-63 | the answer to a well-formed event under the invariant, case by case: a known id by its stored evidence, a fresh one by its episode being unknown, closed or open, its step and its state |
| TrajectoryStore.RecordInEveryRun | scripts/trajectory_store.py:32-63 | over every run: accepted exactly when afterwards the id is stored with this evidence; accepted without a row exactly when it was stored before; a conflict exactly when the id is stored with other evidence; a new row is the event itself, last |
| TrajectoryStore.RecordOpens | scripts/trajectory_store.py:50-53 | an inserted turn opens its episode if it was unknown, and no other episode changes |
| TrajectoryStore.UnsupportedExactly | scripts/trajectory_store.py:65-71 | whatever is stored, unsupported kinds and sources, scores outside -1 to 1 and scored candidates are refused, and nothing else by these checks |
| TrajectoryStore.FeedbackInEveryRun | scripts/trajectory_store.py:74-81 | over every run, supported feedback is accepted exactly when afterwards its id is stored for its turn and statement; a conflict is exactly a known id with another turn or statement, and an unknown turn exactly a fresh id for a turn not stored |
| TrajectoryStore.FinishExactly | scripts/trajectory_store.py:83-90 | a conflict exactly when a known closed episode has another outcome; accepted exactly when afterwards the episode has this one; no other episode changes |
| TrajectoryStore.LatestIsLast | scripts/trajectory_store.py:54-59 | the newest row by step is the last one logged and its step is the number of logged turns |
| TrajectoryStore.InsertedMeans | scripts/trajectory_store.py:45-62 | what an insertion presupposes: a fresh event id, an open episode, the next step and the continued state |
| TrajectoryStore.ApplyKeepsInv | scripts/trajectory_store.py:32-90 | each public call and each export mark keeps: steps 1..n with n at least 1, chained states, unique ids, no orphan feedback |
| TrajectoryStore.RunKeepsInv | scripts/trajectory_store.py:32-90 | every run of calls, accepted, rejected or retried, keeps that invariant |
| TrajectoryStore.RejectedChangesNothing | scripts/trajectory_store.py:44-90 | a rejected call leaves all four tables untouched |
| TrajectoryStore.RunGrows | scripts/trajectory_store.py:32-90 | over any run payloads, outcomes and feedback never change and closed episodes gain no turns |
| TrajectoryStore.RetryIsIdempotent | scripts/trajectory_store.py:45-49 | any accepted record, finish or explicit-id feedback, repeated after any further calls, changes nothing and is accepted |
| TrajectoryStore.ClosedLogIsFrozen | scripts/trajectory_store.py:52-53 | the log of a closed episode stays what it is under every later run |
| TrajectoryStore.StepWithinLog | scripts/trajectory_store.py:55-62 | every stored step is at most the length of its log, with equality for the last turn only |
| TrajectoryViews.LastSteps | scripts/trajectory_store.py:94 | the dictionary of last steps holds each episode's greatest step |
| TrajectoryViews.LatestRating | scripts/trajectory_store.py:99-100 | the reward comes from the last human rating in (created, id) order, and is absent exactly when no human rated |
| TrajectoryViews.ExportOne | scripts/trajectory_store.py:95-112 | one exported row: eligibility, reward and boundary flags of its turn |
| TrajectoryViews.Export | scripts/trajectory_store.py:92-112 | the full export has one row per turn in (episode, step) order; the training-only export is exactly its eligible subsequence |
| TrajectoryViews.OneBoundaryPerEpisode | scripts/trajectory_store.py:104-109 | every episode has exactly one boundary row, its last step, flagged with exactly one of terminated and truncated |
| TrajectoryViews.EligibleForever | scripts/trajectory_store.py:101 | a turn that may be trained on stays so under every later run of calls |
| TrajectoryViews.EligibleByHistory | scripts/trajectory_store.py:98-101 | over every run a turn may be trained on exactly when an accepted call finished its episode and an accepted call was a human rating of it, and its evidence has a raw action, the real runtime and a model digest |
| TrajectoryViews.EligibleAreReviewed | scripts/trajectory_store.py:153-155 | no more rows are eligible than reviewed |
| TrajectoryViews.CountRows | scripts/trajectory_store.py:147-155 | the counters: reviewed and unreviewed together count every row of the chosen runtime |
| TrajectoryViews.SelectRows | scripts/trajectory_store.py:123-146 | the backwards walk that stops at the limit |
| TrajectoryViews.ReviewQueue | scripts/trajectory_store.py:114-157 | rejects unsupported filters and limits; returns the first `limit` wanted rows of the reversed export, which are the last recorded wanted turns, newest first, exactly when their episode ids are in order; the counts cover all rows of the runtime |
| TrajectoryViews.QueueByEpisode | scripts/trajectory_store.py:122-146 | the queue shows the wanted turns by greatest (episode id, step) |
| TrajectoryViews.NewestFirstExactly | scripts/trajectory_store.py:115-146 | the queue is newest-first exactly when none of the last `limit` wanted turns recorded has an episode id exceeded by that of a wanted turn recorded before it |
| TrajectoryViews.ExportNewestFirstExactly | scripts/trajectory_store.py:92-124 | in every run the reversed export is the reverse of the recorded turns exactly when episode ids never decrease in recording order |
| TrajectoryViews.OlderTurnFirst | scripts/trajectory_store.py:114-124 | a run of two recorded turns after which the queue shows the older one first |
| TrajectoryViews.RecordedInStepOrder | scripts/trajectory_store.py:54-62 | turns of one episode are recorded in step order |
| PhoenixExport.BacklogExact | scripts/phoenix_trajectory.py:28 | the fetched backlog is exactly the unexported turns, none lost |
| PhoenixExport.StartKeeps | scripts/phoenix_trajectory.py:28 | the backlog holds no turn twice and earlier steps of an episode come first |
| PhoenixExport.FetchKeeps | scripts/phoenix_trajectory.py:56 | the feedback query returns unexported rows of exported turns, none twice |
| PhoenixExport.FetchCovers | scripts/phoenix_trajectory.py:56 | once every turn is exported the feedback query misses no unexported row |
| PhoenixExport.ClientKeeps | scripts/phoenix_trajectory.py:28-69 | a client call between any two exporter steps disturbs neither queue nor log |
| PhoenixExport.MovesKeep | scripts/phoenix_trajectory.py:28-69 | every interleaving of client calls, sends, refusals, crashes and marks keeps the invariant |
| PhoenixExport.ExporterRuns | scripts/phoenix_trajectory.py:28-69 | in every run: marked turns and feedback were acknowledged with the stored identifiers, nothing is sent again after its mark, feedback is sent only after its turn was marked and with that turn's identifiers |
| PhoenixExport.ExportedPrefix | scripts/phoenix_trajectory.py:28-53 | in every run each episode's exported turns are exactly the first k of its log |
| PhoenixExport.AcknowledgedTwice | TELEMETRY.md:97 | at-least-once, exactly: in every run each acknowledgement of a turn or feedback row is its only mark, is still in hand, or was lost to a crash before the mark; so n acknowledgements need n - 1 crashes |
| PhoenixExport.ExportTurns | scripts/phoenix_trajectory.py:28-55 | the turn loop is a run of the state machine; it marks exactly the turns acknowledged before the first unacknowledged send, at which it stops, otherwise it empties the queue |
| PhoenixExport.ExportFeedback | scripts/phoenix_trajectory.py:56-69 | the feedback loop, likewise: it marks exactly the rows acknowledged before the first unacknowledged send, at which it stops, otherwise all feedback is exported |
| PhoenixExport.ExportPass | scripts/phoenix_trajectory.py:28-73 | a pass is a run of the state machine; it marks exactly the turns and then the feedback rows acknowledged before the first of its own sends that is not, at which it fails; without such a send every turn and every feedback row is exported and the count returned is the backlog's size |
| Perceptron.Head.constructor | scripts/train_browser_dialogue_model.py:50-52 | training starts from zero weights and biases |
| Perceptron.Head.Update | scripts/train_browser_dialogue_model.py:58-65 | one update is one step of the training history: no change without a mistake, otherwise the gold label gains and the winner loses the scaled features |
| Perceptron.ShiftNorm | scripts/train_browser_dialogue_model.py:61-64 | one mistake changes the squared norm by at most twice the rate times the logit gap plus four squared rates |
| Perceptron.DistanceBound | scripts/train_browser_dialogue_model.py:58-65 | along any history the weights stay within a potential of every multiple of a separator |
| Perceptron.RateBound | scripts/train_browser_dialogue_model.py:58-65 | (margin times sum of rates) squared is at most four times the sum of squared rates times the separator's squared norm |
| Perceptron.MistakeBound | scripts/train_browser_dialogue_model.py:49-65 | with rates in [lo, hi] and a separator of margin g, g*g*lo*lo*M <= 4*hi*hi*|U|^2 after any history |
| Perceptron.Conservation | scripts/train_browser_dialogue_model.py:61-64 | for every feature the weights of all classes, and the biases, sum to zero after any history |
| Perceptron.RatesBracket | scripts/train_browser_dialogue_model.py:97-99 | the sums of the rates and of their squares are bracketed by the mistakes |
| Perceptron.RateRange | scripts/train_browser_dialogue_model.py:97 | the decaying rate stays between its last and first value |
| Perceptron.DropsEnough | scripts/train_browser_dialogue_model.py:97 | over the whole schedule one mistake per epoch takes at least 1.25 per epoch off the potential |
| Perceptron.TooManyMistakes | scripts/train_browser_dialogue_model.py:58-65 | what the mistakes take off the potential is at most 6.25 times the squared norm of a separator over its squared margin |
| Perceptron.Head.Epoch | scripts/train_browser_dialogue_model.py:95-99 | an epoch extends the history by its order and returns the mistakes made in it; there are none exactly when it started from weights that classify every example, and then it changes nothing |
| Perceptron.Head.TrainHead | scripts/train_browser_dialogue_model.py:92-101 | the epoch loop, for any number of epochs, stops at the first epoch that starts from weights classifying every example and runs all epochs if none does; its mistakes obey the bound of every separator; a separator with squared norm below a fifth of its squared margin per epoch, or below 6.5 squared margins for the 32 epochs, forces convergence |
| Perceptron.ReachIsMet | scripts/train_browser_dialogue_model.py:92-101 | two examples of two labels are within reach of the 32 epochs |
| TopologyRewire.DegreePreservingSwaps | scripts/flywire_topology_ablation.py:6-18 | the in-place loop makes the draws one after the other, each as `SwapsExactly` says, array and set alike |
| TopologyRewire.SwapsExactly | scripts/flywire_topology_ablation.py:12-17 | one draw, on the lists: with the set exact, two different positions exchange their destinations exactly when neither exchanged pair is a self-loop or already listed; otherwise and elsewhere nothing changes |
| TopologyRewire.SwapSymmetric | scripts/flywire_topology_ablation.py:12-17 | the two positions of a draw may be drawn in either order |
| TopologyRewire.LastDraw | scripts/flywire_topology_ablation.py:11-17 | the last draw of any run over a list without duplicates does exactly that to what the run has left |
| TopologyRewire.DegreesPreserved | scripts/flywire_topology_ablation.py:10-18 | in- and out-degrees of every node are unchanged by any attempts and draws |
| TopologyRewire.NoNewSelfLoop | scripts/flywire_topology_ablation.py:15 | no self-loop is created |
| TopologyRewire.RewireKeepsExact | scripts/flywire_topology_ablation.py:11-17 | from distinct pairs, the pairs stay distinct and the auxiliary set is exactly the array's pairs |
| TopologyRewire.SwapUndone | scripts/flywire_topology_ablation.py:14-17 | the same draw undoes an accepted swap exactly when neither edge was a self-loop |
| TopologyRewire.RewireReversible | scripts/flywire_topology_ablation.py:12-17 | the draws replayed backwards restore any list without duplicates and self-loops |
| TopologyRewire.SwapKeepsSetExactly | scripts/flywire_topology_ablation.py:11-17 | an accepted swap leaves the auxiliary set exact exactly when neither edge taken away stands at a third position |
| TopologyRewire.DuplicateBreaksSet | scripts/flywire_topology_ablation.py:11-17 | with a duplicated edge the set can lose an edge that the array still has |
| GraphTopology.Topology | scripts/flywire_topology_ablation.py:20-27 | the four modes: the graph as it is, ten attempted swaps per edge, or fresh end points; the signs stay in place |
| GraphTopology.GraphPairsDistinct | scripts/train_flywire.py:55-59 | a built graph has distinct pairs, as the rewiring needs |
| GraphTopology.RewiredGraph | scripts/flywire_topology_ablation.py:20-30 | the rewired null model of a built graph keeps degrees, distinctness and the range of its nodes, and adds no self-loop |
| InducedGraph.CountDegrees | scripts/train_flywire.py:38-47 | refuses a nonpositive count; otherwise the degree of every neuron that occurs |
| InducedGraph.SelectRoots | scripts/train_flywire.py:48 | the chosen roots are the requested number of neurons, each ahead of every later and every unchosen one |
| InducedGraph.IndexRoots | scripts/train_flywire.py:49 | the index maps each root to its position |
| InducedGraph.Aggregate | scripts/train_flywire.py:50-54 | per pair of roots, the counts of exactly its rows |
| InducedGraph.ListEdges | scripts/train_flywire.py:55-59 | strictly sorted edges with their totals and signed weights, none missing |
| InducedGraph.BuildGraph | scripts/train_flywire.py:37-66 | the whole construction and its two errors |
| InducedGraph.DegreesSum | scripts/train_flywire.py:45-46 | degrees sum to twice the total synapse count |
| InducedGraph.EdgeTotalsSum | scripts/train_flywire.py:50-59 | edge totals sum to the synapses of the rows with both ends selected |
| InducedGraph.RowOnOneEdge | scripts/train_flywire.py:53-54 | a row with both ends selected lies on exactly one edge, any other on none |
| InducedGraph.SignedWithinTotal | scripts/train_flywire.py:58-59 | the signed weight is at most the total in size and has its parity |
| InducedGraph.SignedIsDifference | scripts/train_flywire.py:58-59 | the signed weight of a pair is its excitatory synapses less its inhibitory ones |
| InducedGraph.RowOrderIrrelevant | scripts/train_flywire.py:37-59 | permuting the rows changes neither roots nor edges |
| ThresholdGate.TakeGroup | scripts/kernel_conformance.py:31-34 | the inner loop takes exactly the tie group |
| ThresholdGate.CoverageAtPrecision | scripts/kernel_conformance.py:18-45 | the gate has the counts of all rows at or above its threshold, reaches the target, and no real threshold that reaches it commits more; none is returned iff none qualifies |
| ThresholdGate.NextGroup | scripts/kernel_conformance.py:32-44 | one more tie group keeps the best gate best |
| ThresholdGate.GateIsUnique | scripts/kernel_conformance.py:18-45 | any two gates for permuted rows are equal |
| ThresholdGate.FixedReproducesGate | scripts/kernel_conformance.py:48-60 | evaluating the calibration rows at the selected threshold gives back the gate's own figures |
| RoundRobin.GroupByFamily | scripts/benchmark_v3_training_adapter.py:76-78 | the groups are the sorted rows of their family, keys in order of appearance |
| RoundRobin.RoundRobinCap | scripts/benchmark_v3_training_adapter.py:79-83 | the loop ends and returns min(limit, total) rows, a deal of the sorted groups stopped at some round and position |
| RoundRobin.DealtLength | scripts/benchmark_v3_training_adapter.py:80-82 | a deal is as long as what its groups contributed |
| RoundRobin.DealtIsFair | scripts/benchmark_v3_training_adapter.py:80-82 | each group contributes its leading rows, one more for the groups before the stopping position |
| RoundRobin.CapIsFair | scripts/benchmark_v3_training_adapter.py:75-83 | water-filling: every family contributes its first min(size, r) or min(size, r+1) sorted rows, the latter for a prefix of the sorted keys, and every row returned is one of the input in one of those families |
| AsrEvents.NormalizeIdempotent | scripts/asr_event_protocol.py:21-22 | normalised text is its own normal form, over all the whitespace `split()` cuts at |
| AsrEvents.HypothesisEmitter.constructor | scripts/asr_event_protocol.py:44-51 | the emitter starts in segment 1 before revision 1 |
| AsrEvents.HypothesisEmitter.ResetSegment | scripts/asr_event_protocol.py:127-132 | the next segment starts afresh |
| AsrEvents.HypothesisEmitter.Observe | scripts/asr_event_protocol.py:75-96 | one observation as a step of the run: the new fields and the event `ObserveSays` describes |
| AsrEvents.HypothesisEmitter.Finalize | scripts/asr_event_protocol.py:98-125 | one finalisation as a step of the run: the final event `FinalizeSays` describes, and the next segment |
| AsrEvents.EveryRun | scripts/asr_event_protocol.py:53-132 | in every run events strictly increase, revisions have no gaps from 1, one revision has one text, validation never fails, a final event is the last of its segment |
| AsrEvents.StateTracks | scripts/asr_event_protocol.py:39-96 | the counters say how many equal observations end the segment so far |
| AsrEvents.StateCounts | scripts/asr_event_protocol.py:53-132 | in every run segments count finalisations, the revision counts the changes of text since the last one, and the last text is the last observed |
| AsrEvents.StableExactly | scripts/asr_event_protocol.py:85-95 | stable fires exactly at the configured repeat of an equal observation, partial exactly at the first |
| AsrEvents.ObserveSays | scripts/asr_event_protocol.py:75-96 | in every run an observation appends exactly: nothing for an empty text, else its own normalised text under the current segment and revision, partial for the first in a row and stable for the configured repeat |
| AsrEvents.FinalizeSays | scripts/asr_event_protocol.py:98-125 | in every run a finalisation emits exactly when its text or something observed since the last one is non-empty; the final event carries its own text, else the last observed, as a new revision exactly when that differs from the last observed |
| AsrEvents.Decode | scripts/sherpa_streaming_asr.py:120-174 | the decode loop makes exactly the emitter calls of its chunks, or reports that there was no audio |
| AsrEvents.DecodeEndsFinal | scripts/sherpa_streaming_asr.py:135-173 | the output never ends on a partial or stable event and every segment is closed by its final event |
| AsrEvents.NextChunk | scripts/sherpa_streaming_asr.py:135-157 | one chunk adds its observation, and a finalisation at an endpoint, which also drops the carried text |
| AsrEvents.CarriedText | scripts/sherpa_streaming_asr.py:144-157 | the carried text is that of the last chunk with a text, if no endpoint came with it or since |
| AsrEvents.EndpointSays | scripts/sherpa_streaming_asr.py:149-174 | an endpoint with a text, and the end of the audio, close their segment with a final event for exactly that text |
| DialogueDelta.Apply | scripts/dialogue_delta_corpus.py:51-65 | the in-place edit of a copied state is the slot-by-slot effect of the delta |
| DialogueDelta.ApplyKeepsShape | scripts/dialogue_delta_corpus.py:51-65 | any well-shaped delta, such as a prediction, keeps the state within its bounds |
| DialogueDelta.DeltaTouchesTargets | scripts/dialogue_delta_corpus.py:51-65 | cell by cell: a delta other than a clear touches its targets only; setting takes the last value given for a key, retracting empties it, pausing and resuming flip the flag alone |
| DialogueDelta.FocusAfter | scripts/dialogue_delta_corpus.py:51-65 | the last set target becomes the focus, retracting the focus clears it, nothing else moves it; the out-of-domain flag only rises |
| DialogueDelta.ClearLeavesNothing | scripts/dialogue_delta_corpus.py:43-53 | a clear leaves no value, nothing paused, no focus and no flag |
| DialogueDelta.ResumeUndoesPause | scripts/dialogue_delta_corpus.py:61-63 | resuming undoes a pause |
| DialogueDelta.RetractUndoesAdd | scripts/dialogue_delta_corpus.py:54-60 | retracting a goal just added to an empty cell restores everything but the focus |
| DialogueDelta.TensorDelta | scripts/infer_flywire_delta.py:10-14 | the decoding loop |
| DialogueDelta.TargetNames | scripts/infer_flywire_delta.py:13 | a slot names a key exactly by its room, object and property, or none |
| DialogueDelta.DecodedSlots | scripts/infer_flywire_delta.py:10-14 | what a row says, slot by slot: used slots name their key and value, unused ones hold the padding |
| DialogueDelta.DecodeTotal | scripts/infer_flywire_delta.py:10-14 | every in-range network row decodes to a well-shaped delta |
| DialogueDelta.EncodeDecode | scripts/train_flywire_delta.py:64-66 | decoding an encoded delta gives it back exactly when its unused slots hold the padding |
| DialogueDelta.RoundTrip | scripts/dialogue_delta_corpus.py:67-69 | for any arguments of `delta`, encode then decode gives the delta back exactly when no nonzero value stands beyond the targets |
| DialogueDelta.SurplusValueLost | scripts/dialogue_delta_corpus.py:67-69 | a second value given without a second target is lost by encoding |
| DialogueDelta.Resolve | scripts/train_flywire_delta.py:120-132 | the loop over cloned predictions resolves each row against its own state, as the rows below it say |
| DialogueDelta.FocusIsMeant | scripts/train_flywire_delta.py:124-126 | a focus reference takes the room and object of the focus, and its property too unless a value is set: its first target is the focus, or the same object with the predicted property |
| DialogueDelta.OneActive | scripts/train_flywire_delta.py:130-131 | one active key is found exactly when the room and object have one |
| DialogueDelta.SoleKeyIsMeant | scripts/train_flywire_delta.py:127-131 | a named reference whose room and object have one active key means that key, unless a value is set |
| DialogueDelta.RestAsPredicted | scripts/train_flywire_delta.py:120-132 | only the first target can change; the row is as predicted unless the focus or a sole active key is meant |
| DialogueDelta.GoldMeans | scripts/dialogue_delta_corpus.py:97-127 | what each generated choice does to the state: which cell gets which value, which is emptied, paused or resumed, and where the focus goes |
| DialogueDelta.ResolveIdempotent | scripts/train_flywire_delta.py:120-132 | resolving twice is resolving once, on every in-range row |
| DialogueDelta.GoldKeepsCoherent | scripts/dialogue_delta_corpus.py:88-126 | whatever is drawn, a set focus has a value and nothing without a value is paused |
| DialogueDelta.GoldIsFixedPoint | scripts/train_flywire_delta.py:120-132 | the packed gold row of every generated turn is left alone by the resolver |
| DialogueDelta.GoldRoundTrip | scripts/train_flywire_delta.py:59-67 | and decodes to the gold delta |
| DialogueDelta.MakeDialogue | scripts/dialogue_delta_corpus.py:88-128 | a generated dialogue: chained coherent states, deltas that explain them, gold labels fixed by the resolver and decoded back |
| InferenceSession.TakeTurn | scripts/infer_flywire_delta.py:33-41 | one turn applies the decoded, resolved prediction if the gate allows it, notes an allowed out-of-domain request and drops the notes at an allowed clear |
| InferenceSession.GateExactly | scripts/infer_flywire_delta.py:16-19 | the gate refuses exactly the clears and retractions without their cue; a refused turn changes nothing, any other applies the resolved delta in full |
| InferenceSession.ActsOnMeant | scripts/infer_flywire_delta.py:33-41 | a pause, resumption or retraction of one target acts on the focus it refers to, or the one active key it names, whatever property was predicted, and on no other |
| InferenceSession.TurnEmpties | scripts/infer_flywire_delta.py:16-19 | a turn loses a value only by an allowed clear, an allowed retraction of it, or by setting it to 0 |
| InferenceSession.ValuesNeedACue | scripts/infer_flywire_delta.py:16-41 | over every session a value vanishes only by such a turn: without the clear cue no clear empties the state, without the retract cue nothing is retracted |
| InferenceSession.PendingExactly | scripts/infer_flywire_delta.py:39-41 | over every session the pending requests are exactly the out-of-domain turns since the last allowed clear, and the state is flagged out of domain exactly while there are some |
| InferenceSession.NextIsAccepted | scripts/infer_flywire_delta.py:44-54 | the store accepts the next record of an ongoing session |
| InferenceSession.GoesOn | scripts/infer_flywire_delta.py:43-54 | and the session's evidence stays a chained, open episode |
| InferenceSession.EvidenceSays | scripts/infer_flywire_delta.py:43-54 | what a record says: the prediction as made and as resolved, the states before and after, the pending requests, and accepted exactly when the gate did |
| InferenceSession.PlayTurn | scripts/infer_flywire_delta.py:33-54 | one turn appends exactly its record to the episode's log |
| InferenceSession.PlayAll | scripts/infer_flywire_delta.py:33-58 | the loop, up to the first turn that raises |
| InferenceSession.RunSession | scripts/infer_flywire_delta.py:30-62 | a whole session: the episode's log is exactly the evidence of the turns played up to the first that raises, payload by payload; the episode is closed with the right reason, and an empty session leaves no episode |
| IntentCommit.AddGoals | scripts/intent_state_commit.py:36-42 | the loop over proposed goals writes new goals and the proposed focus only, and logs what it wrote |
| IntentCommit.Commit | scripts/intent_state_commit.py:18-62 | answers as `AcceptedExactly` says and changes the tree as the rows below it say |
| IntentCommit.ProposesExactly | scripts/intent_state_commit.py:23 | the proposed goals that count are exactly those with a listed key and a listed value other than the first |
| IntentCommit.AcceptedExactly | scripts/intent_state_commit.py:25-60 | a clear exactly with its command, a retraction exactly with its command and a goal in focus, a pause or resumption exactly with a goal in focus, a revision exactly when it names the focus and lists a value for it; additions, notes and retaining always, anything else never |
| IntentCommit.ClearEmpties | scripts/intent_state_commit.py:25-28 | an accepted clear leaves the empty tree, one revision later |
| IntentCommit.RetractRemovesFocus | scripts/intent_state_commit.py:29-34 | an accepted retraction takes exactly the focus out of goals and paused goals and leaves no focus |
| IntentCommit.AddStoresProposed | scripts/intent_state_commit.py:35-44 | every new listed goal gets its proposed value, an existing one changes only as the proposed focus, and the focus moves there if the proposal lists it |
| IntentCommit.AddReports | scripts/intent_state_commit.py:36-42 | the reported changes of an addition are exactly the new goals and the changed focus, with their proposed values |
| IntentCommit.ReviseStoresProposed | scripts/intent_state_commit.py:45-48 | an accepted revision gives the focus the value listed for it, reports it and changes nothing else |
| IntentCommit.PauseMovesFocus | scripts/intent_state_commit.py:49-54 | a pause puts the focus last among the paused goals, a resumption takes it out; the others keep their order |
| IntentCommit.NoteOrRetain | scripts/intent_state_commit.py:55-61 | an out-of-domain request is noted with its text under the new revision; retaining only counts |
| IntentCommit.CommitKeepsInv | scripts/intent_state_commit.py:18-62 | live focus, duplicate-free paused goals, out-of-domain flag iff pending entries, strictly increasing ids |
| IntentCommit.StepIsBounded | scripts/intent_state_commit.py:24-62 | rejections change nothing, acceptance raises the revision by one, goals vanish only by authorised clear or retract, other steps alter at most the one goal they name |
| IntentCommit.StepReplays | scripts/intent_state_commit.py:24-62 | replaying the change log of a step gives its goals and paused list |
| IntentCommit.EverySession | scripts/intent_state_commit.py:18-62 | over every session from the empty tree the invariant holds and the whole change log replays to the current tree |
| MinimalDelta.Flatten | scripts/minimal_state_delta.py:4-9 | the recursive loop computes the flattening |
| MinimalDelta.UnderIsPrefix | scripts/minimal_state_delta.py:14 | on dot-free nonempty segments the dotted startswith test is the segment-wise prefix |
| MinimalDelta.FlatReadsLeaf | scripts/minimal_state_delta.py:4-11 | reading the flattened tree at a dotted path is following the path |
| MinimalDelta.SameLeaves | scripts/minimal_state_delta.py:4-9 | well-keyed trees flatten alike exactly when they have equal leaves at every path |
| MinimalDelta.AlikeEverywhere | scripts/minimal_state_delta.py:4-9 | trees that hold the same leaf, an object or nothing at every path are equal up to key order |
| MinimalDelta.SameTreeAt | scripts/minimal_state_delta.py:4-9 | and equal trees hold equal subtrees at every path |
| MinimalDelta.FlattenInjective | scripts/minimal_state_delta.py:4-9 | well-keyed trees are equal up to key order exactly when they flatten alike and no empty object of one is missing in the other; without empty objects inside, exactly when they flatten alike |
| MinimalDelta.AmbiguousExactly | scripts/minimal_state_delta.py:4-9 | for any tree with nonempty keys, dots allowed, and no empty objects inside: another such tree flattens alike exactly when the tree nests an object or has a root key that reads as a key over a rest where the shorter key is no root key |
| MinimalDelta.EmptyKeyUnseen | scripts/minimal_state_delta.py:7 | every tree flattens like the different tree that holds it under the empty key |
| MinimalDelta.AcceptsExactly | scripts/minimal_state_delta.py:12-16 | acceptance, exactly: every path outside the write-set reads the same, a missing leaf reading as null |
| MinimalDelta.UntouchedExactly | scripts/minimal_state_delta.py:12-16 | every subtree outside the write-set, and every leaf not covered by it, is unchanged iff the oracle accepts, no outside leaf is null on one side and missing on the other, and no outside object is empty on one side and no object on the other |
| MinimalDelta.AcceptsIffUntouched | scripts/minimal_state_delta.py:12-16 | without null leaves and empty objects inside, acceptance means exactly that |
| MinimalDelta.NullRemovalUnnoticed | scripts/minimal_state_delta.py:11 | an accepted change that removes a null leaf outside an empty write-set |
| MinimalDelta.EmptyObjectVanishes | scripts/minimal_state_delta.py:6-8 | an accepted change that removes an empty object outside an empty write-set |
| MinimalDelta.DottedKeyCollides | scripts/minimal_state_delta.py:7 | two different trees with one flattening, by a dot in a key |
| MinimalDelta.AcceptedStepsCompose | scripts/minimal_state_delta.py:12-16 | steps accepted under two write-sets compose to one accepted under their union |
| HomeState.EveryDeviceListed | scripts/generate_long_trajectory_benchmark_v3.py:77-79 | both device orders list every device |
| HomeState.InitialWellFormed | scripts/generate_long_trajectory_benchmark_v3.py:77-79 | the initial home has every device with its power and its numeric slot |
| HomeState.ChangedPaths | scripts/generate_long_trajectory_benchmark_v3.py:118-124 | the generator's comparison lists the differing cells of the devices it knows, in key order |
| HomeState.DiffState | scripts/validate_long_trajectory_benchmark_v3.py:11-17 | the validator's comparison lists the differing cells of any two states, in key order |
| HomeState.ComparisonsAgree | scripts/validate_long_trajectory_benchmark_v3.py:11-17 | on the same devices the two comparisons agree |
| HomeState.DifferenceExactly | scripts/validate_long_trajectory_benchmark_v3.py:16 | a cell of a listed device and slot is in the difference exactly when it reads differently |
| HomeState.DifferenceRises | scripts/validate_long_trajectory_benchmark_v3.py:11-17 | the difference is in the order of device and then slot names, so no cell is listed twice |
| HomeState.NoDifference | scripts/validate_long_trajectory_benchmark_v3.py:11-17 | nothing is listed exactly when every device has the same slots, a missing device having none; two states are equal exactly when nothing is listed and they have the same devices |
| BenchmarkGenerator.TwoRoomsPerEntity | scripts/generate_long_trajectory_benchmark_v3.py:133-135 | every split allows exactly two rooms per entity, so the two-target family never falls back |
| BenchmarkGenerator.PlanTurnOk | scripts/generate_long_trajectory_benchmark_v3.py:129-190 | the drawn label fits its targets, which lie in the allowed pairs or repeat the focus |
| BenchmarkGenerator.PerformKeeps | scripts/generate_long_trajectory_benchmark_v3.py:141-187 | carrying out a drawn label keeps the home well formed |
| BenchmarkGenerator.TurnMeans | scripts/generate_long_trajectory_benchmark_v3.py:129-193 | which cells a drawn turn changes, and to what, by its family: the power as drawn, one step of the focus, or the drawn value for one device or for two of one kind in different rooms; every other cell reads as before |
| BenchmarkGenerator.PowerMeans | scripts/generate_long_trajectory_benchmark_v3.py:154-165 | a power turn switches the drawn device as drawn, and is labelled an addition exactly when switching on under the older profile |
| BenchmarkGenerator.ValueMeans | scripts/generate_long_trajectory_benchmark_v3.py:177-190 | a correction hints at the same kind of device in another room, a slot turn at the device itself |
| BenchmarkGenerator.MarksMean | scripts/generate_long_trajectory_benchmark_v3.py:94-116 | the robustness marks: none under the older profile; else the naming as drawn outside training, and the shape of the scenario |
| BenchmarkGenerator.House.constructor | scripts/generate_long_trajectory_benchmark_v3.py:239 | a run starts from the initial home |
| BenchmarkGenerator.House.MakeMulti | scripts/generate_long_trajectory_benchmark_v3.py:131-148 | the two-target branch, mutating the home device by device |
| BenchmarkGenerator.House.MakePower | scripts/generate_long_trajectory_benchmark_v3.py:154-165 | the power branch under both release profiles |
| BenchmarkGenerator.House.MakeRelative | scripts/generate_long_trajectory_benchmark_v3.py:166-176 | the relative branch |
| BenchmarkGenerator.House.MakeSingle | scripts/generate_long_trajectory_benchmark_v3.py:150-193 | the one-target branches |
| BenchmarkGenerator.House.MakeExecuteTurn | scripts/generate_long_trajectory_benchmark_v3.py:129-193 | the mutation in place does what the label it records promises, and the recorded write-set is the difference of the states |
| BenchmarkTrajectory.Make | scripts/generate_long_trajectory_benchmark_v3.py:237-261 | the loop produces the trajectory of its stream of draws |
| BenchmarkTrajectory.ExecuteSound | scripts/generate_long_trajectory_benchmark_v3.py:129-193 | an execute turn is sound: label, write-set, hint, power rule, marks and split |
| BenchmarkTrajectory.ClarifySound | scripts/generate_long_trajectory_benchmark_v3.py:195-207 | a question is sound wherever its basis is justified |
| BenchmarkTrajectory.EveryTrajectorySound | scripts/generate_long_trajectory_benchmark_v3.py:237-261 | for every stream exactly the drawn number of turns, 12 to 28, each explained by its label, with its exact write-set and justified questions |
| BenchmarkTrajectory.EveryTurnNext | scripts/generate_long_trajectory_benchmark_v3.py:237-261 | every turn of every generated trajectory is determined by the turns before it and one draw: a question where one is due, else the next draw carried out on the home as it is, with the last target in focus |
| BenchmarkTrajectory.SplitsHoldOut | scripts/generate_long_trajectory_benchmark_v3.py:229-235 | training turns use only seen pairs, development turns only unseen ones |
| BenchmarkTrajectory.SplitsBalanced | scripts/generate_long_trajectory_benchmark_v3.py:217-223 | the first two thirds train and the last part is sealed; the held-out halves differ by at most one and every split is populated from sixty trajectories on |
| BenchmarkTrajectory.CheckTurn | scripts/validate_long_trajectory_benchmark_v3.py:48-82 | the validator's checks on one turn |
| BenchmarkTrajectory.Validate | scripts/validate_long_trajectory_benchmark_v3.py:42-86 | the walk accepts exactly when every turn passes every check |
| BenchmarkTrajectory.ValidExactly | scripts/validate_long_trajectory_benchmark_v3.py:42-86 | for any trajectory, whoever wrote it: the validator accepts exactly when every turn keeps the devices, lists each changed cell once and no other, follows the power rule of its profile and asks only on the stated grounds |
| BenchmarkTrajectory.UnlistedUnchanged | scripts/validate_long_trajectory_benchmark_v3.py:63-64 | in an accepted trajectory a cell that no turn between two points lists reads the same at both |
| BenchmarkTrajectory.QuestionsAreInert | scripts/validate_long_trajectory_benchmark_v3.py:71-82 | a question leaves the home as it was and its basis is founded |
| BenchmarkTrajectory.GeneratedIsValid | scripts/validate_long_trajectory_benchmark_v3.py:42-86 | whatever the draws, the generated trajectory passes the validator |
| BenchmarkValues.TrajectoryFits | scripts/generate_long_trajectory_benchmark_v3.py:129-190 | every label of every generated trajectory acts on slots its targets have, by drawable values and steps; two targets share their entity; only corrections have a counterfactual target |
| BenchmarkValues.DrawnExactly | scripts/generate_long_trajectory_benchmark_v3.py:84-87 | which values can be drawn for a device |
| BenchmarkValues.ValueFollowsLabels | scripts/generate_long_trajectory_benchmark_v3.py:141-189 | every device holds its last set value plus one step per relative turn since, read off the labels alone |
| BenchmarkValues.GoldAcceptedExactly | scripts/generate_long_trajectory_benchmark_v3.py:166-173 | the planner accepts the value a generated trajectory has reached exactly while no more relative turns than the range leaves steps followed the last set value |
| BenchmarkValues.BrightnessDrifts | scripts/generate_long_trajectory_benchmark_v3.py:173 | a generated trajectory whose relative turns label ten percent more each time, beyond 100 from the fourth turn on |
| TargetResolver.UniqTargets | scripts/context_target_resolver.py:19-26 | the loop keeps first occurrences in order |
| TargetResolver.UniqKeepsEachOnce | scripts/context_target_resolver.py:19-26 | each target is kept exactly once |
| TargetResolver.UniqInOrder | scripts/context_target_resolver.py:19-26 | in the order of first occurrences |
| TargetResolver.ExplicitTargets | scripts/context_target_resolver.py:40-50 | the registered targets the text names |
| TargetResolver.ResolutionIsSound | scripts/context_target_resolver.py:52-78 | one target, a duplicate-free set or a question, and no invented target |
| TargetResolver.TextTakesPrecedence | scripts/context_target_resolver.py:59-65 | a target named in the text beats the proposal and every stale focus or referent |
| TargetResolver.SeveralNamed | scripts/context_target_resolver.py:62-65 | a text naming several registered targets means all of them with a plural marker and is a question without |
| TargetResolver.ProposalBeatsContext | scripts/context_target_resolver.py:67-75 | with silent text the proposal's set, then its target, then the additive target of ADD_DEVICE, then the set of referents, each beats what follows |
| TargetResolver.SilentTextFollowsFocus | scripts/context_target_resolver.py:67-78 | otherwise the focus decides, then a lone referent, and else the resolver asks |
| BenchmarkAdapter.ContextOfQuestion | scripts/benchmark_v3_training_adapter.py:26-52 | before a question the context offers no focus, and no referent or two different ones |
| BenchmarkAdapter.ContextAfter | scripts/benchmark_v3_training_adapter.py:26-52 | the targets of the turn before are the referents, and a lone one is in focus unless the turn has a hint of its own |
| BenchmarkAdapter.ResolverAgrees | scripts/context_target_resolver.py:52-78 | a deictic request resolves to a question exactly as generated, to the gold target of a one-target turn, and to the counterfactual target of a correction |
| BenchmarkAdapter.SetReadingTakesBoth | scripts/context_target_resolver.py:74-75 | read as a set, the question's two referents are returned |
| BenchmarkAdapter.NamedGoldWins | scripts/context_target_resolver.py:59-61 | text naming exactly the gold target wins over every hint |
| BenchmarkAdapter.SpokenTurns | scripts/context_target_resolver.py:59-65 | texts that name what their turn mentions: one-target turns are resolved, two-target turns and corrections are questions without a plural marker, and with one a correction includes its wrong target |
| BenchmarkAdapter.EverySpokenTurn | scripts/context_target_resolver.py:59-65 | over every generated trajectory the gold targets are reached from the text exactly for turns that are no correction and, with two targets, have a plural marker |
| BenchmarkAdapter.EveryTurnAgrees | scripts/benchmark_v3_training_adapter.py:26-52 | generator, adapter and resolver agree on every question and every relative turn of every generated trajectory |
| TargetComposer.JoinSplit | scripts/authorized_patch_planner.py:8-12 | joining the parts of a split key gives the key back |
| TargetComposer.KeyParses | scripts/authorized_patch_planner.py:8-12 | parsing inverts key building exactly when the separator cannot arise inside or at the end of a part |
| TargetComposer.KeyIdentifiesExactly | scripts/device_registry.py:9-10 | no other area, entity and instance have the same key exactly when no part holds the separator and no colon stands next to one |
| TargetComposer.TopkSelectsTop | scripts/authorized_target_composer.py:9-11 | exactly min(max(k,0),n) indices are selected, none beaten by an unselected one, ties to the lower index |
| TargetComposer.TopIsUnique | scripts/authorized_target_composer.py:9-11 | no other mask meets that description |
| TargetComposer.ComposeIsProduct | scripts/authorized_target_composer.py:12-16 | the room-major product of the selected rooms and entities, cut down to the mounted keys |
| TargetComposer.ComposedKeys | scripts/authorized_target_composer.py:12-16 | every composed key appears once, has three parts and is mounted |
| AuthorizedPlan.DeviceRegistry.constructor | scripts/device_registry.py:13 | the last binding of each key, filed under its own key |
| AuthorizedPlan.DeviceRegistry.Register | scripts/device_registry.py:14-16 | refused exactly on conflict; nothing bound ever changes |
| AuthorizedPlan.DeviceRegistry.Resolve | scripts/device_registry.py:17-20 | looks the target up under its key |
| AuthorizedPlan.RefusalExactly | scripts/device_registry.py:14-16 | whatever the registry, a device is refused only for being bound to another model itself, exactly when its key identifies it |
| AuthorizedPlan.ListingExactly | scripts/device_registry.py:13 | whatever the list, a registry built from it holds each listed device under its key, exactly when the key identifies it |
| AuthorizedPlan.CleanKeysIdentify | scripts/device_registry.py:9-10 | two devices whose keys both parse back are told apart by them |
| AuthorizedPlan.TrailingColonCollides | scripts/device_registry.py:9-10 | two different devices with one key |
| AuthorizedPlan.Plan | scripts/authorized_patch_planner.py:32-72 | the planning loop |
| AuthorizedPlan.AllOrNothing | scripts/authorized_patch_planner.py:57-72 | one accepted patch per target in order, bound by the authorisation, or no patch and at least one named rejection |
| AuthorizedPlan.PlanExactly | scripts/authorized_patch_planner.py:32-72 | in any registry planning succeeds if and only if every target is a bound three-part key whose device takes the value, with one patch per target and an authorisation binding them and every device model; else it names just the failing targets, in order |
| AuthorizedPlan.JudgeExactly | scripts/authorized_patch_planner.py:35-56 | one key: accepted exactly when it is bound, has three parts and its device takes the value; unbound exactly when it has three parts and is not registered; malformed exactly when it has not three |
| AuthorizedPlan.AcceptedValues | scripts/semantic_capability_map.py:3-29 | which values each device takes per slot, and which reason every other value gets |
| AuthorizedPlan.RegisteredIsBound | scripts/authorized_patch_planner.py:36-40 | a registered key is never reported unbound, and is malformed exactly when it does not have three parts |
| AuthorizedPlan.ComposedPlan | scripts/authorized_patch_planner.py:32-72 | composed against the registry's own keys, planning succeeds iff every value validates; otherwise only value errors are reported |

## Left out

- Neural networks, optimisers, losses and accuracy figures: predictions are arbitrary in-range rows.
- Floating point: confidences, rates, weights and scores are exact reals; `1/sqrt(n)` is an `s` with `s*s*n == 1`.
- Perceptron feature hashing, the label table and the rounded model export: features are distinct positions, labels are class numbers.
- `export_phoenix`: the collector's identifiers and `exported_at` are one link; span attributes, timestamps, the in-memory span buffer, the endpoint check and HTTP are not modelled; an incomplete span set is a send that never happened.
- `trajectory_store.encode`: JSON text is a structured value compared by equality; values that cannot be encoded, such as NaN, are excluded.
- SQLite itself: tables are maps and sequences and only the statements of the core methods touch them; schema creation, WAL and several concurrent workers are not modelled, and rows whose store call fails for lack of a foreign key are rejections.
- `browser_event`: a field renaming.
- `infer_flywire_delta`: head indices, logits, timestamps, phases and digests of a record; an exception ends the session before the turn is recorded.
- Utterance predicates (authorisation commands, the clear and retract cues, mentions of areas and aliases, plural markers): booleans given with the utterance; templates, phrases, rendering and text de-duplication are not modelled.
- `sealed_dialogues`, corpora and phrase tables: fixed data.
- `make_dialogues`: one dialogue of any length rather than `count` dialogues of ten turns, the same text choices abstracted away.
- Key and value tables of the intent commit boundary: positions in the tables.
- `HypothesisEmitter`: `audio_ms`, `source` and `final_reason` are carried by no property and omitted; the stream source and WAV reading are oracles.
- `evaluate_fixed`: the three rate fields over optional row flags; `coverage` is `committed` over the row count.
- `load`, `main` and other command-line, file and manifest handling, including the validator's corpus-wide statistics (shares, overlaps, minimum counts), which depend on the drawn corpus.
- `judgement_row` and `semantic_row`: record building around the context that is modelled.
- Turn difficulty, texts and ids of the benchmark: constants or labels without a property.
- `authorization_digest` and `snapshot_digest`: the authorisation holds the digested contents themselves; its id is a parameter. A second capability code of a slot is not modelled, only the one the planner uses.
- HomeState.DiffState: compares homes of the twelve declared devices and four slots with number or switch values, not arbitrary dictionaries; null slot values are not modelled.
- HomeState.DifferenceExactly: speaks of typed cells; a device without slots has none, so its coming or going is not a difference, in the source either.
- Registry keys with fewer than two parts, which the resolver skips: its registry holds parsed targets.
- `graph`: the gzip and CSV reading and the source digest; rows are given.
- `TopologyRewire.DegreePreservingSwaps`: torch tensors are an array and a sequence; draws are given.
- `spatialruntime_window_authorizer.py` and the token-trust profile: their decisive steps are in external packages.
