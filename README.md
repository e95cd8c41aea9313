# StatsListener, modelled in Dafny

`StatsListener` is the deeplearning4j training listener that, after each training
iteration, collects statistics about the model and the JVM and hands them to a
`StatsStorageRouter`. This project models its per-call bookkeeping:

- the listener's fields and the constructor's defaults;
- `iterationDone`:
  - the one-time `doInit` on the call with `iterCount == 0`;
  - the example and minibatch counters;
  - the reporting cadence and its early return;
  - the integer performance window;
  - the garbage-collection baseline and delta table;
  - the learning-rate gathering;
  - which statistics blocks a report carries;
  - the `lastReport*` fields, the single `putUpdate` and the `iterCount` increment;
- `doInit`, `updateExamplesMinibatchesCounts`, `getActivationArraysMap` and `invoked`.

The model has two layers:

- Module `ListenerSpec` describes the listener on values. `ListenerState` holds the fields as one
  record, and `Step` is one call of `iterationDone`, written as the composition of its parts
  (`Start`, `ReportOrSkip`, `ReportBlocks`, `BuildReport`, `Deliver`).
- Module `Stats` holds the class `StatsListener`. It has the fields of the Java class, and each
  of its methods is proved to take exactly the corresponding step. The router is the class
  `Routing.Router`, whose `log` records every message it is handed. The listener keeps a ghost
  history beside its fields:
  - `sent`: its own messages;
  - `initPairs`: how many times `doInit` completed;
  - `batches`: every counted batch size;
  - `windowStart`: where the since-last-report counters last restarted.

  The invariant `ListenerSpec.Inv` ties the real fields to this history. The properties of single
  calls and of whole runs are lemmas in `ListenerProperties`.

The world outside the listener enters as arguments:

- the model, as a value: its topology, batch sizes, parameter and gradient names, layers' inputs
  and learning rates, and score;
- the four clock readings of a call (`Clock`);
- the platform's garbage-collector beans (`Gc.GcBean` objects with mutable counters).

Exceptions are modelled as the call's `Outcome`:

- `doInit` raises for model info on a model that is neither a `MultiLayerNetwork` nor a
  `ComputationGraph` (line 402).
- `getActivationArraysMap` raises for any model other than a `MultiLayerNetwork` when an
  activation block is enabled (line 521).

The model follows the code as written; in particular:

- With `reportingFrequency() > 1`, the call with `iterCount == 0` does not report (line 130). The
  first update comes from the call at `iterCount == freq`, and its rate window is measured against
  the initial `lastReportTime` of -1, so its elapsed time is `currentTime + 1`
  (`ListenerProperties.FirstWindowAgainstMinusOne`). Twelve calls at frequency 5 give two updates,
  at calls 5 and 10 (`Cadence.TwelveCallsFrequencyFive`).
- A frequency below 1 is not rejected; it behaves like 1, so every call reports.
- An exception skips `iterCount++` (line 325). `iterCount` therefore counts completed calls, not
  calls.
  - A call at `iterCount == 0` that raises makes the next call run `doInit` again and send a second
    init pair (`ListenerProperties.ThrowAtFirstCallRepeatsInit`).
  - A raise from an activation block leaves behind what the performance and GC blocks already
    changed: the restarted window and the new GC table.
- A `ComputationGraph` reports no learning rates: the graph branch looks its layers up and discards
  them (line 215).

## Model

All source paths are relative to
`deeplearning4j-ui-parent/deeplearning4j-ui-model/src/main/java/org/deeplearning4j/ui/stats/`,
written out in full below.

| member | source | states |
|---|---|---|
| Stats.StatsListener.constructor | deeplearning4j-ui-parent/deeplearning4j-ui-model/src/main/java/org/deeplearning4j/ui/stats/StatsListener.java:61-104 | A missing init configuration becomes (true, true, true). A missing session ID becomes the random UUID. A missing worker ID becomes the JVM UID, "_" and the thread ID in decimal. All counters take their initial values (lastReport* -1), and the invariant holds. |
| Stats.StatsListener.Invoked | deeplearning4j-ui-parent/deeplearning4j-ui-model/src/main/java/org/deeplearning4j/ui/stats/StatsListener.java:106-109 | True exactly when iterCount > 0. Once true, the storage metadata and the static info were the first two messages sent. While false, no update has been sent. |
| Stats.StatsListener.DoInit | deeplearning4j-ui-parent/deeplearning4j-ui-model/src/main/java/org/deeplearning4j/ui/stats/StatsListener.java:333-440 | Fails exactly for model info on a model that is neither kind of network, and then changes nothing. Otherwise it captures the parameter names in paramTable order, and routes the storage metadata and then the static info, both stamped with doInit's own clock reading. |
| Stats.StatsListener.UpdateExamplesMinibatchesCounts | deeplearning4j-ui-parent/deeplearning4j-ui-model/src/main/java/org/deeplearning4j/ui/stats/StatsListener.java:442-455 | Adds the batch size to both example counters and 1 to both minibatch counters. The batch size is the input rows for both kinds of network and the layer's minibatch size for a layer, or 0 otherwise. |
| Stats.StatsListener.ReportPerformance | deeplearning4j-ui-parent/deeplearning4j-ui-model/src/main/java/org/deeplearning4j/ui/stats/StatsListener.java:139-157 | Reports the runtime since initTime and the totals, plus no window at iterCount 0 or the window currentTime - lastReportTime over the since-last-report counters. Then it restarts both counters. The performance lemmas below give the meaning. |
| Stats.StatsListener.BeansToRead | deeplearning4j-ui-parent/deeplearning4j-ui-model/src/main/java/org/deeplearning4j/ui/stats/StatsListener.java:183-193 | The GC block reads the platform's beans before any report or while none are stored, and the stored beans otherwise. On a later report the beans read have exactly the stored table's names, so every lookup of a stored pair finds one. |
| Stats.StatsListener.ReportGarbageCollection | deeplearning4j-ui-parent/deeplearning4j-ui-model/src/main/java/org/deeplearning4j/ui/stats/StatsListener.java:182-205 | Returns the GC block's entries and leaves the new bean list and table, as the GC lemmas below describe. |
| Stats.StatsListener.BuildReport | deeplearning4j-ui-parent/deeplearning4j-ui-model/src/main/java/org/deeplearning4j/ui/stats/StatsListener.java:135-303 | Builds the report from the identity, the performance block, the GC block, the score, the learning rates, the statistics blocks and the duration cast to int. An activation block on a model other than a MultiLayerNetwork ends in an error, after the performance and GC blocks have changed their fields. |
| Stats.StatsListener.StartIteration | deeplearning4j-ui-parent/deeplearning4j-ui-model/src/main/java/org/deeplearning4j/ui/stats/StatsListener.java:120-128 | Sets initTime and runs doInit on the call with iterCount 0, then counts the batch when performance stats are on. It stops when doInit raises. It only appends to what was sent, and routes exactly what it appends. |
| Stats.StatsListener.SendReport | deeplearning4j-ui-parent/deeplearning4j-ui-model/src/main/java/org/deeplearning4j/ui/stats/StatsListener.java:304-325 | Records lastReportTime and lastReportIteration, routes the one update and increments iterCount. |
| Stats.StatsListener.ReportOrSkip | deeplearning4j-ui-parent/deeplearning4j-ui-model/src/main/java/org/deeplearning4j/ui/stats/StatsListener.java:130-325 | Takes the early return (iterCount++ only) on calls the cadence skips, and otherwise builds and delivers the report. It only appends to what was sent, and routes exactly what it appends. |
| Stats.StatsListener.IterationDone | deeplearning4j-ui-parent/deeplearning4j-ui-model/src/main/java/org/deeplearning4j/ui/stats/StatsListener.java:116-326 | Takes exactly one Step of the value model, keeps the invariant, and never rewrites what was sent. The router's log grows by exactly the messages this call sends. |
| Stats.CollectStats | deeplearning4j-ui-parent/deeplearning4j-ui-model/src/main/java/org/deeplearning4j/ui/stats/StatsListener.java:230-299 | Gives the statistics blocks of a report, as StatsOf states. |
| ListenerSpec.StatsOf | deeplearning4j-ui-parent/deeplearning4j-ui-model/src/main/java/org/deeplearning4j/ui/stats/StatsListener.java:230-299 | Raises UnsupportedOperation exactly when some enabled block is an activation block and the model is not a MultiLayerNetwork. Otherwise there is one entry per enabled block, over the parameter names, the gradient names or the activation keys. |
| Routing.Router.PutStorageMetaData | deeplearning4j-ui-parent/deeplearning4j-ui-model/src/main/java/org/deeplearning4j/ui/stats/StatsListener.java:422 | The router's log gains exactly the storage metadata. |
| Routing.Router.PutStaticInfo | deeplearning4j-ui-parent/deeplearning4j-ui-model/src/main/java/org/deeplearning4j/ui/stats/StatsListener.java:423 | The router's log gains exactly the static info. |
| Routing.Router.PutUpdate | deeplearning4j-ui-parent/deeplearning4j-ui-model/src/main/java/org/deeplearning4j/ui/stats/StatsListener.java:307 | The router's log gains exactly the update. |
| Gc.Readings | deeplearning4j-ui-parent/deeplearning4j-ui-model/src/main/java/org/deeplearning4j/ui/stats/StatsListener.java:187-195 | There is one reading per bean, in bean order, with the bean's name, collection count and collection time. |
| Gc.ReadBeans | deeplearning4j-ui-parent/deeplearning4j-ui-model/src/main/java/org/deeplearning4j/ui/stats/StatsListener.java:187-195 | The loop reads every bean's name and counters, in order. |
| Gc.Baseline | deeplearning4j-ui-parent/deeplearning4j-ui-model/src/main/java/org/deeplearning4j/ui/stats/StatsListener.java:185-191 | The baseline table has exactly the readings' names as keys. |
| Gc.BaselineTable | deeplearning4j-ui-parent/deeplearning4j-ui-model/src/main/java/org/deeplearning4j/ui/stats/StatsListener.java:186-191 | The loop of puts builds the baseline table. |
| Gc.BaselineValues | deeplearning4j-ui-parent/deeplearning4j-ui-model/src/main/java/org/deeplearning4j/ui/stats/StatsListener.java:186-191 | With distinct names, each bean's stored pair is its own reading. |
| Gc.DeltaPass | deeplearning4j-ui-parent/deeplearning4j-ui-model/src/main/java/org/deeplearning4j/ui/stats/StatsListener.java:193-203 | A later report gives one entry per stored bean and keeps the same set of sources in the table. |
| Gc.DeltaEntries | deeplearning4j-ui-parent/deeplearning4j-ui-model/src/main/java/org/deeplearning4j/ui/stats/StatsListener.java:193-203 | The loop that reports and overwrites the stored pairs computes DeltaPass. |
| Gc.DeltaPassValues | deeplearning4j-ui-parent/deeplearning4j-ui-model/src/main/java/org/deeplearning4j/ui/stats/StatsListener.java:193-203 | With distinct names, entry i is bean i's current reading minus its stored pair, each cast to int. Each stored pair becomes the current reading, and any other stored source is untouched. |
| Gc.NoCollectionsNoDelta | deeplearning4j-ui-parent/deeplearning4j-ui-model/src/main/java/org/deeplearning4j/ui/stats/StatsListener.java:182-203 | With distinct names (as the platform's MXBean names are), reporting the very readings of the baseline gives zero deltas for every source. |
| Int32.Wrap | deeplearning4j-ui-parent/deeplearning4j-ui-model/src/main/java/org/deeplearning4j/ui/stats/StatsListener.java:202 | The (int) cast of a long lands in the 32-bit range and leaves a value already in range unchanged. |
| Int32.WrapKeepsLowBits | deeplearning4j-ui-parent/deeplearning4j-ui-model/src/main/java/org/deeplearning4j/ui/stats/StatsListener.java:303 | The cast keeps the value modulo 2^32. |
| Int32.WrapCongruent | deeplearning4j-ui-parent/deeplearning4j-ui-model/src/main/java/org/deeplearning4j/ui/stats/StatsListener.java:303 | Values congruent modulo 2^32 cast to the same int. |
| ModelViews.GetActivationArraysMap | deeplearning4j-ui-parent/deeplearning4j-ui-model/src/main/java/org/deeplearning4j/ui/stats/StatsListener.java:505-525 | Raises UnsupportedOperation exactly for a model other than a MultiLayerNetwork. For n layers the map has exactly the keys "0".."n-2" (none for n <= 1), and key i-1 maps to layer i's input. |
| ModelViews.ExtendActivations | deeplearning4j-ui-parent/deeplearning4j-ui-model/src/main/java/org/deeplearning4j/ui/stats/StatsListener.java:514-517 | One put of the loop extends the map of the first i-1 activations to the first i. |
| ModelViews.ActivationKeysStep | deeplearning4j-ui-parent/deeplearning4j-ui-model/src/main/java/org/deeplearning4j/ui/stats/StatsListener.java:514-516 | Each iteration adds a key not already present. |
| Decimal.ParseNatToString | deeplearning4j-ui-parent/deeplearning4j-ui-model/src/main/java/org/deeplearning4j/ui/stats/StatsListener.java:515 | String.valueOf of a non-negative int parses back to that int. |
| Decimal.NatToStringInjective | deeplearning4j-ui-parent/deeplearning4j-ui-model/src/main/java/org/deeplearning4j/ui/stats/StatsListener.java:515 | Distinct layer indices give distinct keys. |
| ModelViews.LastLayerWith | deeplearning4j-ui-parent/deeplearning4j-ui-model/src/main/java/org/deeplearning4j/ui/stats/StatsListener.java:220-223 | Finds the last layer that has a rate for a parameter, or -1 when none has. |
| ModelViews.MergeLearningRatesMeaning | deeplearning4j-ui-parent/deeplearning4j-ui-model/src/main/java/org/deeplearning4j/ui/stats/StatsListener.java:219-223 | A parameter has a rate in the putAll union exactly when some layer has one, and the rate comes from the last such layer. |
| ModelViews.GatherLearningRates | deeplearning4j-ui-parent/deeplearning4j-ui-model/src/main/java/org/deeplearning4j/ui/stats/StatsListener.java:210-226 | A map is reported exactly for a MultiLayerNetwork (the graph branch discards its layers), and it is the union over the layers in order. |
| Cadence.ReportDueIff | deeplearning4j-ui-parent/deeplearning4j-ui-model/src/main/java/org/deeplearning4j/ui/stats/StatsListener.java:130 | A call reports exactly when freq <= 1, or when iterCount > 0 and iterCount % freq == 0. |
| Cadence.LastReportBefore | deeplearning4j-ui-parent/deeplearning4j-ui-model/src/main/java/org/deeplearning4j/ui/stats/StatsListener.java:130-133 | The last reporting iteration before n is -1 or lies below n. |
| Cadence.ReportsAmongClosedForm | deeplearning4j-ui-parent/deeplearning4j-ui-model/src/main/java/org/deeplearning4j/ui/stats/StatsListener.java:130-133 | The calls 0..n-1 report n times when freq <= 1, and otherwise (n-1)/freq times (0 for n = 0). |
| Cadence.LastReportBeforeIsLatest | deeplearning4j-ui-parent/deeplearning4j-ui-model/src/main/java/org/deeplearning4j/ui/stats/StatsListener.java:130-133 | The last reporting iteration before n reports, and every later one below n skips. It is -1 exactly when none reports. |
| Cadence.FirstReportAtFrequency | deeplearning4j-ui-parent/deeplearning4j-ui-model/src/main/java/org/deeplearning4j/ui/stats/StatsListener.java:130 | With freq > 1, none of the calls 0..n-1 reports exactly when n <= freq, so the first report is at iterCount == freq. |
| Cadence.TwelveCallsFrequencyFive | deeplearning4j-ui-parent/deeplearning4j-ui-model/src/main/java/org/deeplearning4j/ui/stats/StatsListener.java:130 | Twelve calls at frequency 5 report twice, last at 10, and before that at 5. |
| ListenerSpec.FreshInv | deeplearning4j-ui-parent/deeplearning4j-ui-model/src/main/java/org/deeplearning4j/ui/stats/StatsListener.java:61-74 | The invariant holds for the initial fields. |
| ListenerSpec.InitKeepsInv | deeplearning4j-ui-parent/deeplearning4j-ui-model/src/main/java/org/deeplearning4j/ui/stats/StatsListener.java:415-423 | doInit keeps the invariant and leaves the listener initialized. |
| ListenerSpec.CountKeepsInv | deeplearning4j-ui-parent/deeplearning4j-ui-model/src/main/java/org/deeplearning4j/ui/stats/StatsListener.java:442-455 | The counts keep the totals equal to the sums over the counted batches, and the window equal to the batches since the last restart. |
| ListenerSpec.StartKeepsInv | deeplearning4j-ui-parent/deeplearning4j-ui-model/src/main/java/org/deeplearning4j/ui/stats/StatsListener.java:120-128 | The start of a call keeps the invariant and leaves iterCount, lastReportTime, lastReportIteration, the stored beans and the GC table alone. Once it gets past doInit, the listener is initialized. |
| ListenerSpec.GcBlockKeepsInv | deeplearning4j-ui-parent/deeplearning4j-ui-model/src/main/java/org/deeplearning4j/ui/stats/StatsListener.java:182-205 | Once beans are stored, the table has exactly their names as keys. |
| ListenerSpec.ReportBlocksKeepInv | deeplearning4j-ui-parent/deeplearning4j-ui-model/src/main/java/org/deeplearning4j/ui/stats/StatsListener.java:139-205 | The performance and GC blocks keep the invariant. |
| ListenerSpec.SkipKeepsInv | deeplearning4j-ui-parent/deeplearning4j-ui-model/src/main/java/org/deeplearning4j/ui/stats/StatsListener.java:130-133 | The early return keeps the invariant. |
| ListenerSpec.DeliverKeepsInv | deeplearning4j-ui-parent/deeplearning4j-ui-model/src/main/java/org/deeplearning4j/ui/stats/StatsListener.java:302-325 | Delivering an update with this identity keeps the invariant. |
| ListenerSpec.ReportOrSkipKeepsInv | deeplearning4j-ui-parent/deeplearning4j-ui-model/src/main/java/org/deeplearning4j/ui/stats/StatsListener.java:130-325 | Everything after the counts keeps the invariant, whether it returns early, raises or delivers. |
| ListenerSpec.StepKeepsInv | deeplearning4j-ui-parent/deeplearning4j-ui-model/src/main/java/org/deeplearning4j/ui/stats/StatsListener.java:116-326 | A whole call keeps the invariant. |
| ListenerProperties.StartEffect | deeplearning4j-ui-parent/deeplearning4j-ui-model/src/main/java/org/deeplearning4j/ui/stats/StatsListener.java:120-128 | The start of a call changes only initTime, doInit's fields and the counts, each as the source says, and gets past doInit unless doInit raises. |
| ListenerProperties.ReportBlocksEffect | deeplearning4j-ui-parent/deeplearning4j-ui-model/src/main/java/org/deeplearning4j/ui/stats/StatsListener.java:139-205 | The performance block reports PerformanceOf and restarts the window. The GC block stores a baseline on a first report and computes a delta pass later. Nothing else changes. |
| ListenerProperties.ReportOrSkipEffect | deeplearning4j-ui-parent/deeplearning4j-ui-model/src/main/java/org/deeplearning4j/ui/stats/StatsListener.java:130-325 | The rest of a call raises exactly when it reports and a statistics block raises. iterCount advances exactly on completion. An update is appended and lastReport* set exactly on a reporting completion; otherwise they are untouched. |
| ListenerProperties.BuildReportContent | deeplearning4j-ui-parent/deeplearning4j-ui-model/src/main/java/org/deeplearning4j/ui/stats/StatsListener.java:135-303 | A built report carries the identity, the report timestamp, the captured names, both blocks, the memory flag, the score, the learning rates, one entry per enabled statistics block and the duration cast to int. |
| ListenerProperties.StepOutcome | deeplearning4j-ui-parent/deeplearning4j-ui-model/src/main/java/org/deeplearning4j/ui/stats/StatsListener.java:121-133 | How a call ends depends only on iterCount, the configuration and the model's kind. doInit raises first, then the activation blocks raise on reporting calls. |
| ListenerProperties.StepCounts | deeplearning4j-ui-parent/deeplearning4j-ui-model/src/main/java/org/deeplearning4j/ui/stats/StatsListener.java:121-128 | iterCount grows by 1 exactly when the call completes. initTime, the parameter names and the init count change only at iterCount 0. Every call past doInit counts its batch when performance stats are on. |
| ListenerProperties.StepMessages | deeplearning4j-ui-parent/deeplearning4j-ui-model/src/main/java/org/deeplearning4j/ui/stats/StatsListener.java:121-124 | A call appends the init pair (first call only, unless doInit raises) and then exactly one update when it reports, and nothing otherwise. It never rewrites what was sent. |
| ListenerProperties.StepLastReport | deeplearning4j-ui-parent/deeplearning4j-ui-model/src/main/java/org/deeplearning4j/ui/stats/StatsListener.java:302-305 | lastReportTime becomes currentTime and lastReportIteration the pre-increment iterCount exactly on calls that report. Otherwise both are unchanged. |
| ListenerProperties.StepTotalsMonotone | deeplearning4j-ui-parent/deeplearning4j-ui-model/src/main/java/org/deeplearning4j/ui/stats/StatsListener.java:126-128 | totalExamples and totalMinibatches never decrease over a call. |
| ListenerProperties.StepRoutesBuilt | deeplearning4j-ui-parent/deeplearning4j-ui-model/src/main/java/org/deeplearning4j/ui/stats/StatsListener.java:135-307 | The update a reporting call routes is the one built from the state its start left. |
| ListenerProperties.StepReport | deeplearning4j-ui-parent/deeplearning4j-ui-model/src/main/java/org/deeplearning4j/ui/stats/StatsListener.java:135-303 | The routed update carries the identity, the report timestamp, the names captured at init, the memory flag, the score, the learning rates, each enabled statistics block over its names, and the duration cast to int. |
| ListenerProperties.StepPerformance | deeplearning4j-ui-parent/deeplearning4j-ui-model/src/main/java/org/deeplearning4j/ui/stats/StatsListener.java:139-153 | The routed performance block holds the runtime since initTime and the totals over every counted batch. Its window is empty at iterCount 0, and otherwise covers currentTime - lastReportTime and the batches since the last restart. |
| ListenerProperties.StepWindow | deeplearning4j-ui-parent/deeplearning4j-ui-model/src/main/java/org/deeplearning4j/ui/stats/StatsListener.java:155-156 | A call that reaches the performance block leaves both since-last-report counters at 0, even if it later raises. |
| ListenerProperties.StepGcState | deeplearning4j-ui-parent/deeplearning4j-ui-model/src/main/java/org/deeplearning4j/ui/stats/StatsListener.java:182-205 | A first report stores the platform's beans and their baseline. A later one keeps the beans (sources fixed at baseline time) and overwrites each stored pair. Calls that do not reach the block change neither. |
| ListenerProperties.StepGcReport | deeplearning4j-ui-parent/deeplearning4j-ui-model/src/main/java/org/deeplearning4j/ui/stats/StatsListener.java:182-205 | A routed update has no GC entries on a first report or with GC stats off, and otherwise the delta of each stored bean against its stored pair. |
| ListenerProperties.FirstWindowAgainstMinusOne | deeplearning4j-ui-parent/deeplearning4j-ui-model/src/main/java/org/deeplearning4j/ui/stats/StatsListener.java:130-148 | With freq > 1 nothing but init pairs has been sent before iterCount == freq. That call's window spans currentTime + 1, measured against lastReportTime == -1. |
| ListenerProperties.FirstCallSendsInit | deeplearning4j-ui-parent/deeplearning4j-ui-model/src/main/java/org/deeplearning4j/ui/stats/StatsListener.java:121-124 | A call at iterCount 0 whose doInit succeeds routes the storage metadata and then the static info, right after what was sent before. |
| ListenerProperties.ThrowAtFirstCallRepeatsInit | deeplearning4j-ui-parent/deeplearning4j-ui-model/src/main/java/org/deeplearning4j/ui/stats/StatsListener.java:121-124 | A raise at iterCount 0 leaves iterCount at 0, and the next call sends a second init pair. A raise from a statistics block had already sent the first pair. |
| ListenerProperties.UpdatesAfterCalls | deeplearning4j-ui-parent/deeplearning4j-ui-model/src/main/java/org/deeplearning4j/ui/stats/StatsListener.java:130-133 | After any run, the init pairs (metadata then static info) come first and updates only after them. There are iterCount updates when freq <= 1 and (iterCount-1)/freq otherwise, all with the listener's identity. |
| ListenerProperties.LastReportIsLatest | deeplearning4j-ui-parent/deeplearning4j-ui-model/src/main/java/org/deeplearning4j/ui/stats/StatsListener.java:302-305 | lastReportIteration is the latest completed call the cadence did not skip, and every later completed call skipped. It is -1 (with lastReportTime -1) exactly while no update has been sent. |

## Left out

- Memory statistics (lines 159-180) are left out because they read JVM runtime, off-heap and
  GPU device counters. A report carries only the memory flag.
- Software and hardware information (lines 338-385) comes from MXBeans, native device calls and a
  hostname process. The static info carries only the two flags.
- The model's JSON configuration and its layer and parameter counts (lines 387-413) are
  serialisation and foreign calls. The static info carries the class name and parameter names;
  the exception for other models is kept.
- Histogram and summary-statistic values (lines 457-503) are floating-point numerics over
  ND4J arrays. A report carries each enabled block's key set only.
- The per-second rates (lines 149-150) are left out because they are floating point. The model
  keeps the integer window they divide by.
- Report encoding (`SbeStatsReport`, `SbeStatsInitializationReport`) is not modelled, nor is what
  the router does with a message. The router records the messages it is handed.
- Generating the random UUID and the JVM UID (lines 93-103) is outside the model. Both are
  constructor parameters.
- `DefaultStatsUpdateConfiguration` and its builder are not part of this model. The constructor
  takes the resolved update configuration.
- The commented-out error handling (lines 51-54, 309-324, 425-439) is not active code. Router
  failures are not modelled.
- `invoke()` (lines 111-114) does nothing and is not modelled. `iterationDone`'s `iteration`
  argument is accepted but unused, as in the source.
- The activation map is rebuilt by each activation block in the source (lines 243, 262, 279,
  296) but built once here. It is the same map each time.
- The GC counters are read at the start of a reporting call rather than inside the GC block.
  Nothing in the call changes them; concurrent collections on a real JVM are not modelled.
- Stats.StatsListener.UpdateExamplesMinibatchesCounts leaves out the 32-bit wrap-around of
  `examplesSinceLastReport` and `minibatchesSinceLastReport`, and the 64-bit limit of the totals,
  because they are unbounded here.
- Stats.StatsListener.IterationDone and Stats.StatsListener.ReportOrSkip leave out the 32-bit
  wrap-around of `iterCount` (line 325). The value copied into `lastReportIteration` and the
  `iterCount % frequency` test of the cadence in module `Cadence` (line 130) are taken on the
  unbounded count.
- Gc.DeltaPass leaves out the 64-bit limit of the long subtraction before each (int) cast, because
  the subtraction is unbounded here.
