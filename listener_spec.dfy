/**
 * What `StatsListener` does to its fields, on values: the fields as one record, and one
 * function per part of `iterationDone`. The class in module Stats is proved to take exactly
 * these steps; the listener's properties are proved here, about the steps.
 */
module ListenerSpec {
  import opened StatsTypes
  import opened Gc
  import opened Cadence
  import opened ModelViews
  import Int32

  const TYPE_ID: string := "StatsListener"

  function Sum(s: seq<nat>): nat
  {
    if s == [] then 0 else Sum(s[..|s| - 1]) + s[|s| - 1]
  }

  lemma SumAppend(s: seq<nat>, x: nat)
    ensures Sum(s + [x]) == Sum(s) + x
  {
    assert (s + [x])[..|s|] == s;
  }

  /** The batch size `updateExamplesMinibatchesCounts` reads; 0 for a model of no recognised kind. */
  function ExamplesThisMinibatch(model: Model): nat
  {
    match model.topology
    case MultiLayerNetwork(_, rows) => rows
    case ComputationGraph(_, rows) => rows
    case SingleLayer(size) => size
    case OtherModel => 0
  }

  function BeanNames(beans: seq<GcBean>): set<string>
  {
    set b | b in beans :: b.name
  }

  /** Readings that line up with the beans carry exactly the beans' names. */
  lemma ReadingNames(rs: seq<GcReading>, beans: seq<GcBean>)
    requires NamesMatch(rs, beans)
    ensures Names(rs) == BeanNames(beans)
  {
    forall n | n in BeanNames(beans) ensures n in Names(rs) {
      var i :| 0 <= i < |beans| && beans[i].name == n;
      assert rs[i].name == n;
    }
  }

  /** A table keyed by the beans' names has a pair for each reading of those beans. */
  lemma ReadingsCovered(rs: seq<GcReading>, beans: seq<GcBean>, table: map<string, GcCounts>)
    requires NamesMatch(rs, beans) && table.Keys == BeanNames(beans)
    ensures Covers(table, rs)
  {
    forall i | 0 <= i < |rs| ensures rs[i].name in table {
      assert beans[i] in beans;
    }
  }

  /** The names each kind of block covers: parameter names, gradient names, activation keys. */
  function NamesFor(model: Model, category: StatsType): set<string>
  {
    match category
    case Parameters => set k | k in model.paramTableKeys
    case Updates => model.gradientKeys
    case Activations =>
      if model.topology.MultiLayerNetwork? then ActivationKeys(|model.topology.layers|) else {}
  }

  /**
   * The histogram, mean, standard-deviation and mean-magnitude blocks of one report: each
   * enabled block over the names of its category, unless some enabled activation block meets
   * a model that is not a MultiLayerNetwork, which raises.
   */
  function StatsOf(config: UpdateConfig, model: Model): (r: Result<map<Section, set<string>>>)
    ensures r.Err? <==>
      (exists sec :: sec in config.sections && sec.category == Activations) && !model.topology.MultiLayerNetwork?
    ensures r.Err? ==> r.error == UnsupportedOperation
    ensures r.Ok? ==> r.value.Keys == config.sections
    ensures r.Ok? ==> forall sec :: sec in r.value ==> r.value[sec] == NamesFor(model, sec.category)
  {
    if config.NeedsActivations() && !model.topology.MultiLayerNetwork? then
      assert Section(Histogram, Activations) in config.sections || Section(Mean, Activations) in config.sections
        || Section(Stdev, Activations) in config.sections || Section(MeanMagnitude, Activations) in config.sections;
      Err(UnsupportedOperation)
    else
      ActivationSectionNeedsActivations(config);
      Ok(map sec | sec in config.sections :: NamesFor(model, sec.category))
  }

  lemma ActivationSectionNeedsActivations(config: UpdateConfig)
    ensures (exists sec :: sec in config.sections && sec.category == Activations) ==> config.NeedsActivations()
  {
    if sec :| sec in config.sections && sec.category == Activations {
      match sec.stat
      case Histogram =>
      case Mean =>
      case Stdev =>
      case MeanMagnitude =>
    }
  }

  /** The message order: pairs of (storage metadata, static info), then only updates. */
  predicate InitsThenUpdates(s: seq<Message>, initPairs: nat)
  {
    && 2 * initPairs <= |s|
    && (forall j :: 0 <= j < 2 * initPairs ==>
          if j % 2 == 0 then s[j].PutStorageMetaData? else s[j].PutStaticInfo?)
    && (forall j :: 2 * initPairs <= j < |s| ==> s[j].PutUpdate?)
  }

  /** A message carries the listener's identity triple. */
  predicate SentBy(m: Message, sessionID: string, workerID: string)
  {
    match m
    case PutStorageMetaData(meta) => meta.sessionID == sessionID && meta.typeID == TYPE_ID && meta.workerID == workerID
    case PutStaticInfo(init) => init.sessionID == sessionID && init.typeID == TYPE_ID && init.workerID == workerID
    case PutUpdate(report) => report.sessionID == sessionID && report.typeID == TYPE_ID && report.workerID == workerID
  }

  /** The listener's constants: the resolved configurations and its identity. */
  datatype ListenerSettings = ListenerSettings(
    initConfig: InitConfig, updateConfig: UpdateConfig, sessionID: string, workerID: string)
  {
    function Frequency(): int { updateConfig.reportingFrequency }
  }

  /** The listener's fields, with the history the proofs keep beside them. */
  datatype ListenerState = ListenerState(
    iterCount: nat,
    initTime: int,
    lastReportTime: int,
    lastReportIteration: int,
    examplesSinceLastReport: nat,
    minibatchesSinceLastReport: nat,
    totalExamples: nat,
    totalMinibatches: nat,
    paramNames: Option<seq<string>>,
    gcBeans: Option<seq<GcBean>>,
    gcStatsAtLastReport: map<string, GcCounts>,
    sent: seq<Message>,   // every message handed to the router, in order
    initPairs: nat,       // how many times doInit has sent its two messages
    batches: seq<nat>,    // the batch size of every counted call, in order
    windowStart: nat)     // where in batches the since-last-report counters last restarted

  /** The fields of a newly constructed listener. */
  function Fresh(): ListenerState
  {
    ListenerState(0, 0, -1, -1, 0, 0, 0, 0, None, None, map[], [], 0, [], 0)
  }

  // ----- The invariant -----

  /** The last report is the latest call, among those completed, that the cadence did not skip. */
  predicate CadenceInv(c: ListenerSettings, s: ListenerState)
  {
    && s.lastReportIteration == LastReportBefore(c.Frequency(), s.iterCount)
    && (s.lastReportIteration == -1 ==> s.lastReportTime == -1)
  }

  /** Init pairs, then one update per completed reporting call; all with this identity. */
  predicate MessagesInv(c: ListenerSettings, s: ListenerState)
  {
    && InitsThenUpdates(s.sent, s.initPairs)
    && |s.sent| - 2 * s.initPairs == ReportsAmong(c.Frequency(), s.iterCount)
    && (s.iterCount > 0 ==> Initialized(s))
    && (forall j :: 0 <= j < |s.sent| ==> SentBy(s.sent[j], c.sessionID, c.workerID))
  }

  /** doInit has run to completion at least once. */
  predicate Initialized(s: ListenerState)
  {
    s.initPairs > 0 && s.paramNames.Some?
  }

  /** The counters are sums over the counted batch sizes; all zero when performance stats are off. */
  predicate CountersInv(c: ListenerSettings, s: ListenerState)
  {
    if c.updateConfig.collectPerformanceStats then
      && s.totalExamples == Sum(s.batches) && s.totalMinibatches == |s.batches|
      && s.windowStart <= |s.batches|
      && s.examplesSinceLastReport == Sum(s.batches[s.windowStart..])
      && s.minibatchesSinceLastReport == |s.batches| - s.windowStart
    else
      && s.batches == [] && s.windowStart == 0
      && s.totalExamples == 0 && s.totalMinibatches == 0
      && s.examplesSinceLastReport == 0 && s.minibatchesSinceLastReport == 0
  }

  /** Once beans are stored, the table has exactly their names as keys. */
  predicate GcInv(s: ListenerState)
  {
    s.gcBeans.Some? ==> s.gcStatsAtLastReport.Keys == BeanNames(s.gcBeans.value)
  }

  predicate Inv(c: ListenerSettings, s: ListenerState)
  {
    CadenceInv(c, s) && MessagesInv(c, s) && CountersInv(c, s) && GcInv(s)
  }

  lemma FreshInv(c: ListenerSettings)
    ensures Inv(c, Fresh())
  {
    assert Fresh().batches[0..] == [];
  }

  // ----- The parts of a call -----

  /** doInit raises for model info on a model that is neither a MultiLayerNetwork nor a ComputationGraph. */
  predicate InitFails(c: ListenerSettings, model: Model)
  {
    c.initConfig.collectModelInfo && !model.IsNetwork()
  }

  /** The two messages of doInit, both stamped with doInit's own clock reading. */
  function InitMessages(c: ListenerSettings, model: Model, initReportTime: int): seq<Message>
  {
    [ Message.PutStorageMetaData(StorageMetaData(initReportTime, c.sessionID, TYPE_ID, c.workerID)),
      Message.PutStaticInfo(InitReport(c.sessionID, TYPE_ID, c.workerID, initReportTime,
        c.initConfig.collectSoftwareInfo, c.initConfig.collectHardwareInfo,
        if c.initConfig.collectModelInfo then Some(ModelInfo(model.className, model.paramTableKeys)) else None)) ]
  }

  /** doInit when it does not raise: capture the parameter names, then send its two messages. */
  function Init(c: ListenerSettings, s: ListenerState, model: Model, initReportTime: int): ListenerState
  {
    s.(paramNames := Some(model.paramTableKeys),
       sent := s.sent + InitMessages(c, model, initReportTime),
       initPairs := s.initPairs + 1)
  }

  /** updateExamplesMinibatchesCounts. */
  function Count(s: ListenerState, model: Model): ListenerState
  {
    var e := ExamplesThisMinibatch(model);
    s.(examplesSinceLastReport := s.examplesSinceLastReport + e,
       totalExamples := s.totalExamples + e,
       minibatchesSinceLastReport := s.minibatchesSinceLastReport + 1,
       totalMinibatches := s.totalMinibatches + 1,
       batches := s.batches + [e])
  }

  /** The performance block: runtime and totals, and the rate window unless this is the first call. */
  function PerformanceOf(s: ListenerState, currentTime: int): Performance
  {
    Performance(currentTime - s.initTime, s.totalExamples, s.totalMinibatches,
      if s.iterCount == 0 then FirstIteration
      else Window(currentTime - s.lastReportTime, s.examplesSinceLastReport, s.minibatchesSinceLastReport))
  }

  /** After the performance block both since-last-report counters restart. */
  function RestartWindow(s: ListenerState): ListenerState
  {
    s.(examplesSinceLastReport := 0, minibatchesSinceLastReport := 0, windowStart := |s.batches|)
  }

  /** The GC block stores a baseline (rather than reporting deltas) before any report or with no beans stored. */
  predicate GcFirstReport(s: ListenerState)
  {
    s.lastReportIteration == -1 || s.gcBeans.None?
  }

  /** The beans the GC block reads: the platform's on a first report, the stored list after. */
  function GcBeansToRead(s: ListenerState, platformBeans: seq<GcBean>): seq<GcBean>
  {
    if GcFirstReport(s) then platformBeans else s.gcBeans.value
  }

  /** The GC block, given what the beans it reads show now: the entries it reports and the new state. */
  function GcBlock(s: ListenerState, platformBeans: seq<GcBean>, now: seq<GcReading>): (seq<GcEntry>, ListenerState)
    requires GcInv(s) && NamesMatch(now, GcBeansToRead(s, platformBeans))
  {
    if GcFirstReport(s) then
      ([], s.(gcBeans := Some(platformBeans), gcStatsAtLastReport := Baseline(now)))
    else
      ReadingsCovered(now, s.gcBeans.value, s.gcStatsAtLastReport);
      var pass := DeltaPass(now, s.gcStatsAtLastReport);
      (pass.0, s.(gcStatsAtLastReport := pass.1))
  }

  /** The learning rates of a report: only a MultiLayerNetwork's, and only when enabled. */
  function LearningRatesOf(config: UpdateConfig, model: Model): Option<map<string, real>>
  {
    if config.collectLearningRates && model.topology.MultiLayerNetwork?
    then Some(MergeLearningRates(model.topology.layers)) else None
  }

  /** The performance and GC blocks of a report: what they report and the state they leave. */
  function ReportBlocks(c: ListenerSettings, s: ListenerState, currentTime: int,
                        platformBeans: seq<GcBean>, now: seq<GcReading>): (Option<Performance>, seq<GcEntry>, ListenerState)
    requires GcInv(s)
    requires c.updateConfig.collectGarbageCollectionStats ==> NamesMatch(now, GcBeansToRead(s, platformBeans))
  {
    var config := c.updateConfig;
    var performance := if config.collectPerformanceStats then Some(PerformanceOf(s, currentTime)) else None;
    var s1 := if config.collectPerformanceStats then RestartWindow(s) else s;
    var gc := if config.collectGarbageCollectionStats then GcBlock(s1, platformBeans, now) else ([], s1);
    (performance, gc.0, gc.1)
  }

  /**
   * The part of a reporting call from the performance block to the stats blocks. When a stats
   * block raises, what the performance and GC blocks changed stays changed.
   */
  function BuildReport(c: ListenerSettings, s: ListenerState, model: Model, clock: Clock,
                       platformBeans: seq<GcBean>, now: seq<GcReading>): (Result<UpdateReport>, ListenerState)
    requires GcInv(s) && s.paramNames.Some?
    requires c.updateConfig.collectGarbageCollectionStats ==> NamesMatch(now, GcBeansToRead(s, platformBeans))
  {
    var blocks := ReportBlocks(c, s, clock.currentTime, platformBeans, now);
    var stats := StatsOf(c.updateConfig, model);
    if stats.Err? then (Err(stats.error), blocks.2)
    else
      (Ok(UpdateReport(c.sessionID, TYPE_ID, c.workerID, clock.reportTime, s.paramNames.value,
         blocks.0, c.updateConfig.collectMemoryStats, blocks.1, model.score, LearningRatesOf(c.updateConfig, model),
         stats.value, Int32.Wrap(clock.endTime - clock.currentTime))), blocks.2)
  }

  /** The end of a reporting call: record the report, route it, count the call. */
  function Deliver(s: ListenerState, report: UpdateReport, currentTime: int): ListenerState
  {
    s.(lastReportTime := currentTime, lastReportIteration := s.iterCount,
       sent := s.sent + [Message.PutUpdate(report)], iterCount := s.iterCount + 1)
  }

  /** Init on the call with iterCount == 0, then the counts. False when doInit raises. */
  function Start(c: ListenerSettings, s: ListenerState, model: Model, clock: Clock): (bool, ListenerState)
  {
    var s1 := if s.iterCount == 0 then s.(initTime := clock.currentTime) else s;
    if s.iterCount == 0 && InitFails(c, model) then (false, s1)
    else
      var s2 := if s.iterCount == 0 then Init(c, s1, model, clock.initReportTime) else s1;
      (true, if c.updateConfig.collectPerformanceStats then Count(s2, model) else s2)
  }

  /** What `now` must be for a call: the readings of the beans its GC block reads, when it has one. */
  predicate ReadingsFit(c: ListenerSettings, s: ListenerState, platformBeans: seq<GcBean>, now: seq<GcReading>)
  {
    c.updateConfig.collectGarbageCollectionStats && !SkipsReport(c.Frequency(), s.iterCount) ==>
      NamesMatch(now, GcBeansToRead(s, platformBeans))
  }

  /** After the counts: the early return the cadence selects, or build and deliver the report. */
  function ReportOrSkip(c: ListenerSettings, s: ListenerState, model: Model, clock: Clock,
                        platformBeans: seq<GcBean>, now: seq<GcReading>): (Outcome, ListenerState)
    requires GcInv(s) && s.paramNames.Some? && ReadingsFit(c, s, platformBeans, now)
  {
    if SkipsReport(c.Frequency(), s.iterCount) then (Completed, s.(iterCount := s.iterCount + 1))
    else
      var built := BuildReport(c, s, model, clock, platformBeans, now);
      if built.0.Err? then (Threw(built.0.error), built.1)
      else (Completed, Deliver(built.1, built.0.value, clock.currentTime))
  }

  /** One call of `iterationDone`: how it ends and the listener's fields afterwards. */
  function Step(c: ListenerSettings, s: ListenerState, model: Model, clock: Clock,
                platformBeans: seq<GcBean>, now: seq<GcReading>): (Outcome, ListenerState)
    requires Inv(c, s) && ReadingsFit(c, s, platformBeans, now)
  {
    var started := Start(c, s, model, clock);
    if !started.0 then (Threw(UnsupportedModel), started.1)
    else ReportOrSkip(c, started.1, model, clock, platformBeans, now)
  }

  // ----- Properties of one call -----

  /** The arguments alone decide whether a call ends normally or raises, and with what. */
  function CallOutcome(c: ListenerSettings, iterCount: nat, model: Model): Outcome
  {
    if iterCount == 0 && InitFails(c, model) then Threw(UnsupportedModel)
    else if !SkipsReport(c.Frequency(), iterCount)
            && (exists sec :: sec in c.updateConfig.sections && sec.category == Activations)
            && !model.topology.MultiLayerNetwork?
    then Threw(UnsupportedOperation)
    else Completed
  }

  /**
   * A log that grows by what one sequence adds to another, twice in a row, grows by what the
   * two additions make up together.
   */
  lemma LogFollows<T>(log0: seq<T>, log1: seq<T>, log2: seq<T>, a: seq<T>, b: seq<T>, c: seq<T>)
    requires |a| <= |b| && b[..|a|] == a && |b| <= |c| && c[..|b|] == b
    requires log1 == log0 + b[|a|..] && log2 == log1 + c[|b|..]
    ensures |a| <= |c| && c[..|a|] == a
    ensures log2 == log0 + c[|a|..]
  {
    assert c[..|b|][..|a|] == c[..|a|];
    assert c[|a|..] == b[|a|..] + c[|b|..];
  }

  // ----- The invariant is kept -----

  /** doInit on the call with iterCount == 0 keeps the message invariant and captures the parameter names. */
  lemma InitKeepsInv(c: ListenerSettings, s: ListenerState, model: Model, t: int)
    requires Inv(c, s) && s.iterCount == 0
    ensures Inv(c, Init(c, s, model, t)) && Initialized(Init(c, s, model, t))
  {
    var s' := Init(c, s, model, t);
    assert |s.sent| == 2 * s.initPairs;
    forall j | 0 <= j < |s'.sent| ensures SentBy(s'.sent[j], c.sessionID, c.workerID) {
      if j < |s.sent| {
        assert s'.sent[j] == s.sent[j];
      }
    }
  }

  /** Counting a call keeps the counters equal to the sums over the batch history. */
  lemma CountKeepsInv(c: ListenerSettings, s: ListenerState, model: Model)
    requires Inv(c, s) && c.updateConfig.collectPerformanceStats
    ensures Inv(c, Count(s, model))
  {
    var e := ExamplesThisMinibatch(model);
    SumAppend(s.batches, e);
    assert (s.batches + [e])[s.windowStart..] == s.batches[s.windowStart..] + [e];
    SumAppend(s.batches[s.windowStart..], e);
  }

  /** The start of a call keeps the invariant; when it completes it leaves the parameter names captured. */
  lemma StartKeepsInv(c: ListenerSettings, s: ListenerState, model: Model, clock: Clock)
    requires Inv(c, s)
    ensures var (ok, s') := Start(c, s, model, clock);
      && Inv(c, s')
      && s'.iterCount == s.iterCount && s'.lastReportIteration == s.lastReportIteration
      && s'.lastReportTime == s.lastReportTime
      && s'.gcBeans == s.gcBeans && s'.gcStatsAtLastReport == s.gcStatsAtLastReport
      && (ok ==> Initialized(s'))
  {
    var s1 := if s.iterCount == 0 then s.(initTime := clock.currentTime) else s;
    if !(s.iterCount == 0 && InitFails(c, model)) {
      if s.iterCount == 0 {
        InitKeepsInv(c, s1, model, clock.initReportTime);
      }
      var s2 := if s.iterCount == 0 then Init(c, s1, model, clock.initReportTime) else s1;
      if c.updateConfig.collectPerformanceStats {
        CountKeepsInv(c, s2, model);
      }
    }
  }

  /** The GC block keeps the table keyed by the stored beans' names. */
  lemma GcBlockKeepsInv(s: ListenerState, platformBeans: seq<GcBean>, now: seq<GcReading>)
    requires GcInv(s) && NamesMatch(now, GcBeansToRead(s, platformBeans))
    ensures GcInv(GcBlock(s, platformBeans, now).1)
  {
    if GcFirstReport(s) {
      ReadingNames(now, platformBeans);
    }
  }

  /** The performance and GC blocks touch only the window counters and the GC fields, and keep the invariant. */
  lemma ReportBlocksKeepInv(c: ListenerSettings, s: ListenerState, currentTime: int,
                            platformBeans: seq<GcBean>, now: seq<GcReading>)
    requires Inv(c, s)
    requires c.updateConfig.collectGarbageCollectionStats ==> NamesMatch(now, GcBeansToRead(s, platformBeans))
    ensures var s' := ReportBlocks(c, s, currentTime, platformBeans, now).2;
      && Inv(c, s')
      && s'.iterCount == s.iterCount && s'.paramNames == s.paramNames && s'.initPairs == s.initPairs
  {
    var s1 := if c.updateConfig.collectPerformanceStats then RestartWindow(s) else s;
    if c.updateConfig.collectPerformanceStats {
      assert s1.batches[s1.windowStart..] == [];
    }
    if c.updateConfig.collectGarbageCollectionStats {
      GcBlockKeepsInv(s1, platformBeans, now);
    }
  }

  /** A call the cadence skips keeps the invariant: it only advances the call count. */
  lemma SkipKeepsInv(c: ListenerSettings, s: ListenerState)
    requires Inv(c, s) && Initialized(s) && SkipsReport(c.Frequency(), s.iterCount)
    ensures Inv(c, s.(iterCount := s.iterCount + 1))
  {
  }

  /** Delivering a report with this identity on a reporting call keeps the invariant. */
  lemma DeliverKeepsInv(c: ListenerSettings, s: ListenerState, report: UpdateReport, t: int)
    requires Inv(c, s) && Initialized(s) && !SkipsReport(c.Frequency(), s.iterCount)
    requires SentBy(Message.PutUpdate(report), c.sessionID, c.workerID)
    ensures Inv(c, Deliver(s, report, t))
  {
    var s' := Deliver(s, report, t);
    forall j | 0 <= j < |s'.sent|
      ensures SentBy(s'.sent[j], c.sessionID, c.workerID)
      ensures j >= 2 * s.initPairs ==> s'.sent[j].PutUpdate?
    {
      if j < |s.sent| {
        assert s'.sent[j] == s.sent[j];
      }
    }
  }

  /** The rest of a call keeps the invariant. */
  lemma ReportOrSkipKeepsInv(c: ListenerSettings, s: ListenerState, model: Model, clock: Clock,
                             platformBeans: seq<GcBean>, now: seq<GcReading>)
    requires Inv(c, s) && Initialized(s) && ReadingsFit(c, s, platformBeans, now)
    ensures Inv(c, ReportOrSkip(c, s, model, clock, platformBeans, now).1)
  {
    if SkipsReport(c.Frequency(), s.iterCount) {
      SkipKeepsInv(c, s);
    } else {
      ReportBlocksKeepInv(c, s, clock.currentTime, platformBeans, now);
      var built := BuildReport(c, s, model, clock, platformBeans, now);
      if built.0.Ok? {
        DeliverKeepsInv(c, built.1, built.0.value, clock.currentTime);
      }
    }
  }

  /** Every call keeps the invariant, whether it completes or raises. */
  lemma StepKeepsInv(c: ListenerSettings, s: ListenerState, model: Model, clock: Clock,
                     platformBeans: seq<GcBean>, now: seq<GcReading>)
    requires Inv(c, s) && ReadingsFit(c, s, platformBeans, now)
    ensures Inv(c, Step(c, s, model, clock, platformBeans, now).1)
  {
    StartKeepsInv(c, s, model, clock);
    var started := Start(c, s, model, clock);
    if started.0 {
      ReportOrSkipKeepsInv(c, started.1, model, clock, platformBeans, now);
    }
  }
}
