/**
 * `StatsListener`: the per-iteration bookkeeping of a training-run listener. On its first
 * call it sends the storage metadata and the initialization report; on every call it counts
 * examples and minibatches; on the calls the cadence selects it builds one update report
 * and hands it to the router. Each method is proved to take the step of module ListenerSpec
 * that describes it.
 */
module Stats {
  import opened StatsTypes
  import opened Gc
  import opened Cadence
  import opened ModelViews
  import opened Decimal
  import opened Routing
  import opened ListenerSpec
  import Int32

  /**
   * The histogram, mean, standard-deviation and mean-magnitude blocks of `iterationDone`.
   * The source rebuilds the activation map for each activation block; it is the same map
   * each time, so it is built once here, before the first block that needs it.
   */
  method CollectStats(config: UpdateConfig, model: Model) returns (r: Result<map<Section, set<string>>>)
    ensures r == StatsOf(config, model)
  {
    var activationNames: set<string> := {};
    if config.NeedsActivations() {
      var activations := GetActivationArraysMap(model);
      if activations.Err? {
        return Err(activations.error);
      }
      activationNames := activations.value.Keys;
    }
    var stats := map s | s in config.sections ::
      match s.category
      case Parameters => set k | k in model.paramTableKeys
      case Updates => model.gradientKeys
      case Activations => activationNames;
    ActivationSectionNeedsActivations(config);
    assert forall sec :: sec in stats ==> stats[sec] == NamesFor(model, sec.category);
    assert stats == map sec | sec in config.sections :: NamesFor(model, sec.category);
    return Ok(stats);
  }

  class StatsListener {
    const router: Router
    const initConfig: InitConfig
    const updateConfig: UpdateConfig
    const sessionID: string
    const workerID: string

    var iterCount: nat
    var initTime: int
    var lastReportTime: int
    var lastReportIteration: int
    var examplesSinceLastReport: nat
    var minibatchesSinceLastReport: nat
    var totalExamples: nat
    var totalMinibatches: nat
    var paramNames: Option<seq<string>>
    var gcBeans: Option<seq<GcBean>>
    var gcStatsAtLastReport: map<string, GcCounts>

    /** The messages this listener has handed to the router, in order. */
    ghost var sent: seq<Message>
    /** How many times doInit has sent its two messages. */
    ghost var initPairs: nat
    /** The batch size of every counted call, in order. */
    ghost var batches: seq<nat>
    /** Where in `batches` the since-last-report counters were last reset. */
    ghost var windowStart: nat

    function Settings(): ListenerSettings
    {
      ListenerSettings(initConfig, updateConfig, sessionID, workerID)
    }

    /** The fields as one value. */
    ghost function State(): ListenerState
      reads this
    {
      ListenerState(iterCount, initTime, lastReportTime, lastReportIteration,
        examplesSinceLastReport, minibatchesSinceLastReport, totalExamples, totalMinibatches,
        paramNames, gcBeans, gcStatsAtLastReport, sent, initPairs, batches, windowStart)
    }

    ghost predicate Valid()
      reads this
    {
      Inv(Settings(), State())
    }

    /** The constructor: absent configuration and IDs take their defaults; the IDs never change afterwards. */
    constructor (router: Router, initConfig: Option<InitConfig>, updateConfig: UpdateConfig,
                 sessionID: Option<string>, workerID: Option<string>,
                 randomUUID: string, jvmUID: string, threadID: nat)
      ensures Valid() && State() == Fresh()
      ensures this.router == router && this.updateConfig == updateConfig
      ensures this.initConfig == if initConfig.Some? then initConfig.value else InitConfig(true, true, true)
      ensures this.sessionID == if sessionID.Some? then sessionID.value else randomUUID
      ensures this.workerID == if workerID.Some? then workerID.value else jvmUID + "_" + NatToString(threadID)
    {
      this.router := router;
      this.initConfig := if initConfig.Some? then initConfig.value else InitConfig(true, true, true);
      this.updateConfig := updateConfig;
      this.sessionID := if sessionID.Some? then sessionID.value else randomUUID;
      this.workerID := if workerID.Some? then workerID.value else jvmUID + "_" + NatToString(threadID);
      iterCount := 0;
      initTime := 0;
      lastReportTime := -1;
      lastReportIteration := -1;
      examplesSinceLastReport := 0;
      minibatchesSinceLastReport := 0;
      totalExamples := 0;
      totalMinibatches := 0;
      paramNames := None;
      gcBeans := None;
      gcStatsAtLastReport := map[];
      sent := [];
      initPairs := 0;
      batches := [];
      windowStart := 0;
      new;
      FreshInv(Settings());
    }

    /** `invoked()`: some call has completed; by then the init messages are out. */
    function Invoked(): (r: bool)
      reads this
      requires Valid()
      ensures r <==> iterCount > 0
      ensures r ==> |sent| >= 2 && sent[0].PutStorageMetaData? && sent[1].PutStaticInfo?
      ensures !r ==> forall j :: 0 <= j < |sent| ==> !sent[j].PutUpdate?
    {
      iterCount > 0
    }

    /** `doInit`: capture the parameter names, then send the metadata and the static info, in that order. */
    method DoInit(model: Model, initReportTime: int) returns (ok: bool)
      modifies this, router
      ensures ok <==> !InitFails(Settings(), model)
      ensures State() == if ok then Init(Settings(), old(State()), model, initReportTime) else old(State())
      ensures router.log == old(router.log) + (if ok then InitMessages(Settings(), model, initReportTime) else [])
    {
      if InitFails(Settings(), model) {
        return false;
      }
      var msgs := InitMessages(Settings(), model, initReportTime);
      paramNames := Some(model.paramTableKeys);
      router.PutStorageMetaData(msgs[0].meta);
      router.PutStaticInfo(msgs[1].init);
      sent, initPairs := sent + msgs, initPairs + 1;
      return true;
    }

    /** `updateExamplesMinibatchesCounts`: one more minibatch of the model's batch size, on both pairs of counters. */
    method UpdateExamplesMinibatchesCounts(model: Model)
      modifies this
      ensures State() == Count(old(State()), model)
    {
      var examplesThisMinibatch := ExamplesThisMinibatch(model);
      examplesSinceLastReport, totalExamples, minibatchesSinceLastReport, totalMinibatches, batches :=
        examplesSinceLastReport + examplesThisMinibatch, totalExamples + examplesThisMinibatch,
        minibatchesSinceLastReport + 1, totalMinibatches + 1, batches + [examplesThisMinibatch];
    }

    /** The performance block of a report, after which both since-last-report counters restart. */
    method ReportPerformance(currentTime: int) returns (p: Performance)
      modifies this
      ensures p == PerformanceOf(old(State()), currentTime)
      ensures State() == RestartWindow(old(State()))
    {
      var rates;
      if iterCount == 0 {
        rates := FirstIteration;
      } else {
        var deltaTimeMS := currentTime - lastReportTime;
        rates := Window(deltaTimeMS, examplesSinceLastReport, minibatchesSinceLastReport);
      }
      var totalRuntimeMS := currentTime - initTime;
      p := Performance(totalRuntimeMS, totalExamples, totalMinibatches, rates);
      examplesSinceLastReport, minibatchesSinceLastReport, windowStart := 0, 0, |batches|;
    }

    /**
     * The beans the GC block reads. On a later report every one of them has a stored pair, so
     * looking its name up in the table always finds one.
     */
    function BeansToRead(platformBeans: seq<GcBean>): (beans: seq<GcBean>)
      reads this
      requires GcInv(State())
      ensures beans == GcBeansToRead(State(), platformBeans)
      ensures !GcFirstReport(State()) ==> BeanNames(beans) == gcStatsAtLastReport.Keys
    {
      if lastReportIteration == -1 || gcBeans.None? then platformBeans else gcBeans.value
    }

    /**
     * The garbage-collection block of a report, given the current readings of the beans it
     * reads: a baseline before any report or with no beans stored, the deltas after.
     */
    method ReportGarbageCollection(platformBeans: seq<GcBean>, now: seq<GcReading>) returns (entries: seq<GcEntry>)
      requires GcInv(State()) && NamesMatch(now, GcBeansToRead(State(), platformBeans))
      modifies this
      ensures (entries, State()) == GcBlock(old(State()), platformBeans, now)
    {
      if lastReportIteration == -1 || gcBeans.None? {
        gcBeans := Some(platformBeans);
        gcStatsAtLastReport := BaselineTable(now);
        entries := [];
      } else {
        ReadingsCovered(now, gcBeans.value, gcStatsAtLastReport);
        entries, gcStatsAtLastReport := DeltaEntries(now, gcStatsAtLastReport);
      }
    }

    /** The report-building part of `iterationDone`, from the performance block to the stats blocks. */
    method BuildReport(model: Model, clock: Clock, platformGcBeans: seq<GcBean>, gcNow: seq<GcReading>)
      returns (r: Result<UpdateReport>)
      requires GcInv(State()) && paramNames.Some?
      requires updateConfig.collectGarbageCollectionStats ==> NamesMatch(gcNow, GcBeansToRead(State(), platformGcBeans))
      modifies this
      ensures (r, State()) == ListenerSpec.BuildReport(Settings(), old(State()), model, clock, platformGcBeans, gcNow)
    {
      var config := updateConfig;
      var performance: Option<Performance> := None;
      if config.collectPerformanceStats {
        var p := ReportPerformance(clock.currentTime);
        performance := Some(p);
      }

      var gcEntries: seq<GcEntry> := [];
      if config.collectGarbageCollectionStats {
        gcEntries := ReportGarbageCollection(platformGcBeans, gcNow);
      }

      var learningRates: Option<map<string, real>> := None;
      if config.collectLearningRates {
        learningRates := GatherLearningRates(model);
      }

      var stats := CollectStats(config, model);
      if stats.Err? {
        return Err(stats.error);
      }

      r := Ok(UpdateReport(sessionID, TYPE_ID, workerID, clock.reportTime, paramNames.value,
        performance, config.collectMemoryStats, gcEntries, model.score, learningRates, stats.value,
        Int32.Wrap(clock.endTime - clock.currentTime)));
    }

    /** The part every call runs: the initialization on the call with iterCount == 0, then the counts. */
    method StartIteration(model: Model, clock: Clock) returns (ok: bool)
      modifies this, router
      ensures (ok, State()) == Start(Settings(), old(State()), model, clock)
      ensures |old(sent)| <= |sent| && sent[..|old(sent)|] == old(sent)
      ensures router.log == old(router.log) + sent[|old(sent)|..]
    {
      if iterCount == 0 {
        initTime := clock.currentTime;
        ok := DoInit(model, clock.initReportTime);
        if !ok {
          return;
        }
      }
      ok := true;
      if updateConfig.collectPerformanceStats {
        UpdateExamplesMinibatchesCounts(model);
      }
    }

    /** The end of a reporting call: record the report, route it, count the call. */
    method SendReport(report: UpdateReport, currentTime: int)
      modifies this, router
      ensures State() == Deliver(old(State()), report, currentTime)
      ensures router.log == old(router.log) + [Message.PutUpdate(report)]
    {
      lastReportTime, lastReportIteration := currentTime, iterCount;
      router.PutUpdate(report);
      sent, iterCount := sent + [Message.PutUpdate(report)], iterCount + 1;
    }

    /** After the counts: the early return the cadence selects, or the report, routed and counted. */
    method ReportOrSkip(model: Model, clock: Clock, platformGcBeans: seq<GcBean>, gcNow: seq<GcReading>)
      returns (outcome: Outcome)
      requires GcInv(State()) && paramNames.Some? && ReadingsFit(Settings(), State(), platformGcBeans, gcNow)
      modifies this, router
      ensures (outcome, State()) == ListenerSpec.ReportOrSkip(Settings(), old(State()), model, clock, platformGcBeans, gcNow)
      ensures |old(sent)| <= |sent| && sent[..|old(sent)|] == old(sent)
      ensures router.log == old(router.log) + sent[|old(sent)|..]
    {
      if SkipsReport(updateConfig.reportingFrequency, iterCount) {
        iterCount := iterCount + 1;
        return Completed;
      }
      var report := BuildReport(model, clock, platformGcBeans, gcNow);
      if report.Err? {
        return Threw(report.error);
      }
      ghost var before := sent;
      SendReport(report.value, clock.currentTime);
      assert sent[|before|..] == [Message.PutUpdate(report.value)];
      return Completed;
    }

    /**
     * `iterationDone`. The world outside the listener enters as arguments: the clock readings
     * of this call and the platform's garbage collector beans, whose counters the GC block reads.
     */
    method IterationDone(model: Model, iteration: int, clock: Clock, platformGcBeans: seq<GcBean>)
      returns (outcome: Outcome)
      requires Valid()
      modifies this, router
      ensures Valid()
      ensures var reading := updateConfig.collectGarbageCollectionStats && !SkipsReport(updateConfig.reportingFrequency, old(iterCount));
              var now := if reading then old(Readings(GcBeansToRead(State(), platformGcBeans))) else [];
              (outcome, State()) == Step(Settings(), old(State()), model, clock, platformGcBeans, now)
      ensures |old(sent)| <= |sent| && sent[..|old(sent)|] == old(sent)
      ensures router.log == old(router.log) + sent[|old(sent)|..]
    {
      // The GC block reads its beans' counters; nothing in this call changes them, so they
      // are read up front, and only on a call that will reach that block.
      var gcNow: seq<GcReading> := [];
      if updateConfig.collectGarbageCollectionStats && !SkipsReport(updateConfig.reportingFrequency, iterCount) {
        gcNow := ReadBeans(BeansToRead(platformGcBeans));
      }
      ghost var before := State();
      ghost var log0 := router.log;
      var ok := StartIteration(model, clock);
      if !ok {
        outcome := Threw(UnsupportedModel);
      } else {
        StartKeepsInv(Settings(), before, model, clock);
        ghost var mid := sent;
        ghost var log1 := router.log;
        outcome := ReportOrSkip(model, clock, platformGcBeans, gcNow);
        LogFollows(log0, log1, router.log, before.sent, mid, sent);
      }
      StepKeepsInv(Settings(), before, model, clock, platformGcBeans, gcNow);
    }
  }
}
