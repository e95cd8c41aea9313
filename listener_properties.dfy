/**
 * What one call of `iterationDone` does to the listener and what it routes, stated against
 * the listener's history, and what the invariant says about a whole run of calls.
 */
module ListenerProperties {
  import opened StatsTypes
  import opened Gc
  import opened Cadence
  import opened ListenerSpec
  import Int32

  /** The init pair a call sends: on the call with iterCount == 0, unless doInit raises. */
  function InitSent(c: ListenerSettings, s: ListenerState, model: Model, clock: Clock): seq<Message>
  {
    if s.iterCount == 0 && !InitFails(c, model) then InitMessages(c, model, clock.initReportTime) else []
  }

  /** A call routes an update exactly when it completes on an iterCount the cadence does not skip. */
  predicate Reported(c: ListenerSettings, s: ListenerState, outcome: Outcome)
  {
    outcome.Completed? && !SkipsReport(c.Frequency(), s.iterCount)
  }

  /** A call gets past doInit unless doInit raises on it. */
  predicate Started(c: ListenerSettings, s: ListenerState, model: Model)
  {
    !(s.iterCount == 0 && InitFails(c, model))
  }

  /** The update last handed to the router, if the last message is one. */
  function LastUpdate(sent: seq<Message>): Option<UpdateReport>
  {
    if sent != [] && sent[|sent| - 1].PutUpdate? then Some(sent[|sent| - 1].report) else None
  }

  // ----- The parts of a call -----

  /** What the start of a call changes: initTime, doInit's effects and the counts, nothing else. */
  lemma StartEffect(c: ListenerSettings, s: ListenerState, model: Model, clock: Clock)
    requires Inv(c, s)
    ensures var (ok, s1) := Start(c, s, model, clock);
      var initRan := s.iterCount == 0 && !InitFails(c, model);
      var counted := c.updateConfig.collectPerformanceStats && Started(c, s, model);
      && ok == Started(c, s, model)
      && Inv(c, s1) && (ok ==> Initialized(s1))
      && s1.iterCount == s.iterCount && s1.lastReportTime == s.lastReportTime
      && s1.lastReportIteration == s.lastReportIteration && s1.windowStart == s.windowStart
      && s1.gcBeans == s.gcBeans && s1.gcStatsAtLastReport == s.gcStatsAtLastReport
      && s1.initTime == (if s.iterCount == 0 then clock.currentTime else s.initTime)
      && s1.initPairs == s.initPairs + (if initRan then 1 else 0)
      && s1.paramNames == (if initRan then Some(model.paramTableKeys) else s.paramNames)
      && s1.batches == s.batches + (if counted then [ExamplesThisMinibatch(model)] else [])
      && s1.sent == s.sent + InitSent(c, s, model, clock)
  {
    StartKeepsInv(c, s, model, clock);
  }

  /** The performance and GC blocks change only the window counters and the GC fields. */
  lemma ReportBlocksEffect(c: ListenerSettings, s: ListenerState, currentTime: int,
                           platformBeans: seq<GcBean>, now: seq<GcReading>)
    requires Inv(c, s)
    requires c.updateConfig.collectGarbageCollectionStats ==> NamesMatch(now, GcBeansToRead(s, platformBeans))
    ensures var (performance, entries, s2) := ReportBlocks(c, s, currentTime, platformBeans, now);
      && Inv(c, s2)
      && s2.iterCount == s.iterCount && s2.lastReportTime == s.lastReportTime
      && s2.lastReportIteration == s.lastReportIteration && s2.initTime == s.initTime
      && s2.initPairs == s.initPairs && s2.paramNames == s.paramNames
      && s2.batches == s.batches && s2.sent == s.sent
      && (c.updateConfig.collectPerformanceStats ==>
            s2.windowStart == |s.batches| && s2.examplesSinceLastReport == 0 && s2.minibatchesSinceLastReport == 0)
      && (!c.updateConfig.collectPerformanceStats ==> s2.windowStart == s.windowStart)
      && performance == (if c.updateConfig.collectPerformanceStats then Some(PerformanceOf(s, currentTime)) else None)
      && (!c.updateConfig.collectGarbageCollectionStats ==>
            entries == [] && s2.gcBeans == s.gcBeans && s2.gcStatsAtLastReport == s.gcStatsAtLastReport)
      && (c.updateConfig.collectGarbageCollectionStats && GcFirstReport(s) ==>
            entries == [] && s2.gcBeans == Some(platformBeans) && s2.gcStatsAtLastReport == Baseline(now))
      && (c.updateConfig.collectGarbageCollectionStats && !GcFirstReport(s) ==>
            && Covers(s.gcStatsAtLastReport, now) && s2.gcBeans == s.gcBeans
            && (entries, s2.gcStatsAtLastReport) == DeltaPass(now, s.gcStatsAtLastReport))
  {
    ReportBlocksKeepInv(c, s, currentTime, platformBeans, now);
    if c.updateConfig.collectGarbageCollectionStats && !GcFirstReport(s) {
      ReadingsCovered(now, s.gcBeans.value, s.gcStatsAtLastReport);
    }
  }

  /** What the rest of a call changes: the cadence's early return, or the blocks and the delivery. */
  lemma ReportOrSkipEffect(c: ListenerSettings, s: ListenerState, model: Model, clock: Clock,
                           platformBeans: seq<GcBean>, now: seq<GcReading>)
    requires Inv(c, s) && Initialized(s) && ReadingsFit(c, s, platformBeans, now)
    ensures var (outcome, s2) := ReportOrSkip(c, s, model, clock, platformBeans, now);
      && outcome == (if !SkipsReport(c.Frequency(), s.iterCount) && StatsOf(c.updateConfig, model).Err?
                     then Threw(UnsupportedOperation) else Completed)
      && s2.iterCount == (if outcome.Completed? then s.iterCount + 1 else s.iterCount)
      && s2.initTime == s.initTime && s2.initPairs == s.initPairs
      && s2.paramNames == s.paramNames && s2.batches == s.batches
      && (if Reported(c, s, outcome) then
            && BuildReport(c, s, model, clock, platformBeans, now).0.Ok?
            && s2.sent == s.sent + [Message.PutUpdate(BuildReport(c, s, model, clock, platformBeans, now).0.value)]
            && s2.lastReportTime == clock.currentTime && s2.lastReportIteration == s.iterCount
          else
            && s2.sent == s.sent
            && s2.lastReportTime == s.lastReportTime && s2.lastReportIteration == s.lastReportIteration)
      && (SkipsReport(c.Frequency(), s.iterCount) ==> s2 == s.(iterCount := s.iterCount + 1))
      && (!SkipsReport(c.Frequency(), s.iterCount) ==>
            var blocks := ReportBlocks(c, s, clock.currentTime, platformBeans, now);
            && s2.windowStart == blocks.2.windowStart
            && s2.examplesSinceLastReport == blocks.2.examplesSinceLastReport
            && s2.minibatchesSinceLastReport == blocks.2.minibatchesSinceLastReport
            && s2.gcBeans == blocks.2.gcBeans && s2.gcStatsAtLastReport == blocks.2.gcStatsAtLastReport)
  {
    if !SkipsReport(c.Frequency(), s.iterCount) {
      ReportBlocksEffect(c, s, clock.currentTime, platformBeans, now);
    }
  }

  /** The update a reporting call builds: identity, captured names, the blocks, rates and duration. */
  lemma BuildReportContent(c: ListenerSettings, s: ListenerState, model: Model, clock: Clock,
                           platformBeans: seq<GcBean>, now: seq<GcReading>)
    requires Inv(c, s) && Initialized(s)
    requires c.updateConfig.collectGarbageCollectionStats ==> NamesMatch(now, GcBeansToRead(s, platformBeans))
    ensures var built := BuildReport(c, s, model, clock, platformBeans, now);
      var blocks := ReportBlocks(c, s, clock.currentTime, platformBeans, now);
      && (built.0.Ok? <==> StatsOf(c.updateConfig, model).Ok?)
      && built.1 == blocks.2
      && (built.0.Ok? ==>
            var r := built.0.value;
            && r.sessionID == c.sessionID && r.typeID == TYPE_ID && r.workerID == c.workerID
            && r.timestamp == clock.reportTime
            && r.paramNames == s.paramNames.value
            && r.performance == blocks.0
            && r.memoryUse == c.updateConfig.collectMemoryStats
            && r.garbageCollection == blocks.1
            && r.score == model.score
            && r.learningRates == LearningRatesOf(c.updateConfig, model)
            && r.stats.Keys == c.updateConfig.sections
            && (forall sec :: sec in r.stats ==> r.stats[sec] == NamesFor(model, sec.category))
            && r.statsCollectionDurationMS == Int32.Wrap(clock.endTime - clock.currentTime))
  {
  }

  /** How a call ends is decided by iterCount, the configuration and the model's kind. */
  lemma StepOutcome(c: ListenerSettings, s: ListenerState, model: Model, clock: Clock,
                    platformBeans: seq<GcBean>, now: seq<GcReading>)
    requires Inv(c, s) && ReadingsFit(c, s, platformBeans, now)
    ensures Step(c, s, model, clock, platformBeans, now).0 == CallOutcome(c, s.iterCount, model)
  {
    var started := Start(c, s, model, clock);
    StartEffect(c, s, model, clock);
    if started.0 {
      ReportOrSkipEffect(c, started.1, model, clock, platformBeans, now);
    }
  }

  /**
   * iterCount advances exactly when the call completes; initTime, the parameter names and the
   * init count change only on the call with iterCount == 0; a started call counts its batch.
   */
  lemma StepCounts(c: ListenerSettings, s: ListenerState, model: Model, clock: Clock,
                   platformBeans: seq<GcBean>, now: seq<GcReading>)
    requires Inv(c, s) && ReadingsFit(c, s, platformBeans, now)
    ensures var (outcome, s') := Step(c, s, model, clock, platformBeans, now);
      var initRan := s.iterCount == 0 && !InitFails(c, model);
      var counted := c.updateConfig.collectPerformanceStats && Started(c, s, model);
      && s'.iterCount == (if outcome.Completed? then s.iterCount + 1 else s.iterCount)
      && s'.initTime == (if s.iterCount == 0 then clock.currentTime else s.initTime)
      && s'.initPairs == s.initPairs + (if initRan then 1 else 0)
      && s'.paramNames == (if initRan then Some(model.paramTableKeys) else s.paramNames)
      && s'.batches == s.batches + (if counted then [ExamplesThisMinibatch(model)] else [])
  {
    var started := Start(c, s, model, clock);
    StartEffect(c, s, model, clock);
    if started.0 {
      ReportOrSkipEffect(c, started.1, model, clock, platformBeans, now);
    }
  }

  /** A call sends its init pair (first call only), then at most one update, and never rewrites what was sent. */
  lemma StepMessages(c: ListenerSettings, s: ListenerState, model: Model, clock: Clock,
                     platformBeans: seq<GcBean>, now: seq<GcReading>)
    requires Inv(c, s) && ReadingsFit(c, s, platformBeans, now)
    ensures var (outcome, s') := Step(c, s, model, clock, platformBeans, now);
      var inits := InitSent(c, s, model, clock);
      && |s'.sent| == |s.sent| + |inits| + (if Reported(c, s, outcome) then 1 else 0)
      && s'.sent[..|s.sent| + |inits|] == s.sent + inits
      && (Reported(c, s, outcome) <==> LastUpdate(s'.sent).Some? && |s'.sent| > |s.sent| + |inits|)
  {
    var started := Start(c, s, model, clock);
    StartEffect(c, s, model, clock);
    if started.0 {
      ReportOrSkipEffect(c, started.1, model, clock, platformBeans, now);
      var s' := ReportOrSkip(c, started.1, model, clock, platformBeans, now).1;
      assert s'.sent[..|started.1.sent|] == started.1.sent;
    }
  }

  /** The last report time and iteration move exactly on the calls that route an update. */
  lemma StepLastReport(c: ListenerSettings, s: ListenerState, model: Model, clock: Clock,
                       platformBeans: seq<GcBean>, now: seq<GcReading>)
    requires Inv(c, s) && ReadingsFit(c, s, platformBeans, now)
    ensures var (outcome, s') := Step(c, s, model, clock, platformBeans, now);
      if Reported(c, s, outcome) then s'.lastReportTime == clock.currentTime && s'.lastReportIteration == s.iterCount
      else s'.lastReportTime == s.lastReportTime && s'.lastReportIteration == s.lastReportIteration
  {
    var started := Start(c, s, model, clock);
    StartEffect(c, s, model, clock);
    if started.0 {
      ReportOrSkipEffect(c, started.1, model, clock, platformBeans, now);
    }
  }

  /** The totals never decrease: a call adds its batch to them or leaves them as they were. */
  lemma StepTotalsMonotone(c: ListenerSettings, s: ListenerState, model: Model, clock: Clock,
                           platformBeans: seq<GcBean>, now: seq<GcReading>)
    requires Inv(c, s) && ReadingsFit(c, s, platformBeans, now)
    ensures var s' := Step(c, s, model, clock, platformBeans, now).1;
      s'.totalExamples >= s.totalExamples && s'.totalMinibatches >= s.totalMinibatches
  {
    StepCounts(c, s, model, clock, platformBeans, now);
    StepKeepsInv(c, s, model, clock, platformBeans, now);
    if c.updateConfig.collectPerformanceStats && Started(c, s, model) {
      SumAppend(s.batches, ExamplesThisMinibatch(model));
    }
  }

  /** A call that routes an update routes the one built from the state its start left. */
  lemma StepRoutesBuilt(c: ListenerSettings, s: ListenerState, model: Model, clock: Clock,
                        platformBeans: seq<GcBean>, now: seq<GcReading>)
    requires Inv(c, s) && ReadingsFit(c, s, platformBeans, now)
    ensures var (outcome, s') := Step(c, s, model, clock, platformBeans, now);
      var s1 := Start(c, s, model, clock).1;
      Reported(c, s, outcome) ==>
        && Started(c, s, model) && Inv(c, s1) && Initialized(s1) && ReadingsFit(c, s1, platformBeans, now)
        && BuildReport(c, s1, model, clock, platformBeans, now).0.Ok?
        && LastUpdate(s'.sent) == Some(BuildReport(c, s1, model, clock, platformBeans, now).0.value)
        && s'.paramNames == s1.paramNames && s'.initTime == s1.initTime && s'.batches == s1.batches
  {
    var started := Start(c, s, model, clock);
    StartEffect(c, s, model, clock);
    if started.0 && !SkipsReport(c.Frequency(), s.iterCount) {
      ReportOrSkipEffect(c, started.1, model, clock, platformBeans, now);
      ReportBlocksEffect(c, started.1, clock.currentTime, platformBeans, now);
      BuildReportContent(c, started.1, model, clock, platformBeans, now);
    }
  }

  /**
   * The update a reporting call routes carries the listener's identity, the parameter names
   * captured at init, the enabled blocks over their names, the learning rates and the
   * collection time cast to int.
   */
  lemma StepReport(c: ListenerSettings, s: ListenerState, model: Model, clock: Clock,
                   platformBeans: seq<GcBean>, now: seq<GcReading>)
    requires Inv(c, s) && ReadingsFit(c, s, platformBeans, now)
    ensures var (outcome, s') := Step(c, s, model, clock, platformBeans, now);
      Reported(c, s, outcome) ==>
        && LastUpdate(s'.sent).Some? && s'.paramNames.Some?
        && var r := LastUpdate(s'.sent).value;
        && r.sessionID == c.sessionID && r.typeID == TYPE_ID && r.workerID == c.workerID
        && r.timestamp == clock.reportTime
        && r.paramNames == s'.paramNames.value
        && r.memoryUse == c.updateConfig.collectMemoryStats
        && r.score == model.score
        && r.learningRates == LearningRatesOf(c.updateConfig, model)
        && r.stats.Keys == c.updateConfig.sections
        && (forall sec :: sec in r.stats ==> r.stats[sec] == NamesFor(model, sec.category))
        && r.statsCollectionDurationMS == Int32.Wrap(clock.endTime - clock.currentTime)
  {
    StepRoutesBuilt(c, s, model, clock, platformBeans, now);
    var started := Start(c, s, model, clock);
    StartEffect(c, s, model, clock);
    if started.0 && !SkipsReport(c.Frequency(), s.iterCount) {
      BuildReportContent(c, started.1, model, clock, platformBeans, now);
    }
  }

  /**
   * The performance block of a routed update: runtime since init, totals over every counted
   * batch, and the window over the batches since the counters last restarted, against the
   * last report time.
   */
  lemma StepPerformance(c: ListenerSettings, s: ListenerState, model: Model, clock: Clock,
                        platformBeans: seq<GcBean>, now: seq<GcReading>)
    requires Inv(c, s) && ReadingsFit(c, s, platformBeans, now)
    ensures var (outcome, s') := Step(c, s, model, clock, platformBeans, now);
      Reported(c, s, outcome) ==>
        && LastUpdate(s'.sent).Some? && s.windowStart <= |s'.batches|
        && LastUpdate(s'.sent).value.performance ==
             if !c.updateConfig.collectPerformanceStats then None
             else Some(Performance(clock.currentTime - s'.initTime, Sum(s'.batches), |s'.batches|,
               if s.iterCount == 0 then FirstIteration
               else Window(clock.currentTime - s.lastReportTime,
                           Sum(s'.batches[s.windowStart..]), |s'.batches| - s.windowStart)))
  {
    StepRoutesBuilt(c, s, model, clock, platformBeans, now);
    var started := Start(c, s, model, clock);
    StartEffect(c, s, model, clock);
    if started.0 && !SkipsReport(c.Frequency(), s.iterCount) {
      BuildReportContent(c, started.1, model, clock, platformBeans, now);
      ReportBlocksEffect(c, started.1, clock.currentTime, platformBeans, now);
    }
  }

  /**
   * A call that reaches the performance block restarts the window, even if a later block
   * raises; any other call leaves the window where it was.
   */
  lemma StepWindow(c: ListenerSettings, s: ListenerState, model: Model, clock: Clock,
                   platformBeans: seq<GcBean>, now: seq<GcReading>)
    requires Inv(c, s) && ReadingsFit(c, s, platformBeans, now)
    ensures var (outcome, s') := Step(c, s, model, clock, platformBeans, now);
      if c.updateConfig.collectPerformanceStats && Started(c, s, model) && !SkipsReport(c.Frequency(), s.iterCount)
      then s'.examplesSinceLastReport == 0 && s'.minibatchesSinceLastReport == 0 && s'.windowStart == |s'.batches|
      else s'.windowStart == s.windowStart
  {
    var started := Start(c, s, model, clock);
    StartEffect(c, s, model, clock);
    if started.0 {
      ReportOrSkipEffect(c, started.1, model, clock, platformBeans, now);
      if !SkipsReport(c.Frequency(), s.iterCount) {
        ReportBlocksEffect(c, started.1, clock.currentTime, platformBeans, now);
      }
    }
  }

  /**
   * The GC fields after a call that reaches the GC block: before any update, or with no
   * beans stored, the platform's beans and a baseline of their readings; later the stored
   * beans and their new readings. They change even when a later block raises, and a call
   * that does not reach the block leaves them alone.
   */
  lemma StepGcState(c: ListenerSettings, s: ListenerState, model: Model, clock: Clock,
                    platformBeans: seq<GcBean>, now: seq<GcReading>)
    requires Inv(c, s) && ReadingsFit(c, s, platformBeans, now)
    ensures var (outcome, s') := Step(c, s, model, clock, platformBeans, now);
      var reaches := c.updateConfig.collectGarbageCollectionStats && Started(c, s, model)
                     && !SkipsReport(c.Frequency(), s.iterCount);
      && (!reaches ==> s'.gcBeans == s.gcBeans && s'.gcStatsAtLastReport == s.gcStatsAtLastReport)
      && (reaches && GcFirstReport(s) ==> s'.gcBeans == Some(platformBeans) && s'.gcStatsAtLastReport == Baseline(now))
      && (reaches && !GcFirstReport(s) ==>
            && s'.gcBeans == s.gcBeans && Covers(s.gcStatsAtLastReport, now)
            && s'.gcStatsAtLastReport == DeltaPass(now, s.gcStatsAtLastReport).1)
  {
    var started := Start(c, s, model, clock);
    StartEffect(c, s, model, clock);
    if started.0 {
      ReportOrSkipEffect(c, started.1, model, clock, platformBeans, now);
      if !SkipsReport(c.Frequency(), s.iterCount) {
        ReportBlocksEffect(c, started.1, clock.currentTime, platformBeans, now);
      }
    }
  }

  /**
   * The GC entries of a routed update: none on a first report or with the block off, and
   * otherwise one per stored bean against its stored pair.
   */
  lemma StepGcReport(c: ListenerSettings, s: ListenerState, model: Model, clock: Clock,
                     platformBeans: seq<GcBean>, now: seq<GcReading>)
    requires Inv(c, s) && ReadingsFit(c, s, platformBeans, now)
    ensures var (outcome, s') := Step(c, s, model, clock, platformBeans, now);
      Reported(c, s, outcome) ==>
        && LastUpdate(s'.sent).Some?
        && LastUpdate(s'.sent).value.garbageCollection ==
             if !c.updateConfig.collectGarbageCollectionStats || GcFirstReport(s) then []
             else DeltaPass(now, s.gcStatsAtLastReport).0
  {
    StepRoutesBuilt(c, s, model, clock, platformBeans, now);
    var started := Start(c, s, model, clock);
    StartEffect(c, s, model, clock);
    if started.0 && !SkipsReport(c.Frequency(), s.iterCount) {
      BuildReportContent(c, started.1, model, clock, platformBeans, now);
      ReportBlocksEffect(c, started.1, clock.currentTime, platformBeans, now);
    }
  }

  /**
   * With a frequency above 1 the first update comes from the call at iterCount == freq, and its
   * rate window is measured against the initial lastReportTime of -1, not against initTime.
   */
  lemma FirstWindowAgainstMinusOne(c: ListenerSettings, s: ListenerState, model: Model, clock: Clock,
                                   platformBeans: seq<GcBean>, now: seq<GcReading>)
    requires Inv(c, s) && ReadingsFit(c, s, platformBeans, now)
    requires c.Frequency() > 1 && s.iterCount == c.Frequency() && c.updateConfig.collectPerformanceStats
    ensures |s.sent| == 2 * s.initPairs
    ensures var (outcome, s') := Step(c, s, model, clock, platformBeans, now);
      outcome.Completed? ==>
        && LastUpdate(s'.sent).Some?
        && LastUpdate(s'.sent).value.performance.Some?
        && LastUpdate(s'.sent).value.performance.value.rates.Window?
        && LastUpdate(s'.sent).value.performance.value.rates.deltaTimeMS == clock.currentTime + 1
  {
    FirstReportAtFrequency(c.Frequency(), c.Frequency());
    LastReportBeforeIsLatest(c.Frequency(), c.Frequency());
    StepPerformance(c, s, model, clock, platformBeans, now);
  }

  /** A call at iterCount == 0 whose doInit succeeds sends an init pair right after what was sent before. */
  lemma FirstCallSendsInit(c: ListenerSettings, s: ListenerState, model: Model, clock: Clock,
                           platformBeans: seq<GcBean>, now: seq<GcReading>)
    requires Inv(c, s) && ReadingsFit(c, s, platformBeans, now)
    requires s.iterCount == 0 && !InitFails(c, model)
    ensures var s' := Step(c, s, model, clock, platformBeans, now).1;
      && s'.initPairs == s.initPairs + 1
      && |s'.sent| >= |s.sent| + 2
      && s'.sent[|s.sent|..|s.sent| + 2] == InitMessages(c, model, clock.initReportTime)
  {
    StepCounts(c, s, model, clock, platformBeans, now);
    StepMessages(c, s, model, clock, platformBeans, now);
    var s' := Step(c, s, model, clock, platformBeans, now).1;
    var inits := InitMessages(c, model, clock.initReportTime);
    assert s'.sent[..|s.sent| + 2] == s.sent + inits;
    assert s'.sent[|s.sent|..|s.sent| + 2] == (s.sent + inits)[|s.sent|..];
  }

  /**
   * A call that raises at iterCount == 0 leaves iterCount at 0, so the next call runs doInit
   * again and sends a second init pair; when the raise came from a stats block, the first
   * call had already sent its pair.
   */
  lemma ThrowAtFirstCallRepeatsInit(c: ListenerSettings, s: ListenerState,
                                    model1: Model, clock1: Clock, beans1: seq<GcBean>, now1: seq<GcReading>,
                                    model2: Model, clock2: Clock, beans2: seq<GcBean>, now2: seq<GcReading>)
    requires Inv(c, s) && s.iterCount == 0 && ReadingsFit(c, s, beans1, now1)
    requires Step(c, s, model1, clock1, beans1, now1).0.Threw?
    requires ReadingsFit(c, Step(c, s, model1, clock1, beans1, now1).1, beans2, now2)
    requires !InitFails(c, model2)
    ensures var s1 := Step(c, s, model1, clock1, beans1, now1).1;
      && s1.iterCount == 0 && Inv(c, s1)
      && (Step(c, s, model1, clock1, beans1, now1).0 == Threw(UnsupportedOperation) ==>
            s1.initPairs == s.initPairs + 1 && s1.sent == s.sent + InitMessages(c, model1, clock1.initReportTime))
      && var s2 := Step(c, s1, model2, clock2, beans2, now2).1;
      && s2.initPairs == s1.initPairs + 1
      && |s2.sent| >= |s1.sent| + 2
      && s2.sent[|s1.sent|..|s1.sent| + 2] == InitMessages(c, model2, clock2.initReportTime)
  {
    StepKeepsInv(c, s, model1, clock1, beans1, now1);
    StepCounts(c, s, model1, clock1, beans1, now1);
    StepOutcome(c, s, model1, clock1, beans1, now1);
    StepMessages(c, s, model1, clock1, beans1, now1);
    FirstCallSendsInit(c, Step(c, s, model1, clock1, beans1, now1).1, model2, clock2, beans2, now2);
  }

  /**
   * After any run of calls: init pairs first, then only updates, as many as the calls at
   * iterCount = freq, 2*freq, ... (every call when freq <= 1), all carrying the listener's identity.
   */
  lemma UpdatesAfterCalls(c: ListenerSettings, s: ListenerState)
    requires Inv(c, s)
    ensures |s.sent| - 2 * s.initPairs ==
      if c.Frequency() <= 1 then s.iterCount else if s.iterCount == 0 then 0 else (s.iterCount - 1) / c.Frequency()
    ensures forall j :: 0 <= j < 2 * s.initPairs ==> if j % 2 == 0 then s.sent[j].PutStorageMetaData? else s.sent[j].PutStaticInfo?
    ensures forall j :: 2 * s.initPairs <= j < |s.sent| ==> s.sent[j].PutUpdate?
    ensures forall j :: 0 <= j < |s.sent| ==> SentBy(s.sent[j], c.sessionID, c.workerID)
    ensures s.iterCount > 0 ==> s.initPairs >= 1
  {
    ReportsAmongClosedForm(c.Frequency(), s.iterCount);
  }

  /** lastReportIteration is the latest completed call the cadence did not skip; -1 while there is none. */
  lemma LastReportIsLatest(c: ListenerSettings, s: ListenerState)
    requires Inv(c, s)
    ensures s.lastReportIteration == -1 ||
      (0 <= s.lastReportIteration < s.iterCount && !SkipsReport(c.Frequency(), s.lastReportIteration))
    ensures forall k :: s.lastReportIteration < k < s.iterCount ==> SkipsReport(c.Frequency(), k)
    ensures s.lastReportIteration == -1 <==> |s.sent| == 2 * s.initPairs
    ensures s.lastReportIteration == -1 ==> s.lastReportTime == -1
  {
    LastReportBeforeIsLatest(c.Frequency(), s.iterCount);
  }
}
