/** The values `StatsListener` works with: configurations, the model it observes, and the messages it sends. */
module StatsTypes {
  import opened Gc

  datatype Option<T> = None | Some(value: T)

  /** The two exceptions `iterationDone` can raise. */
  datatype ListenerError =
    | UnsupportedModel      // RuntimeException from doInit: model info asked of a model that is no network
    | UnsupportedOperation  // UnsupportedOperationException from getActivationArraysMap on a non-sequential model

  datatype Result<T> = Ok(value: T) | Err(error: ListenerError)

  /** How one call of `iterationDone` ended. */
  datatype Outcome = Completed | Threw(error: ListenerError)

  /** The three categories of arrays that statistics are computed over. */
  datatype StatsType = Parameters | Updates | Activations

  datatype Statistic = Histogram | Mean | Stdev | MeanMagnitude

  /** One flag-gated block of an update report: a statistic over a category. */
  datatype Section = Section(stat: Statistic, category: StatsType)

  /** `StatsUpdateConfiguration`; `sections` holds the (statistic, category) pairs whose collect flag is on. */
  datatype UpdateConfig = UpdateConfig(
    reportingFrequency: int,
    collectPerformanceStats: bool,
    collectMemoryStats: bool,
    collectGarbageCollectionStats: bool,
    collectLearningRates: bool,
    sections: set<Section>)
  {
    predicate Collects(stat: Statistic, category: StatsType) { Section(stat, category) in sections }

    /** Some enabled block needs the activation map. */
    predicate NeedsActivations()
    {
      Collects(Histogram, Activations) || Collects(Mean, Activations)
      || Collects(Stdev, Activations) || Collects(MeanMagnitude, Activations)
    }
  }

  /** `StatsInitializationConfiguration`. */
  datatype InitConfig = InitConfig(collectSoftwareInfo: bool, collectHardwareInfo: bool, collectModelInfo: bool)

  /** An ND4J array, by identity only: its numbers are not modelled. */
  datatype NDArray = NDArray(id: nat)

  /** What the listener reads of one layer: its stored input and its learning rate per parameter. */
  datatype Layer = Layer(input: NDArray, learningRateByParam: map<string, real>)

  /** The runtime type of the model, as the `instanceof` tests of the listener see it. */
  datatype Topology =
    | MultiLayerNetwork(layers: seq<Layer>, inputRows: nat)         // getLayers(), getInput().size(0)
    | ComputationGraph(layers: seq<Layer>, firstInputRows: nat)     // getLayers(), getInput(0).size(0)
    | SingleLayer(inputMiniBatchSize: nat)                          // a Layer used as the model
    | OtherModel

  /** The model handed to `iterationDone`. */
  datatype Model = Model(
    topology: Topology,
    className: string,
    score: real,
    paramTableKeys: seq<string>,   // key order of paramTable()
    gradientKeys: set<string>)     // keys of gradient().gradientForVariable()
  {
    predicate IsNetwork() { topology.MultiLayerNetwork? || topology.ComputationGraph? }
  }

  /** The examples-per-second inputs; the division itself is left out. */
  datatype Rates =
    | FirstIteration                                              // both rates reported as 0.0
    | Window(deltaTimeMS: int, examples: int, minibatches: int)   // rate = 1000 * count / deltaTimeMS

  datatype Performance = Performance(totalRuntimeMS: int, totalExamples: int, totalMinibatches: int, rates: Rates)

  /** An update report (`SbeStatsReport`), with summary and histogram values replaced by the names they cover. */
  datatype UpdateReport = UpdateReport(
    sessionID: string, typeID: string, workerID: string, timestamp: int,
    paramNames: seq<string>,
    performance: Option<Performance>,
    memoryUse: bool,
    garbageCollection: seq<GcEntry>,
    score: real,
    learningRates: Option<map<string, real>>,
    stats: map<Section, set<string>>,
    statsCollectionDurationMS: int)

  datatype ModelInfo = ModelInfo(modelClassName: string, paramNames: seq<string>)

  /** The initialization report (`SbeStatsInitializationReport`); software and hardware sections only as present or not. */
  datatype InitReport = InitReport(
    sessionID: string, typeID: string, workerID: string, timestamp: int,
    softwareInfo: bool, hardwareInfo: bool, modelInfo: Option<ModelInfo>)

  datatype StorageMetaData = StorageMetaData(timestamp: int, sessionID: string, typeID: string, workerID: string)

  /** What the router receives. */
  datatype Message =
    | PutStorageMetaData(meta: StorageMetaData)
    | PutStaticInfo(init: InitReport)
    | PutUpdate(report: UpdateReport)

  /** The clock readings one call takes: getTime() at entry, at doInit, for the report IDs, and at the end. */
  datatype Clock = Clock(currentTime: int, initReportTime: int, reportTime: int, endTime: int)
}
