/**
 The baseline analyzers pipeline: load transfers, guard, aggregate, load
 money flows, guard, extract addresses, load labels, build the graph, then
 the optional feature phase and the optional pattern phase.

 The storage adapter and the two analyzers are collaborators whose answers
 are given functions of what they are asked. Every call to one of them is
 appended to a shared ghost `Trace`, so the contracts can say which calls
 happen, in which order and with which arguments.
 */
module Pipeline {
  import opened Records
  import opened FlowGraph
  import opened AddressOrder
  import opened GraphSpec
  import opened GraphBuilder

  type Labels = map<Address, AddressLabel>

  /** A string-keyed record whose contents the pipeline only passes along. */
  type Payload = map<string, string>

  /** Per-address transfer aggregates, passed through to the feature analyzer. */
  type Aggregates = map<Address, Payload>

  /**
   The feature analyzer's address-to-features dictionary, as its (address,
   features) pairs in iteration order; `run` only counts and forwards the
   values, so distinct addresses are not required.
   */
  type FeatureDict = seq<(Address, Payload)>

  /** A collaborator's answer: a value, or an exception it raised. */
  datatype Answer<T> = Returned(value: T) | Raised(message: string)

  /** One call to a collaborator, with its arguments. */
  datatype Event =
    | TransfersRead(startMs: int, endMs: int)
    | MoneyFlowsRead(startMs: int, endMs: int)
    | LabelsRead(addresses: seq<Address>)
    | FeaturesAnalyzed(graph: GraphView, labels: Labels, aggregates: Aggregates)
    | FeaturesWritten(features: seq<Payload>, windowDays: int, processingDate: string)
    | PatternsAnalyzed(flows: seq<FlowRecord>, labels: Labels, windowDays: int, processingDate: string)
    | PatternsWritten(patterns: seq<Payload>, windowDays: int, processingDate: string)

  predicate IsWrite(e: Event) {
    e.FeaturesWritten? || e.PatternsWritten?
  }

  /**
   Why a run stops. The first three are the `ValueError`s the pipeline raises
   itself; the last is an analyzer's exception passed through.
   */
  datatype PipelineError =
    | NoTransfers(startMs: int, endMs: int)
    | NoMoneyFlows(startMs: int, endMs: int)
    | NoFeatures
    | AnalyzerRaised(message: string)

  datatype Outcome<T> = Done(value: T) | Failed(error: PipelineError)

  datatype Counts = Counts(featuresCount: nat, patternsCount: nat)

  /** The dictionary `run` returns. */
  datatype RunReport = RunReport(featuresCount: nat, patternsCount: nat, durationSeconds: real)

  /** The arguments of `run`. */
  datatype Request = Request(
    startMs: int,
    endMs: int,
    windowDays: int,
    processingDate: string,
    runFeatures: bool,
    runPatterns: bool)

  /** What the collaborators answer, as functions of what they are asked. */
  datatype Environment = Environment(
    transfersIn: (int, int) -> seq<Transfer>,
    moneyFlowsIn: (int, int) -> seq<FlowRecord>,
    labelsFor: seq<Address> -> Labels,
    aggregate: seq<Transfer> -> Aggregates,
    featuresOf: (GraphView, Labels, Aggregates) -> Answer<FeatureDict>,
    patternsOf: (seq<FlowRecord>, Labels, int, string) -> Answer<seq<Payload>>)

  /** The calls a stage makes and how it ends. */
  datatype Trail<T> = Trail(events: seq<Event>, outcome: Outcome<T>)

  /** `list(features_dict.values())`. */
  function Values(d: FeatureDict): seq<Payload> {
    seq(|d|, i requires 0 <= i < |d| => d[i].1)
  }

  // ---------------------------------------------------------------------
  // Specification of the stages
  // ---------------------------------------------------------------------

  /** `_run_feature_analysis`: analyze, refuse an empty result, write the values. */
  function FeaturePhase(env: Environment, graph: GraphView, labels: Labels, aggregates: Aggregates,
                        windowDays: int, processingDate: string): Trail<nat>
  {
    var asked := FeaturesAnalyzed(graph, labels, aggregates);
    match env.featuresOf(graph, labels, aggregates)
    case Raised(message) => Trail([asked], Failed(AnalyzerRaised(message)))
    case Returned(featuresDict) =>
      var featuresList := Values(featuresDict);
      if featuresList == [] then Trail([asked], Failed(NoFeatures))
      else Trail([asked, FeaturesWritten(featuresList, windowDays, processingDate)], Done(|featuresList|))
  }

  /** `_run_pattern_analysis`: analyze, write only a non-empty result, report its length. */
  function PatternPhase(env: Environment, flows: seq<FlowRecord>, labels: Labels,
                        windowDays: int, processingDate: string): Trail<nat>
  {
    var asked := PatternsAnalyzed(flows, labels, windowDays, processingDate);
    match env.patternsOf(flows, labels, windowDays, processingDate)
    case Raised(message) => Trail([asked], Failed(AnalyzerRaised(message)))
    case Returned(patterns) =>
      if patterns != [] then Trail([asked, PatternsWritten(patterns, windowDays, processingDate)], Done(|patterns|))
      else Trail([asked], Done(|patterns|))
  }

  const Skipped: Trail<nat> := Trail([], Done(0))

  /**
   The feature and pattern phases of `run`, once the inputs are loaded and the
   graph is built: each runs only when switched on, and the first failure ends
   the run.
   */
  function Stages(env: Environment, graph: GraphView, flows: seq<FlowRecord>, labels: Labels,
                  aggregates: Aggregates, windowDays: int, processingDate: string,
                  runFeatures: bool, runPatterns: bool): Trail<Counts>
  {
    var features :=
      if runFeatures then FeaturePhase(env, graph, labels, aggregates, windowDays, processingDate)
      else Skipped;
    match features.outcome
    case Failed(error) => Trail(features.events, Failed(error))
    case Done(featuresCount) =>
      var patterns :=
        if runPatterns then PatternPhase(env, flows, labels, windowDays, processingDate)
        else Skipped;
      var calls := features.events + patterns.events;
      match patterns.outcome
      case Failed(error) => Trail(calls, Failed(error))
      case Done(patternsCount) => Trail(calls, Done(Counts(featuresCount, patternsCount)))
  }

  /** `run`: the calls made and the outcome, for a given environment and request. */
  ghost function RunSpec(env: Environment, q: Request): Trail<Counts> {
    var transfers := env.transfersIn(q.startMs, q.endMs);
    if transfers == [] then
      Trail([TransfersRead(q.startMs, q.endMs)], Failed(NoTransfers(q.startMs, q.endMs)))
    else
      var flows := env.moneyFlowsIn(q.startMs, q.endMs);
      if flows == [] then
        Trail([TransfersRead(q.startMs, q.endMs)] + [MoneyFlowsRead(q.startMs, q.endMs)],
              Failed(NoMoneyFlows(q.startMs, q.endMs)))
      else
        var addresses := SortedSeq(Endpoints(flows));
        var loaded := [TransfersRead(q.startMs, q.endMs)] + [MoneyFlowsRead(q.startMs, q.endMs)] + [LabelsRead(addresses)];
        var stages := Stages(env, BuiltGraph(flows), flows, env.labelsFor(addresses), env.aggregate(transfers),
                             q.windowDays, q.processingDate, q.runFeatures, q.runPatterns);
        Trail(loaded + stages.events, stages.outcome)
  }

  /** Regrouping a concatenation of three traces. */
  lemma AppendAssoc(a: seq<Event>, b: seq<Event>, c: seq<Event>)
    ensures (a + b) + c == a + (b + c)
  {
  }

  lemma AppendNothing(a: seq<Event>)
    ensures a + [] == a
  {
  }

  /** The report `run` returns for an outcome and an elapsed time. */
  function Reported(o: Outcome<Counts>, durationSeconds: real): Outcome<RunReport> {
    match o
    case Failed(error) => Failed(error)
    case Done(c) => Done(RunReport(c.featuresCount, c.patternsCount, durationSeconds))
  }

  // ---------------------------------------------------------------------
  // Collaborators
  // ---------------------------------------------------------------------

  /** The record of collaborator calls that a run leaves behind. */
  class Trace {
    ghost var events: seq<Event>

    constructor ()
      ensures events == []
    {
      events := [];
    }
  }

  /** The storage capability: reads answer from given functions, every call is recorded. */
  class StorageAdapter {
    const transfersIn: (int, int) -> seq<Transfer>
    const moneyFlowsIn: (int, int) -> seq<FlowRecord>
    const labelsFor: seq<Address> -> Labels
    ghost const trace: Trace

    constructor (transfersIn: (int, int) -> seq<Transfer>, moneyFlowsIn: (int, int) -> seq<FlowRecord>,
                 labelsFor: seq<Address> -> Labels, ghost trace: Trace)
      ensures this.transfersIn == transfersIn && this.moneyFlowsIn == moneyFlowsIn
      ensures this.labelsFor == labelsFor && this.trace == trace
    {
      this.transfersIn := transfersIn;
      this.moneyFlowsIn := moneyFlowsIn;
      this.labelsFor := labelsFor;
      this.trace := trace;
    }

    method ReadTransfers(startMs: int, endMs: int) returns (transfers: seq<Transfer>)
      modifies trace
      ensures transfers == transfersIn(startMs, endMs)
      ensures trace.events == old(trace.events) + [TransfersRead(startMs, endMs)]
    {
      transfers := transfersIn(startMs, endMs);
      trace.events := trace.events + [TransfersRead(startMs, endMs)];
    }

    method ReadMoneyFlows(startMs: int, endMs: int) returns (flows: seq<FlowRecord>)
      modifies trace
      ensures flows == moneyFlowsIn(startMs, endMs)
      ensures trace.events == old(trace.events) + [MoneyFlowsRead(startMs, endMs)]
    {
      flows := moneyFlowsIn(startMs, endMs);
      trace.events := trace.events + [MoneyFlowsRead(startMs, endMs)];
    }

    method ReadAddressLabels(addresses: seq<Address>) returns (labels: Labels)
      modifies trace
      ensures labels == labelsFor(addresses)
      ensures trace.events == old(trace.events) + [LabelsRead(addresses)]
    {
      labels := labelsFor(addresses);
      trace.events := trace.events + [LabelsRead(addresses)];
    }

    method WriteFeatures(features: seq<Payload>, windowDays: int, processingDate: string)
      modifies trace
      ensures trace.events == old(trace.events) + [FeaturesWritten(features, windowDays, processingDate)]
    {
      trace.events := trace.events + [FeaturesWritten(features, windowDays, processingDate)];
    }

    method WritePatterns(patterns: seq<Payload>, windowDays: int, processingDate: string)
      modifies trace
      ensures trace.events == old(trace.events) + [PatternsWritten(patterns, windowDays, processingDate)]
    {
      trace.events := trace.events + [PatternsWritten(patterns, windowDays, processingDate)];
    }
  }

  /** The feature-analysis capability. */
  class FeatureAnalyzer {
    const featuresOf: (GraphView, Labels, Aggregates) -> Answer<FeatureDict>
    ghost const trace: Trace

    constructor (featuresOf: (GraphView, Labels, Aggregates) -> Answer<FeatureDict>, ghost trace: Trace)
      ensures this.featuresOf == featuresOf && this.trace == trace
    {
      this.featuresOf := featuresOf;
      this.trace := trace;
    }

    method Analyze(graph: DiGraph, labels: Labels, aggregates: Aggregates) returns (answer: Answer<FeatureDict>)
      modifies trace
      ensures answer == featuresOf(graph.View(), labels, aggregates)
      ensures trace.events == old(trace.events) + [FeaturesAnalyzed(graph.View(), labels, aggregates)]
    {
      answer := featuresOf(graph.View(), labels, aggregates);
      trace.events := trace.events + [FeaturesAnalyzed(graph.View(), labels, aggregates)];
    }
  }

  /** The pattern-analysis capability. */
  class PatternAnalyzer {
    const patternsOf: (seq<FlowRecord>, Labels, int, string) -> Answer<seq<Payload>>
    ghost const trace: Trace

    constructor (patternsOf: (seq<FlowRecord>, Labels, int, string) -> Answer<seq<Payload>>, ghost trace: Trace)
      ensures this.patternsOf == patternsOf && this.trace == trace
    {
      this.patternsOf := patternsOf;
      this.trace := trace;
    }

    method Analyze(flows: seq<FlowRecord>, labels: Labels, windowDays: int, processingDate: string)
      returns (answer: Answer<seq<Payload>>)
      modifies trace
      ensures answer == patternsOf(flows, labels, windowDays, processingDate)
      ensures trace.events == old(trace.events) + [PatternsAnalyzed(flows, labels, windowDays, processingDate)]
    {
      answer := patternsOf(flows, labels, windowDays, processingDate);
      trace.events := trace.events + [PatternsAnalyzed(flows, labels, windowDays, processingDate)];
    }
  }

  // ---------------------------------------------------------------------
  // The orchestrator
  // ---------------------------------------------------------------------

  class BaselineAnalyzersPipeline {
    const adapter: StorageAdapter
    const featureAnalyzer: FeatureAnalyzer
    const patternAnalyzer: PatternAnalyzer
    const network: string
    /** The external aggregation step `compute_transfer_aggregates`. */
    const computeTransferAggregates: seq<Transfer> -> Aggregates

    /** All three collaborators record into one trace. */
    ghost predicate Valid() {
      featureAnalyzer.trace == adapter.trace && patternAnalyzer.trace == adapter.trace
    }

    ghost function Env(): Environment {
      Environment(adapter.transfersIn, adapter.moneyFlowsIn, adapter.labelsFor,
                  computeTransferAggregates, featureAnalyzer.featuresOf, patternAnalyzer.patternsOf)
    }

    constructor (adapter: StorageAdapter, featureAnalyzer: FeatureAnalyzer, patternAnalyzer: PatternAnalyzer,
                 network: string, computeTransferAggregates: seq<Transfer> -> Aggregates)
      requires featureAnalyzer.trace == adapter.trace && patternAnalyzer.trace == adapter.trace
      ensures Valid()
      ensures this.adapter == adapter && this.featureAnalyzer == featureAnalyzer
      ensures this.patternAnalyzer == patternAnalyzer && this.network == network
      ensures this.computeTransferAggregates == computeTransferAggregates
    {
      this.adapter := adapter;
      this.featureAnalyzer := featureAnalyzer;
      this.patternAnalyzer := patternAnalyzer;
      this.network := network;
      this.computeTransferAggregates := computeTransferAggregates;
    }

    /**
     `run`. `startTime` and `endTime` are the two wall-clock readings taken on
     entry and before returning; both phases are on unless switched off.
     */
    method Run(startMs: int, endMs: int, windowDays: int, processingDate: string, startTime: real, endTime: real,
               runFeatures: bool := true, runPatterns: bool := true)
      returns (result: Outcome<RunReport>)
      requires Valid()
      modifies adapter.trace
      ensures adapter.trace.events
        == old(adapter.trace.events) + RunSpec(Env(), Request(startMs, endMs, windowDays, processingDate, runFeatures, runPatterns)).events
      ensures result
        == Reported(RunSpec(Env(), Request(startMs, endMs, windowDays, processingDate, runFeatures, runPatterns)).outcome,
                    endTime - startTime)
    {
      ghost var env := Env();
      ghost var before := adapter.trace.events;
      var featuresCount: nat := 0;
      var patternsCount: nat := 0;

      var transfers := adapter.ReadTransfers(startMs, endMs);
      if transfers == [] {
        return Failed(NoTransfers(startMs, endMs));
      }

      var transferAggregates := computeTransferAggregates(transfers);

      var moneyFlows := adapter.ReadMoneyFlows(startMs, endMs);
      AppendAssoc(before, [TransfersRead(startMs, endMs)], [MoneyFlowsRead(startMs, endMs)]);
      if moneyFlows == [] {
        return Failed(NoMoneyFlows(startMs, endMs));
      }

      var addresses := ExtractAddressesFromFlows(moneyFlows);
      var addressLabels := adapter.ReadAddressLabels(addresses);
      ghost var loaded := [TransfersRead(startMs, endMs)] + [MoneyFlowsRead(startMs, endMs)] + [LabelsRead(addresses)];
      AppendAssoc(before, [TransfersRead(startMs, endMs)] + [MoneyFlowsRead(startMs, endMs)], [LabelsRead(addresses)]);

      var graph := BuildMoneyFlowGraph(moneyFlows);
      ghost var stages := Stages(env, graph.View(), moneyFlows, addressLabels, transferAggregates,
                                 windowDays, processingDate, runFeatures, runPatterns);
      assert RunSpec(env, Request(startMs, endMs, windowDays, processingDate, runFeatures, runPatterns))
        == Trail(loaded + stages.events, stages.outcome);

      ghost var features := if runFeatures
        then FeaturePhase(env, graph.View(), addressLabels, transferAggregates, windowDays, processingDate)
        else Skipped;
      if runFeatures {
        var outcome := RunFeatureAnalysis(graph, addressLabels, transferAggregates, windowDays, processingDate);
        AppendAssoc(before, loaded, features.events);
        if outcome.Failed? {
          return Failed(outcome.error);
        }
        featuresCount := outcome.value;
      } else {
        AppendNothing(loaded);
      }

      ghost var patterns := if runPatterns
        then PatternPhase(env, moneyFlows, addressLabels, windowDays, processingDate)
        else Skipped;
      if runPatterns {
        var outcome := RunPatternAnalysis(moneyFlows, addressLabels, windowDays, processingDate);
        AppendAssoc(before, loaded + features.events, patterns.events);
        AppendAssoc(loaded, features.events, patterns.events);
        if outcome.Failed? {
          return Failed(outcome.error);
        }
        patternsCount := outcome.value;
      } else {
        AppendNothing(features.events);
      }

      result := Done(RunReport(featuresCount, patternsCount, endTime - startTime));
    }

    /** `run_features_only`: `run` with the pattern phase off, reporting the feature count. */
    method RunFeaturesOnly(startMs: int, endMs: int, windowDays: int, processingDate: string,
                           startTime: real, endTime: real)
      returns (result: Outcome<nat>)
      requires Valid()
      modifies adapter.trace
      ensures adapter.trace.events
        == old(adapter.trace.events) + RunSpec(Env(), Request(startMs, endMs, windowDays, processingDate, true, false)).events
      ensures result == match RunSpec(Env(), Request(startMs, endMs, windowDays, processingDate, true, false)).outcome
        case Done(c) => Done(c.featuresCount)
        case Failed(error) => Failed(error)
    {
      var report := Run(startMs, endMs, windowDays, processingDate, startTime, endTime, runFeatures := true, runPatterns := false);
      if report.Failed? {
        return Failed(report.error);
      }
      result := Done(report.value.featuresCount);
    }

    /** `run_patterns_only`: `run` with the feature phase off, reporting the pattern count. */
    method RunPatternsOnly(startMs: int, endMs: int, windowDays: int, processingDate: string,
                           startTime: real, endTime: real)
      returns (result: Outcome<nat>)
      requires Valid()
      modifies adapter.trace
      ensures adapter.trace.events
        == old(adapter.trace.events) + RunSpec(Env(), Request(startMs, endMs, windowDays, processingDate, false, true)).events
      ensures result == match RunSpec(Env(), Request(startMs, endMs, windowDays, processingDate, false, true)).outcome
        case Done(c) => Done(c.patternsCount)
        case Failed(error) => Failed(error)
    {
      var report := Run(startMs, endMs, windowDays, processingDate, startTime, endTime, runFeatures := false, runPatterns := true);
      if report.Failed? {
        return Failed(report.error);
      }
      result := Done(report.value.patternsCount);
    }

    /** `_run_feature_analysis`. */
    method RunFeatureAnalysis(graph: DiGraph, addressLabels: Labels, transferAggregates: Aggregates,
                              windowDays: int, processingDate: string)
      returns (result: Outcome<nat>)
      requires Valid()
      modifies adapter.trace
      ensures adapter.trace.events == old(adapter.trace.events)
        + FeaturePhase(Env(), graph.View(), addressLabels, transferAggregates, windowDays, processingDate).events
      ensures result == FeaturePhase(Env(), graph.View(), addressLabels, transferAggregates, windowDays, processingDate).outcome
    {
      var answer := featureAnalyzer.Analyze(graph, addressLabels, transferAggregates);
      if answer.Raised? {
        return Failed(AnalyzerRaised(answer.message));
      }
      var featuresList := Values(answer.value);
      if featuresList == [] {
        return Failed(NoFeatures);
      }
      adapter.WriteFeatures(featuresList, windowDays, processingDate);
      result := Done(|featuresList|);
    }

    /** `_run_pattern_analysis`. */
    method RunPatternAnalysis(moneyFlows: seq<FlowRecord>, addressLabels: Labels, windowDays: int, processingDate: string)
      returns (result: Outcome<nat>)
      requires Valid()
      modifies adapter.trace
      ensures adapter.trace.events == old(adapter.trace.events)
        + PatternPhase(Env(), moneyFlows, addressLabels, windowDays, processingDate).events
      ensures result == PatternPhase(Env(), moneyFlows, addressLabels, windowDays, processingDate).outcome
    {
      var answer := patternAnalyzer.Analyze(moneyFlows, addressLabels, windowDays, processingDate);
      if answer.Raised? {
        return Failed(AnalyzerRaised(answer.message));
      }
      var patterns := answer.value;
      if patterns != [] {
        adapter.WritePatterns(patterns, windowDays, processingDate);
      }
      result := Done(|patterns|);
    }
  }
}
