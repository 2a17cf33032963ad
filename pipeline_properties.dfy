/**
 What `run` promises, proved about its specification `RunSpec`: the two
 fail-fast guards, what each collaborator is asked, which writes happen and
 in which order, the counts reported, the phase switches, and that a failed
 pattern phase leaves the feature write in place.
 */
module PipelineProperties {
  import opened Records
  import opened AddressOrder
  import opened GraphSpec
  import opened Pipeline

  // ---------------------------------------------------------------------
  // What the collaborators answer for one request
  // ---------------------------------------------------------------------

  ghost function TransfersOf(env: Environment, q: Request): seq<Transfer> {
    env.transfersIn(q.startMs, q.endMs)
  }

  ghost function FlowsOf(env: Environment, q: Request): seq<FlowRecord> {
    env.moneyFlowsIn(q.startMs, q.endMs)
  }

  /** Both reads returned something, so the graph is built. */
  ghost predicate Loaded(env: Environment, q: Request) {
    TransfersOf(env, q) != [] && FlowsOf(env, q) != []
  }

  ghost function AddressesOf(env: Environment, q: Request): seq<Address> {
    SortedSeq(Endpoints(FlowsOf(env, q)))
  }

  ghost function LabelsOf(env: Environment, q: Request): Labels {
    env.labelsFor(AddressesOf(env, q))
  }

  ghost function FeaturesAnswerOf(env: Environment, q: Request): Answer<FeatureDict> {
    env.featuresOf(BuiltGraph(FlowsOf(env, q)), LabelsOf(env, q), env.aggregate(TransfersOf(env, q)))
  }

  ghost function PatternsAnswerOf(env: Environment, q: Request): Answer<seq<Payload>> {
    env.patternsOf(FlowsOf(env, q), LabelsOf(env, q), q.windowDays, q.processingDate)
  }

  /** The feature phase is off, or its analyzer returned a non-empty mapping. */
  ghost predicate FeaturesSucceed(env: Environment, q: Request) {
    !q.runFeatures || (FeaturesAnswerOf(env, q).Returned? && FeaturesAnswerOf(env, q).value != [])
  }

  /** The pattern phase is off, or its analyzer returned. */
  ghost predicate PatternsSucceed(env: Environment, q: Request) {
    !q.runPatterns || PatternsAnswerOf(env, q).Returned?
  }

  predicate IsFeatureCall(e: Event) {
    e.FeaturesAnalyzed? || e.FeaturesWritten?
  }

  predicate IsPatternCall(e: Event) {
    e.PatternsAnalyzed? || e.PatternsWritten?
  }

  // ---------------------------------------------------------------------
  // Helpers
  // ---------------------------------------------------------------------

  /** `list(d.values())` has one entry per pair of `d`, so it is empty exactly when `d` is. */
  lemma ValuesOf(d: FeatureDict)
    ensures |Values(d)| == |d|
    ensures Values(d) == [] <==> d == []
  {
  }

  /** Once both reads return something, `run` is the three loads followed by the two phases. */
  lemma LoadedRun(env: Environment, q: Request)
    requires Loaded(env, q)
    ensures RunSpec(env, q).events
      == [TransfersRead(q.startMs, q.endMs), MoneyFlowsRead(q.startMs, q.endMs), LabelsRead(AddressesOf(env, q))]
        + Stages(env, BuiltGraph(FlowsOf(env, q)), FlowsOf(env, q), LabelsOf(env, q), env.aggregate(TransfersOf(env, q)),
                 q.windowDays, q.processingDate, q.runFeatures, q.runPatterns).events
    ensures RunSpec(env, q).outcome
      == Stages(env, BuiltGraph(FlowsOf(env, q)), FlowsOf(env, q), LabelsOf(env, q), env.aggregate(TransfersOf(env, q)),
                q.windowDays, q.processingDate, q.runFeatures, q.runPatterns).outcome
  {
    var a, b, c := TransfersRead(q.startMs, q.endMs), MoneyFlowsRead(q.startMs, q.endMs), LabelsRead(AddressesOf(env, q));
    assert [a] + [b] + [c] == [a, b, c];
  }

  /** The calls the feature phase makes, in terms of the analyzer's answer. */
  ghost function FeatureCalls(env: Environment, q: Request): seq<Event> {
    if !q.runFeatures then []
    else
      var asked := FeaturesAnalyzed(BuiltGraph(FlowsOf(env, q)), LabelsOf(env, q), env.aggregate(TransfersOf(env, q)));
      var answer := FeaturesAnswerOf(env, q);
      if answer.Returned? && answer.value != [] then
        [asked, FeaturesWritten(Values(answer.value), q.windowDays, q.processingDate)]
      else [asked]
  }

  /** The calls the pattern phase makes, in terms of the analyzer's answer. */
  ghost function PatternCalls(env: Environment, q: Request): seq<Event> {
    if !q.runPatterns || !FeaturesSucceed(env, q) then []
    else
      var asked := PatternsAnalyzed(FlowsOf(env, q), LabelsOf(env, q), q.windowDays, q.processingDate);
      var answer := PatternsAnswerOf(env, q);
      if answer.Returned? && answer.value != [] then
        [asked, PatternsWritten(answer.value, q.windowDays, q.processingDate)]
      else [asked]
  }

  // ---------------------------------------------------------------------
  // Properties of `run`
  // ---------------------------------------------------------------------

  /** The stages of a loaded run, in terms of the analyzers' answers. */
  lemma StagesOfRequest(env: Environment, q: Request)
    ensures Stages(env, BuiltGraph(FlowsOf(env, q)), FlowsOf(env, q), LabelsOf(env, q), env.aggregate(TransfersOf(env, q)),
                   q.windowDays, q.processingDate, q.runFeatures, q.runPatterns).events
      == FeatureCalls(env, q) + PatternCalls(env, q)
  {
    if !FeaturesSucceed(env, q) {
      assert FeatureCalls(env, q) + [] == FeatureCalls(env, q);
    }
  }

  /**
   The calls of a run, as one flat sequence: a restatement of
   `RunSpec(env, q).events` (proved equal in `RunCalls`) without the nested
   stages, so that the properties below are cheap to prove.
   */
  ghost function Calls(env: Environment, q: Request): seq<Event> {
    if TransfersOf(env, q) == [] then
      [TransfersRead(q.startMs, q.endMs)]
    else if FlowsOf(env, q) == [] then
      [TransfersRead(q.startMs, q.endMs), MoneyFlowsRead(q.startMs, q.endMs)]
    else
      [TransfersRead(q.startMs, q.endMs), MoneyFlowsRead(q.startMs, q.endMs), LabelsRead(AddressesOf(env, q))]
        + FeatureCalls(env, q) + PatternCalls(env, q)
  }

  /**
   The whole record of calls: transfers are read; only if there are any are
   money flows read; only if there are any are labels read and the phases
   run, the feature phase first, the pattern phase only after the feature
   phase succeeded or was skipped.
   */
  lemma RunCalls(env: Environment, q: Request)
    ensures RunSpec(env, q).events == Calls(env, q)
  {
    if TransfersOf(env, q) != [] && FlowsOf(env, q) == [] {
      assert [TransfersRead(q.startMs, q.endMs)] + [MoneyFlowsRead(q.startMs, q.endMs)]
        == [TransfersRead(q.startMs, q.endMs), MoneyFlowsRead(q.startMs, q.endMs)];
    } else if Loaded(env, q) {
      LoadedRun(env, q);
      StagesOfRequest(env, q);
      var loads := [TransfersRead(q.startMs, q.endMs), MoneyFlowsRead(q.startMs, q.endMs), LabelsRead(AddressesOf(env, q))];
      AppendAssoc(loads, FeatureCalls(env, q), PatternCalls(env, q));
    }
  }

  /**
   How `run` ends: "No transfers found" exactly when the transfer read is
   empty, "No money flows found" exactly when only the money-flow read is,
   then the feature phase's error, then the pattern analyzer's exception;
   otherwise the two counts, each 0 when its phase is off.
   */
  lemma RunOutcome(env: Environment, q: Request)
    ensures RunSpec(env, q).outcome == Failed(NoTransfers(q.startMs, q.endMs)) <==> TransfersOf(env, q) == []
    ensures RunSpec(env, q).outcome == Failed(NoMoneyFlows(q.startMs, q.endMs))
      <==> TransfersOf(env, q) != [] && FlowsOf(env, q) == []
    ensures RunSpec(env, q).outcome == Failed(NoFeatures)
      <==> Loaded(env, q) && q.runFeatures && FeaturesAnswerOf(env, q) == Returned([])
    ensures RunSpec(env, q).outcome.Done?
      <==> Loaded(env, q) && FeaturesSucceed(env, q) && PatternsSucceed(env, q)
    ensures RunSpec(env, q).outcome.Done? ==>
      && RunSpec(env, q).outcome.value.featuresCount
        == (if q.runFeatures then |FeaturesAnswerOf(env, q).value| else 0)
      && RunSpec(env, q).outcome.value.patternsCount
        == (if q.runPatterns then |PatternsAnswerOf(env, q).value| else 0)
  {
    if Loaded(env, q) {
      LoadedRun(env, q);
      if FeaturesAnswerOf(env, q).Returned? {
        ValuesOf(FeaturesAnswerOf(env, q).value);
      }
    }
  }

  /**
   Labels are asked for the sorted, distinct endpoints of the money flows;
   the feature analyzer gets the graph built from the money flows, the
   labels and the aggregates of the transfers; the pattern analyzer gets the
   money flows themselves, the labels and the window.
   */
  lemma RunAnalyzerInputs(env: Environment, q: Request)
    ensures StrictlyIncreasing(AddressesOf(env, q)) && Elems(AddressesOf(env, q)) == Endpoints(FlowsOf(env, q))
    ensures forall e :: e in RunSpec(env, q).events && e.LabelsRead? ==> e.addresses == AddressesOf(env, q)
    ensures forall e :: e in RunSpec(env, q).events && e.FeaturesAnalyzed? ==>
      e == FeaturesAnalyzed(BuiltGraph(FlowsOf(env, q)), LabelsOf(env, q), env.aggregate(TransfersOf(env, q)))
    ensures forall e :: e in RunSpec(env, q).events && e.PatternsAnalyzed? ==>
      e == PatternsAnalyzed(FlowsOf(env, q), LabelsOf(env, q), q.windowDays, q.processingDate)
  {
    SortedSeqSorts(Endpoints(FlowsOf(env, q)));
    RunCalls(env, q);
    CallsInputs(env, q);
    assert forall e :: e in RunSpec(env, q).events ==> AsksRightly(env, q, e);
  }

  /** A call asks its collaborator with the arguments `run` derives from the request. */
  ghost predicate AsksRightly(env: Environment, q: Request, e: Event) {
    && (e.LabelsRead? ==> e.addresses == AddressesOf(env, q))
    && (e.FeaturesAnalyzed? ==>
          e == FeaturesAnalyzed(BuiltGraph(FlowsOf(env, q)), LabelsOf(env, q), env.aggregate(TransfersOf(env, q))))
    && (e.PatternsAnalyzed? ==> e == PatternsAnalyzed(FlowsOf(env, q), LabelsOf(env, q), q.windowDays, q.processingDate))
  }

  lemma CallsInputs(env: Environment, q: Request)
    ensures forall e :: e in Calls(env, q) ==> AsksRightly(env, q, e)
  {
    var loads := [TransfersRead(q.startMs, q.endMs), MoneyFlowsRead(q.startMs, q.endMs), LabelsRead(AddressesOf(env, q))];
    var features, patterns := FeatureCalls(env, q), PatternCalls(env, q);
    assert forall e :: e in loads ==> AsksRightly(env, q, e);
    assert forall e :: e in features ==> AsksRightly(env, q, e);
    assert forall e :: e in patterns ==> AsksRightly(env, q, e);
    if Loaded(env, q) {
      assert Calls(env, q) == loads + features + patterns;
    }
  }

  /**
   The writes: features are written exactly when the feature phase runs and
   its analyzer returns a non-empty mapping, and what is written is that
   mapping's values under the request's window and date; patterns are
   written exactly when the pattern phase is reached and its analyzer
   returns a non-empty list, and what is written is that list.
   */
  lemma RunWrites(env: Environment, q: Request)
    ensures forall e :: e in RunSpec(env, q).events && e.FeaturesWritten? ==>
      && FeaturesAnswerOf(env, q).Returned?
      && e == FeaturesWritten(Values(FeaturesAnswerOf(env, q).value), q.windowDays, q.processingDate)
      && e.features != []
    ensures (exists e :: e in RunSpec(env, q).events && e.FeaturesWritten?)
      <==> Loaded(env, q) && q.runFeatures && FeaturesAnswerOf(env, q).Returned? && FeaturesAnswerOf(env, q).value != []
    ensures forall e :: e in RunSpec(env, q).events && e.PatternsWritten? ==>
      && PatternsAnswerOf(env, q).Returned?
      && e == PatternsWritten(PatternsAnswerOf(env, q).value, q.windowDays, q.processingDate)
      && e.patterns != []
    ensures (exists e :: e in RunSpec(env, q).events && e.PatternsWritten?)
      <==> && Loaded(env, q) && FeaturesSucceed(env, q) && q.runPatterns
           && PatternsAnswerOf(env, q).Returned? && PatternsAnswerOf(env, q).value != []
  {
    RunCalls(env, q);
    CallsWrites(env, q);
    assert forall e :: e in RunSpec(env, q).events ==> WritesRightly(env, q, e);
  }

  /** A write carries what the analyzer returned, non-empty, under the request's window and date. */
  ghost predicate WritesRightly(env: Environment, q: Request, e: Event) {
    && (e.FeaturesWritten? ==>
          && FeaturesAnswerOf(env, q).Returned?
          && e == FeaturesWritten(Values(FeaturesAnswerOf(env, q).value), q.windowDays, q.processingDate)
          && e.features != [])
    && (e.PatternsWritten? ==>
          && PatternsAnswerOf(env, q).Returned?
          && e == PatternsWritten(PatternsAnswerOf(env, q).value, q.windowDays, q.processingDate)
          && e.patterns != [])
  }

  lemma CallsWrites(env: Environment, q: Request)
    ensures forall e :: e in Calls(env, q) ==> WritesRightly(env, q, e)
    ensures (exists e :: e in Calls(env, q) && e.FeaturesWritten?)
      <==> Loaded(env, q) && q.runFeatures && FeaturesAnswerOf(env, q).Returned? && FeaturesAnswerOf(env, q).value != []
    ensures (exists e :: e in Calls(env, q) && e.PatternsWritten?)
      <==> && Loaded(env, q) && FeaturesSucceed(env, q) && q.runPatterns
           && PatternsAnswerOf(env, q).Returned? && PatternsAnswerOf(env, q).value != []
  {
    var loads := [TransfersRead(q.startMs, q.endMs), MoneyFlowsRead(q.startMs, q.endMs), LabelsRead(AddressesOf(env, q))];
    var features, patterns := FeatureCalls(env, q), PatternCalls(env, q);
    var answer := FeaturesAnswerOf(env, q);
    if answer.Returned? {
      ValuesOf(answer.value);
    }
    assert forall e :: e in loads ==> WritesRightly(env, q, e) && !e.FeaturesWritten? && !e.PatternsWritten?;
    assert forall e :: e in features ==> WritesRightly(env, q, e) && !e.PatternsWritten?;
    assert forall e :: e in patterns ==> WritesRightly(env, q, e) && !e.FeaturesWritten?;
    if Loaded(env, q) {
      assert Calls(env, q) == loads + features + patterns;
      if q.runFeatures && answer.Returned? && answer.value != [] {
        assert features[1] in Calls(env, q);
      }
      if FeaturesSucceed(env, q) && q.runPatterns && PatternsAnswerOf(env, q).Returned? && PatternsAnswerOf(env, q).value != [] {
        assert patterns[1] in Calls(env, q);
      }
    }
  }

  /**
   Order: the three loads come first, and no feature call follows a pattern
   call, so a feature write always precedes the pattern analysis.
   */
  lemma RunOrder(env: Environment, q: Request)
    ensures forall i :: 0 <= i < |RunSpec(env, q).events| && (IsFeatureCall(RunSpec(env, q).events[i]) || IsPatternCall(RunSpec(env, q).events[i])) ==> i >= 3
    ensures forall i, j ::
      0 <= i < j < |RunSpec(env, q).events| && IsPatternCall(RunSpec(env, q).events[i]) ==> !IsFeatureCall(RunSpec(env, q).events[j])
  {
    RunCalls(env, q);
    CallsOrder(env, q);
  }

  lemma CallsOrder(env: Environment, q: Request)
    ensures forall i :: 0 <= i < |Calls(env, q)| && (IsFeatureCall(Calls(env, q)[i]) || IsPatternCall(Calls(env, q)[i])) ==> i >= 3
    ensures forall i, j ::
      0 <= i < j < |Calls(env, q)| && IsPatternCall(Calls(env, q)[i]) ==> !IsFeatureCall(Calls(env, q)[j])
  {
    if Loaded(env, q) {
      var loads := [TransfersRead(q.startMs, q.endMs), MoneyFlowsRead(q.startMs, q.endMs), LabelsRead(AddressesOf(env, q))];
      var features, patterns := FeatureCalls(env, q), PatternCalls(env, q);
      assert forall e :: e in features ==> IsFeatureCall(e) && !IsPatternCall(e);
      assert forall e :: e in patterns ==> IsPatternCall(e) && !IsFeatureCall(e);
      PhasesInOrder(loads, features, patterns);
      assert Calls(env, q) == loads + features + patterns;
    }
  }

  /** Loads, then feature calls, then pattern calls, concatenated. */
  lemma PhasesInOrder(loads: seq<Event>, features: seq<Event>, patterns: seq<Event>)
    requires |loads| == 3 && forall e :: e in loads ==> !IsFeatureCall(e) && !IsPatternCall(e)
    requires forall e :: e in features ==> !IsPatternCall(e)
    requires forall e :: e in patterns ==> !IsFeatureCall(e)
    ensures var ev := loads + features + patterns;
      forall i :: 0 <= i < |ev| && (IsFeatureCall(ev[i]) || IsPatternCall(ev[i])) ==> i >= 3
    ensures var ev := loads + features + patterns;
      forall i, j :: 0 <= i < j < |ev| && IsPatternCall(ev[i]) ==> !IsFeatureCall(ev[j])
  {
    var ev := loads + features + patterns;
    forall i | 0 <= i < |ev|
      ensures i < 3 ==> !IsFeatureCall(ev[i]) && !IsPatternCall(ev[i])
      ensures i < 3 + |features| ==> !IsPatternCall(ev[i])
      ensures i >= 3 + |features| ==> !IsFeatureCall(ev[i])
    {
      if i < 3 {
        assert ev[i] == loads[i];
      } else if i < 3 + |features| {
        assert ev[i] == features[i - 3];
      } else {
        assert ev[i] == patterns[i - 3 - |features|];
      }
    }
  }

  /**
   Which phase calls can occur at all: a feature call only when the feature
   phase is on and the inputs loaded, a pattern call only when the pattern
   phase is on and the feature phase succeeded or was skipped.
   */
  lemma CallsOfPhases(env: Environment, q: Request)
    ensures forall e :: e in Calls(env, q) ==>
      && (IsFeatureCall(e) ==> Loaded(env, q) && q.runFeatures)
      && (IsPatternCall(e) ==> Loaded(env, q) && q.runPatterns && FeaturesSucceed(env, q))
  {
    var loads := [TransfersRead(q.startMs, q.endMs), MoneyFlowsRead(q.startMs, q.endMs), LabelsRead(AddressesOf(env, q))];
    var features, patterns := FeatureCalls(env, q), PatternCalls(env, q);
    assert forall e :: e in loads ==> !IsFeatureCall(e) && !IsPatternCall(e);
    assert forall e :: e in features ==> q.runFeatures && !IsPatternCall(e);
    assert forall e :: e in patterns ==> q.runPatterns && FeaturesSucceed(env, q) && !IsFeatureCall(e);
    if Loaded(env, q) {
      assert Calls(env, q) == loads + features + patterns;
    }
  }

  /**
   The switches: with the feature phase off, the feature analyzer is never
   asked, nothing is written for features and the feature count is 0;
   likewise for patterns. With both off nothing is written at all and a
   loaded run reports two zero counts.
   */
  lemma RunSwitches(env: Environment, q: Request)
    ensures !q.runFeatures ==>
      && (forall e :: e in RunSpec(env, q).events ==> !IsFeatureCall(e))
      && (RunSpec(env, q).outcome.Done? ==> RunSpec(env, q).outcome.value.featuresCount == 0)
    ensures !q.runPatterns ==>
      && (forall e :: e in RunSpec(env, q).events ==> !IsPatternCall(e))
      && (RunSpec(env, q).outcome.Done? ==> RunSpec(env, q).outcome.value.patternsCount == 0)
    ensures !q.runFeatures && !q.runPatterns ==>
      && (forall e :: e in RunSpec(env, q).events ==> !IsWrite(e))
      && (Loaded(env, q) ==> RunSpec(env, q).outcome == Done(Counts(0, 0)))
  {
    RunCalls(env, q);
    CallsOfPhases(env, q);
    RunOutcome(env, q);
  }

  /**
   No rollback: when the feature phase has written and the pattern analyzer
   then raises, the run fails with that exception and the feature write
   stays recorded.
   */
  lemma RunKeepsFeatureWrite(env: Environment, q: Request, message: string)
    requires Loaded(env, q) && q.runFeatures && q.runPatterns
    requires FeaturesAnswerOf(env, q).Returned? && FeaturesAnswerOf(env, q).value != []
    requires PatternsAnswerOf(env, q) == Raised(message)
    ensures RunSpec(env, q).outcome == Failed(AnalyzerRaised(message))
    ensures FeaturesWritten(Values(FeaturesAnswerOf(env, q).value), q.windowDays, q.processingDate) in RunSpec(env, q).events
  {
    RunCalls(env, q);
    RunOutcome(env, q);
    CallsWrites(env, q);
  }

  /**
   An empty feature mapping stops the run before any write and before the
   pattern analyzer is asked; an empty pattern list is no error, writes
   nothing and counts 0.
   */
  lemma RunEmptyResults(env: Environment, q: Request)
    ensures Loaded(env, q) && q.runFeatures && FeaturesAnswerOf(env, q) == Returned([]) ==>
      && RunSpec(env, q).outcome == Failed(NoFeatures)
      && (forall e :: e in RunSpec(env, q).events ==> !IsWrite(e) && !IsPatternCall(e))
    ensures Loaded(env, q) && FeaturesSucceed(env, q) && q.runPatterns && PatternsAnswerOf(env, q) == Returned([]) ==>
      && RunSpec(env, q).outcome.Done?
      && RunSpec(env, q).outcome.value.patternsCount == 0
      && (forall e :: e in RunSpec(env, q).events ==> !e.PatternsWritten?)
  {
    RunCalls(env, q);
    RunOutcome(env, q);
    CallsOfPhases(env, q);
    CallsWrites(env, q);
  }
}
