/** The end-of-run analysis both the suite fixture and the HTML reporter add
    to the report: timing and failure figures over every recorded run,
    added only when something was recorded, followed in every case by the
    flush that writes the report. */
module Dashboard {
  import opened Common
  import opened World
  import opened Metrics
  import opened MetricStore

  /** The calls made at the end of the run: the analysis when anything was
      recorded, and always the flush. */
  function DashboardEffects(names: seq<string>, history: map<string, seq<Metric>>): seq<Effect>
    requires AllKnown(names, history) && NoEmptyHistory(history)
  {
    (match AllRunsSummary(names, history)
     case None => []
     case Some(s) => [DashboardAdded(s)])
    + [ReportFlushed]
  }

  /** Builds the analysis over the dictionary's runs, in key order, and
      flushes the report. */
  method AddAnalysisAndFlush(world: World, metrics: MetricDictionary)
    requires metrics.Valid() && NoEmptyHistory(metrics.history)
    modifies world
    ensures world.log == old(world.log) + DashboardEffects(metrics.names, metrics.history)
  {
    AllNamesKnown(metrics.names, metrics.history);
    if metrics.names != [] {
      var summary := BuildSummary(Flatten(metrics.names, metrics.history));
      world.log := world.log + [DashboardAdded(summary)];
    }
    world.log := world.log + [ReportFlushed];
  }

  /** The analysis is added exactly when some test was recorded, it counts
      every recorded run, and the report is flushed last in every case. */
  lemma DashboardOnlyWhenRecorded(names: seq<string>, history: map<string, seq<Metric>>)
    requires AllKnown(names, history) && NoEmptyHistory(history)
    ensures DashboardEffects(names, history)[|DashboardEffects(names, history)| - 1] == ReportFlushed
    ensures (exists s :: DashboardAdded(s) in DashboardEffects(names, history)) <==> names != []
    ensures forall s :: DashboardAdded(s) in DashboardEffects(names, history) ==>
              s.runCount == |Flatten(names, history)| &&
              (s.failures != [] <==> exists x :: x in Flatten(names, history) && !x.passed)
  {
    var d := DashboardEffects(names, history);
    match AllRunsSummary(names, history)
    case None =>
      assert d == [ReportFlushed];
    case Some(s) =>
      assert d == [DashboardAdded(s), ReportFlushed];
      var runs := Flatten(names, history);
      FlattenEmptyIffNoNames(names, history);
      assert s == SummaryOf(runs);
      FailureSectionIffSomeRunFailed(runs);
      forall t | DashboardAdded(t) in d
        ensures t.runCount == |runs| && (t.failures != [] <==> exists x :: x in runs && !x.passed)
      {
        assert t == s;
      }
  }
}
