/** Per-test execution metrics and the analysis the report shows for a
    collection of runs: run count and total duration (from which the average
    is drawn), the slowest and the fastest run, and one failure entry per
    failing run. Durations are `TimeSpan` ticks. */
module Metrics {
  import opened Common

  /** One recorded run of a test. */
  datatype Metric = Metric(testName: string, duration: int, passed: bool, failureStep: string, category: string)

  /** The metric a fixture records at cleanup: the run passed exactly when
      the outcome is Passed, and only a failed run carries the report
      entry's status as its failure step. */
  function RunMetric(testName: string, duration: int, outcome: UnitTestOutcome, reportStatus: string, category: string): (m: Metric)
    ensures m.testName == testName && m.duration == duration && m.category == category
    ensures m.passed <==> outcome == UnitTestOutcome.Passed
    ensures m.failureStep == if m.passed then "" else reportStatus
  {
    var failed := outcome != UnitTestOutcome.Passed;
    Metric(testName, duration, !failed, if failed then reportStatus else "", category)
  }

  /** What the failure analysis shows for one failing run. */
  datatype FailureEntry = FailureEntry(testName: string, failureStep: string, category: string)

  /** The statistics of the analysis panel. */
  datatype Summary = Summary(
    runCount: nat,
    totalDuration: int,
    slowest: Metric,
    fastest: Metric,
    failures: seq<FailureEntry>)

  /** `OrderByDescending(m => m.Duration).First()`: the stable sort puts the
      first run of greatest duration in front. */
  function Slowest(runs: seq<Metric>): (m: Metric)
    requires |runs| > 0
    ensures m in runs
    ensures forall x :: x in runs ==> x.duration <= m.duration
  {
    if |runs| == 1 then runs[0]
    else
      var rest := Slowest(runs[1..]);
      assert runs == [runs[0]] + runs[1..];
      if runs[0].duration >= rest.duration then runs[0] else rest
  }

  /** `OrderBy(m => m.Duration).First()`: the first run of least duration. */
  function Fastest(runs: seq<Metric>): (m: Metric)
    requires |runs| > 0
    ensures m in runs
    ensures forall x :: x in runs ==> m.duration <= x.duration
  {
    if |runs| == 1 then runs[0]
    else
      var rest := Fastest(runs[1..]);
      assert runs == [runs[0]] + runs[1..];
      if runs[0].duration <= rest.duration then runs[0] else rest
  }

  /** Sum of the durations (the numerator of the average). */
  function TotalDuration(runs: seq<Metric>): int
  {
    if |runs| == 0 then 0 else runs[0].duration + TotalDuration(runs[1..])
  }

  /** `Where(m => !m.Passed)`, order kept. */
  function FailedRuns(runs: seq<Metric>): (r: seq<Metric>)
    ensures |r| <= |runs|
    ensures forall x :: x in r <==> x in runs && !x.passed
  {
    if |runs| == 0 then []
    else
      assert runs == [runs[0]] + runs[1..];
      (if runs[0].passed then [] else [runs[0]]) + FailedRuns(runs[1..])
  }

  /** The fields a failure block shows. */
  function Entry(m: Metric): FailureEntry
  {
    FailureEntry(m.testName, m.failureStep, m.category)
  }

  /** The failure blocks for a list of failing runs, one per run, in order. */
  function Entries(failed: seq<Metric>): (r: seq<FailureEntry>)
    ensures |r| == |failed|
  {
    seq(|failed|, i requires 0 <= i < |failed| => Entry(failed[i]))
  }

  /** The analysis of a non-empty collection of runs. */
  function SummaryOf(runs: seq<Metric>): Summary
    requires |runs| > 0
  {
    Summary(|runs|, TotalDuration(runs), Slowest(runs), Fastest(runs), Entries(FailedRuns(runs)))
  }

  /** Builds the analysis panel: the statistics, then one failure block per
      failing run appended in order (the report's append loop). */
  method BuildSummary(runs: seq<Metric>) returns (s: Summary)
    requires |runs| > 0
    ensures s == SummaryOf(runs)
    ensures s.runCount == |runs|
    ensures |s.failures| == |FailedRuns(runs)|
    ensures forall j :: 0 <= j < |s.failures| ==> s.failures[j] == Entry(FailedRuns(runs)[j])
  {
    var failed := FailedRuns(runs);
    var blocks: seq<FailureEntry> := [];
    var i := 0;
    while i < |failed|
      invariant 0 <= i <= |failed|
      invariant |blocks| == i
      invariant forall j :: 0 <= j < i ==> blocks[j] == Entry(failed[j])
    {
      blocks := blocks + [Entry(failed[i])];
      i := i + 1;
    }
    s := Summary(|runs|, TotalDuration(runs), Slowest(runs), Fastest(runs), blocks);
  }

  /** The failure section is present exactly when some run failed, and each
      of its blocks names a failing run. */
  lemma FailureSectionIffSomeRunFailed(runs: seq<Metric>)
    requires |runs| > 0
    ensures SummaryOf(runs).failures != [] <==> exists x :: x in runs && !x.passed
    ensures forall e :: e in SummaryOf(runs).failures ==>
              exists x :: x in runs && !x.passed && e == Entry(x)
  {
    var failed := FailedRuns(runs);
    if failed != [] {
      assert failed[0] in failed;
    }
    forall e | e in SummaryOf(runs).failures
      ensures exists x :: x in runs && !x.passed && e == Entry(x)
    {
      var j :| 0 <= j < |failed| && Entries(failed)[j] == e;
      assert failed[j] in failed;
    }
  }

  /** With a single run, that run is both the slowest and the fastest. */
  lemma SingleRunIsSlowestAndFastest(m: Metric)
    ensures SummaryOf([m]).slowest == m && SummaryOf([m]).fastest == m
  {
  }

  /** The slowest run lasts at least as long as the fastest. */
  lemma SlowestNotFasterThanFastest(runs: seq<Metric>)
    requires |runs| > 0
    ensures SummaryOf(runs).fastest.duration <= SummaryOf(runs).slowest.duration
  {
    assert Fastest(runs) in runs;
  }
}
