/** `TestMetricsManager`: the process-wide metrics keeper whose report
    analyses only the latest run of each test. Its dictionary is reset by
    `InitializeTest`, appended to by `RecordTestResult`, and queried by
    `GenerateMetricsReport` through `SelectMany`, `GroupBy(TestName)` and
    `Last()`. */
module TestMetrics {
  import opened Common
  import opened Metrics
  import opened MetricStore

  /** What `GenerateMetricsReport` yields: the empty string when no test was
      ever initialised or recorded, the analysis otherwise, or the exception
      that `Average`/`First` raise on an empty sequence of runs. */
  datatype MetricsReport = NoMetrics | Analysis(summary: Summary) | EmptySequenceError

  /** The distinct test names of `s` in order of first occurrence: the keys
      `GroupBy` produces, in the order it produces them. */
  function GroupKeys(s: seq<Metric>): (r: seq<string>)
    ensures forall n :: n in r ==> exists i :: 0 <= i < |s| && s[i].testName == n
  {
    if s == [] then []
    else
      var p := GroupKeys(s[..|s| - 1]);
      if s[|s| - 1].testName in p then p else p + [s[|s| - 1].testName]
  }

  /** `g.Last()` for the group of name `n`. */
  function LastNamed(s: seq<Metric>, n: string): (m: Metric)
    requires n in GroupKeys(s)
    ensures m in s && m.testName == n
  {
    var x := s[|s| - 1];
    if x.testName == n then x else LastNamed(s[..|s| - 1], n)
  }

  /** `GroupBy(m => m.TestName).Select(g => g.Last())`. */
  function LastPerGroup(s: seq<Metric>): seq<Metric>
  {
    var keys := GroupKeys(s);
    seq(|keys|, i requires 0 <= i < |keys| => LastNamed(s, keys[i]))
  }

  /** The latest run of every test that has one, in enumeration order: the
      reference meaning of "take only the last execution of each test". */
  function LastOfEach(names: seq<string>, history: map<string, seq<Metric>>): (r: seq<Metric>)
    requires AllKnown(names, history)
    ensures |r| <= |names|
  {
    if names == [] then []
    else
      var h := history[names[|names| - 1]];
      LastOfEach(names[..|names| - 1], history) + (if h == [] then [] else [h[|h| - 1]])
  }

  /** No two runs of `r` belong to the same test. */
  predicate OneRunEach(r: seq<Metric>)
  {
    forall i, j :: 0 <= i < j < |r| ==> r[i].testName != r[j].testName
  }

  /** In a well-formed dictionary each latest run belongs to a known test,
      and no two latest runs belong to the same test. */
  lemma {:induction false} OneRunPerTest(names: seq<string>, history: map<string, seq<Metric>>)
    requires AllKnown(names, history) && Distinct(names) && OwnRuns(history)
    ensures forall m :: m in LastOfEach(names, history) ==> m.testName in names
    ensures OneRunEach(LastOfEach(names, history))
  {
    if names != [] {
      var pre := names[..|names| - 1];
      var n := names[|names| - 1];
      var h := history[n];
      assert AllKnown(pre, history) && Distinct(pre);
      OneRunPerTest(pre, history);
      assert n !in pre;
      if h != [] {
        var p := LastOfEach(pre, history);
        var r := LastOfEach(names, history);
        assert h[|h| - 1] in history[n];
        assert r == p + [h[|h| - 1]] && r[|p|].testName == n;
        forall i | 0 <= i < |p|
          ensures r[i].testName != n
        {
          assert r[i] == p[i] && p[i] in p;
        }
      } else {
        assert LastOfEach(names, history) == LastOfEach(pre, history);
      }
    }
  }

  /** The report as a function of the dictionary. */
  function MetricsReportOf(names: seq<string>, history: map<string, seq<Metric>>): MetricsReport
    requires AllKnown(names, history)
  {
    if names == [] then NoMetrics
    else
      var runs := LastPerGroup(Flatten(names, history));
      if runs == [] then EmptySequenceError else Analysis(SummaryOf(runs))
  }

  /** A name that no run of `s` carries is not a group key of `s`. */
  lemma {:induction false} AbsentNameNoGroup(s: seq<Metric>, k: string)
    requires forall m :: m in s ==> m.testName != k
    ensures k !in GroupKeys(s)
  {
    if s != [] {
      assert s[|s| - 1] in s;
      AbsentNameNoGroup(s[..|s| - 1], k);
    }
  }

  /** Appending a block of runs all named `k`, a name new to `p`, adds the
      single group key `k`. */
  lemma {:induction false} GroupKeysAppendGroup(p: seq<Metric>, h: seq<Metric>, k: string)
    requires h != [] && forall m :: m in h ==> m.testName == k
    requires k !in GroupKeys(p)
    ensures GroupKeys(p + h) == GroupKeys(p) + [k]
    decreases |h|
  {
    var h' := h[..|h| - 1];
    assert (p + h)[..|p + h| - 1] == p + h';
    assert h[|h| - 1] in h;
    if h' == [] {
      assert p + h' == p;
    } else {
      assert forall m :: m in h' ==> m in h;
      GroupKeysAppendGroup(p, h', k);
    }
  }

  /** In `p + h` the last run of `k` is the last of `h`; every other group's
      last run is the one it had in `p`. */
  lemma {:induction false} LastNamedAppendGroup(p: seq<Metric>, h: seq<Metric>, k: string, n: string)
    requires h != [] && forall m :: m in h ==> m.testName == k
    requires k !in GroupKeys(p)
    requires n in GroupKeys(p) + [k]
    ensures GroupKeys(p + h) == GroupKeys(p) + [k]
    ensures LastNamed(p + h, n) == if n == k then h[|h| - 1] else LastNamed(p, n)
    decreases |h|
  {
    GroupKeysAppendGroup(p, h, k);
    var h' := h[..|h| - 1];
    assert (p + h)[..|p + h| - 1] == p + h';
    assert h[|h| - 1] in h;
    if n != k {
      if h' == [] {
        assert p + h' == p;
      } else {
        assert forall m :: m in h' ==> m in h;
        LastNamedAppendGroup(p, h', k, n);
      }
    }
  }

  /** Grouping `p + h` gives the groups of `p` followed by the group of `h`. */
  lemma LastPerGroupAppendGroup(p: seq<Metric>, h: seq<Metric>, k: string)
    requires h != [] && forall m :: m in h ==> m.testName == k
    requires k !in GroupKeys(p)
    ensures LastPerGroup(p + h) == LastPerGroup(p) + [h[|h| - 1]]
  {
    GroupKeysAppendGroup(p, h, k);
    var keys := GroupKeys(p + h);
    forall i | 0 <= i < |keys|
      ensures LastPerGroup(p + h)[i] == (LastPerGroup(p) + [h[|h| - 1]])[i]
    {
      LastNamedAppendGroup(p, h, k, keys[i]);
    }
  }

  /** Grouping the flattened dictionary by test name and keeping each group's
      last run is the same as taking the latest run of every key. */
  lemma {:induction false} GroupingKeepsLastOfEach(names: seq<string>, history: map<string, seq<Metric>>)
    requires AllKnown(names, history) && Distinct(names) && OwnRuns(history)
    ensures LastPerGroup(Flatten(names, history)) == LastOfEach(names, history)
  {
    if names != [] {
      var pre := names[..|names| - 1];
      var k := names[|names| - 1];
      var h := history[k];
      GroupingKeepsLastOfEach(pre, history);
      if h == [] {
        assert Flatten(names, history) == Flatten(pre, history);
      } else {
        FlattenOwnRuns(pre, history);
        assert forall i :: 0 <= i < |pre| ==> pre[i] == names[i] != k;
        AbsentNameNoGroup(Flatten(pre, history), k);
        LastPerGroupAppendGroup(Flatten(pre, history), h, k);
      }
    }
  }

  /** With a well-formed dictionary the report is the analysis of the latest
      run of each test; it is empty exactly when there is no key, and it
      throws exactly when keys exist but none has a run. */
  lemma ReportAnalysesLastRuns(names: seq<string>, history: map<string, seq<Metric>>)
    requires AllKnown(names, history) && WellFormed(names, history)
    ensures MetricsReportOf(names, history).NoMetrics? <==> history == map[]
    ensures MetricsReportOf(names, history).EmptySequenceError? <==>
              names != [] && forall k :: k in history ==> history[k] == []
    ensures MetricsReportOf(names, history).Analysis? ==>
              LastOfEach(names, history) != [] &&
              MetricsReportOf(names, history).summary == SummaryOf(LastOfEach(names, history))
  {
    GroupingKeepsLastOfEach(names, history);
    if names != [] {
      assert names[0] in history;
    } else {
      assert history.Keys == {};
    }
    LastOfEachEmptyIffNoRun(names, history);
  }

  /** The latest runs are empty exactly when no key has a run. */
  lemma {:induction false} LastOfEachEmptyIffNoRun(names: seq<string>, history: map<string, seq<Metric>>)
    requires AllKnown(names, history)
    ensures LastOfEach(names, history) == [] <==> forall i :: 0 <= i < |names| ==> history[names[i]] == []
  {
    if names != [] {
      var pre := names[..|names| - 1];
      LastOfEachEmptyIffNoRun(pre, history);
      assert forall i :: 0 <= i < |pre| ==> pre[i] == names[i];
    }
  }

  /** Each latest run is the last element of its test's list. */
  lemma {:induction false} LastOfEachMembers(names: seq<string>, history: map<string, seq<Metric>>)
    requires AllKnown(names, history)
    ensures forall m :: m in LastOfEach(names, history) ==>
              exists i :: 0 <= i < |names| && history[names[i]] != [] &&
                          m == history[names[i]][|history[names[i]]| - 1]
    ensures forall i :: 0 <= i < |names| && history[names[i]] != [] ==>
              history[names[i]][|history[names[i]]| - 1] in LastOfEach(names, history)
  {
    if names != [] {
      var pre := names[..|names| - 1];
      LastOfEachMembers(pre, history);
      assert forall i :: 0 <= i < |pre| ==> pre[i] == names[i];
    }
  }

  /** Earlier runs never influence the report: two dictionaries with the same
      keys whose lists agree on emptiness and on their last element produce
      the same report. */
  lemma {:induction false} ReportIgnoresEarlierRuns(names: seq<string>, h1: map<string, seq<Metric>>, h2: map<string, seq<Metric>>)
    requires WellFormed(names, h1) && WellFormed(names, h2)
    requires forall k :: k in names ==> (h1[k] == [] <==> h2[k] == [])
    requires forall k :: k in names && h1[k] != [] ==> h1[k][|h1[k]| - 1] == h2[k][|h2[k]| - 1]
    ensures AllKnown(names, h1) && AllKnown(names, h2)
    ensures MetricsReportOf(names, h1) == MetricsReportOf(names, h2)
  {
    assert AllKnown(names, h1) && AllKnown(names, h2);
    LastOfEachAgree(names, h1, h2);
    GroupingKeepsLastOfEach(names, h1);
    GroupingKeepsLastOfEach(names, h2);
  }

  /** The latest runs depend only on each list's last element. */
  lemma {:induction false} LastOfEachAgree(names: seq<string>, h1: map<string, seq<Metric>>, h2: map<string, seq<Metric>>)
    requires AllKnown(names, h1) && AllKnown(names, h2)
    requires forall k :: k in names ==> (h1[k] == [] <==> h2[k] == [])
    requires forall k :: k in names && h1[k] != [] ==> h1[k][|h1[k]| - 1] == h2[k][|h2[k]| - 1]
    ensures LastOfEach(names, h1) == LastOfEach(names, h2)
  {
    if names != [] {
      var pre := names[..|names| - 1];
      var k := names[|names| - 1];
      assert forall i :: 0 <= i < |pre| ==> pre[i] == names[i];
      assert forall j :: j in pre ==> j in names;
      LastOfEachAgree(pre, h1, h2);
      assert k in names;
      var t1 := if h1[k] == [] then [] else [h1[k][|h1[k]| - 1]];
      var t2 := if h2[k] == [] then [] else [h2[k][|h2[k]| - 1]];
      assert t1 == t2;
      assert LastOfEach(names, h1) == LastOfEach(pre, h1) + t1;
      assert LastOfEach(names, h2) == LastOfEach(pre, h2) + t2;
    }
  }

  /** The slowest reported test is the latest run of some test and lasted at
      least as long as every test's latest run; symmetrically for the fastest. */
  lemma ReportedExtremes(names: seq<string>, history: map<string, seq<Metric>>)
    requires AllKnown(names, history) && WellFormed(names, history)
    requires MetricsReportOf(names, history).Analysis?
    ensures var s := MetricsReportOf(names, history).summary;
            s.slowest in LastOfEach(names, history) && s.fastest in LastOfEach(names, history) &&
            forall i :: 0 <= i < |names| && history[names[i]] != [] ==>
              s.fastest.duration <= history[names[i]][|history[names[i]]| - 1].duration <= s.slowest.duration
  {
    ReportAnalysesLastRuns(names, history);
    LastOfEachMembers(names, history);
  }

  /** The failure blocks are exactly the latest runs that failed. */
  lemma ReportedFailures(names: seq<string>, history: map<string, seq<Metric>>)
    requires AllKnown(names, history) && WellFormed(names, history)
    requires MetricsReportOf(names, history).Analysis?
    ensures var s := MetricsReportOf(names, history).summary;
            s.failures == Entries(FailedRuns(LastOfEach(names, history))) &&
            (s.failures != [] <==> exists m :: m in LastOfEach(names, history) && !m.passed)
  {
    ReportAnalysesLastRuns(names, history);
    FailureSectionIffSomeRunFailed(LastOfEach(names, history));
  }

  /** With a single test that has runs, its latest run is both the slowest and
      the fastest. */
  lemma SingleTestReport(k: string, runs: seq<Metric>)
    requires runs != [] && forall m :: m in runs ==> m.testName == k
    ensures AllKnown([k], map[k := runs])
    ensures MetricsReportOf([k], map[k := runs]) == Analysis(SummaryOf([runs[|runs| - 1]]))
    ensures MetricsReportOf([k], map[k := runs]).summary.slowest == runs[|runs| - 1]
    ensures MetricsReportOf([k], map[k := runs]).summary.fastest == runs[|runs| - 1]
  {
    var h := map[k := runs];
    assert AllKnown([k], h);
    assert [k][..0] == [];
    ReportAnalysesLastRuns([k], h);
  }

  /** The static keeper. */
  class TestMetricsManager {
    const metrics: MetricDictionary

    ghost predicate Valid()
      reads this, metrics
    {
      metrics.Valid()
    }

    constructor()
      ensures Valid() && fresh(metrics)
      ensures metrics.names == [] && metrics.history == map[]
    {
      metrics := new MetricDictionary();
    }

    /** Starts a fresh history for `testName`, leaving every other test's alone. */
    method InitializeTest(testName: string)
      requires Valid()
      modifies metrics
      ensures Valid()
      ensures metrics.history == old(metrics.history)[testName := []]
      ensures metrics.names == if testName in old(metrics.history) then old(metrics.names) else old(metrics.names) + [testName]
    {
      metrics.Reset(testName);
    }

    /** Appends one run with the given fields to the end of `testName`'s
        history, creating it when absent, leaving every other test's alone. */
    method RecordTestResult(testName: string, duration: int, passed: bool, failureStep: string, category: string)
      requires Valid()
      modifies metrics
      ensures Valid()
      ensures var m := Metric(testName, duration, passed, failureStep, category);
              metrics.history == old(metrics.history)[testName :=
                (if testName in old(metrics.history) then old(metrics.history)[testName] else []) + [m]]
      ensures metrics.names == if testName in old(metrics.history) then old(metrics.names) else old(metrics.names) + [testName]
    {
      var m := Metric(testName, duration, passed, failureStep, category);
      assert [] + [m] == [m];
      metrics.Add(m);
    }

    /** Builds the report: empty without keys; otherwise groups the flattened
        runs, keeps each group's last run and analyses them. */
    method GenerateMetricsReport() returns (r: MetricsReport)
      requires Valid()
      ensures AllKnown(metrics.names, metrics.history)
      ensures r == MetricsReportOf(metrics.names, metrics.history)
    {
      assert AllKnown(metrics.names, metrics.history);
      if metrics.names == [] {
        return NoMetrics;
      }
      var runs := LastPerGroup(Flatten(metrics.names, metrics.history));
      if runs == [] {
        return EmptySequenceError;
      }
      var summary := BuildSummary(runs);
      r := Analysis(summary);
    }
  }
}
