/** The `Dictionary<string, List<TestExecutionMetric>>` each metrics keeper
    updates in place. Its keys are enumerated in insertion order (no key is
    ever removed), so the dictionary is a sequence of distinct names beside
    a map from name to that test's runs. */
module MetricStore {
  import opened Common
  import opened Metrics

  predicate Distinct(names: seq<string>)
  {
    forall i, j :: 0 <= i < j < |names| ==> names[i] != names[j]
  }

  /** Every name of the sequence is a key of the map. */
  predicate AllKnown(names: seq<string>, history: map<string, seq<Metric>>)
  {
    forall i :: 0 <= i < |names| ==> names[i] in history
  }

  /** Each list holds only runs of the test it is filed under. */
  ghost predicate OwnRuns(history: map<string, seq<Metric>>)
  {
    forall k, m :: k in history && m in history[k] ==> m.testName == k
  }

  /** The dictionary invariant: the keys are the distinct enumerated names and
      each list holds runs of its own test. */
  ghost predicate WellFormed(names: seq<string>, history: map<string, seq<Metric>>)
  {
    Distinct(names) && (forall k :: k in history <==> k in names) && OwnRuns(history)
  }

  /** No key has an empty list (keepers that only ever add runs). */
  ghost predicate NoEmptyHistory(history: map<string, seq<Metric>>)
  {
    forall k :: k in history ==> history[k] != []
  }

  /** `SelectMany(x => x.Value)`: every run, key by key in enumeration order. */
  function Flatten(names: seq<string>, history: map<string, seq<Metric>>): seq<Metric>
    requires AllKnown(names, history)
  {
    if names == [] then []
    else Flatten(names[..|names| - 1], history) + history[names[|names| - 1]]
  }

  /** The dictionary as the keepers use it. */
  class MetricDictionary {
    var names: seq<string>
    var history: map<string, seq<Metric>>

    ghost predicate Valid()
      reads this
    {
      WellFormed(names, history)
    }

    constructor()
      ensures Valid() && names == [] && history == map[]
    {
      names := [];
      history := map[];
    }

    /** Empties the list of `n`, creating it when `n` is not yet a key. */
    method Reset(n: string)
      requires Valid()
      modifies this
      ensures Valid()
      ensures history == old(history)[n := []]
      ensures names == if n in old(history) then old(names) else old(names) + [n]
    {
      if n !in history {
        names := names + [n];
      }
      history := history[n := []];
    }

    /** Appends `m` to the list of its test, creating the list when absent. */
    method Add(m: Metric)
      requires Valid()
      modifies this
      ensures Valid()
      ensures m.testName in old(history) ==>
                names == old(names) && history == old(history)[m.testName := old(history)[m.testName] + [m]]
      ensures m.testName !in old(history) ==>
                names == old(names) + [m.testName] && history == old(history)[m.testName := [m]]
    {
      var n := m.testName;
      if n !in history {
        names := names + [n];
        history := history[n := []];
      }
      assert [] + [m] == [m];
      history := history[n := history[n] + [m]];
    }
  }

  /** In a well-formed dictionary every enumerated name is a key. */
  lemma AllNamesKnown(names: seq<string>, history: map<string, seq<Metric>>)
    requires WellFormed(names, history)
    ensures AllKnown(names, history)
  {
    forall i | 0 <= i < |names|
      ensures names[i] in history
    {
      assert names[i] in names;
    }
  }

  /** Every flattened run belongs to one of the enumerated names. */
  lemma {:induction false} FlattenOwnRuns(names: seq<string>, history: map<string, seq<Metric>>)
    requires AllKnown(names, history) && OwnRuns(history)
    ensures forall m :: m in Flatten(names, history) ==> m.testName in names
  {
    if names != [] {
      var pre := names[..|names| - 1];
      FlattenOwnRuns(pre, history);
      forall m | m in Flatten(names, history)
        ensures m.testName in names
      {
        if m in Flatten(pre, history) {
          var i :| 0 <= i < |pre| && pre[i] == m.testName;
          assert names[i] == m.testName;
        } else {
          assert m in history[names[|names| - 1]];
        }
      }
    }
  }

  /** With no empty list, something was recorded exactly when some key exists. */
  lemma {:induction false} FlattenEmptyIffNoNames(names: seq<string>, history: map<string, seq<Metric>>)
    requires AllKnown(names, history) && NoEmptyHistory(history)
    ensures Flatten(names, history) == [] <==> names == []
  {
    if names != [] {
      assert history[names[|names| - 1]] != [];
    }
  }

  /** Only the lists of the enumerated names matter. */
  lemma {:induction false} FlattenAgree(names: seq<string>, h1: map<string, seq<Metric>>, h2: map<string, seq<Metric>>)
    requires AllKnown(names, h1) && AllKnown(names, h2)
    requires forall i :: 0 <= i < |names| ==> h1[names[i]] == h2[names[i]]
    ensures Flatten(names, h1) == Flatten(names, h2)
  {
    if names != [] {
      FlattenAgree(names[..|names| - 1], h1, h2);
    }
  }

  /** Appending a run to the list of an existing key adds exactly that run to
      the flattened runs. */
  lemma {:induction false} FlattenAppendExisting(names: seq<string>, history: map<string, seq<Metric>>, n: string, m: Metric)
    requires AllKnown(names, history) && Distinct(names) && n in history
    ensures AllKnown(names, history[n := history[n] + [m]])
    ensures multiset(Flatten(names, history[n := history[n] + [m]])) ==
              multiset(Flatten(names, history)) + (if n in names then multiset{m} else multiset{})
  {
    var h' := history[n := history[n] + [m]];
    if names != [] {
      var pre := names[..|names| - 1];
      var last := names[|names| - 1];
      FlattenAppendExisting(pre, history, n, m);
      if last == n {
        assert forall i :: 0 <= i < |pre| ==> pre[i] == names[i] != n;
      } else {
        assert n in names ==> n in pre by {
          if n in names {
            var i :| 0 <= i < |names| && names[i] == n;
            assert pre[i] == n;
          }
        }
      }
    }
  }

  /** What the dictionary's `Add` does to the flattened runs: exactly one run
      more, the new one, and every earlier run kept. */
  lemma AddContributesOneRun(names: seq<string>, history: map<string, seq<Metric>>, m: Metric)
    requires WellFormed(names, history)
    ensures var h' := if m.testName in history then history[m.testName := history[m.testName] + [m]]
                      else history[m.testName := [m]];
            var n' := if m.testName in history then names else names + [m.testName];
            AllKnown(n', h') && multiset(Flatten(n', h')) == multiset(Flatten(names, history)) + multiset{m}
  {
    var n := m.testName;
    if n in history {
      FlattenAppendExisting(names, history, n, m);
    } else {
      var h' := history[n := [m]];
      FlattenAgree(names, history, h');
      assert (names + [n])[..|names|] == names;
    }
  }

  /** The analysis over every recorded run, or `None` when nothing was recorded:
      the aggregation of the keepers that keep every run. */
  function AllRunsSummary(names: seq<string>, history: map<string, seq<Metric>>): (r: Option<Summary>)
    requires AllKnown(names, history) && NoEmptyHistory(history)
    ensures r.None? <==> names == []
    ensures r.Some? ==> r.value.runCount == |Flatten(names, history)|
  {
    FlattenEmptyIffNoNames(names, history);
    if names == [] then None else Some(SummaryOf(Flatten(names, history)))
  }
}
