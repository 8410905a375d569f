/** `TraceManager`: starts Playwright tracing on a browser context when
    tracing is enabled, and on stop decides by the tracing mode and the test
    outcome whether to save the trace to "{TestName}_{timestamp}.zip" in the
    configured directory and register it as a result file. */
module Tracing {
  import opened Common
  import opened Text
  import opened Settings
  import opened World
  import Attachments

  /** Whether stopping saves a trace: tracing is enabled, and the mode is not
      "on failure" with a passing test. */
  predicate SavesTrace(settings: TraceSettings, testFailed: bool)
  {
    settings.enabled && !(settings.mode == OnFailure && !testFailed)
  }

  /** The file a stopped trace is written to. */
  function TracePath(settings: TraceSettings, testName: string, timestamp: string): string
  {
    Combine(settings.directory, testName + "_" + timestamp + ".zip")
  }

  /** The calls `StartTracingAsync` makes. */
  function StartEffects(settings: TraceSettings, testName: string): seq<Effect>
  {
    if !settings.enabled then []
    else [Logged(Information, "Started tracing for test: " + testName),
          TracingStarted(settings.screenshots, settings.snapshots, settings.sources)]
  }

  /** The calls `StopTracingAsync` makes. */
  function StopEffects(settings: TraceSettings, testName: string, testFailed: bool, timestamp: string): seq<Effect>
  {
    if !SavesTrace(settings, testFailed) then []
    else
      var path := TracePath(settings, testName, timestamp);
      [DirectoryCreated(settings.directory),
       TracingStopped(path),
       Logged(Information, "Trace saved to: " + path),
       ResultFileAdded(path)]
  }

  /** What `StopTracingAsync` does when `stopFault` is what the
      `Tracing.StopAsync` call throws, if anything: the call is made only
      when the trace is saved, after the directory is created, and its
      exception ends the method there. */
  function StopSteps(settings: TraceSettings, testName: string, testFailed: bool, timestamp: string,
                     stopFault: Option<Exception>): Steps
  {
    if !SavesTrace(settings, testFailed) then Steps([], None)
    else if stopFault.Some? then Steps([DirectoryCreated(settings.directory)], stopFault)
    else Steps(StopEffects(settings, testName, testFailed, timestamp), None)
  }

  class TraceManager {
    const world: World
    const settings: TraceSettings
    const testName: string

    constructor(world: World, settings: TraceSettings, testName: string)
      ensures this.world == world && this.settings == settings && this.testName == testName
    {
      this.world := world;
      this.settings := settings;
      this.testName := testName;
    }

    method StartTracingAsync()
      modifies world
      ensures world.log == old(world.log) + StartEffects(settings, testName)
    {
      if !settings.enabled {
        return;
      }
      world.log := world.log + [Logged(Information, "Started tracing for test: " + testName)];
      world.log := world.log + [TracingStarted(settings.screenshots, settings.snapshots, settings.sources)];
    }

    /** `timestamp` is the current time as "yyyyMMdd_HHmmss", `stopFault`
        what stopping the context's tracing throws, if anything. */
    method StopTracingAsync(testFailed: bool, timestamp: string, stopFault: Option<Exception>)
      returns (fault: Option<Exception>)
      modifies world
      ensures world.log == old(world.log) + StopSteps(settings, testName, testFailed, timestamp, stopFault).effects
      ensures fault == StopSteps(settings, testName, testFailed, timestamp, stopFault).fault
    {
      fault := None;
      if !settings.enabled {
        return;
      }
      if settings.mode == OnFailure && !testFailed {
        return;
      }
      var path := Combine(settings.directory, testName + "_" + timestamp + ".zip");
      world.log := world.log + [DirectoryCreated(settings.directory)];
      if stopFault.Some? {
        return stopFault;
      }
      world.log := world.log + [TracingStopped(path)];
      world.log := world.log + [Logged(Information, "Trace saved to: " + path)];
      world.log := world.log + [ResultFileAdded(path)];
    }
  }

  /** Starting does nothing when tracing is disabled, and otherwise starts
      tracing with the capture flags of the settings, whatever the mode. */
  lemma StartFollowsEnabled(settings: TraceSettings, testName: string)
    ensures StartEffects(settings, testName) == [] <==> !settings.enabled
    ensures settings.enabled ==>
              TracingStarted(settings.screenshots, settings.snapshots, settings.sources) in StartEffects(settings, testName)
  {
    if settings.enabled {
      assert StartEffects(settings, testName)[1] == TracingStarted(settings.screenshots, settings.snapshots, settings.sources);
    }
  }

  /** Stopping saves and registers exactly one trace when tracing is enabled
      and the mode is Always or Never or the test failed; otherwise it does
      nothing at all. */
  lemma StopPolicy(settings: TraceSettings, testName: string, testFailed: bool, timestamp: string)
    ensures var e := StopEffects(settings, testName, testFailed, timestamp);
            CountWhere(e, (x: Effect) => x.TracingStopped?) == (if SavesTrace(settings, testFailed) then 1 else 0) &&
            CountWhere(e, (x: Effect) => x.ResultFileAdded?) == (if SavesTrace(settings, testFailed) then 1 else 0)
    ensures SavesTrace(settings, testFailed) <==>
              settings.enabled && (settings.mode == Always || settings.mode == Never || testFailed)
    ensures !SavesTrace(settings, testFailed) ==> StopEffects(settings, testName, testFailed, timestamp) == []
  {
    var e := StopEffects(settings, testName, testFailed, timestamp);
    if SavesTrace(settings, testFailed) {
      var path := TracePath(settings, testName, timestamp);
      assert e == [DirectoryCreated(settings.directory)] + [TracingStopped(path)]
                  + [Logged(Information, "Trace saved to: " + path)] + [ResultFileAdded(path)];
      CountWhereAppend([DirectoryCreated(settings.directory)] + [TracingStopped(path)]
                  + [Logged(Information, "Trace saved to: " + path)], [ResultFileAdded(path)], (x: Effect) => x.TracingStopped?);
      CountWhereAppend([DirectoryCreated(settings.directory)] + [TracingStopped(path)]
                  + [Logged(Information, "Trace saved to: " + path)], [ResultFileAdded(path)], (x: Effect) => x.ResultFileAdded?);
      CountWhereAppend([DirectoryCreated(settings.directory)] + [TracingStopped(path)],
                  [Logged(Information, "Trace saved to: " + path)], (x: Effect) => x.TracingStopped?);
      CountWhereAppend([DirectoryCreated(settings.directory)] + [TracingStopped(path)],
                  [Logged(Information, "Trace saved to: " + path)], (x: Effect) => x.ResultFileAdded?);
      CountWhereAppend([DirectoryCreated(settings.directory)], [TracingStopped(path)], (x: Effect) => x.TracingStopped?);
      CountWhereAppend([DirectoryCreated(settings.directory)], [TracingStopped(path)], (x: Effect) => x.ResultFileAdded?);
    }
  }

  /** Stopping can throw only when it saves a trace, and then only after
      creating the directory and before anything is logged or registered;
      without an exception it makes exactly the calls of `StopEffects`. */
  lemma StopFaultOnlyWhenSaving(settings: TraceSettings, testName: string, testFailed: bool, timestamp: string,
                                stopFault: Option<Exception>)
    ensures var st := StopSteps(settings, testName, testFailed, timestamp, stopFault);
            (st.fault.Some? <==> SavesTrace(settings, testFailed) && stopFault.Some?) &&
            (st.fault.Some? ==> st.fault == stopFault && st.effects == [DirectoryCreated(settings.directory)]) &&
            (st.fault.None? ==> st.effects == StopEffects(settings, testName, testFailed, timestamp))
  {
  }

  /** The directory is created before the trace is written, and the result
      file registered is the file the trace was written to. */
  lemma SavedPathIsRegistered(settings: TraceSettings, testName: string, testFailed: bool, timestamp: string)
    requires SavesTrace(settings, testFailed)
    ensures var e := StopEffects(settings, testName, testFailed, timestamp);
            e[0] == DirectoryCreated(settings.directory) &&
            e[1] == TracingStopped(TracePath(settings, testName, timestamp)) &&
            forall i, j :: 0 <= i < |e| && 0 <= j < |e| && e[i].TracingStopped? && e[j].ResultFileAdded? ==>
              i < j && e[i].path == e[j].path
  {
  }

  /** A saved trace keeps its "{TestName}_{timestamp}.zip" name inside the
      configured directory, so the report presents it as a trace. */
  lemma SavedTraceIsPresentedAsTrace(settings: TraceSettings, testName: string, timestamp: string)
    requires '/' !in testName && '/' !in timestamp
    ensures FileName(TracePath(settings, testName, timestamp)) == testName + "_" + timestamp + ".zip"
    ensures Attachments.KindOf(TracePath(settings, testName, timestamp)) == Attachments.Trace
  {
    var name := testName + "_" + timestamp + ".zip";
    assert '/' !in name by {
      assert name == testName + ("_" + timestamp + ".zip");
      assert forall i :: 0 <= i < |name| ==> name[i] != '/' by {
        forall i | 0 <= i < |name|
          ensures name[i] != '/'
        {
          if i < |testName| {
            assert name[i] == testName[i];
          } else if i == |testName| {
            assert name[i] == '_';
          } else if i < |testName| + 1 + |timestamp| {
            assert name[i] == timestamp[i - |testName| - 1];
          }
        }
      }
    }
    FileNameOfCombine(settings.directory, name);
    ExtensionOfCombine(settings.directory, name);
    assert name == (testName + "_" + timestamp) + ".zip";
    Attachments.ZipIsTrace(testName + "_" + timestamp);
  }
}
