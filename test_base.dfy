/** `Infrastructure.Base.TestBase`: the per-test fixture with tracing and
    metrics. Setup creates the logger once and, while no Playwright instance
    is held, launches the browser, opens a recording context, starts a
    trace, opens a page, creates the report entry and resets the test's
    metrics. Cleanup records the result, keeps the video and the trace, marks
    the report entry, logs (and swallows) any exception of those steps, and
    finally releases page, context, browser and Playwright in that order. */
module BaseFixture {
  import opened Common
  import opened Text
  import opened Settings
  import opened World
  import opened Categories
  import opened Release
  import Attachments
  import Tracing
  import TestMetrics
  import MetricStore
  import Metrics

  /** The line terminator `StringBuilder.AppendLine` writes. */
  const NewLine: string := "\n"

  /** The report text of `LogInfo(message)`. */
  function InfoHtml(message: string): string
  {
    "<div class='log-message'>" + message + "</div>"
  }

  /** The report text of `LogWarning(message)`, with a warning sign. */
  function WarningHtml(message: string): string
  {
    "<div class='log-message warning'>\U{26A0}\U{FE0F} " + message + "</div>"
  }

  /** The lines of the details block up to the exception's message. */
  const DetailsOpen: string := "<div class='error-details'>\n<div class='error-message'><b>Error:</b> "

  /** The lines between the message and the stack trace. */
  const DetailsMiddle: string := "</div>\n<div class='stack-trace'>\n<b>Stack Trace:</b>\n<pre>"

  /** The lines after the stack trace, closing both blocks. */
  const DetailsClose: string := "</pre>\n</div>\n</div>\n"

  /** The details block of `LogError`: the HTML-encoded message and stack
      trace of the exception, or nothing without one. */
  function ErrorDetailsHtml(ex: Option<Exception>): string
  {
    if ex.None? then ""
    else DetailsOpen + HtmlEncode(ex.value.message) + DetailsMiddle + HtmlEncode(ex.value.stackTrace) + DetailsClose
  }

  /** The report text of `LogError(message, ex)`, with a cross mark. */
  function ErrorHtml(message: string, ex: Option<Exception>): string
  {
    "<div class='log-message error'>\U{274C} " + message + NewLine + ErrorDetailsHtml(ex) + "</div>" + NewLine
  }

  /** `LogInfo`: the plain message to the logger, the formatted one to the
      report entry. */
  function LogInfoEffects(message: string): seq<Effect>
  {
    [Logged(Information, message), ReportEntry(Info, InfoHtml(message))]
  }

  function LogWarningEffects(message: string): seq<Effect>
  {
    [Logged(LogLevel.Warning, message), ReportEntry(Warn, WarningHtml(message))]
  }

  function LogErrorEffects(message: string, ex: Option<Exception>): seq<Effect>
  {
    [if ex.Some? then LoggedException(LogLevel.Error, message, ex.value) else Logged(LogLevel.Error, message),
     ReportEntry(ReportStatus.Error, ErrorHtml(message, ex))]
  }

  /** The calls made on the test's report entry (`TestReport?.Log`, `Fail`,
      `Pass`); while the entry is null they do nothing. */
  predicate ReportBound(e: Effect)
  {
    e.ReportEntry? || e.AttachmentShown?
  }

  /** `effects` without the calls on the report entry. */
  function WithoutReport(effects: seq<Effect>): seq<Effect>
  {
    if effects == [] then []
    else (if ReportBound(effects[0]) then [] else [effects[0]]) + WithoutReport(effects[1..])
  }

  /** What `effects` amount to when the report entry exists (`entry`) or is
      still null. */
  function Reported(entry: bool, effects: seq<Effect>): seq<Effect>
  {
    if entry then effects else WithoutReport(effects)
  }

  lemma {:induction false} WithoutReportAppend(a: seq<Effect>, b: seq<Effect>)
    ensures WithoutReport(a + b) == WithoutReport(a) + WithoutReport(b)
  {
    if a == [] {
      assert a + b == b;
    } else {
      assert (a + b)[0] == a[0] && (a + b)[1..] == a[1..] + b;
      WithoutReportAppend(a[1..], b);
    }
  }

  /** Running two blocks one after the other writes what each writes. */
  lemma ReportedAppend(entry: bool, a: seq<Effect>, b: seq<Effect>)
    ensures Reported(entry, a + b) == Reported(entry, a) + Reported(entry, b)
  {
    if !entry {
      WithoutReportAppend(a, b);
    }
  }

  /** Without a report entry nothing reaches the report, and every other
      call is still made. */
  lemma {:induction false} NothingReportedWithoutEntry(effects: seq<Effect>)
    ensures forall e :: e in Reported(false, effects) ==> !ReportBound(e)
    ensures forall e :: e in effects && !ReportBound(e) ==> e in Reported(false, effects)
  {
    if effects != [] {
      NothingReportedWithoutEntry(effects[1..]);
      assert effects == [effects[0]] + effects[1..];
    }
  }

  /** Calls that do not touch the report entry are made either way. */
  lemma {:induction false} UnreportedKept(entry: bool, effects: seq<Effect>)
    requires forall e :: e in effects ==> !ReportBound(e)
    ensures Reported(entry, effects) == effects
  {
    if !entry && effects != [] {
      UnreportedKept(entry, effects[1..]);
      assert effects == [effects[0]] + effects[1..];
    }
  }

  /** The call `e` on the report entry, made only if the entry exists. */
  function Entry(entry: bool, e: Effect): seq<Effect>
  {
    if entry then [e] else []
  }

  /** A call that does not touch the report followed by one that does. */
  lemma ReportedPair(entry: bool, a: Effect, b: Effect)
    requires !ReportBound(a) && ReportBound(b)
    ensures Reported(entry, [a, b]) == [a] + Entry(entry, b)
  {
    if !entry {
      assert [a, b][1..] == [b] && [b][1..] == [];
      assert WithoutReport([b]) == [] + WithoutReport([]);
      assert WithoutReport([a, b]) == [a] + WithoutReport([b]);
    }
  }

  /** One call on the report entry. */
  lemma ReportedOne(entry: bool, e: Effect)
    requires ReportBound(e)
    ensures Reported(entry, [e]) == Entry(entry, e)
  {
    if !entry {
      assert [e][1..] == [];
      assert WithoutReport([e]) == [] + WithoutReport([]);
    }
  }

  /** A kept video: the move, then the attachment of the moved file. */
  lemma VideoReported(entry: bool, testName: string, pageHeld: bool, inputs: CleanupInputs)
    requires HasVideo(pageHeld, inputs) && inputs.moveFault.None?
    ensures var target := VideoTarget(inputs.videoPath.value, testName, inputs.timestamp);
            Reported(entry, VideoSteps(testName, pageHeld, inputs).effects)
            == [FileMoved(inputs.videoPath.value, target)]
               + Reported(entry, AttachmentEffects(target, "Test Execution Video", inputs.files))
  {
    var target := VideoTarget(inputs.videoPath.value, testName, inputs.timestamp);
    var moved := [FileMoved(inputs.videoPath.value, target)];
    ReportedAppend(entry, moved, AttachmentEffects(target, "Test Execution Video", inputs.files));
    UnreportedKept(entry, moved);
  }

  /** The catch clause's error entry follows what the try block wrote. */
  lemma CaughtReported(entry: bool, steps: Steps)
    ensures Reported(entry, CaughtEffects(steps))
            == Reported(entry, steps.effects)
               + (if steps.fault.Some? then Reported(entry, LogErrorEffects("Error during test cleanup", steps.fault)) else [])
  {
    if steps.fault.Some? {
      ReportedAppend(entry, steps.effects, LogErrorEffects("Error during test cleanup", steps.fault));
    } else {
      assert CaughtEffects(steps) == steps.effects;
    }
  }

  /** `ThenLog` for blocks whose report calls depend on the entry. */
  lemma ThenReportedLog(entry: bool, log0: seq<Effect>, log1: seq<Effect>, log2: seq<Effect>, first: Steps, rest: Steps)
    requires log1 == log0 + Reported(entry, first.effects) && first.fault.None?
    requires log2 == log1 + Reported(entry, rest.effects)
    ensures log2 == log0 + Reported(entry, Then(first, rest).effects)
  {
    ReportedAppend(entry, first.effects, rest.effects);
  }

  /** What cleanup observes of the world. */
  datatype CleanupInputs = CleanupInputs(
    outcome: UnitTestOutcome,        // TestContext.CurrentTestOutcome
    now: int,                        // the clock at cleanup, in ticks
    reportStatus: string,            // the report entry's status, as text
    hasMethod: bool,                 // the class has a method named after the test
    timestamp: string,               // the current time as "yyyyMMdd_HHmmss"
    videoPath: Option<string>,       // the page's video path; None without a video
    tracePath: Option<string>,       // the path taken from stopping the trace, if any
    exception: Option<Exception>,    // the "$Exception" test property
    files: set<string>,              // the files that exist on disk
    moveFault: Option<Exception>,    // thrown while keeping the video
    traceFault: Option<Exception>)   // thrown by the context's Tracing.StopAsync

  /** `TestReport?.Status.ToString()`: the report entry's status, or null
      when no entry was created, which the metric keeps as an empty
      failure step. */
  function EntryStatus(entry: bool, inputs: CleanupInputs): (s: string)
    ensures entry ==> s == inputs.reportStatus
    ensures !entry ==> s == ""
  {
    if entry then inputs.reportStatus else ""
  }

  /** Every outcome other than Passed counts as a failure. */
  predicate TestFailed(outcome: UnitTestOutcome)
  {
    outcome != UnitTestOutcome.Passed
  }

  /** `AddTestAttachment(filePath, description)`. */
  function AttachmentEffects(filePath: string, description: string, files: set<string>): seq<Effect>
  {
    if filePath !in files then LogWarningEffects("Attachment file not found: " + filePath)
    else [ResultFileAdded(filePath), AttachmentShown(Attachments.CreateAttachmentHtml(filePath, description))]
  }

  /** The file name a kept video gets. */
  function VideoName(testName: string, timestamp: string): string
  {
    testName + "_" + timestamp + ".webm"
  }

  /** Where a recorded video is moved: beside itself, under its new name. */
  function VideoTarget(videoPath: string, testName: string, timestamp: string): string
  {
    Combine(DirectoryName(videoPath), VideoName(testName, timestamp))
  }

  /** Whether cleanup has a video to keep. */
  predicate HasVideo(pageHeld: bool, inputs: CleanupInputs)
  {
    pageHeld && inputs.videoPath.Some? && inputs.videoPath.value != ""
  }

  /** Keeping the video. */
  function VideoSteps(testName: string, pageHeld: bool, inputs: CleanupInputs): Steps
  {
    if !HasVideo(pageHeld, inputs) then Steps([], None)
    else if inputs.moveFault.Some? then Steps([], inputs.moveFault)
    else
      var target := VideoTarget(inputs.videoPath.value, testName, inputs.timestamp);
      Steps([FileMoved(inputs.videoPath.value, target)]
            + AttachmentEffects(target, "Test Execution Video", inputs.files), None)
  }

  /** The attachment of the path taken from stopping the trace. */
  function TraceAttachment(inputs: CleanupInputs): seq<Effect>
  {
    if inputs.tracePath.Some? && inputs.tracePath.value != ""
    then AttachmentEffects(inputs.tracePath.value, "Test Execution Trace", inputs.files)
    else []
  }

  /** Stopping the trace and attaching it; only a stop that saves can throw. */
  function TraceSteps(testName: string, trace: Option<TraceSettings>, inputs: CleanupInputs): Steps
  {
    if trace.None? then Steps([], None)
    else Then(Tracing.StopSteps(trace.value, testName, TestFailed(inputs.outcome), inputs.timestamp, inputs.traceFault),
              Steps(TraceAttachment(inputs), None))
  }

  /** The details logged for a failed test. */
  function FailureDetails(ex: Exception): string
  {
    "Test failed with error: " + ex.message + "\nStack trace: " + ex.stackTrace
  }

  /** The report entry's status; the exception details only for Failed. */
  function StatusEffects(inputs: CleanupInputs): seq<Effect>
  {
    if TestFailed(inputs.outcome) then
      [ReportEntry(Fail, "Test failed")]
      + (if inputs.outcome == UnitTestOutcome.Failed && inputs.exception.Some?
         then [ReportEntry(ReportStatus.Error, FailureDetails(inputs.exception.value))]
         else [])
    else [ReportEntry(Pass, "Test passed")]
  }

  function CompletedMessage(outcome: UnitTestOutcome): string
  {
    "Test completed with status: " + (if TestFailed(outcome) then "Failed" else "Passed")
  }

  /** The try block after the metric is recorded. */
  function TrySteps(testName: string, pageHeld: bool, trace: Option<TraceSettings>, inputs: CleanupInputs): Steps
  {
    Then(Steps(LogInfoEffects(CompletedMessage(inputs.outcome)), None),
         Then(VideoSteps(testName, pageHeld, inputs),
              Then(TraceSteps(testName, trace, inputs), Steps(StatusEffects(inputs), None))))
  }

  /** The try block with its catch: an exception is logged, not rethrown. */
  function CaughtEffects(steps: Steps): seq<Effect>
  {
    steps.effects + (if steps.fault.Some? then LogErrorEffects("Error during test cleanup", steps.fault) else [])
  }

  /** The calls the guarded part of setup makes. */
  function LaunchEffects(settings: TestSettings, videosPath: string, testName: string): seq<Effect>
  {
    [PlaywrightCreated,
     BrowserLaunched(settings.browser.headless, settings.browser.slowMo, None, []),
     DirectoryCreated(videosPath),
     ContextCreated(settings.browser.viewport.width, settings.browser.viewport.height, Some(videosPath))]
    + Tracing.StartEffects(settings.trace, testName)
    + [PageCreated, ReportTestCreated(testName)]
    + LogInfoEffects("Test initialized: " + testName)
  }

  /** The calls setup makes; a failed reload ends it. */
  function InitEffects(loggerCreated: bool, playwrightHeld: bool, loaded: Result<TestSettings>, videosPath: string, testName: string): seq<Effect>
  {
    (if loggerCreated then [] else [LoggerCreated])
    + [ConfigurationReloaded]
    + (if loaded.Err? || playwrightHeld then [] else LaunchEffects(loaded.value, videosPath, testName))
  }

  class TestBase {
    const world: World
    const metrics: TestMetrics.TestMetricsManager
    const testName: string
    var loggerCreated: bool
    var playwright: bool
    var browser: bool
    var context: bool
    var page: bool
    var traceManager: Tracing.TraceManager?
    var reportEntry: bool                     // TestReport is set
    var startTime: int

    ghost predicate Valid()
      reads this, metrics, metrics.metrics, traceManager
    {
      metrics.Valid() &&
      (traceManager != null ==> traceManager.world == world && traceManager.testName == testName)
    }

    /** The resources currently held (the non-null fields). */
    function Held(): set<Resource>
      reads this
    {
      (if page then {Page} else {}) + (if context then {Context} else {})
      + (if browser then {Browser} else {}) + (if playwright then {Playwright} else {})
    }

    /** The settings of the trace manager, when there is one. */
    function TraceConfig(): Option<TraceSettings>
      reads this, traceManager
    {
      if traceManager == null then None else Some(traceManager.settings)
    }

    constructor(world: World, metrics: TestMetrics.TestMetricsManager, testName: string)
      requires metrics.Valid()
      ensures Valid()
      ensures this.world == world && this.metrics == metrics && this.testName == testName
      ensures !loggerCreated && Held() == {} && traceManager == null && !reportEntry
    {
      this.world := world;
      this.metrics := metrics;
      this.testName := testName;
      loggerCreated := false;
      playwright := false;
      browser := false;
      context := false;
      page := false;
      traceManager := null;
      reportEntry := false;
      startTime := 0;
    }

    /** `BaseTestInitialize`: `loaded` is what `ConfigurationLoader.Initialize`
        reloads (its `FileNotFoundException` when no settings file exists
        escapes setup), `videosPath` the project's video directory. */
    method BaseTestInitialize(loaded: Result<TestSettings>, now: int, videosPath: string)
      returns (thrown: Option<Exception>)
      requires Valid()
      modifies this, world, metrics.metrics
      ensures Valid()
      ensures startTime == now && loggerCreated
      ensures world.log == old(world.log) + InitEffects(old(loggerCreated), old(playwright), loaded, videosPath, testName)
      ensures thrown == if loaded.Err? then Some(loaded.error) else None
      ensures loaded.Err? || old(playwright) ==>
                Held() == old(Held()) && traceManager == old(traceManager) && reportEntry == old(reportEntry) &&
                unchanged(metrics.metrics)
      ensures loaded.Ok? && !old(playwright) ==>
                Held() == {Page, Context, Browser, Playwright} && reportEntry &&
                traceManager != null && fresh(traceManager) && traceManager.settings == loaded.value.trace &&
                metrics.metrics.history == old(metrics.metrics.history)[testName := []] &&
                metrics.metrics.names == if testName in old(metrics.metrics.history) then old(metrics.metrics.names)
                                         else old(metrics.metrics.names) + [testName]
    {
      startTime := now;
      if !loggerCreated {
        world.log := world.log + [LoggerCreated];
        loggerCreated := true;
      }
      world.log := world.log + [ConfigurationReloaded];
      ghost var prefix := (if old(loggerCreated) then [] else [LoggerCreated]) + [ConfigurationReloaded];
      assert world.log == old(world.log) + prefix;
      if loaded.Err? {
        assert InitEffects(old(loggerCreated), old(playwright), loaded, videosPath, testName) == prefix + [];
        return Some(loaded.error);
      }
      thrown := None;
      ghost var launch := if playwright then [] else LaunchEffects(loaded.value, videosPath, testName);
      assert InitEffects(old(loggerCreated), old(playwright), loaded, videosPath, testName) == prefix + launch;
      if !playwright {
        Launch(loaded.value, videosPath);
      }
      Regroup(old(world.log), prefix, launch);
    }

    /** The guarded part of setup. */
    method Launch(settings: TestSettings, videosPath: string)
      requires Valid()
      modifies this, world, metrics.metrics
      ensures Valid()
      ensures startTime == old(startTime) && loggerCreated == old(loggerCreated)
      ensures world.log == old(world.log) + LaunchEffects(settings, videosPath, testName)
      ensures Held() == {Page, Context, Browser, Playwright} && reportEntry
      ensures traceManager != null && fresh(traceManager) && traceManager.settings == settings.trace
      ensures metrics.metrics.history == old(metrics.metrics.history)[testName := []]
      ensures metrics.metrics.names == if testName in old(metrics.metrics.history) then old(metrics.metrics.names)
                                       else old(metrics.metrics.names) + [testName]
    {
      ghost var log0 := world.log;
      OpenBrowser(settings, videosPath);
      var tm := new Tracing.TraceManager(world, settings.trace, testName);
      traceManager := tm;
      tm.StartTracingAsync();
      OpenPage();
      metrics.InitializeTest(testName);
      LogInfo("Test initialized: " + testName);
    }

    /** Creating Playwright, launching the browser with the configured
        headless and slow-motion settings, and opening a context of the
        configured viewport that records video. */
    method OpenBrowser(settings: TestSettings, videosPath: string)
      modifies this`playwright, this`browser, this`context, world
      ensures playwright && browser && context
      ensures world.log == old(world.log) + LaunchEffects(settings, videosPath, testName)[..4]
    {
      world.log := world.log + [PlaywrightCreated];
      playwright := true;
      world.log := world.log + [BrowserLaunched(settings.browser.headless, settings.browser.slowMo, None, [])];
      browser := true;
      world.log := world.log + [DirectoryCreated(videosPath)];
      world.log := world.log + [ContextCreated(settings.browser.viewport.width, settings.browser.viewport.height, Some(videosPath))];
      context := true;
    }

    /** Opening the page and the report entry. */
    method OpenPage()
      modifies this`page, this`reportEntry, world
      ensures page && reportEntry
      ensures world.log == old(world.log) + [PageCreated, ReportTestCreated(testName)]
    {
      world.log := world.log + [PageCreated];
      page := true;
      world.log := world.log + [ReportTestCreated(testName)];
      reportEntry := true;
    }

    /** Writes to the report entry, if there is one. */
    method Report(e: Effect)
      modifies world
      ensures world.log == old(world.log) + Entry(reportEntry, e)
    {
      if reportEntry {
        world.log := world.log + [e];
      }
    }

    /** A logger call, then a call on the report entry. */
    method LogThenReport(line: Effect, entryCall: Effect)
      requires !ReportBound(line) && ReportBound(entryCall)
      modifies world
      ensures world.log == old(world.log) + Reported(reportEntry, [line, entryCall])
    {
      world.log := world.log + [line];
      Report(entryCall);
      ReportedPair(reportEntry, line, entryCall);
    }

    method LogInfo(message: string)
      modifies world
      ensures world.log == old(world.log) + Reported(reportEntry, LogInfoEffects(message))
    {
      LogThenReport(Logged(Information, message), ReportEntry(Info, InfoHtml(message)));
    }

    method LogWarning(message: string)
      modifies world
      ensures world.log == old(world.log) + Reported(reportEntry, LogWarningEffects(message))
    {
      LogThenReport(Logged(LogLevel.Warning, message), ReportEntry(Warn, WarningHtml(message)));
    }

    method LogError(message: string, ex: Option<Exception>)
      modifies world
      ensures world.log == old(world.log) + Reported(reportEntry, LogErrorEffects(message, ex))
    {
      var line := if ex.Some? then LoggedException(LogLevel.Error, message, ex.value) else Logged(LogLevel.Error, message);
      LogThenReport(line, ReportEntry(ReportStatus.Error, ErrorHtml(message, ex)));
    }

    /** `AddTestAttachment`: a missing file only earns a warning. */
    method AddTestAttachment(filePath: string, description: string, files: set<string>)
      modifies world
      ensures world.log == old(world.log) + Reported(reportEntry, AttachmentEffects(filePath, description, files))
    {
      if filePath !in files {
        LogWarning("Attachment file not found: " + filePath);
        return;
      }
      LogThenReport(ResultFileAdded(filePath), AttachmentShown(Attachments.CreateAttachmentHtml(filePath, description)));
    }

    /** Keeping the page's video. */
    method KeepVideo(inputs: CleanupInputs) returns (fault: Option<Exception>)
      modifies world
      ensures world.log == old(world.log) + Reported(reportEntry, VideoSteps(testName, page, inputs).effects)
      ensures fault == VideoSteps(testName, page, inputs).fault
    {
      fault := None;
      if page && inputs.videoPath.Some? && inputs.videoPath.value != "" {
        if inputs.moveFault.Some? {
          return inputs.moveFault;
        }
        var target := Combine(DirectoryName(inputs.videoPath.value), testName + "_" + inputs.timestamp + ".webm");
        VideoReported(reportEntry, testName, page, inputs);
        world.log := world.log + [FileMoved(inputs.videoPath.value, target)];
        AddTestAttachment(target, "Test Execution Video", inputs.files);
        Regroup(old(world.log), [FileMoved(inputs.videoPath.value, target)],
                Reported(reportEntry, AttachmentEffects(target, "Test Execution Video", inputs.files)));
      }
    }

    /** Stopping the trace and attaching the file it names; a fault of the
        stop call ends the step. */
    method KeepTrace(inputs: CleanupInputs) returns (fault: Option<Exception>)
      requires Valid()
      modifies world
      ensures world.log == old(world.log) + Reported(reportEntry, TraceSteps(testName, TraceConfig(), inputs).effects)
      ensures fault == TraceSteps(testName, TraceConfig(), inputs).fault
    {
      fault := None;
      if traceManager != null {
        ghost var stop := Tracing.StopSteps(traceManager.settings, testName, TestFailed(inputs.outcome), inputs.timestamp, inputs.traceFault);
        Tracing.StopFaultOnlyWhenSaving(traceManager.settings, testName, TestFailed(inputs.outcome), inputs.timestamp, inputs.traceFault);
        UnreportedKept(reportEntry, stop.effects);
        ghost var log0 := world.log;
        fault := traceManager.StopTracingAsync(TestFailed(inputs.outcome), inputs.timestamp, inputs.traceFault);
        if fault.Some? {
          return;
        }
        ghost var log1 := world.log;
        if inputs.tracePath.Some? && inputs.tracePath.value != "" {
          AddTestAttachment(inputs.tracePath.value, "Test Execution Trace", inputs.files);
        } else {
          assert Reported(reportEntry, TraceAttachment(inputs)) == [] by {
            UnreportedKept(reportEntry, []);
          }
        }
        ThenReportedLog(reportEntry, log0, log1, world.log, stop, Steps(TraceAttachment(inputs), None));
      }
    }

    /** Marking the report entry. */
    method MarkStatus(inputs: CleanupInputs)
      modifies world
      ensures world.log == old(world.log) + Reported(reportEntry, StatusEffects(inputs))
    {
      if TestFailed(inputs.outcome) {
        Report(ReportEntry(Fail, "Test failed"));
        ReportedOne(reportEntry, ReportEntry(Fail, "Test failed"));
        if inputs.outcome == UnitTestOutcome.Failed && inputs.exception.Some? {
          Report(ReportEntry(ReportStatus.Error, FailureDetails(inputs.exception.value)));
          ReportedOne(reportEntry, ReportEntry(ReportStatus.Error, FailureDetails(inputs.exception.value)));
          ReportedAppend(reportEntry, [ReportEntry(Fail, "Test failed")],
                         [ReportEntry(ReportStatus.Error, FailureDetails(inputs.exception.value))]);
        } else {
          assert StatusEffects(inputs) == [ReportEntry(Fail, "Test failed")];
        }
      } else {
        Report(ReportEntry(Pass, "Test passed"));
        ReportedOne(reportEntry, ReportEntry(Pass, "Test passed"));
      }
    }

    /** The try block of cleanup after the metric is recorded; returns the
        exception that ended it, if any. */
    method TryBlock(inputs: CleanupInputs) returns (fault: Option<Exception>)
      requires Valid()
      modifies world
      ensures world.log == old(world.log) + Reported(reportEntry, TrySteps(testName, page, TraceConfig(), inputs).effects)
      ensures fault == TrySteps(testName, page, TraceConfig(), inputs).fault
    {
      ghost var log0 := world.log;
      LogInfo(CompletedMessage(inputs.outcome));
      ghost var log1 := world.log;
      fault := KeepVideoThenTrace(inputs);
      ThenReportedLog(reportEntry, log0, log1, world.log, Steps(LogInfoEffects(CompletedMessage(inputs.outcome)), None),
              Then(VideoSteps(testName, page, inputs),
                   Then(TraceSteps(testName, TraceConfig(), inputs), Steps(StatusEffects(inputs), None))));
    }

    /** The video step and what follows it, unless it throws. */
    method KeepVideoThenTrace(inputs: CleanupInputs) returns (fault: Option<Exception>)
      requires Valid()
      modifies world
      ensures var s := Then(VideoSteps(testName, page, inputs),
                            Then(TraceSteps(testName, TraceConfig(), inputs), Steps(StatusEffects(inputs), None)));
              world.log == old(world.log) + Reported(reportEntry, s.effects) && fault == s.fault
    {
      ghost var log0 := world.log;
      ghost var rest := Then(TraceSteps(testName, TraceConfig(), inputs), Steps(StatusEffects(inputs), None));
      fault := KeepVideo(inputs);
      if fault.Some? {
        return;
      }
      ghost var log1 := world.log;
      fault := KeepTraceThenStatus(inputs);
      ThenReportedLog(reportEntry, log0, log1, world.log, VideoSteps(testName, page, inputs), rest);
    }

    /** The trace step and the status step, unless the first throws. */
    method KeepTraceThenStatus(inputs: CleanupInputs) returns (fault: Option<Exception>)
      requires Valid()
      modifies world
      ensures var s := Then(TraceSteps(testName, TraceConfig(), inputs), Steps(StatusEffects(inputs), None));
              world.log == old(world.log) + Reported(reportEntry, s.effects) && fault == s.fault
    {
      ghost var log0 := world.log;
      fault := KeepTrace(inputs);
      if fault.Some? {
        return;
      }
      ghost var log1 := world.log;
      MarkStatus(inputs);
      ThenReportedLog(reportEntry, log0, log1, world.log, TraceSteps(testName, TraceConfig(), inputs), Steps(StatusEffects(inputs), None));
    }

    /** The try block with its catch clause: the exception is logged and
        not rethrown. */
    method RecordOutcome(inputs: CleanupInputs)
      requires Valid()
      modifies world
      ensures world.log == old(world.log) + Reported(reportEntry, CaughtEffects(TrySteps(testName, page, TraceConfig(), inputs)))
    {
      ghost var steps := TrySteps(testName, page, TraceConfig(), inputs);
      CaughtReported(reportEntry, steps);
      var fault := TryBlock(inputs);
      if fault.Some? {
        LogError("Error during test cleanup", fault);
        Regroup(old(world.log), Reported(reportEntry, steps.effects),
                Reported(reportEntry, LogErrorEffects("Error during test cleanup", fault)));
      }
    }

    /** Whether the field of `r` is set. */
    predicate Holds(r: Resource)
      reads this
    {
      match r
      case Page => page
      case Context => context
      case Browser => browser
      case Playwright => playwright
    }

    /** One block of the finally clause: release `r` if its field is set,
        then null the field; the call may throw instead. */
    method ReleaseIfHeld(r: Resource, faults: map<Resource, Exception>) returns (thrown: Option<Exception>)
      modifies this`page, this`context, this`browser, this`playwright, world
      ensures var released := old(Holds(r)) && r !in faults;
              world.log == old(world.log) + (if released then [ReleaseEffect(r)] else []) &&
              thrown == (if old(Holds(r)) && r in faults then Some(faults[r]) else None) &&
              forall q :: Holds(q) == (old(Holds(q)) && !(released && q == r))
    {
      thrown := None;
      match r
      case Page =>
        if page {
          if Page in faults {
            return Some(faults[Page]);
          }
          world.log := world.log + [PageClosed];
          page := false;
        }
      case Context =>
        if context {
          if Context in faults {
            return Some(faults[Context]);
          }
          world.log := world.log + [ContextDisposed];
          context := false;
        }
      case Browser =>
        if browser {
          if Browser in faults {
            return Some(faults[Browser]);
          }
          world.log := world.log + [BrowserDisposed];
          browser := false;
        }
      case Playwright =>
        if playwright {
          if Playwright in faults {
            return Some(faults[Playwright]);
          }
          world.log := world.log + [PlaywrightDisposed];
          playwright := false;
        }
    }

    /** The block of the finally clause for the `i`-th entry of
        `ReleaseOrder`, as the first step of releasing from there on. */
    method ReleaseAt(i: nat, ghost held: set<Resource>, faults: map<Resource, Exception>)
      returns (thrown: Option<Exception>)
      requires i < |ReleaseOrder|
      requires Holds(ReleaseOrder[i]) <==> ReleaseOrder[i] in held
      modifies this`page, this`context, this`browser, this`playwright, world
      ensures var r := ReleaseOrder[i];
              var released := r in held && r !in faults;
              var o := ReleaseAll(ReleaseOrder[i..], held, faults);
              var next := ReleaseAll(ReleaseOrder[i + 1..], held, faults);
              (forall q :: Holds(q) == (old(Holds(q)) && !(released && q == r))) &&
              if thrown.Some? then world.log == old(world.log) && o == Outcome([], thrown)
              else old(world.log) + ReleaseEffects(o.released) == world.log + ReleaseEffects(next.released) &&
                   o.thrown == next.thrown &&
                   o.released == (if released then [r] else []) + next.released
    {
      var r := ReleaseOrder[i];
      ghost var rest := ReleaseOrder[i + 1..];
      assert ReleaseOrder[i..] == [r] + rest;
      ReleaseAllCons(r, rest, held, faults);
      ReleaseEffectsCons(r, ReleaseAll(rest, held, faults).released);
      thrown := ReleaseIfHeld(r, faults);
    }

    /** The blocks of the finally clause from the `i`-th entry of
        `ReleaseOrder` on; a release call that throws ends them. */
    method ReleaseFrom(i: nat, ghost held: set<Resource>, faults: map<Resource, Exception>)
      returns (thrown: Option<Exception>)
      requires i <= |ReleaseOrder|
      requires forall j :: i <= j < |ReleaseOrder| ==> (Holds(ReleaseOrder[j]) <==> ReleaseOrder[j] in held)
      modifies this`page, this`context, this`browser, this`playwright, world
      ensures var o := ReleaseAll(ReleaseOrder[i..], held, faults);
              world.log == old(world.log) + ReleaseEffects(o.released) &&
              thrown == o.thrown &&
              forall q :: Holds(q) == (old(Holds(q)) && q !in o.released)
      decreases |ReleaseOrder| - i
    {
      if i == |ReleaseOrder| {
        return None;
      }
      thrown := ReleaseAt(i, held, faults);
      if thrown.Some? {
        return;
      }
      assert forall j :: i + 1 <= j < |ReleaseOrder| ==> ReleaseOrder[j] != ReleaseOrder[i] by {
        OrderIsRanked();
      }
      thrown := ReleaseFrom(i + 1, held, faults);
    }

    /** The finally block: close the page, then dispose context, browser and
        Playwright, nulling each; a release call that throws propagates. */
    method ReleaseResources(faults: map<Resource, Exception>) returns (thrown: Option<Exception>)
      modifies this`page, this`context, this`browser, this`playwright, world
      ensures var o := ReleaseAll(ReleaseOrder, old(Held()), faults);
              world.log == old(world.log) + ReleaseEffects(o.released) &&
              thrown == o.thrown &&
              forall q :: Holds(q) == (old(Holds(q)) && q !in o.released)
    {
      assert ReleaseOrder[0..] == ReleaseOrder;
      thrown := ReleaseFrom(0, Held(), faults);
    }

    /** The first step of the try block: the run's metric, with the test
        counted as failed unless its outcome is Passed, and the entry's
        status as the failure step of a failed run. */
    method RecordMetric(inputs: CleanupInputs)
      requires Valid()
      modifies metrics.metrics
      ensures Valid()
      ensures var m := Metrics.RunMetric(testName, inputs.now - startTime, inputs.outcome, EntryStatus(reportEntry, inputs), GetTestCategory(testName, inputs.hasMethod));
              metrics.metrics.history == old(metrics.metrics.history)[testName :=
                (if testName in old(metrics.metrics.history) then old(metrics.metrics.history)[testName] else []) + [m]]
      ensures metrics.metrics.names == if testName in old(metrics.metrics.history) then old(metrics.metrics.names)
                                       else old(metrics.metrics.names) + [testName]
    {
      var m := Metrics.RunMetric(testName, inputs.now - startTime, inputs.outcome, EntryStatus(reportEntry, inputs), GetTestCategory(testName, inputs.hasMethod));
      metrics.RecordTestResult(m.testName, m.duration, m.passed, m.failureStep, m.category);
    }

    /** `BaseTestCleanup`. */
    method BaseTestCleanup(inputs: CleanupInputs, releaseFaults: map<Resource, Exception>)
      returns (thrown: Option<Exception>)
      requires Valid()
      modifies this`page, this`context, this`browser, this`playwright, world, metrics.metrics
      ensures Valid()
      ensures var m := Metrics.RunMetric(testName, inputs.now - startTime, inputs.outcome, EntryStatus(reportEntry, inputs), GetTestCategory(testName, inputs.hasMethod));
              metrics.metrics.history == old(metrics.metrics.history)[testName :=
                (if testName in old(metrics.metrics.history) then old(metrics.metrics.history)[testName] else []) + [m]]
      ensures metrics.metrics.names == if testName in old(metrics.metrics.history) then old(metrics.metrics.names)
                                       else old(metrics.metrics.names) + [testName]
      ensures var o := ReleaseAll(ReleaseOrder, old(Held()), releaseFaults);
              world.log == old(world.log) + Reported(reportEntry, CaughtEffects(TrySteps(testName, old(page), TraceConfig(), inputs)))
                                          + ReleaseEffects(o.released) &&
              thrown == o.thrown &&
              forall q :: Holds(q) == (old(Holds(q)) && q !in o.released)
    {
      ghost var effects := Reported(reportEntry, CaughtEffects(TrySteps(testName, page, TraceConfig(), inputs)));
      ghost var held := Held();
      RecordMetric(inputs);
      ghost var history := metrics.metrics.history;
      ghost var names := metrics.metrics.names;
      assert Held() == held;
      RecordOutcome(inputs);
      assert world.log == old(world.log) + effects;
      assert Valid() && metrics.metrics.history == history && metrics.metrics.names == names;
      thrown := ReleaseResources(releaseFaults);
    }
  }

  /** The report entry is marked Fail exactly when the outcome is not Passed
      and Pass otherwise; the exception details are logged only when the
      outcome is exactly Failed and an exception was recorded. */
  lemma StatusFollowsOutcome(inputs: CleanupInputs)
    ensures ReportEntry(Fail, "Test failed") in StatusEffects(inputs) <==> inputs.outcome != UnitTestOutcome.Passed
    ensures ReportEntry(Pass, "Test passed") in StatusEffects(inputs) <==> inputs.outcome == UnitTestOutcome.Passed
    ensures (exists e :: e in StatusEffects(inputs) && e.ReportEntry? && e.status == ReportStatus.Error) <==>
              inputs.outcome == UnitTestOutcome.Failed && inputs.exception.Some?
  {
    var s := StatusEffects(inputs);
    if inputs.outcome == UnitTestOutcome.Passed {
      assert s == [ReportEntry(Pass, "Test passed")];
    } else if inputs.outcome == UnitTestOutcome.Failed && inputs.exception.Some? {
      assert s[1].ReportEntry? && s[1].status == ReportStatus.Error;
    } else {
      assert s == [ReportEntry(Fail, "Test failed")];
    }
  }

  /** A missing attachment file only earns a warning: no result file is
      added and no card is shown. */
  lemma MissingAttachmentOnlyWarns(filePath: string, description: string, files: set<string>)
    requires filePath !in files
    ensures forall e :: e in AttachmentEffects(filePath, description, files) ==>
              !e.ResultFileAdded? && !e.AttachmentShown?
    ensures AttachmentEffects(filePath, description, files)[0] == Logged(LogLevel.Warning, "Attachment file not found: " + filePath)
  {
  }

  /** A video is moved only when a page is held and it has a video with a
      non-empty path, and then it is moved from that path. */
  lemma VideoKeptOnlyWithPath(testName: string, pageHeld: bool, inputs: CleanupInputs)
    ensures (exists e :: e in VideoSteps(testName, pageHeld, inputs).effects && e.FileMoved?) <==>
              HasVideo(pageHeld, inputs) && inputs.moveFault.None?
    ensures forall e :: e in VideoSteps(testName, pageHeld, inputs).effects && e.FileMoved? ==>
              e == FileMoved(inputs.videoPath.value, VideoTarget(inputs.videoPath.value, testName, inputs.timestamp))
  {
    var steps := VideoSteps(testName, pageHeld, inputs);
    if HasVideo(pageHeld, inputs) && inputs.moveFault.None? {
      var target := VideoTarget(inputs.videoPath.value, testName, inputs.timestamp);
      var rest := AttachmentEffects(target, "Test Execution Video", inputs.files);
      assert steps.effects == [FileMoved(inputs.videoPath.value, target)] + rest;
      assert steps.effects[0] in steps.effects;
      assert forall e :: e in rest ==> !e.FileMoved?;
    }
  }

  /** A kept video is named "{TestName}_{timestamp}.webm" and is presented
      as a video. */
  lemma KeptVideoIsPresentedAsVideo(videoPath: string, testName: string, timestamp: string)
    requires '/' !in testName && '/' !in timestamp
    ensures FileName(VideoTarget(videoPath, testName, timestamp)) == testName + "_" + timestamp + ".webm"
    ensures Attachments.KindOf(VideoTarget(videoPath, testName, timestamp)) == Attachments.Video
  {
    var name := VideoName(testName, timestamp);
    assert name == testName + ("_" + timestamp + ".webm");
    assert '/' !in "_" + timestamp + ".webm";
    FileNameOfCombine(DirectoryName(videoPath), name);
    ExtensionOfCombine(DirectoryName(videoPath), name);
    assert name == (testName + "_" + timestamp) + ".webm";
    Attachments.WebmIsVideo(testName + "_" + timestamp);
  }

  /** The only exception that escapes cleanup is one thrown by releasing a
      held resource, which then stays held. */
  lemma OnlyReleaseFaultsEscape(held: set<Resource>, faults: map<Resource, Exception>)
    requires ReleaseAll(ReleaseOrder, held, faults).thrown.Some?
    ensures exists r :: r in held && r in faults && r !in ReleaseAll(ReleaseOrder, held, faults).released &&
              ReleaseAll(ReleaseOrder, held, faults).thrown == Some(faults[r])
  {
    FaultStopsRelease(ReleaseOrder, held, faults);
  }

  /** Without a release fault, cleanup releases page, context, browser and
      Playwright in that order, leaving nothing held. */
  lemma CleanupReleasesEverything(held: set<Resource>)
    ensures ReleaseAll(ReleaseOrder, held, map[]).thrown.None?
    ensures forall r :: r in held ==> r in ReleaseAll(ReleaseOrder, held, map[]).released
    ensures StrictlyRanked(ReleaseAll(ReleaseOrder, held, map[]).released)
  {
    NoFaultReleasesAll(ReleaseOrder, held, map[]);
    ReleasedInOrder(ReleaseOrder, held, map[]);
    forall r: Resource
      ensures r in ReleaseOrder
    {
      match r
      case Page => assert ReleaseOrder[0] == r;
      case Context => assert ReleaseOrder[1] == r;
      case Browser => assert ReleaseOrder[2] == r;
      case Playwright => assert ReleaseOrder[3] == r;
    }
  }

  /** The error entry has a details block exactly when there is an
      exception, and the block carries the exception's message and stack
      trace, HTML-encoded, each at its place. */
  lemma ErrorDetailsOnlyWithException(ex: Option<Exception>)
    ensures ex.None? <==> ErrorDetailsHtml(ex) == ""
    ensures ex.Some? ==>
              var msg := HtmlEncode(ex.value.message);
              OccursAt(ErrorDetailsHtml(ex), DetailsOpen, 0) &&
              OccursAt(ErrorDetailsHtml(ex), msg, |DetailsOpen|) &&
              OccursAt(ErrorDetailsHtml(ex), DetailsMiddle, |DetailsOpen| + |msg|) &&
              OccursAt(ErrorDetailsHtml(ex), HtmlEncode(ex.value.stackTrace), |DetailsOpen| + |msg| + |DetailsMiddle|)
  {
    if ex.Some? {
      PiecesOccur(DetailsOpen, HtmlEncode(ex.value.message), DetailsMiddle, HtmlEncode(ex.value.stackTrace), DetailsClose);
    }
  }

  /** A failed configuration reload ends setup after the reload: no browser
      object, trace, page or report entry is created. */
  lemma FailedReloadLaunchesNothing(loggerCreated: bool, playwrightHeld: bool, error: Exception, videosPath: string, testName: string)
    ensures InitEffects(loggerCreated, playwrightHeld, Err(error), videosPath, testName)
            == (if loggerCreated then [] else [LoggerCreated]) + [ConfigurationReloaded]
    ensures forall e :: e in InitEffects(loggerCreated, playwrightHeld, Err(error), videosPath, testName) ==>
              !e.PlaywrightCreated? && !e.PageCreated? && !e.ReportTestCreated? && !ReportBound(e)
  {
    var prefix := (if loggerCreated then [] else [LoggerCreated]) + [ConfigurationReloaded];
    assert InitEffects(loggerCreated, playwrightHeld, Err(error), videosPath, testName) == prefix + [];
  }

  /** Stopping the trace can throw only when the settings and the outcome
      make it save a trace, and then the directory has been created and
      nothing is attached; otherwise the stop effects are followed by the
      attachment. */
  lemma TraceFaultOnlyWhenSaving(testName: string, trace: TraceSettings, inputs: CleanupInputs)
    ensures var st := TraceSteps(testName, Some(trace), inputs);
            (st.fault.Some? <==> Tracing.SavesTrace(trace, TestFailed(inputs.outcome)) && inputs.traceFault.Some?) &&
            (st.fault.Some? ==> st.fault == inputs.traceFault && st.effects == [DirectoryCreated(trace.directory)]) &&
            (st.fault.None? ==> st.effects == Tracing.StopEffects(trace, testName, TestFailed(inputs.outcome), inputs.timestamp)
                                              + TraceAttachment(inputs))
  {
    Tracing.StopFaultOnlyWhenSaving(trace, testName, TestFailed(inputs.outcome), inputs.timestamp, inputs.traceFault);
  }

  /** The metric's failure step is the report entry's status exactly when
      the run failed and an entry exists; a run whose setup stopped before
      the entry was created (a failed reload) records none. */
  lemma FailureStepNeedsEntry(testName: string, duration: int, entry: bool, inputs: CleanupInputs, category: string)
    ensures var m := Metrics.RunMetric(testName, duration, inputs.outcome, EntryStatus(entry, inputs), category);
            (m.failureStep == inputs.reportStatus || m.failureStep == "") &&
            (entry && TestFailed(inputs.outcome) ==> m.failureStep == inputs.reportStatus) &&
            (!entry || !TestFailed(inputs.outcome) ==> m.failureStep == "") &&
            m.passed == !TestFailed(inputs.outcome)
  {
  }
}
