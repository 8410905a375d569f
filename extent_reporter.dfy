/** `ExtentReporter`: the HTML report writer behind the reporting service.
    It creates the report directories and the report, opens one entry per
    test, writes messages, error cards and attachment cards into the current
    entry, keeps its own dictionary of run metrics, and at the end adds the
    run analysis and flushes. Its report object and current entry start out
    null: every call that reaches them before they are set throws a
    `NullReferenceException`. */
module HtmlReporter {
  import opened Common
  import opened Text
  import opened World
  import opened Metrics
  import opened MetricStore
  import opened Categories
  import opened Attachments
  import opened Dashboard

  /** The error card `LogError` writes: the exception's type name, or
      "Unknown" when there is none, the message, and the stack trace only
      when there is an exception. */
  function ErrorCard(message: string, exception: Option<Exception>): (e: Effect)
    ensures e.ErrorCardShown? && e.message == message
    ensures e.errorType == "Unknown" <==> exception.None?
    ensures e.stackTrace.Some? <==> exception.Some?
    ensures exception.Some? ==>
              e.errorType == TypeName(exception.value.kind) && e.stackTrace == Some(exception.value.stackTrace)
  {
    match exception
    case None => ErrorCardShown("Unknown", message, None)
    case Some(ex) => ErrorCardShown(TypeName(ex.kind), message, Some(ex.stackTrace))
  }

  /** The card `AddFileAttachment` shows: chosen by the extension, every link
      relative to the reports directory. */
  function AttachmentCard(reportsPath: string, filePath: string, description: string): Card
  {
    ReporterCard(filePath, RelativePath(reportsPath, filePath), description)
  }

  /** The calls `InitializeAsync` makes. The browser launched to read its
      version is closed, the reporter is attached, and the Playwright instance
      of the `using` declaration is disposed on the way out, whether or not
      the launch threw. */
  function InitSteps(reportsPath: string, launchFault: Option<Exception>): Steps
  {
    var probe := [DirectoryCreated(reportsPath),
                  DirectoryCreated(Combine(reportsPath, VideosFolder)),
                  DirectoryCreated(Combine(reportsPath, TracesFolder)),
                  PlaywrightCreated];
    if launchFault.Some? then Steps(probe + [PlaywrightDisposed], launchFault)
    else Steps(probe + [BrowserLaunched(true, 0, None, []), BrowserClosed,
                        ReportOpened(Combine(reportsPath, "index.html")), PlaywrightDisposed], None)
  }

  class ExtentReporter {
    const world: World
    const reportsPath: string
    /** This reporter's own `_testMetrics`. */
    const metrics: MetricDictionary
    /** Whether `_extentReports` has been set. */
    var initialized: bool
    /** The name of the entry `_currentTest` refers to, if set. */
    var current: Option<string>
    var startTime: int

    ghost predicate Valid()
      reads metrics
    {
      metrics.Valid() && NoEmptyHistory(metrics.history)
    }

    constructor(world: World, reportsPath: string)
      ensures Valid() && fresh(metrics)
      ensures this.world == world && this.reportsPath == reportsPath
      ensures metrics.names == [] && !initialized && current.None?
    {
      this.world := world;
      this.reportsPath := reportsPath;
      metrics := new MetricDictionary();
      initialized := false;
      current := None;
      startTime := 0;
    }

    /** `InitializeAsync`: `launchFault` is what launching the probe browser
        throws. The report object is created before the launch, so it is set
        even when the launch fails. */
    method InitializeAsync(launchFault: Option<Exception>) returns (thrown: Option<Exception>)
      modifies this`initialized, world
      ensures initialized
      ensures world.log == old(world.log) + InitSteps(reportsPath, launchFault).effects
      ensures thrown == InitSteps(reportsPath, launchFault).fault
    {
      world.log := world.log + [DirectoryCreated(reportsPath)];
      world.log := world.log + [DirectoryCreated(Combine(reportsPath, VideosFolder))];
      world.log := world.log + [DirectoryCreated(Combine(reportsPath, TracesFolder))];
      initialized := true;
      world.log := world.log + [PlaywrightCreated];
      if launchFault.Some? {
        world.log := world.log + [PlaywrightDisposed];
        return launchFault;
      }
      world.log := world.log + [BrowserLaunched(true, 0, None, []), BrowserClosed,
                                ReportOpened(Combine(reportsPath, "index.html")), PlaywrightDisposed];
      thrown := None;
    }

    /** `StartTest`: the start time is taken first, then the entry is
        created on the report. */
    method StartTest(testName: string, now: int) returns (thrown: Option<Exception>)
      modifies this`current, this`startTime, world
      ensures startTime == now
      ensures thrown.Some? <==> !initialized
      ensures thrown.Some? ==> thrown == Some(NullFault) && current == old(current) && world.log == old(world.log)
      ensures thrown.None? ==> current == Some(testName) && world.log == old(world.log) + [ReportTestCreated(testName)]
    {
      startTime := now;
      if !initialized {
        return Some(NullFault);
      }
      world.log := world.log + [ReportTestCreated(testName)];
      current := Some(testName);
      thrown := None;
    }

    /** Writes one entry into the current test, or throws when there is
        none. */
    method Write(e: Effect) returns (thrown: Option<Exception>)
      modifies world
      ensures thrown.Some? <==> current.None?
      ensures thrown.Some? ==> thrown == Some(NullFault) && world.log == old(world.log)
      ensures thrown.None? ==> world.log == old(world.log) + [e]
    {
      if current.None? {
        return Some(NullFault);
      }
      world.log := world.log + [e];
      thrown := None;
    }

    method LogInfo(message: string) returns (thrown: Option<Exception>)
      modifies world
      ensures thrown.Some? <==> current.None?
      ensures thrown.Some? ==> thrown == Some(NullFault) && world.log == old(world.log)
      ensures thrown.None? ==> world.log == old(world.log) + [ReportEntry(Info, message)]
    {
      thrown := Write(ReportEntry(Info, message));
    }

    method LogWarning(message: string) returns (thrown: Option<Exception>)
      modifies world
      ensures thrown.Some? <==> current.None?
      ensures thrown.Some? ==> thrown == Some(NullFault) && world.log == old(world.log)
      ensures thrown.None? ==> world.log == old(world.log) + [ReportEntry(Warn, message)]
    {
      thrown := Write(ReportEntry(Warn, message));
    }

    /** `LogError`: the card is written with the Error status. */
    method LogError(message: string, exception: Option<Exception>) returns (thrown: Option<Exception>)
      modifies world
      ensures thrown.Some? <==> current.None?
      ensures thrown.Some? ==> thrown == Some(NullFault) && world.log == old(world.log)
      ensures thrown.None? ==> world.log == old(world.log) + [ErrorCard(message, exception)]
    {
      thrown := Write(ErrorCard(message, exception));
    }

    method AddFileAttachment(filePath: string, description: string) returns (thrown: Option<Exception>)
      modifies world
      ensures thrown.Some? <==> current.None?
      ensures thrown.Some? ==> thrown == Some(NullFault) && world.log == old(world.log)
      ensures thrown.None? ==>
                world.log == old(world.log) + [AttachmentShown(AttachmentCard(reportsPath, filePath, description))]
    {
      thrown := Write(AttachmentShown(AttachmentCard(reportsPath, filePath, description)));
    }

    /** `EndTest`: `reportStatus` is the current entry's status as text.
        Reading it for a failed test throws before anything is recorded when
        there is no current entry; a passed test is recorded first and the
        throw comes from marking the entry. */
    method EndTest(testName: string, outcome: UnitTestOutcome, now: int, reportStatus: string)
      returns (thrown: Option<Exception>)
      requires Valid()
      modifies world, metrics
      ensures Valid()
      ensures thrown.Some? <==> current.None?
      ensures thrown.Some? ==> thrown == Some(NullFault)
      ensures var recorded := current.Some? || outcome == UnitTestOutcome.Passed;
              var m := RunMetric(testName, now - startTime, outcome, reportStatus, CategoryOf(testName));
              if recorded then
                metrics.history == old(metrics.history)[testName :=
                  (if testName in old(metrics.history) then old(metrics.history)[testName] else []) + [m]] &&
                metrics.names == (if testName in old(metrics.history) then old(metrics.names)
                                  else old(metrics.names) + [testName])
              else
                metrics.history == old(metrics.history) && metrics.names == old(metrics.names)
      ensures thrown.None? ==>
                world.log == old(world.log) +
                  [if outcome != UnitTestOutcome.Passed then ReportEntry(Fail, "Test failed") else ReportEntry(Pass, "Test passed")]
      ensures thrown.Some? ==> world.log == old(world.log)
    {
      var failed := outcome != UnitTestOutcome.Passed;
      if failed && current.None? {
        return Some(NullFault);
      }
      var m := RunMetric(testName, now - startTime, outcome, reportStatus, CategoryOf(testName));
      metrics.Add(m);
      assert [] + [m] == [m];
      if failed {
        thrown := Write(ReportEntry(Fail, "Test failed"));
      } else {
        thrown := Write(ReportEntry(Pass, "Test passed"));
      }
    }

    /** `FinalizeAsync`: the analysis, when anything was recorded, and the
        flush; both go through the report object. */
    method FinalizeAsync() returns (thrown: Option<Exception>)
      requires Valid()
      modifies world
      ensures thrown.Some? <==> !initialized
      ensures thrown.Some? ==> thrown == Some(NullFault) && world.log == old(world.log)
      ensures thrown.None? ==> world.log == old(world.log) + DashboardEffects(metrics.names, metrics.history)
    {
      if !initialized {
        return Some(NullFault);
      }
      AddAnalysisAndFlush(world, metrics);
      thrown := None;
    }

    /** `Dispose`: flushes when the report object is set, and never throws. */
    method Dispose()
      modifies world
      ensures world.log == old(world.log) + (if initialized then [ReportFlushed] else [])
    {
      if initialized {
        world.log := world.log + [ReportFlushed];
      }
    }
  }

  /** A file filed in a sub-directory of the reports directory is linked as
      "sub/name", relative to the report. */
  lemma LinkIsRelativeToReports(reportsPath: string, sub: string, name: string)
    requires sub != "" && '/' !in sub && name != "" && '/' !in name
    ensures RelativePath(reportsPath, Combine(Combine(reportsPath, sub), name)) == sub + "/" + name
  {
    var dir := Combine(reportsPath, sub);
    ComponentsOfCombine(reportsPath, sub);
    ComponentsOfCombine(dir, name);
    RelativeOfDescendant(reportsPath, Combine(dir, name), [sub, name]);
  }

  /** A file filed under a sub-directory keeps its name and kind, and is
      linked as "sub/name". */
  lemma FiledUnder(reportsPath: string, sub: string, name: string)
    requires sub != "" && '/' !in sub && name != "" && '/' !in name
    ensures var f := Combine(Combine(reportsPath, sub), name);
            FileName(f) == name && KindOf(f) == KindOf(name) && RelativePath(reportsPath, f) == sub + "/" + name
  {
    var dir := Combine(reportsPath, sub);
    LinkIsRelativeToReports(reportsPath, sub, name);
    FileNameOfCombine(dir, name);
    ExtensionOfCombine(dir, name);
  }

  /** The reporter's card equals the helper's whenever its link is the one
      the helper would write. */
  lemma SameLinkSameCard(f: string, link: string, description: string)
    requires link == match KindOf(f)
                     case Video => VideosFolder + "/" + FileName(f)
                     case Trace => TracesFolder + "/" + FileName(f)
                     case Generic => FileName(f)
    ensures ReporterCard(f, link, description) == CreateAttachmentHtml(f, description)
  {
  }

  lemma FoldersAreNames()
    ensures VideosFolder != "" && '/' !in VideosFolder
    ensures TracesFolder != "" && '/' !in TracesFolder
  {
    forall i | 0 <= i < |VideosFolder|
      ensures VideosFolder[i] != '/'
    {
    }
    forall i | 0 <= i < |TracesFolder|
      ensures TracesFolder[i] != '/'
    {
    }
  }

  /** A video filed under "Videos" gets the same card from the reporter as
      from the fixtures' attachment helper. */
  lemma VideoCardsAgree(reportsPath: string, name: string, description: string)
    requires name != "" && '/' !in name && KindOf(name) == Video
    ensures var f := Combine(Combine(reportsPath, VideosFolder), name);
            AttachmentCard(reportsPath, f, description) == CreateAttachmentHtml(f, description)
  {
    var f := Combine(Combine(reportsPath, VideosFolder), name);
    FoldersAreNames();
    FiledUnder(reportsPath, VideosFolder, name);
    SameLinkSameCard(f, VideosFolder + "/" + name, description);
  }

  /** A trace filed under "Traces" gets the same card from both. */
  lemma TraceCardsAgree(reportsPath: string, name: string, description: string)
    requires name != "" && '/' !in name && KindOf(name) == AttachmentKind.Trace
    ensures var f := Combine(Combine(reportsPath, TracesFolder), name);
            AttachmentCard(reportsPath, f, description) == CreateAttachmentHtml(f, description)
  {
    var f := Combine(Combine(reportsPath, TracesFolder), name);
    FoldersAreNames();
    FiledUnder(reportsPath, TracesFolder, name);
    SameLinkSameCard(f, TracesFolder + "/" + name, description);
  }

  /** Any other file filed directly in the reports directory gets the same
      card from both. */
  lemma GenericCardsAgree(reportsPath: string, name: string, description: string)
    requires name != "" && '/' !in name && KindOf(name) == Generic
    ensures var f := Combine(reportsPath, name);
            AttachmentCard(reportsPath, f, description) == CreateAttachmentHtml(f, description)
  {
    var f := Combine(reportsPath, name);
    FileNameOfCombine(reportsPath, name);
    ExtensionOfCombine(reportsPath, name);
    ComponentsOfCombine(reportsPath, name);
    RelativeOfDescendant(reportsPath, f, [name]);
    SameLinkSameCard(f, name, description);
  }
}
