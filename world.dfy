/** Everything outside the harness: Playwright, the file system, MSTest's
    result files, the HTML report, HTTP and the log sinks. Each call the
    harness makes into them is one `Effect`, appended to the `World`'s log in
    the order the calls are made, so that order and "nothing else happens"
    can be stated. What the calls return is passed in as parameters. */
module World {
  import opened Common
  import opened Text
  import opened Metrics
  import Attachments

  /** Playwright's `WaitForSelectorState`. */
  datatype SelectorState = Visible | Hidden | Attached | Detached

  /** The status an HTML report entry is logged with. */
  datatype ReportStatus = Info | Warn | Fail | Pass | Error

  /** The Playwright objects a fixture holds, in the order they are released. */
  datatype Resource = Page | Context | Browser | Playwright

  const ReleaseOrder: seq<Resource> := [Page, Context, Browser, Playwright]

  /** Position of a resource in the release order. */
  function Rank(r: Resource): nat
  {
    match r
    case Page => 0
    case Context => 1
    case Browser => 2
    case Playwright => 3
  }

  /** What is done to a located element once it is visible. */
  datatype ElementAction =
    | Click
    | Fill(text: string)
    | SelectOption(value: string)
    | Hover
    | ScrollIntoView
    | DragTo(target: string)

  /** A call of the reporter interface, as the reporting service passes it on. */
  datatype ReporterCall =
    | InitializeCall
    | StartTestCall(testName: string)
    | LogInfoCall(message: string)
    | LogWarningCall(message: string)
    | LogErrorCall(message: string, exception: Option<Exception>)
    | AttachmentCall(filePath: string, description: string)
    | EndTestCall(testName: string)
    | FinalizeCall
    | DisposeCall

  datatype Effect =
    // ILogger and the test-context and console sinks
    | LoggerCreated
    | Logged(level: LogLevel, message: string)
    | LoggedException(level: LogLevel, message: string, error: Exception)
    | ContextLine(line: string)
    | ConsoleLine(line: string)
    | ConfigurationReloaded
    // Playwright lifecycle
    | PlaywrightCreated
    | BrowserLaunched(headless: bool, slowMo: int, timeout: Option<int>, args: seq<string>)
    | ContextCreated(width: int, height: int, videoDir: Option<string>)
    | PageCreated
    | TracingStarted(screenshots: bool, snapshots: bool, sources: bool)
    | TracingStopped(path: string)
    | ScreenshotTaken(path: string, fullPage: bool)
    | SelectorWaited(selector: string, state: SelectorState, timeoutMs: int)
    | NavigatedTo(url: string)
    | ElementActed(selector: string, action: ElementAction)
    | LoadStateWaited(loadState: string)
    | PageClosed
    | BrowserClosed
    | ContextDisposed
    | BrowserDisposed
    | PlaywrightDisposed
    // File system and MSTest
    | DirectoryCreated(path: string)
    | FileMoved(source: string, target: string)
    | ResultFileAdded(path: string)
    // HTML report
    | ReportOpened(path: string)
    | ReportTestCreated(name: string)
    | ReportEntry(status: ReportStatus, content: string)
    | ErrorCardShown(errorType: string, message: string, stackTrace: Option<string>)
    | AttachmentShown(card: Attachments.Card)
    | DashboardAdded(summary: Summary)
    | ReportFlushed
    // the reporters behind the reporting service, by position
    | ReporterCalled(index: nat, call: ReporterCall)
    // HTTP
    | HttpSent(verb: string, url: string, body: Option<string>)

  /** The call that releases a resource: the page is closed, the others are
      disposed. */
  function ReleaseEffect(r: Resource): (e: Effect)
    ensures e.PageClosed? || e.ContextDisposed? || e.BrowserDisposed? || e.PlaywrightDisposed?
  {
    match r
    case Page => PageClosed
    case Context => ContextDisposed
    case Browser => BrowserDisposed
    case Playwright => PlaywrightDisposed
  }

  /** `LogInfo(message)` of the suite fixture: to the logger, then to the
      report entry. */
  function InfoEffects(message: string): seq<Effect>
  {
    [Logged(Information, message), ReportEntry(Info, message)]
  }

  /** `LogWarning(message)` of the suite fixture. */
  function WarningEffects(message: string): seq<Effect>
  {
    [Logged(LogLevel.Warning, message), ReportEntry(Warn, message)]
  }

  /** `LogError(message, ex)` of the suite fixture: the exception, when
      there is one, goes to the logger only. */
  function ErrorEffects(message: string, ex: Option<Exception>): seq<Effect>
  {
    [if ex.Some? then LoggedException(LogLevel.Error, message, ex.value) else Logged(LogLevel.Error, message),
     ReportEntry(ReportStatus.Error, message)]
  }

  /** The calls a run of statements made, and the exception that ended it. */
  datatype Steps = Steps(effects: seq<Effect>, fault: Option<Exception>)

  /** Running `first`, then `rest` unless `first` threw. */
  function Then(first: Steps, rest: Steps): Steps
  {
    if first.fault.Some? then first else Steps(first.effects + rest.effects, rest.fault)
  }

  /** The log after `first` and then `rest`, when `first` does not throw. */
  lemma ThenLog(log0: seq<Effect>, log1: seq<Effect>, log2: seq<Effect>, first: Steps, rest: Steps)
    requires log1 == log0 + first.effects && first.fault.None? && log2 == log1 + rest.effects
    ensures log2 == log0 + Then(first, rest).effects
  {
  }

  /** An HTTP response: status code, reason phrase and body text. */
  datatype HttpResponse = HttpResponse(status: int, reason: string, content: string)

  /** `IsSuccessStatusCode`: a 2xx status. */
  predicate IsSuccess(status: int)
  {
    200 <= status <= 299
  }

  /** What `EnsureSuccessStatusCode` throws for a response that is not a
      success. */
  function StatusError(response: HttpResponse): Exception
  {
    Exception(HttpRequest, "Response status code does not indicate success: " + IntToString(response.status)
                           + " (" + response.reason + ").", "")
  }

  /** The log of calls made so far. */
  class World {
    var log: seq<Effect>

    constructor()
      ensures log == []
    {
      log := [];
    }
  }

}
