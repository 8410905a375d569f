/** The typed settings object the harness binds from its configuration files,
    restricted to the sections the core reads, and the trace settings handed
    to the trace manager. */
module Settings {
  import opened Common

  /** When a captured trace is kept. */
  datatype TracingMode = Always | OnFailure | Never

  /** The name a trace mode is written with in configuration and logs. */
  function ModeName(mode: TracingMode): string
  {
    match mode
    case Always => "Always"
    case OnFailure => "OnFailure"
    case Never => "Never"
  }

  /** Trace capture options (a value handed to each trace manager). */
  datatype TraceSettings = TraceSettings(
    enabled: bool,
    directory: string,
    mode: TracingMode,
    screenshots: bool,
    snapshots: bool,
    sources: bool)

  datatype Viewport = Viewport(width: int, height: int)

  datatype ScreenshotSettings = ScreenshotSettings(enabled: bool, takeOnFailure: bool, directory: string)

  datatype BrowserSettings = BrowserSettings(
    browserType: string,
    headless: bool,
    slowMo: int,
    timeout: int,
    viewport: Viewport,
    launchArgs: seq<string>,
    screenshots: ScreenshotSettings)

  datatype EnvironmentSettings = EnvironmentSettings(name: string, baseUrl: string, apiBaseUrl: string)

  /** Timeouts in milliseconds. */
  datatype TimeoutSettings = TimeoutSettings(pageLoad: int, navigation: int, element: int, script: int)

  datatype TestSettings = TestSettings(
    environment: EnvironmentSettings,
    browser: BrowserSettings,
    timeouts: TimeoutSettings,
    trace: TraceSettings)

  /** The values a freshly constructed settings object holds before binding. */
  const Defaults: TestSettings :=
    TestSettings(
      EnvironmentSettings("Development", "http://localhost:5000", "http://localhost:5000/api"),
      BrowserSettings("chromium", true, 0, 30000, Viewport(1920, 1080), [],
                      ScreenshotSettings(true, true, "TestResults/Screenshots")),
      TimeoutSettings(30000, 30000, 10000, 10000),
      TraceSettings(true, "TestResults/Traces", OnFailure, true, true, true))

  /** Where configuration values come from, in the order they are layered:
      a later source overrides an earlier one. */
  datatype ConfigSource = JsonFile(path: string, optional: bool) | EnvironmentVariables

  /** The optional per-environment overlay file. */
  function OverlayFile(environment: string): string
  {
    "appsettings." + environment + ".json"
  }

  /** A process environment variable, absent when it is not set (an empty
      value counts as set). */
  function Variable(variables: map<string, string>, name: string): (v: Option<string>)
    ensures v.Some? <==> name in variables
    ensures v.Some? ==> v.value == variables[name]
  {
    if name in variables then Some(variables[name]) else None
  }
}
