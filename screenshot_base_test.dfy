/** `ParkPlaceSample.Infrastructure.BaseTest`: the fixture that takes a
    screenshot of a failed test. Setup loads the settings, creates the logger
    and launches browser and context with the configured options; cleanup
    takes a full-page screenshot of the first page when screenshots on
    failure are enabled and the test did not pass, then disposes context,
    browser and Playwright without any try/finally. */
module ScreenshotFixture {
  import opened Common
  import opened Text
  import opened Settings
  import opened World
  import opened Release

  /** The exception of indexing past the end of a list. */
  const IndexFault: Exception := Exception(ArgumentOutOfRange, "Index was out of range.", "")

  /** The calls setup makes once the settings are loaded. */
  function InitEffects(settings: TestSettings): seq<Effect>
  {
    [LoggerCreated,
     PlaywrightCreated,
     BrowserLaunched(settings.browser.headless, settings.browser.slowMo, Some(settings.browser.timeout),
                     settings.browser.launchArgs),
     ContextCreated(settings.browser.viewport.width, settings.browser.viewport.height, None)]
  }

  /** The screenshot is attempted for a test that did not pass, when
      screenshots and screenshots on failure are both enabled. */
  predicate TakesScreenshot(s: ScreenshotSettings, outcome: UnitTestOutcome)
  {
    s.enabled && s.takeOnFailure && outcome != UnitTestOutcome.Passed
  }

  /** "{TestName}_{timestamp}.png" in the screenshot directory. */
  function ScreenshotPath(directory: string, testName: string, timestamp: string): string
  {
    Combine(directory, testName + "_" + timestamp + ".png")
  }

  /** What cleanup observes of the world. */
  datatype CleanupInputs = CleanupInputs(
    outcome: UnitTestOutcome,                  // TestContext.CurrentTestOutcome
    timestamp: string,                         // the current time as "yyyyMMdd_HHmmss"
    pageCount: nat,                            // Context.Pages.Count
    files: set<string>,                        // the files that exist on disk
    shotFault: Option<Exception>,              // thrown by the screenshot call
    disposeFaults: map<Resource, Exception>)   // thrown by the dispose calls

  /** Capturing the first page and registering the file if it was written. */
  function CaptureSteps(path: string, contextHeld: bool, inputs: CleanupInputs): Steps
  {
    if !contextHeld then Steps([], Some(NullFault))
    else if inputs.pageCount == 0 then Steps([], None)
    else if inputs.shotFault.Some? then Steps([], inputs.shotFault)
    else Steps([ScreenshotTaken(path, true)] + (if path in inputs.files then [ResultFileAdded(path)] else []), None)
  }

  /** The screenshot block of cleanup. */
  function ScreenshotSteps(settings: TestSettings, testName: string, contextHeld: bool, inputs: CleanupInputs): Steps
  {
    var s := settings.browser.screenshots;
    if !TakesScreenshot(s, inputs.outcome) then Steps([], None)
    else Then(Steps([DirectoryCreated(s.directory)], None),
              CaptureSteps(ScreenshotPath(s.directory, testName, inputs.timestamp), contextHeld, inputs))
  }

  /** The dispose calls are made on every field, set or not: a field that
      was never set throws a null reference. */
  function StrictFaults(held: set<Resource>, faults: map<Resource, Exception>): map<Resource, Exception>
  {
    map r | r in DisposeOrder && (r !in held || r in faults) :: if r !in held then NullFault else faults[r]
  }

  /** Disposing context, browser and Playwright. */
  function DisposeSteps(held: set<Resource>, faults: map<Resource, Exception>): Steps
  {
    var o := ReleaseAll(DisposeOrder, {Context, Browser, Playwright}, StrictFaults(held, faults));
    Steps(ReleaseEffects(o.released), o.thrown)
  }

  /** The whole of cleanup; without loaded settings it fails at once. */
  function CleanupSteps(settings: Option<TestSettings>, testName: string, held: set<Resource>, inputs: CleanupInputs): Steps
  {
    if settings.None? then Steps([], Some(NullFault))
    else Then(ScreenshotSteps(settings.value, testName, Context in held, inputs), DisposeSteps(held, inputs.disposeFaults))
  }

  class ScreenshotBase {
    const world: World
    const testName: string
    var settings: Option<TestSettings>
    var loggerCreated: bool
    var playwright: bool
    var browser: bool
    var context: bool
    var navigation: bool

    /** The objects currently held. */
    function Held(): set<Resource>
      reads this
    {
      (if context then {Context} else {}) + (if browser then {Browser} else {})
      + (if playwright then {Playwright} else {})
    }

    constructor(world: World, testName: string)
      ensures this.world == world && this.testName == testName
      ensures settings.None? && !loggerCreated && Held() == {} && !navigation
    {
      this.world := world;
      this.testName := testName;
      settings := None;
      loggerCreated := false;
      playwright := false;
      browser := false;
      context := false;
      navigation := false;
    }

    /** `TestInitialize`: `loaded` is what loading the settings returned or
        threw, `pageCount` the number of pages of the new context. The
        navigation helper is built on the context's first page, so a context
        without pages ends setup with an out-of-range exception. */
    method TestInitialize(loaded: Result<TestSettings>, pageCount: nat) returns (thrown: Option<Exception>)
      modifies this`settings, this`loggerCreated, this`playwright, this`browser, this`context, this`navigation, world
      ensures loaded.Err? ==>
                thrown == Some(loaded.error) && world.log == old(world.log) &&
                settings == old(settings) && Held() == old(Held()) && navigation == old(navigation)
      ensures loaded.Ok? ==>
                settings == Some(loaded.value) && loggerCreated &&
                Held() == {Context, Browser, Playwright} &&
                world.log == old(world.log) + InitEffects(loaded.value) &&
                (thrown.None? <==> pageCount > 0) &&
                (thrown.Some? ==> thrown == Some(IndexFault) && navigation == old(navigation)) &&
                (thrown.None? ==> navigation)
    {
      if loaded.Err? {
        return Some(loaded.error);
      }
      var s := loaded.value;
      settings := Some(s);
      world.log := world.log + [LoggerCreated];
      loggerCreated := true;
      world.log := world.log + [PlaywrightCreated];
      playwright := true;
      world.log := world.log + [BrowserLaunched(s.browser.headless, s.browser.slowMo, Some(s.browser.timeout), s.browser.launchArgs)];
      browser := true;
      world.log := world.log + [ContextCreated(s.browser.viewport.width, s.browser.viewport.height, None)];
      context := true;
      if pageCount == 0 {
        return Some(IndexFault);
      }
      navigation := true;
      thrown := None;
    }

    /** The capture step for `path`. */
    method Capture(path: string, inputs: CleanupInputs) returns (fault: Option<Exception>)
      modifies world
      ensures world.log == old(world.log) + CaptureSteps(path, context, inputs).effects
      ensures fault == CaptureSteps(path, context, inputs).fault
    {
      if !context {
        return Some(NullFault);
      }
      fault := None;
      if inputs.pageCount > 0 {
        if inputs.shotFault.Some? {
          return inputs.shotFault;
        }
        world.log := world.log + [ScreenshotTaken(path, true)];
        if path in inputs.files {
          world.log := world.log + [ResultFileAdded(path)];
        }
      }
    }

    /** The screenshot block. */
    method TakeScreenshot(s: TestSettings, inputs: CleanupInputs) returns (fault: Option<Exception>)
      modifies world
      ensures world.log == old(world.log) + ScreenshotSteps(s, testName, context, inputs).effects
      ensures fault == ScreenshotSteps(s, testName, context, inputs).fault
    {
      var shots := s.browser.screenshots;
      if !(shots.enabled && shots.takeOnFailure && inputs.outcome != UnitTestOutcome.Passed) {
        return None;
      }
      var path := Combine(shots.directory, testName + "_" + inputs.timestamp + ".png");
      ghost var log0 := world.log;
      world.log := world.log + [DirectoryCreated(shots.directory)];
      ghost var log1 := world.log;
      fault := Capture(path, inputs);
      if fault.None? {
        ThenLog(log0, log1, world.log, Steps([DirectoryCreated(shots.directory)], None), CaptureSteps(path, context, inputs));
      }
    }

    /** The three dispose calls. */
    method DisposeAll(faults: map<Resource, Exception>) returns (thrown: Option<Exception>)
      modifies world
      ensures world.log == old(world.log) + DisposeSteps(Held(), faults).effects
      ensures thrown == DisposeSteps(Held(), faults).fault
    {
      thrown := DisposeInOrder(world, DisposeOrder, {Context, Browser, Playwright}, StrictFaults(Held(), faults));
    }

    /** `TestCleanup`; the fields are left as they are. */
    method TestCleanup(inputs: CleanupInputs) returns (thrown: Option<Exception>)
      modifies world
      ensures world.log == old(world.log) + CleanupSteps(settings, testName, Held(), inputs).effects
      ensures thrown == CleanupSteps(settings, testName, Held(), inputs).fault
    {
      if settings.None? {
        return Some(NullFault);
      }
      ghost var log0 := world.log;
      thrown := TakeScreenshot(settings.value, inputs);
      if thrown.Some? {
        return;
      }
      ghost var log1 := world.log;
      thrown := DisposeAll(inputs.disposeFaults);
      ThenLog(log0, log1, world.log, ScreenshotSteps(settings.value, testName, context, inputs),
              DisposeSteps(Held(), inputs.disposeFaults));
    }
  }

  /** A screenshot is taken exactly when the policy asks for one, the
      context is set, it has a page and the call does not throw; it is a
      full-page shot written to "{TestName}_{timestamp}.png" in the
      screenshot directory. */
  lemma ScreenshotOnlyOnFailure(settings: TestSettings, testName: string, contextHeld: bool, inputs: CleanupInputs)
    ensures (exists e :: e in ScreenshotSteps(settings, testName, contextHeld, inputs).effects && e.ScreenshotTaken?) <==>
              TakesScreenshot(settings.browser.screenshots, inputs.outcome) && contextHeld &&
              inputs.pageCount > 0 && inputs.shotFault.None?
    ensures forall e :: e in ScreenshotSteps(settings, testName, contextHeld, inputs).effects && e.ScreenshotTaken? ==>
              e == ScreenshotTaken(ScreenshotPath(settings.browser.screenshots.directory, testName, inputs.timestamp), true)
  {
    var s := settings.browser.screenshots;
    if TakesScreenshot(s, inputs.outcome) {
      var path := ScreenshotPath(s.directory, testName, inputs.timestamp);
      var c := CaptureSteps(path, contextHeld, inputs);
      var steps := ScreenshotSteps(settings, testName, contextHeld, inputs);
      if c.fault.None? {
        assert steps.effects == [DirectoryCreated(s.directory)] + c.effects;
        if contextHeld && inputs.pageCount > 0 && inputs.shotFault.None? {
          assert steps.effects[1] == ScreenshotTaken(path, true);
          assert steps.effects[1] in steps.effects;
        }
      }
    }
  }

  /** The screenshot directory is created before the capture, as the first
      call of the block. */
  lemma DirectoryBeforeCapture(settings: TestSettings, testName: string, contextHeld: bool, inputs: CleanupInputs)
    requires TakesScreenshot(settings.browser.screenshots, inputs.outcome)
    ensures ScreenshotSteps(settings, testName, contextHeld, inputs).effects[0] ==
              DirectoryCreated(settings.browser.screenshots.directory)
  {
  }

  /** The only result file registered is the screenshot, and only when it
      exists on disk. */
  lemma ResultFileOnlyIfWritten(settings: TestSettings, testName: string, contextHeld: bool, inputs: CleanupInputs, p: string)
    requires ResultFileAdded(p) in ScreenshotSteps(settings, testName, contextHeld, inputs).effects
    ensures p == ScreenshotPath(settings.browser.screenshots.directory, testName, inputs.timestamp)
    ensures p in inputs.files
  {
    var s := settings.browser.screenshots;
    var c := CaptureSteps(ScreenshotPath(s.directory, testName, inputs.timestamp), contextHeld, inputs);
    assert ScreenshotSteps(settings, testName, contextHeld, inputs).effects == [DirectoryCreated(s.directory)] + c.effects;
  }

  /** An exception of the screenshot block ends cleanup: nothing is
      disposed. */
  lemma ScreenshotFaultSkipsDisposal(settings: TestSettings, testName: string, held: set<Resource>, inputs: CleanupInputs)
    requires ScreenshotSteps(settings, testName, Context in held, inputs).fault.Some?
    ensures CleanupSteps(Some(settings), testName, held, inputs) == ScreenshotSteps(settings, testName, Context in held, inputs)
    ensures forall e :: e in CleanupSteps(Some(settings), testName, held, inputs).effects ==>
              !e.ContextDisposed? && !e.BrowserDisposed? && !e.PlaywrightDisposed?
  {
  }

  /** With all three set and no dispose call throwing, cleanup disposes the
      context, then the browser, then Playwright. */
  lemma DisposalOrder()
    ensures DisposeSteps({Context, Browser, Playwright}, map[]) == Steps([ContextDisposed, BrowserDisposed, PlaywrightDisposed], None)
  {
    var held := {Context, Browser, Playwright};
    assert StrictFaults(held, map[]) == map[];
    assert [Playwright] + [] == [Playwright] && [Browser] + [Playwright] == [Browser, Playwright];
    ReleaseAllCons(Playwright, [], held, map[]);
    ReleaseAllCons(Browser, [Playwright], held, map[]);
    ReleaseAllCons(Context, [Browser, Playwright], held, map[]);
    assert DisposeOrder == [Context] + ([Browser] + [Playwright]);
    ReleaseEffectsCons(Playwright, []);
    ReleaseEffectsCons(Browser, [Playwright]);
    ReleaseEffectsCons(Context, [Browser, Playwright]);
  }

  /** A browser that was never launched stops disposal after the context
      with a null reference, and Playwright is not disposed. */
  lemma UnsetBrowserStopsDisposal()
    ensures DisposeSteps({Context, Playwright}, map[]) == Steps([ContextDisposed], Some(NullFault))
  {
    var held := {Context, Browser, Playwright};
    var faults := StrictFaults({Context, Playwright}, map[]);
    assert faults == map[Browser := NullFault];
    ReleaseAllCons(Browser, [Playwright], held, faults);
    ReleaseAllCons(Context, [Browser, Playwright], held, faults);
    assert DisposeOrder == [Context] + [Browser, Playwright];
    ReleaseEffectsCons(Context, []);
  }

  /** The screenshot file is named "{TestName}_{timestamp}.png". */
  lemma ScreenshotName(directory: string, testName: string, timestamp: string)
    requires '/' !in testName && '/' !in timestamp
    ensures FileName(ScreenshotPath(directory, testName, timestamp)) == testName + "_" + timestamp + ".png"
  {
    var name := testName + "_" + timestamp + ".png";
    assert name == testName + ("_" + timestamp + ".png");
    assert '/' !in "_" + timestamp + ".png";
    FileNameOfCombine(directory, name);
  }
}
