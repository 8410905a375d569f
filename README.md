# Playwright/MSTest end-to-end harness — a Dafny model

This project models the harness that the ParkPlaceSample end-to-end suite runs
on. The harness drives browsers through Playwright and runs its tests under
MSTest. Its parts:

- **Test fixtures.** There are three: the per-test fixture `TestBase`, the suite
  fixture `Tests/BaseTest` and the screenshot fixture
  `Infrastructure/BaseTest`.
  - Each one opens the browser objects during setup and closes them again at cleanup.
  - Setup also starts tracing and creates the report entry.
  - Cleanup records a metric, keeps the video, the trace or a screenshot, and marks the test passed or failed.
- **Reporting.** This covers:
  - the ExtentReports HTML reporter, with its metrics dashboard;
  - the service that fans each call out to every registered reporter;
  - the attachment cards;
  - the test-name categories;
  - the metrics manager.
- **Helpers.** This covers:
  - the retry loop and the wait helpers built on it;
  - the trace manager;
  - the API client base object and the API test-data helper;
  - the element-interaction base, with its component and page subclasses, and the navigation helper;
  - the test-context logger;
  - the two configuration loaders.

**How calls to the outside world are modelled.** Every call that reaches
Playwright, HTTP, the file system, the logger or the report is an `Effect`.
The effect is appended to the log of a shared `World` object.

- A method that makes calls promises its exact new log:
  `world.log == old(world.log) + F(...)`.
- `F` is a specification function, and lemmas state what its effects mean:
  - which calls happen;
  - in which order;
  - under which faults;
  - what is released;
  - what is reported.
- What the outside world answers is a parameter:
  - an exception a call throws;
  - an HTTP response;
  - a clock reading;
  - the set of files that exist;
  - the configuration bound from JSON.

**Classes and state.** Objects that the source updates in place are classes
whose fields the methods reassign:
- the fixtures' held browser objects;
- the reporters' current test;
- the metric dictionaries;
- the API helper's list of created resources;
- the configuration caches.

**Behaviours of the code that the model keeps as written.** The model follows
the code in these places, and the lemmas state each behaviour:
- **Scoping twice.** The element base scopes a selector twice on every lookup.
  `GetElementAsync` passes an already scoped selector to `WaitForElementAsync`,
  and that method scopes it again. The same happens in the component's
  visibility checks.
- **Retry overloads ignore their arguments.** The overloads that take
  `maxAttempts` and `retryInterval` ignore them and use the defaults: three
  attempts, one second apart.
- **Trace mode `Never`.** The trace manager still saves a trace in mode
  `Never`; only `OnFailure` with a passing test skips saving.
- **Retry interval out of range.** The loop waits with
  `Task.Delay(TimeSpan.FromSeconds(RetryIntervalSeconds))`. That call refuses
  any interval outside 0 to 4294967 seconds. Such an interval makes the
  first retry's wait throw `ArgumentOutOfRangeException`, so the action runs
  once, whatever `MaxAttempts` says.
- **Setup that fails at the configuration reload.** When no settings file
  exists, the per-test fixture's setup throws after creating the logger. No
  report entry is created, and the cleanup that follows writes nothing to
  the report, since every report call goes through `TestReport?.`. The
  metric of a failed run then has no failure step, because
  `TestReport?.Status` is null.
- **Empty metric lists.** The metrics manager's report throws the
  empty-sequence exception when tests were initialised but none of them has
  a recorded run.

## Model

| member | source | states |
|---|---|---|
| Categories.CategoryOf | Infrastructure/Reporting/ExtentReporter.cs:265-275 | The category is "API Tests", "Navigation Tests", "Search Tests" or "UI Tests", each exactly when its keyword is the first of API, Navigation, Search that the test name contains (UI when none) |
| Categories.GetTestCategory | Infrastructure/Base/TestBase.cs:254-267 | "Unknown" exactly when the fixture has no method named after the test; otherwise the keyword category |
| Categories.ApiTakesPrecedence | Infrastructure/Reporting/ExtentReporter.cs:267-268 | Any name containing "API" is an API test, whatever else it contains |
| Categories.PlainNameIsUiTest | Infrastructure/Reporting/ExtentReporter.cs:274 | Every name without the letters 'A', 'N' and 'S' (so without any keyword) falls through to "UI Tests" |
| Metrics.RunMetric | Tests/BaseTest.cs:170-181 | The recorded run keeps name, duration and category; it passed exactly when the outcome is Passed, and only a failed run carries the report status as its failure step |
| Metrics.Slowest | Tests/BaseTest.cs:98 | The slowest run is one of the runs and no run lasted longer |
| Metrics.Fastest | Tests/BaseTest.cs:99 | The fastest run is one of the runs and no run was shorter |
| Metrics.FailedRuns | Tests/BaseTest.cs:109 | Exactly the runs that did not pass, no more runs than given |
| Metrics.Entries | Tests/BaseTest.cs:114-121 | One failure entry per failed run |
| Metrics.BuildSummary | Tests/BaseTest.cs:96-123 | The loop over the runs yields the run count and one failure entry (name, step, category) per failed run, in order |
| Metrics.FailureSectionIffSomeRunFailed | Tests/BaseTest.cs:109-123 | The failure section is present exactly when some run failed, and every entry in it comes from a failed run |
| Metrics.SingleRunIsSlowestAndFastest | Tests/BaseTest.cs:98-99 | With one run, it is both the slowest and the fastest |
| Metrics.SlowestNotFasterThanFastest | Tests/BaseTest.cs:98-99 | The reported fastest run never lasted longer than the reported slowest |
| MetricStore.MetricDictionary.constructor | Tests/BaseTest.cs:21 | The metric dictionary starts with no test names |
| MetricStore.MetricDictionary.Reset | Infrastructure/Reporting/TestMetrics.cs:18-28 | Initialising a test leaves it with an empty list of runs; a new name is appended to the key order, a known one keeps its place |
| MetricStore.MetricDictionary.Add | Tests/BaseTest.cs:183-187 | Recording appends the run to its test's list, creating the list (and the key, last in order) when the test is new; other tests are unchanged |
| MetricStore.FlattenOwnRuns | Tests/BaseTest.cs:96 | Every run in the flattened dictionary belongs to one of its test names |
| MetricStore.FlattenEmptyIffNoNames | Tests/BaseTest.cs:90-96 | When no list is empty, the flattened runs are empty exactly when the dictionary has no key |
| MetricStore.AddContributesOneRun | Tests/BaseTest.cs:183-187 | Recording one run adds exactly that run to the flattened runs, as a multiset |
| MetricStore.AllRunsSummary | Tests/BaseTest.cs:90-99 | There is an analysis exactly when some test was recorded, and it counts every recorded run |
| Dashboard.AddAnalysisAndFlush | Tests/BaseTest.cs:87-130 | At the end of the run, the analysis of all runs goes to the report when anything was recorded, and then the report is flushed |
| Dashboard.DashboardOnlyWhenRecorded | Tests/BaseTest.cs:90-129 | The flush is always the last call; the dashboard is added exactly when a test was recorded; it counts every run and has a failure section exactly when a run failed |
| TestMetrics.GroupKeys | Infrastructure/Reporting/TestMetrics.cs:56-57 | Every group key is the name of some run |
| TestMetrics.LastNamed | Infrastructure/Reporting/TestMetrics.cs:58 | The last run of a group is a run with that group's name |
| TestMetrics.OneRunPerTest | Infrastructure/Reporting/TestMetrics.cs:56-59 | In a well-formed dictionary each latest run belongs to a known test, and no two latest runs belong to the same test |
| TestMetrics.GroupingKeepsLastOfEach | Infrastructure/Reporting/TestMetrics.cs:56-59 | Grouping the flattened runs by name and taking each group's last run gives each test's latest run, in key order |
| TestMetrics.ReportAnalysesLastRuns | Infrastructure/Reporting/TestMetrics.cs:48-63 | The report is empty exactly when no test is known, throws the empty-sequence error exactly when tests are known but none has a run, and otherwise analyses each test's latest run |
| TestMetrics.LastOfEachEmptyIffNoRun | Infrastructure/Reporting/TestMetrics.cs:56-61 | No latest runs exactly when every known test has an empty list |
| TestMetrics.LastOfEachMembers | Infrastructure/Reporting/TestMetrics.cs:56-59 | The analysed runs are exactly the last runs of the tests that have runs |
| TestMetrics.ReportIgnoresEarlierRuns | Infrastructure/Reporting/TestMetrics.cs:58 | Two histories that agree on each test's latest run give the same report |
| TestMetrics.ReportedExtremes | Infrastructure/Reporting/TestMetrics.cs:62-63 | The slowest and fastest reported runs are latest runs and bound every test's latest duration |
| TestMetrics.ReportedFailures | Infrastructure/Reporting/TestMetrics.cs:73-87 | The failure entries are those of the failed latest runs, present exactly when a latest run failed |
| TestMetrics.SingleTestReport | Infrastructure/Reporting/TestMetrics.cs:56-63 | A test run several times is reported by its last run only, as both slowest and fastest |
| TestMetrics.TestMetricsManager.constructor | Infrastructure/Reporting/TestMetrics.cs:16 | The manager starts with an empty dictionary |
| TestMetrics.TestMetricsManager.InitializeTest | Infrastructure/Reporting/TestMetrics.cs:18-28 | The test's list is cleared or created; key order keeps known names |
| TestMetrics.TestMetricsManager.RecordTestResult | Infrastructure/Reporting/TestMetrics.cs:30-46 | The metric built from the arguments is appended to its test's list, created if missing |
| TestMetrics.TestMetricsManager.GenerateMetricsReport | Infrastructure/Reporting/TestMetrics.cs:48-91 | The report is the analysis of the dictionary's current state (see ReportAnalysesLastRuns) |
| Retry.Budget | Infrastructure/Utilities/RetryUtility.cs:58-63 | An always-failing action is attempted max(MaxAttempts, 1) times, since the bound is checked only after an attempt |
| Retry.StopAt | Infrastructure/Utilities/RetryUtility.cs:54-74 | The loop stops at the first attempt that succeeds or at the budget, and every earlier attempt failed |
| Retry.Reach | Infrastructure/Utilities/RetryUtility.cs:51-73 | A run reaches the budget when `Task.Delay` accepts the interval, and stops at the first attempt when it does not |
| Retry.RetryAsync | Infrastructure/Utilities/RetryUtility.cs:49-75 | With an accepted interval, the result is the outcome of the last attempt, which is the first success or the budget's last failure. With a refused interval, a first attempt that fails below MaxAttempts ends in ArgumentOutOfRangeException, thrown by the wait. The events are invocations, warnings, delays and the final error in the loop's order |
| Retry.RetryVoidAsync | Infrastructure/Utilities/RetryUtility.cs:15-42 | With an accepted interval, the void loop throws exactly the last attempt's exception, and only after using the whole budget. With a refused interval it stops after the first attempt, throwing the wait's ArgumentOutOfRangeException if MaxAttempts is above 1 |
| Retry.RetryWithDefaultsAsync | Infrastructure/Utilities/RetryUtility.cs:44-47 | Whatever maxAttempts and retryInterval are passed, at most three attempts are made, with the default settings and no logger |
| Retry.RetryVoidWithDefaultsAsync | Infrastructure/Utilities/RetryUtility.cs:10-13 | The void overload likewise ignores its arguments: it stops at the first success within three attempts, and an action that keeps failing is tried exactly three times before its last exception escapes |
| Retry.StopAtFirstSuccess | Infrastructure/Utilities/RetryUtility.cs:54-60 | If attempts before k failed and k succeeds (or is the last), the loop stops exactly at k |
| Retry.DelaysBetweenAttempts | Infrastructure/Utilities/RetryUtility.cs:69-72 | A run of n attempts, for any interval, invokes the action n times and waits n-1 times, each wait being RetryIntervalSeconds |
| Retry.EarlierAttemptsDelayOnce | Infrastructure/Utilities/RetryUtility.cs:61-73 | Each of m failed attempts below MaxAttempts is followed by exactly one wait of the interval |
| Retry.FailedAttemptDelaysOnce | Infrastructure/Utilities/RetryUtility.cs:63-72 | A failed attempt below MaxAttempts invokes once and waits once |
| Retry.OneInvocation | Infrastructure/Utilities/RetryUtility.cs:58-72 | The final attempt invokes once and does not wait: it succeeded, reached MaxAttempts, or had its wait refused |
| Retry.SingleAttemptNoDelay | Infrastructure/Utilities/RetryUtility.cs:63-66 | With MaxAttempts at most 1, one attempt is made and nothing waits |
| Polling.PollUntil | Infrastructure/Utilities/WaitHelper.cs:39-45 | Evaluates only while the clock is under the limit; true at the first evaluation that holds, an exception as soon as one is thrown, false only once the limit is reached and every evaluation was false |
| Waits.Wrap32 | Infrastructure/Utilities/WaitHelper.cs:16 | The result is in the 32-bit `int` range, congruent to the exact value modulo 2^32, and equal to it when it fits |
| Waits.TimeoutExactUpToLimit | Infrastructure/Utilities/WaitHelper.cs:16 | Up to 2147483 seconds the millisecond timeout is exact |
| Waits.TimeoutWrapsPastLimit | Infrastructure/Utilities/WaitHelper.cs:16 | A timeout of 2147484 seconds wraps to a negative millisecond timeout |
| Waits.WaitForElementVisibleAsync | Infrastructure/Utilities/WaitHelper.cs:14-17 | One visibility wait with the timeout converted to milliseconds in 32-bit arithmetic; its exception propagates |
| Waits.WaitSettings | Infrastructure/Utilities/WaitHelper.cs:29-33 | The wait retries once per second, timeoutSeconds times (at least once) |
| Waits.WaitForElementNotVisibleAsync | Infrastructure/Utilities/WaitHelper.cs:19-34 | Stops at the first check that finds the element hidden and succeeds exactly then; visible or throwing checks are retried, and only after the whole budget does the last check's error escape: "still visible", or the check's own exception |
| Waits.WaitForConditionAsync | Infrastructure/Utilities/WaitHelper.cs:50-64 | Stops at the first evaluation that holds and succeeds exactly then; false or throwing evaluations are retried, and only after the whole budget does the last one's error escape: "Condition not met", or the evaluation's own exception |
| Waits.WaitForUrlAsync | Infrastructure/Utilities/WaitHelper.cs:36-48 | Returns at the first URL that satisfies the predicate within the timeout, otherwise throws the timeout exception; with a non-positive timeout nothing is evaluated |
| Tracing.TraceManager.constructor | Infrastructure/Tracing/TraceManager.cs:14-20 | The manager keeps its settings and test |
| Tracing.TraceManager.StartTracingAsync | Infrastructure/Tracing/TraceManager.cs:22-33 | The start calls exactly as the settings say (see StartFollowsEnabled) |
| Tracing.TraceManager.StopTracingAsync | Infrastructure/Tracing/TraceManager.cs:35-48 | The stop calls exactly as the settings and the outcome say (see StopPolicy); a fault of the stop call ends it after the directory is created |
| Tracing.StopFaultOnlyWhenSaving | Infrastructure/Tracing/TraceManager.cs:37-44 | Stopping throws only when it saves a trace and the stop call fails, and then after creating the directory and before logging or registering; otherwise it makes exactly the StopEffects calls |
| Tracing.StartFollowsEnabled | Infrastructure/Tracing/TraceManager.cs:24-32 | Tracing starts, with the configured screenshots, snapshots and sources, exactly when enabled; otherwise nothing happens |
| Tracing.StopPolicy | Infrastructure/Tracing/TraceManager.cs:37-38 | A trace is saved and registered once exactly when tracing is enabled and the mode is not OnFailure with a passing test; otherwise nothing happens |
| Tracing.SavedPathIsRegistered | Infrastructure/Tracing/TraceManager.cs:40-47 | The directory is created first, and the file registered as a result is the one the trace was saved to, after saving |
| Tracing.SavedTraceIsPresentedAsTrace | Infrastructure/Tracing/TraceManager.cs:40-41 | The trace file is named test_timestamp.zip and is shown as a trace card |
| Attachments.KindOf | Infrastructure/Reporting/AttachmentHelper.cs:8-15 | A video exactly when the lower-cased extension is ".webm", a trace exactly when it is ".zip" |
| Attachments.CreateAttachmentHtml | Infrastructure/Reporting/AttachmentHelper.cs:5-16 | Videos link to Videos/name, traces to Traces/name, and other files to their name, titled with the description |
| Attachments.DirectoryDoesNotMatter | Infrastructure/Reporting/AttachmentHelper.cs:7 | Only the file name enters the card, not its directory |
| Attachments.DescriptionOnlyForGeneric | Infrastructure/Reporting/AttachmentHelper.cs:12-14 | The description is ignored for videos and traces |
| Attachments.UpperCaseVideoExtension | Infrastructure/Reporting/AttachmentHelper.cs:8 | ".WEBM" is a video too, since the extension is lower-cased |
| Attachments.ZipIsTrace | Infrastructure/Reporting/AttachmentHelper.cs:13 | Any ".zip" file is a trace |
| Attachments.WebmIsVideo | Infrastructure/Reporting/AttachmentHelper.cs:12 | Any ".webm" file is a video |
| Attachments.ReporterCard | Infrastructure/Reporting/ExtentReporter.cs:132-179 | The reporter's card switches on the same extension, linking every kind to the path relative to the reports folder |
| HtmlReporter.ErrorCard | Infrastructure/Reporting/ExtentReporter.cs:106-124 | The error card names the exception type, or "Unknown" exactly when there is none, and has a stack trace exactly when there is an exception |
| HtmlReporter.ExtentReporter.constructor | Infrastructure/Reporting/ExtentReporter.cs:29-32 | A new reporter is uninitialised, has no current test and no metrics |
| HtmlReporter.ExtentReporter.InitializeAsync | Infrastructure/Reporting/ExtentReporter.cs:34-88 | The report folders are created and the report object set up; the probe browser is launched and closed, the reporter attached, and the Playwright instance disposed last; a failing launch disposes Playwright and propagates, with the report object already set |
| HtmlReporter.ExtentReporter.StartTest | Infrastructure/Reporting/ExtentReporter.cs:90-94 | Before initialisation it throws the null-reference error; otherwise the new entry becomes the current test |
| HtmlReporter.ExtentReporter.LogInfo | Infrastructure/Reporting/ExtentReporter.cs:96-99 | Writes an info entry exactly when there is a current test, and throws the null-reference error otherwise |
| HtmlReporter.ExtentReporter.LogWarning | Infrastructure/Reporting/ExtentReporter.cs:101-104 | Writes a warning entry exactly when there is a current test |
| HtmlReporter.ExtentReporter.LogError | Infrastructure/Reporting/ExtentReporter.cs:106-124 | Writes the error card exactly when there is a current test |
| HtmlReporter.ExtentReporter.AddFileAttachment | Infrastructure/Reporting/ExtentReporter.cs:126-180 | Shows the card for the file, linked relative to the reports folder, exactly when there is a current test |
| HtmlReporter.ExtentReporter.EndTest | Infrastructure/Reporting/ExtentReporter.cs:182-211 | The run is recorded unless a failed test has no current entry; the entry is marked failed or passed from the outcome; without an entry the null-reference error escapes |
| HtmlReporter.ExtentReporter.FinalizeAsync | Infrastructure/Reporting/ExtentReporter.cs:213-257 | Adds the metrics dashboard when anything was recorded and flushes, and throws before initialisation |
| HtmlReporter.ExtentReporter.Dispose | Infrastructure/Reporting/ExtentReporter.cs:259-263 | Flushes exactly when the report was set up |
| HtmlReporter.LinkIsRelativeToReports | Infrastructure/Reporting/ExtentReporter.cs:130 | A file in a subfolder of the reports folder is linked as subfolder/name |
| HtmlReporter.FiledUnder | Infrastructure/Reporting/ExtentReporter.cs:128-130 | For a file filed under a subfolder, the name, the kind and the relative link agree |
| HtmlReporter.SameLinkSameCard | Infrastructure/Reporting/ExtentReporter.cs:132-179 | The reporter's card equals the helper's card whenever the links agree |
| HtmlReporter.VideoCardsAgree | Infrastructure/Reporting/ExtentReporter.cs:134-149 | For a video saved in Videos, the reporter and the attachment helper show the same card |
| HtmlReporter.TraceCardsAgree | Infrastructure/Reporting/ExtentReporter.cs:151-165 | For a trace saved in Traces, both show the same card |
| HtmlReporter.GenericCardsAgree | Infrastructure/Reporting/ExtentReporter.cs:167-178 | For another file in the reports folder, both show the same card |
| ReportingService.EveryReporterCalledInOrder | Infrastructure/Reporting/TestReportingService.cs:26-36 | Each reporter is called exactly once, in registration order, whatever the others throw |
| ReportingService.FailureLoggedAfterItsCall | Infrastructure/Reporting/TestReportingService.cs:32-35 | A reporter's exception is logged with its type name right after its own call, before the next reporter |
| ReportingService.OnlyFailuresLogged | Infrastructure/Reporting/TestReportingService.cs:28-35 | Only failing calls are logged, and with no failures only the calls happen |
| ReportingService.ReportingService.constructor | Infrastructure/Reporting/TestReportingService.cs:15-19 | The service keeps its reporters in argument order, uninitialised |
| ReportingService.ReportingService.Broadcast | Infrastructure/Reporting/TestReportingService.cs:43-53 | Every reporter is called in order, with each failure logged and swallowed |
| ReportingService.ReportingService.InitializeAsync | Infrastructure/Reporting/TestReportingService.cs:21-39 | Initialises once: a second call does nothing; the first logs, initialises every reporter, and marks the service initialised even when reporters throw |
| ReportingService.ReportingService.StartTest | Infrastructure/Reporting/TestReportingService.cs:41-54 | Starts the test in every reporter |
| ReportingService.ReportingService.LogInfo | Infrastructure/Reporting/TestReportingService.cs:56-69 | Passes the info message to every reporter |
| ReportingService.ReportingService.LogWarning | Infrastructure/Reporting/TestReportingService.cs:71-84 | Passes the warning to every reporter |
| ReportingService.ReportingService.LogError | Infrastructure/Reporting/TestReportingService.cs:86-99 | Passes the error and its exception to every reporter |
| ReportingService.ReportingService.AddFileAttachment | Infrastructure/Reporting/TestReportingService.cs:101-114 | Passes the attachment to every reporter |
| ReportingService.ReportingService.EndTest | Infrastructure/Reporting/TestReportingService.cs:116-129 | Ends the test in every reporter |
| ReportingService.ReportingService.FinalizeAsync | Infrastructure/Reporting/TestReportingService.cs:131-144 | Finalises every reporter |
| ReportingService.ReportingService.Dispose | Infrastructure/Reporting/TestReportingService.cs:146-161 | Disposes every reporter |
| Release.ReleasedWereHeld | Infrastructure/Base/TestBase.cs:183-202 | Only held objects are released, each in the order and without a fault |
| Release.ReleaseEffectsMatch | Infrastructure/Base/TestBase.cs:185-200 | One close or dispose call per released object, in release order |
| Release.ReleasedInOrder | Infrastructure/Base/TestBase.cs:183-202 | Release follows the given order |
| Release.NoFaultReleasesAll | Infrastructure/Base/TestBase.cs:183-202 | When no held object fails to close, everything held is released and nothing escapes |
| Release.FaultStopsRelease | Infrastructure/Base/TestBase.cs:183-202 | An escaping exception is the close fault of a held object, which stays unreleased |
| Release.DisposeInOrder | Infrastructure/Base/TestBase.cs:183-202 | The release loop closes the held objects in order and stops at the first that throws |
| BaseFixture.TestBase.constructor | Infrastructure/Base/TestBase.cs:13-23 | A new fixture holds no browser objects, no logger, no report entry and no trace manager |
| BaseFixture.TestBase.BaseTestInitialize | Infrastructure/Base/TestBase.cs:38-108 | The start time and logger are set and the configuration reloaded. A failed reload throws its exception and changes nothing else. Otherwise, when Playwright is not yet held, the browser, context, page, trace manager, report entry and metrics list are created; when it is held nothing else happens |
| BaseFixture.TestBase.Launch | Infrastructure/Base/TestBase.cs:56-107 | Launch holds page, context, browser and Playwright, starts a trace manager with the configured trace settings, and resets the test's metrics |
| BaseFixture.TestBase.OpenBrowser | Infrastructure/Base/TestBase.cs:58-83 | Playwright, the browser and the recording context are opened with the configured options |
| BaseFixture.TestBase.OpenPage | Infrastructure/Base/TestBase.cs:99-103 | The page is created, then the report entry, which the fixture now holds |
| BaseFixture.TestBase.LogInfo | Infrastructure/Base/TestBase.cs:206-211 | Logs the message and, when the report entry exists, writes it as an info entry |
| BaseFixture.TestBase.LogWarning | Infrastructure/Base/TestBase.cs:213-218 | Logs the warning and, when the report entry exists, writes it as a warning entry |
| BaseFixture.TestBase.LogError | Infrastructure/Base/TestBase.cs:220-239 | Logs the error with its exception and, when the report entry exists, writes the error text, with details only when there is an exception |
| BaseFixture.TestBase.AddTestAttachment | Infrastructure/Base/TestBase.cs:241-252 | A missing file only logs a warning; an existing one is registered and, when the report entry exists, shown as its card |
| BaseFixture.TestBase.KeepVideo | Infrastructure/Base/TestBase.cs:129-144 | The video is moved and attached exactly when a page with a recorded video path exists |
| BaseFixture.TestBase.KeepTrace | Infrastructure/Base/TestBase.cs:146-154 | When the fixture has a trace manager, tracing stops, and a returned path is attached unless the stop call throws |
| BaseFixture.TestBase.MarkStatus | Infrastructure/Base/TestBase.cs:156-174 | When the report entry exists, it is marked failed or passed from the outcome; otherwise nothing happens |
| BaseFixture.TestBase.RecordOutcome | Infrastructure/Base/TestBase.cs:116-179 | The try block runs, and an exception it throws is logged as a cleanup error and swallowed |
| BaseFixture.TestBase.ReleaseResources | Infrastructure/Base/TestBase.cs:180-203 | The finally block closes page, context, browser and Playwright in that order, skipping those not held, until one throws |
| BaseFixture.TestBase.RecordMetric | Infrastructure/Base/TestBase.cs:113-125 | The run is appended to the test's history with the elapsed duration, the outcome and the category; a failed run's failure step is the report entry's status when the entry exists and empty (null) otherwise |
| BaseFixture.FailureStepNeedsEntry | Infrastructure/Base/TestBase.cs:113-123 | The failure step is the entry's status exactly when the run failed and an entry exists, and empty otherwise |
| BaseFixture.TestBase.BaseTestCleanup | Infrastructure/Base/TestBase.cs:111-204 | Records the metric, with the entry's status as a failed run's failure step only when the entry exists, runs the try block with its errors swallowed, then releases what is held in order; only a release fault escapes |
| BaseFixture.StatusFollowsOutcome | Infrastructure/Base/TestBase.cs:157-174 | "Test failed" exactly when the outcome is not Passed, "Test passed" exactly when it is, and an error entry exactly when the outcome is Failed with an exception |
| BaseFixture.MissingAttachmentOnlyWarns | Infrastructure/Base/TestBase.cs:243-247 | A missing attachment is neither registered nor shown, only warned about |
| BaseFixture.VideoKeptOnlyWithPath | Infrastructure/Base/TestBase.cs:130-143 | The video is moved exactly when a page and a video path exist and the move succeeds, and it goes to test_timestamp.webm beside the original |
| BaseFixture.KeptVideoIsPresentedAsVideo | Infrastructure/Base/TestBase.cs:138-141 | The kept video is named test_timestamp.webm and shown as a video card |
| BaseFixture.NothingReportedWithoutEntry | Infrastructure/Base/TestBase.cs:206-252 | Without a report entry no call reaches the report, and every other call is still made |
| BaseFixture.ReportedAppend | Infrastructure/Base/TestBase.cs:206-252 | Whether the entry exists or not, two blocks in a row write what each writes |
| BaseFixture.FailedReloadLaunchesNothing | Infrastructure/Base/TestBase.cs:53-58 | A failed reload leaves setup after the logger and the reload, with no Playwright, page, report entry or report call |
| BaseFixture.TraceFaultOnlyWhenSaving | Infrastructure/Base/TestBase.cs:147-153 | The trace step throws only when a trace is saved and its stop call fails, after creating the directory and without an attachment |
| BaseFixture.OnlyReleaseFaultsEscape | Infrastructure/Base/TestBase.cs:180-203 | An exception escaping cleanup is the close fault of a held object |
| BaseFixture.CleanupReleasesEverything | Infrastructure/Base/TestBase.cs:180-203 | Without close faults every held object is released, page before context before browser before Playwright |
| BaseFixture.ErrorDetailsOnlyWithException | Infrastructure/Base/TestBase.cs:226-235 | The error details are empty exactly when there is no exception, and otherwise hold the encoded message and stack trace in order |
| SuiteFixture.SuiteBase.constructor | Tests/BaseTest.cs:14-23 | A new suite fixture holds nothing and shares the metric dictionary |
| SuiteFixture.SuiteBase.BaseTestInitialize | Tests/BaseTest.cs:133-165 | Opens Playwright, a headless browser and a 1920x1080 recording context, creates the report entry, and logs the start |
| SuiteFixture.SuiteBase.BaseTestCleanup | Tests/BaseTest.cs:168-209 | Records the run in the shared dictionary, disposes what is held, and marks the entry; a dispose fault escapes before the marking |
| SuiteFixture.SuiteBase.DisposeAndMark | Tests/BaseTest.cs:189-208 | Disposes context, browser and Playwright in order, then logs the outcome and marks the entry unless a dispose threw |
| SuiteFixture.SuiteBase.MarkCompleted | Tests/BaseTest.cs:199-208 | Logs the outcome and marks the entry failed or passed |
| SuiteFixture.SuiteBase.LogInfo | Tests/BaseTest.cs:211-215 | Logs the message and writes it as an info entry |
| SuiteFixture.SuiteBase.LogWarning | Tests/BaseTest.cs:217-221 | Logs the warning and writes it as a warning entry |
| SuiteFixture.SuiteBase.LogError | Tests/BaseTest.cs:223-227 | Logs the error with its exception and writes the message as an error entry |
| SuiteFixture.SuiteBase.AddTestAttachment | Tests/BaseTest.cs:229-242 | Registers the file and shows its card without checking that it exists |
| SuiteFixture.AssemblyCleanup | Tests/BaseTest.cs:87-130 | At the end of the run the dashboard is added when anything was recorded, then the report is flushed |
| SuiteFixture.MarkFollowsDisposal | Tests/BaseTest.cs:189-208 | The entry is marked failed or passed exactly when disposal did not throw, according to the outcome |
| SuiteFixture.DisposalOrder | Tests/BaseTest.cs:189-197 | Disposal follows context, browser, Playwright; without faults everything held is disposed |
| SuiteFixture.AttachmentNotCheckedForExistence | Tests/BaseTest.cs:229-231 | The suite fixture registers a missing file, which the per-test fixture does not |
| ScreenshotFixture.ScreenshotBase.constructor | Infrastructure/BaseTest.cs:13-20 | A new fixture has no settings and holds nothing |
| ScreenshotFixture.ScreenshotBase.TestInitialize | Infrastructure/BaseTest.cs:22-47 | A settings load failure propagates with nothing opened; otherwise Playwright, the browser and the context are opened with the configured options, and navigation is set up exactly when the context has a page (else the index error escapes) |
| ScreenshotFixture.ScreenshotBase.Capture | Infrastructure/BaseTest.cs:71-83 | The first page is captured full-page when there is one, and the file is registered only if it exists |
| ScreenshotFixture.ScreenshotBase.TakeScreenshot | Infrastructure/BaseTest.cs:63-84 | The screenshot step runs as the settings and the outcome say (see ScreenshotOnlyOnFailure) |
| ScreenshotFixture.ScreenshotBase.DisposeAll | Infrastructure/BaseTest.cs:86-88 | Disposes context, browser and Playwright unconditionally, in order, stopping at the first that throws |
| ScreenshotFixture.ScreenshotBase.TestCleanup | Infrastructure/BaseTest.cs:61-89 | The screenshot step, then disposal; an exception from either escapes |
| ScreenshotFixture.ScreenshotOnlyOnFailure | Infrastructure/BaseTest.cs:63-77 | A screenshot is taken exactly when screenshots are enabled for failures, the test did not pass, a page exists and capture works, and it goes to directory/test_timestamp.png |
| ScreenshotFixture.DirectoryBeforeCapture | Infrastructure/BaseTest.cs:69 | The screenshot directory is created first |
| ScreenshotFixture.ResultFileOnlyIfWritten | Infrastructure/BaseTest.cs:79-82 | Only the screenshot path is registered, and only when the file exists |
| ScreenshotFixture.ScreenshotFaultSkipsDisposal | Infrastructure/BaseTest.cs:61-89 | A failing screenshot escapes before anything is disposed |
| ScreenshotFixture.DisposalOrder | Infrastructure/BaseTest.cs:86-88 | With everything held and no fault, context, browser and Playwright are disposed in that order |
| ScreenshotFixture.UnsetBrowserStopsDisposal | Infrastructure/BaseTest.cs:86-88 | Without a browser, the context is disposed and then the null-reference error escapes, leaving Playwright undisposed |
| ScreenshotFixture.ScreenshotName | Infrastructure/BaseTest.cs:67-68 | The screenshot file is named test_timestamp.png |
| ApiObject.JsonBody | Infrastructure/API/BaseApiObject.cs:96-100 | No data gives an empty body, otherwise the serialised data |
| ApiObject.ResponseLevel | Infrastructure/API/BaseApiObject.cs:90 | Responses are logged at Information exactly when successful, at Error otherwise |
| ApiObject.Handle | Infrastructure/API/BaseApiObject.cs:70-86 | A non-success status throws the status error; an empty success body yields nothing; otherwise the content |
| ApiObject.ApiClientObject.constructor | Infrastructure/API/BaseApiObject.cs:13-18 | The object keeps its base path |
| ApiObject.ApiClientObject.Send | Infrastructure/API/BaseApiObject.cs:27-94 | Logs the request, sends it to the built endpoint, logs status and content at the response's level, and handles the response |
| ApiObject.ApiClientObject.GetAsync | Infrastructure/API/BaseApiObject.cs:27-33 | A GET without a body to the built endpoint |
| ApiObject.ApiClientObject.PostAsync | Infrastructure/API/BaseApiObject.cs:35-42 | A POST with the JSON body |
| ApiObject.ApiClientObject.PutAsync | Infrastructure/API/BaseApiObject.cs:44-51 | A PUT with the JSON body |
| ApiObject.ApiClientObject.DeleteAsync | Infrastructure/API/BaseApiObject.cs:53-59 | A DELETE without a body |
| ApiObject.ApiClientObject.PatchAsync | Infrastructure/API/BaseApiObject.cs:61-68 | A PATCH with the JSON body |
| ApiObject.CleanBasePath | Infrastructure/API/BaseApiObject.cs:22 | Any slashes around the base path are stripped, and only those |
| ApiObject.EndpointOfParts | Infrastructure/API/BaseApiObject.cs:20-25 | Base and path join with exactly one '/', whatever slashes surround them |
| ApiObject.SlashOnlyBaseIsRooted | Infrastructure/API/BaseApiObject.cs:22-24 | A base path of slashes only gives an endpoint rooted at '/' |
| ApiObject.ResponseLinesShareLevel | Infrastructure/API/BaseApiObject.cs:88-94 | The request is sent between the request line and the two response lines, which share one level |
| ApiHelper.CreateOutcome | Infrastructure/API/ApiTestHelper.cs:44-48 | Creation fails with the status error on a non-success status, with the null-reference error when no resource comes back, and otherwise yields the resource key |
| ApiHelper.DeletedAppend | Infrastructure/API/ApiTestHelper.cs:111-121 | The deleted paths of two logs concatenate |
| ApiHelper.ApiTestHelper.constructor | Infrastructure/API/ApiTestHelper.cs:26-33 | The helper starts with no created resources |
| ApiHelper.ApiTestHelper.Create | Infrastructure/API/ApiTestHelper.cs:39-102 | Logs and posts the generated data; the resource is added to the list as collection/key exactly when creation succeeds |
| ApiHelper.ApiTestHelper.CleanupTestResourcesAsync | Infrastructure/API/ApiTestHelper.cs:107-124 | Logs the count, deletes every created resource in order with failures only warned about, then clears the list |
| ApiHelper.ApiTestHelper.GetCreatedResources | Infrastructure/API/ApiTestHelper.cs:130 | Returns the created resources as recorded |
| ApiHelper.OneDeletePerEntry | Infrastructure/API/ApiTestHelper.cs:111-116 | Cleanup sends exactly one DELETE per recorded resource, to /api/entry, in order |
| ApiHelper.FailedDeleteIsWarned | Infrastructure/API/ApiTestHelper.cs:117-120 | A failed delete is warned about right after it, before the next delete |
| ApiHelper.DeletePrefix | Infrastructure/API/ApiTestHelper.cs:111-121 | Cleanup's calls for the first entries are a prefix of the whole cleanup |
| ApiHelper.CollectionHasNoSlash | Infrastructure/API/ApiTestHelper.cs:48 | Collection names contain no '/' |
| ApiHelper.EntriesNameTheirCollection | Infrastructure/API/ApiTestHelper.cs:48 | Two recorded entries are equal exactly when kind and key are, for keys without '/' |
| Elements.Scoped | Infrastructure/UI/ElementInteractionBase.cs:22-23 | Without a base the selector is unchanged; with one it is the base, one space, and the selector |
| Elements.WaitState | Infrastructure/UI/ElementInteractionBase.cs:38-45 | "hidden", "attached" and "detached" map to their states, everything else to Visible |
| Elements.Probe | Infrastructure/UI/ElementInteractionBase.cs:77-85 | True when the wait completes, false exactly on a timeout, and any other exception propagates |
| Elements.ElementInteraction.constructor | Infrastructure/UI/ElementInteractionBase.cs:14-20 | The base keeps its base selector and element timeout |
| Elements.ElementInteraction.WaitForElementAsync | Infrastructure/UI/ElementInteractionBase.cs:32-50 | Logs and waits on the scoped selector for the mapped state with the element timeout |
| Elements.ElementInteraction.GetElementAsync | Infrastructure/UI/ElementInteractionBase.cs:25-30 | Waits for visibility on the scoped selector, then locates it |
| Elements.ElementInteraction.Act | Infrastructure/UI/ElementInteractionBase.cs:52-58 | Logs, looks the element up, and acts on it only when the lookup succeeded |
| Elements.ElementInteraction.ClickAsync | Infrastructure/UI/ElementInteractionBase.cs:52-58 | Clicks after the lookup |
| Elements.ElementInteraction.TypeTextAsync | Infrastructure/UI/ElementInteractionBase.cs:60-66 | Fills the text after the lookup |
| Elements.ElementInteraction.SelectOptionAsync | Infrastructure/UI/ElementInteractionBase.cs:102-108 | Selects the value after the lookup |
| Elements.ElementInteraction.HoverAsync | Infrastructure/UI/ElementInteractionBase.cs:110-116 | Hovers after the lookup |
| Elements.ElementInteraction.ScrollIntoViewAsync | Infrastructure/UI/ElementInteractionBase.cs:118-124 | Scrolls into view after the lookup |
| Elements.ElementInteraction.DragAndDropAsync | Infrastructure/UI/ElementInteractionBase.cs:126-134 | Looks up source then target, and drags only when both were found |
| Elements.ElementInteraction.GetTextAsync | Infrastructure/UI/ElementInteractionBase.cs:68-72 | The element's text after the lookup, or "" when it has none |
| Elements.ElementInteraction.IsElementVisibleAsync | Infrastructure/UI/ElementInteractionBase.cs:74-86 | Waits for visibility; a timeout means false |
| Elements.ElementInteraction.IsElementPresentAsync | Infrastructure/UI/ElementInteractionBase.cs:88-100 | Waits for attachment; a timeout means false |
| Elements.ElementInteraction.GetAttributeAsync | Infrastructure/UI/ElementInteractionBase.cs:136-140 | The attribute after the lookup, or "" when missing |
| Elements.ElementInteraction.HasClassAsync | Infrastructure/UI/ElementInteractionBase.cs:142-146 | Whether the class name is one of the space-separated pieces of the class attribute |
| Elements.ElementInteraction.WaitForNetworkIdleAsync | Infrastructure/UI/ElementInteractionBase.cs:148-152 | Logs, then waits for network idle |
| Elements.ElementInteraction.WaitForDomContentLoadedAsync | Infrastructure/UI/ElementInteractionBase.cs:154-158 | Logs, then waits for DOM content loaded |
| Elements.WaitForConditionAsync | Infrastructure/UI/ElementInteractionBase.cs:160-172 | True at the first evaluation that holds within the timeout, false once it has elapsed, exceptions propagate; an elapsed timeout evaluates nothing |
| Elements.LookupScopesTwice | Infrastructure/UI/ElementInteractionBase.cs:25-34 | With a base selector, a lookup waits on the base twice in front of the selector, but locates it under the base once |
| Elements.NoBaseNoScoping | Infrastructure/UI/ElementInteractionBase.cs:22-23 | Without a base selector, the wait targets the selector itself |
| Elements.ActionOnlyAfterLookup | Infrastructure/UI/ElementInteractionBase.cs:56-57 | An action happens only after a successful lookup, on the once-scoped selector; a lookup failure is what escapes |
| Elements.HasClassIsMembership | Infrastructure/UI/ElementInteractionBase.cs:145 | For space-free class names joined by spaces, HasClass is membership |
| Elements.MissingClassAttribute | Infrastructure/UI/ElementInteractionBase.cs:139-145 | A missing class attribute contains only the empty class name |
| Elements.DoubleSpaceMakesEmptyClass | Infrastructure/UI/ElementInteractionBase.cs:145 | Two spaces in a row make "" a class |
| Components.Component.constructor | Pages/Components/BaseComponent.cs:10-13 | A component's base selector is its root |
| Components.Component.IsVisibleAsync | Pages/Components/BaseComponent.cs:15-26 | Waits for the root (scoped by itself) and reports a timeout as false |
| Components.Component.WaitUntilVisibleAsync | Pages/Components/BaseComponent.cs:28-32 | Logs, then waits for the root to be visible; a timeout escapes |
| Components.ComponentWaitsOnRootTwice | Pages/Components/BaseComponent.cs:19 | The component waits on "root root" |
| Navigation.UrlOfParts | Infrastructure/Navigation/NavigationHelper.cs:27-32 | Base and path join with exactly one '/', whatever slashes surround the junction; inner slashes are kept |
| Navigation.EveryUrlHasThatShape | Infrastructure/Navigation/NavigationHelper.cs:29-30 | Every base and path split into trimmed part and stripped slashes, so UrlOfParts covers all inputs |
| Navigation.LeadingSlashIgnored | Infrastructure/Navigation/NavigationHelper.cs:30 | A leading '/' on the path changes nothing |
| Navigation.TrailingSlashIgnored | Infrastructure/Navigation/NavigationHelper.cs:29 | A trailing '/' on the base changes nothing |
| Navigation.NavigationHelper.constructor | Infrastructure/Navigation/NavigationHelper.cs:13-18 | The helper keeps its base URL |
| Navigation.NavigationHelper.NavigateToAsync | Infrastructure/Navigation/NavigationHelper.cs:20-25 | Logs and navigates to the built URL; a navigation error propagates |
| Pages.BuildUrl | Pages/BasePage.cs:20-25 | The page's URL builder agrees with the navigation helper's, and the URL is the trimmed base, '/', and the trimmed path |
| Pages.OneSlashAtJunction | Pages/BasePage.cs:22-24 | Exactly one '/' at the junction |
| Pages.SlashesAroundJunctionIgnored | Pages/BasePage.cs:22-23 | Extra slashes at the junction do not change the URL |
| Logging.TestContextLogger.constructor | Infrastructure/Logging/TestContextLogger.cs:11-16 | The logger keeps its category and minimum level |
| Logging.TestContextLogger.Log | Infrastructure/Logging/TestContextLogger.cs:22-43 | Writes the formatted line, and the exception line when there is one, to the test context and the console, only when the level is enabled |
| Logging.TestContextLoggerProvider.constructor | Infrastructure/Logging/TestContextLogger.cs:51-55 | The provider keeps its minimum level |
| Logging.TestContextLoggerProvider.CreateLogger | Infrastructure/Logging/TestContextLogger.cs:57-58 | Each logger is new, has the requested category and inherits the provider's level |
| Logging.LoggingBuilder.AddTestContext | Infrastructure/Logging/TestContextLogger.cs:65-72 | Adds one new provider with the given level after the existing ones |
| Logging.ThresholdIsMonotone | Infrastructure/Logging/TestContextLogger.cs:20 | Raising the minimum level only disables levels; the minimum itself is enabled |
| Logging.WhatLogWrites | Infrastructure/Logging/TestContextLogger.cs:29-42 | Nothing is written exactly when the level is disabled; otherwise the formatted line, then the exception line when there is an exception |
| Logging.SinksAgree | Infrastructure/Logging/TestContextLogger.cs:34-41 | The test context and the console receive the same lines in the same order |
| Settings.Variable | Infrastructure/Config/ConfigurationLoader.cs:53-54 | An environment variable is present exactly when set, with its value |
| InfraConfig.ResolveEnvironment | Infrastructure/Config/ConfigurationLoader.cs:51-59 | ASPNETCORE_ENVIRONMENT, else TEST_ENVIRONMENT, else "Development" |
| InfraConfig.FirstExisting | Infrastructure/Config/ConfigurationLoader.cs:30 | The first candidate that exists, with all earlier ones missing, or none when no candidate exists |
| InfraConfig.Named | Infrastructure/Config/ConfigurationLoader.cs:46 | Only the environment name is overwritten with the resolved one |
| InfraConfig.InfraConfigurationLoader.constructor | Infrastructure/Config/ConfigurationLoader.cs:8-9 | No settings are cached and no logger is set |
| InfraConfig.InfraConfigurationLoader.LoadSettings | Infrastructure/Config/ConfigurationLoader.cs:20-49 | The load outcome for the environment and files, logged only when a logger is set |
| InfraConfig.InfraConfigurationLoader.GetSettings | Infrastructure/Config/ConfigurationLoader.cs:11 | Cached settings are returned unchanged; otherwise a load, cached only when it succeeds |
| InfraConfig.InfraConfigurationLoader.Initialize | Infrastructure/Config/ConfigurationLoader.cs:13-18 | Sets the logger and always reloads; a success replaces the cache and logs the configuration summary, a failure keeps the old cache |
| InfraConfig.ConfigFileFallback | Infrastructure/Config/ConfigurationLoader.cs:24-31 | The base directory's file wins, else the project root's, else the file-not-found error |
| InfraConfig.LoadedFileIsSettingsFile | Infrastructure/Config/ConfigurationLoader.cs:35-38 | The chosen file exists and is appsettings.json, and the optional overlay sits beside it |
| InfraConfig.LoadedNameIsResolved | Infrastructure/Config/ConfigurationLoader.cs:20-49 | Loading succeeds exactly when one of the two files exists, and then differs from the bound settings only in the resolved environment name |
| AppConfig.ResolveEnvironment | Config/ConfigurationLoader.cs:25-28 | ASPNETCORE_ENVIRONMENT, else "Development" |
| AppConfig.LoadOutcome | Config/ConfigurationLoader.cs:11-23 | Loading succeeds exactly when appsettings.json is in the current directory, with the bound settings unchanged; otherwise the file-not-found error |
| AppConfig.AppConfigurationLoader.constructor | Config/ConfigurationLoader.cs:7 | No settings are cached |
| AppConfig.AppConfigurationLoader.GetSettings | Config/ConfigurationLoader.cs:9 | Cached settings are returned unchanged; otherwise a load, cached only when it succeeds |
| AppConfig.SourceOrder | Config/ConfigurationLoader.cs:13-17 | Required base file, optional environment overlay, then environment variables |
| AppConfig.TestEnvironmentIgnored | Config/ConfigurationLoader.cs:27 | TEST_ENVIRONMENT has no effect on this loader |
| AppConfig.LoadersDisagreeOnlyOnTestEnvironment | Config/ConfigurationLoader.cs:25-28 | The two loaders pick different environments exactly when only TEST_ENVIRONMENT is set, to something other than "Development" |
| Text.JoinSplit | Infrastructure/UI/ElementInteractionBase.cs:145 | Splitting at a character and joining back restores the string |
| Text.RelativeOfDescendant | Infrastructure/Reporting/ExtentReporter.cs:130 | The path of a descendant relative to an ancestor is the remaining components |
| Text.NatToStringRoundTrip | Infrastructure/API/ApiTestHelper.cs:109 | The decimal text of a count reads back as that count |
| Text.HtmlEncode | Infrastructure/Base/TestBase.cs:229-232 | The encoded text has no tag delimiter or quote, and no character from U+00A0 to U+00FF or beyond U+FFFF |
| Text.NumericReferenceReadsBack | Infrastructure/Base/TestBase.cs:229 | A character from U+00A0 to U+00FF or beyond U+FFFF becomes `&#`, its decimal code point, and `;` |
| Text.HtmlEncodePlain | Infrastructure/Base/TestBase.cs:229 | Text without markup characters and without characters written as numeric references is not changed by HTML encoding |

## Left out

**Outside the model**
- **Calls into Playwright, HTTP, the file system, the logger and the report.** Each is an `Effect` in `World.log`. What it returns is a parameter. What it throws is a parameter for the calls whose fault the source handles or lets escape from a step that is otherwise modelled: a retried action, a wait, a lookup, a request's status, a delete, the trace stop, the video move, the screenshot capture, a close or dispose, the reporter's probe browser launch and each reporter behind the reporting service. The remaining calls are assumed not to throw; "Weaker contracts" lists them. The browser, the network and the disk are not modelled.
- **Clocks.** Readings are parameters:
  - as elapsed-time functions for the polling loops;
  - as integers for start and end times;
  - as timestamp strings for file names.
- **Threading and asynchrony.** `async`/`await` runs sequentially and concurrency is not modelled, because each test runs its calls in order.
- **Report markup.**
  - The HTML and CSS of the report are not modelled; cards and report entries are structured values that keep the links, titles and texts the markup is built from.
  - The text the per-test fixture writes through LogInfo, LogWarning and LogError does carry its markup pieces.
  - The report's system information is not modelled, because those values come from the runtime.
- **Data handling.**
  - JSON serialisation and deserialisation are not modelled. Payloads and response contents are text, and returned resources are given as their key.
  - The Bogus-based test-data generator is not modelled. The generated payload and subject are parameters.
  - Configuration binding (`configuration.Bind`) is a parameter: the settings that binding would produce.
  - `Path.GetFullPath` of the project root is a parameter.
  - Line terminators are "\n".

**Behaviour made into inputs**
- **Transport exceptions of `HttpClient`.** They are not modelled: each request gets a response. Failures of the helpers' deletes are given per entry.
- **Trace path at cleanup.** `TestBase.cs:149` uses the value of `StopTracingAsync`, but that method returns no value. The model takes the trace path as an input of cleanup.
- **Trace mode.** `Enum.Parse` of the mode string is not modelled: the settings carry the mode as an enumeration.
- **Faults of `TextContentAsync` and `GetAttributeAsync` after a successful lookup.** They are not modelled: the value is an input.

**Source files not modelled**
- The Azure DevOps reporter, `TestReportManager`, `ExtentReportManager`, `BaseApiTest`, `SampleTest` and `HtmlReporterConfig` are not part of this model; the settings classes appear only as the datatypes the model needs.
- `TestReportManager`, called by the per-test fixture, is an effect (report test created).
- The suite fixture's `AssemblyInitialize` (Tests/BaseTest.cs:35-84) is not part of this model. It creates the report directories, launches and closes a browser to read its version, fills in the report's system information and attaches the HTML reporter. Its equivalent in `ExtentReporter.InitializeAsync` is modelled.

**Weaker contracts**
- Metrics.BuildSummary: the average duration is not computed, because it is a floating-point mean. The summary carries the total and the count it is built from.
- Retry.RetryAsync: the delay is an event carrying its length in seconds, not elapsed time.
- Retry.RetryVoidAsync: the void loop is stated through the generic loop, with the action lifted to a unit result. The two loops are line-for-line the same.
- ApiHelper.ApiTestHelper.GetCreatedResources: returns a snapshot of the list. The source returns a live read-only view, so a caller that keeps it sees later creations and the clearing at cleanup; that aliasing is not modelled.
- Text.HtmlEncode: a lone UTF-16 surrogate cannot occur in a Dafny string, so how the encoder treats one is not modelled.
- Polling.PollUntil: the 100 ms pause between evaluations is not an effect. The clock function already says when each evaluation happens.
- ScreenshotFixture.ScreenshotBase.TestInitialize: `Pages[0]` of a fresh context is an input (the page count).
- SuiteFixture.SuiteBase.BaseTestCleanup: the disposed objects stay held, because the source never sets those fields back to null.
- BaseFixture.TestBase.BaseTestCleanup: one timestamp serves every file name of one cleanup.
- BaseFixture.TestBase.Launch: setup calls are assumed to succeed. `Playwright.CreateAsync`, `LaunchAsync`, `NewContextAsync`, `Tracing.StartAsync`, `NewPageAsync` and `CreateTest` take no fault input, so setup cannot stop half-way. The only setup fault modelled is the configuration reload's. Cleanup still handles partly held states, such as a missing page.
- SuiteFixture.SuiteBase.BaseTestInitialize: setup calls are assumed to succeed. `Playwright.CreateAsync`, `LaunchAsync`, `NewContextAsync` and `CreateTest` take no fault input.
- ScreenshotFixture.ScreenshotBase.TestInitialize: setup calls are assumed to succeed, apart from the settings load and the `Pages[0]` index. `Playwright.CreateAsync`, `LaunchAsync` and `NewContextAsync` take no fault input.
- Tracing.TraceManager.StopTracingAsync: `Directory.CreateDirectory` is assumed not to throw; only the stop call takes a fault input.
- HtmlReporter.ExtentReporter.InitializeAsync: the three `Directory.CreateDirectory` calls and `Playwright.CreateAsync` are assumed not to throw; only the probe browser's launch takes a fault input.
- ScreenshotFixture.ScreenshotBase.TakeScreenshot: `Directory.CreateDirectory` for the screenshot folder is assumed not to throw; only the capture takes a fault input.
- Logging.TestContextLogger.Log: the writes to the test context and the console are assumed not to throw. The same holds for every logger line (`Logged`) the fixtures and helpers write.
- BaseFixture.TestBase.Report: the report calls (`Log` with Info, Warning or Error, `Pass`, `Fail`, attachment cards) are assumed not to throw; the same holds for the suite fixture's report calls. Behind the reporting service each reporter's call does take a fault input.
- Retry.DelayAccepted: the bound is the one of .NET 6 and later (4294967294 ms per wait). The refused wait's exception is `ArgumentOutOfRangeException`, but its message text is not modelled.
