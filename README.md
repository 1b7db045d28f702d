# Crash automation app, modelled in Dafny

The app crashes itself on purpose so that a CI pipeline can check that the
KSCrash crash reporter records and uploads what happened. This project models
the parts of the app that have behaviour you can state. The crash generators
themselves are not modelled.

- **Call-chain obfuscator** (`CallChain`, `call_chain.dfy`).
  - The chain runs an action at the bottom of 3 to 8 hops.
  - The hops go through a pool of twenty interchangeable stage functions, and each hop is picked at random by `dispatch`.
  - The chain is modelled as the trace of frames it pushes.
  - The crash reporter's process-wide `userInfo` dictionary is a field of the `CrashReporter` class. `run(userInfo:)` tags that dictionary with `"call_chain"` before the chain starts, and removes the tag once the action returns.
- **Crash-type catalogue** (`CrashCatalog`, `crash_catalog.dfy`). The 35 crash types, their raw values (the case names), their display labels, `random()`, and the parsing of `CI_AUTOMATION_CRASH_TYPE`. `CrashType(rawValue:)` is modelled as a search of `allCases` for the case whose raw value matches, which is what Swift's derived initializer computes.
- **Automation manager** (`AutomationManager`, `automation_manager.dfy`), a class holding the manager's state:
  - the `started` latch;
  - the crash-on-launch check, which allows at most one crash per run ID and is kept in `UserDefaults` (modelled as a map);
  - the `pendingCrash` flag that `onUIReady` consumes;
  - `triggerCrashNow`;
  - the report-sending loop and the status line it shows, which the UI test reads.
- **Report sink** (`ServiceSink`, `service_sink.dfy`).
  - `filterReports` uploads reports one after another. It keeps the uploaded reports in order, together with the last error.
  - `uploadReport` accepts only a dictionary report answered with HTTP 200–299.
- **Support modules**:
  - `Optional`: the optional type.
  - `Decimal`: the numerals that Swift's string interpolation prints for the counts.

Random choices are inputs or nondeterministic choices:
- the k-th stage pick is `picks(k)`;
- the hop count and `CrashType.random()` use `:|`.

The network, the environment and the report store are parameters:
- the i-th upload's outcome is `exchanges(i)`;
- the i-th send's outcome is `outcome(i)`;
- the environment is the manager's `env`;
- the list of report IDs is `store`.

Two details of the code's behaviour are worth stating:
- With hop count d the chain makes d dispatches and pushes d + 1 stage frames, because `run` enters `handleUserInteraction` first. A hop count of 0 would therefore still push one stage frame before the action.
- The tag is cleared inside the chain's action, right after the wrapped action returns.

## Model

| member | source | states |
|---|---|---|
| CallChain.Run | ExitCodeClubCIAutomationApp/Sources/CallChain.swift:6-9 | the hop count is in 3...8; the chain starts at `handleUserInteraction`, makes exactly `depth` dispatches, pushes `depth + 1` stage frames and calls the action exactly once |
| CallChain.PoolIndexOf | ExitCodeClubCIAutomationApp/Sources/CallChain.swift:33-65 | every stage sits at some position of the pool, so the pool is not empty and `randomElement()!` cannot fail |
| CallChain.StageCall | ExitCodeClubCIAutomationApp/Sources/CallChain.swift:69-73 | a stage with `remaining` hops pushes `2*remaining + 2` frames; the first is its own and the last is the action; at 0 it calls the action and dispatches nothing |
| CallChain.Dispatch | ExitCodeClubCIAutomationApp/Sources/CallChain.swift:61-65 | `dispatch` calls the stage drawn from the pool with the same hop count; what it pushes starts with its own frame, then the drawn stage's frame, and ends with the action |
| CallChain.StageCallAt | ExitCodeClubCIAutomationApp/Sources/CallChain.swift:61-195 | entry i of a chain is its own frame first, then alternating dispatch frames and frames of the drawn stages, and the action last |
| CallChain.StageCallIsChainTrace | ExitCodeClubCIAutomationApp/Sources/CallChain.swift:61-195 | the recursive chain equals the written-out trace |
| CallChain.StageCallCounts | ExitCodeClubCIAutomationApp/Sources/CallChain.swift:61-195 | starting with `remaining` hops: exactly one action call, `remaining` dispatches and `remaining + 1` stage frames |
| CallChain.ActionIsLast | ExitCodeClubCIAutomationApp/Sources/CallChain.swift:69-73 | no frame follows the action; it is the last thing the chain does |
| CallChain.WithTag | ExitCodeClubCIAutomationApp/Sources/CallChain.swift:20-21 | `"call_chain"` maps to the key; every other entry is kept, with the same value |
| CallChain.WithoutTag | ExitCodeClubCIAutomationApp/Sources/CallChain.swift:26-27 | `"call_chain"` is gone; every other entry is kept, with the same value |
| CallChain.TagThenUntag | ExitCodeClubCIAutomationApp/Sources/CallChain.swift:11-29 | tagging and then untagging gives the original dictionary minus any earlier tag |
| CallChain.CrashReporter.SetUserInfo | ExitCodeClubCIAutomationApp/Sources/CallChain.swift:19-23 | `userInfo` becomes the old dictionary (nil read as empty) with the tag set |
| CallChain.CrashReporter.ClearUserInfo | ExitCodeClubCIAutomationApp/Sources/CallChain.swift:25-29 | `userInfo` becomes the old dictionary (nil read as empty) without the tag, whatever key is passed |
| CallChain.CrashReporter.RunWithUserInfo | ExitCodeClubCIAutomationApp/Sources/CallChain.swift:11-17 | the tag equals the key while the action runs; if the action returns, `userInfo` ends as the original without the tag, otherwise the tag stays |
| CrashCatalog.RawValue | ExitCodeClubCIAutomationApp/Sources/CrashAutomationManager.swift:8-66 | each case's raw value is its Swift case name, the `String` raw value Swift derives |
| CrashCatalog.FromRawValue | ExitCodeClubCIAutomationApp/Sources/CrashAutomationManager.swift:313 | `CrashType(rawValue:)`: the first case of `allCases` whose raw value is the string, or nil |
| CrashCatalog.RawValueRoundTrip | ExitCodeClubCIAutomationApp/Sources/CrashAutomationManager.swift:8-66 | `CrashType(rawValue: t.rawValue) == t` for all 35 cases |
| CrashCatalog.RawValueInjective | ExitCodeClubCIAutomationApp/Sources/CrashAutomationManager.swift:8-66 | the raw values of distinct cases are distinct |
| CrashCatalog.CaseIndexListsCase | ExitCodeClubCIAutomationApp/Sources/CrashAutomationManager.swift:8-66 | every case is listed in `allCases`, so `allCases` is not empty |
| CrashCatalog.FromRawValueSound | ExitCodeClubCIAutomationApp/Sources/CrashAutomationManager.swift:313 | `CrashType(rawValue: s)` is a case only when `s` is that case's raw value, and nil exactly when `s` is no case's raw value |
| CrashCatalog.RandomCrashType | ExitCodeClubCIAutomationApp/Sources/CrashAutomationManager.swift:68-70 | `random()` returns a member of `allCases` and never fails |
| CrashCatalog.DisplayName | ExitCodeClubCIAutomationApp/Sources/CrashAutomationManager.swift:72-106 | the label of each of the 35 cases, as the `displayName` switch gives it; the three out-of-memory cases share one label and the three hang cases another |
| CrashCatalog.OutOfMemoryLabelShared | ExitCodeClubCIAutomationApp/Sources/CrashAutomationManager.swift:72-106 | exactly the three out-of-memory cases are labelled "Out of memory (jetsam)" |
| CrashCatalog.HangLabelShared | ExitCodeClubCIAutomationApp/Sources/CrashAutomationManager.swift:72-106 | exactly the three hang cases are labelled "Main thread hang (SIGKILL)" |
| CrashCatalog.RequestedCrashType | ExitCodeClubCIAutomationApp/Sources/CrashAutomationManager.swift:312-313 | a type is requested iff the variable is set to some case's raw value; the requested type is the case with that raw value |
| Decimal.NatToString | ExitCodeClubCIAutomationApp/Sources/CrashAutomationManager.swift:407 | a count prints as a non-empty string of digits with no leading zero |
| Decimal.NatToStringRoundTrip | ExitCodeClubCIAutomationApp/Sources/CrashAutomationManager.swift:407 | reading the printed count back gives the count |
| Decimal.NatToStringInjective | ExitCodeClubCIAutomationApp/Sources/CrashAutomationManager.swift:407 | different counts print differently |
| AutomationManager.RunID | ExitCodeClubCIAutomationApp/Sources/CrashAutomationManager.swift:345 | the run ID is `CI_AUTOMATION_RUN_ID`, or "default" when it is unset |
| AutomationManager.DidCrashKey | ExitCodeClubCIAutomationApp/Sources/CrashAutomationManager.swift:346 | the run's key is `ci.automation.didCrash.` followed by the run ID |
| AutomationManager.ShouldArm | ExitCodeClubCIAutomationApp/Sources/CrashAutomationManager.swift:343-349 | the launch check arms only when `CI_AUTOMATION_CRASH_ON_LAUNCH` is exactly "1" and the run's key does not read true (a missing key reads false) |
| AutomationManager.DidCrashKeyInjective | ExitCodeClubCIAutomationApp/Sources/CrashAutomationManager.swift:345-346 | different run IDs give different `ci.automation.didCrash.` keys |
| AutomationManager.MarkCrashed | ExitCodeClubCIAutomationApp/Sources/CrashAutomationManager.swift:351 | the run's key reads true; every other key is kept |
| AutomationManager.ArmsOncePerRun | ExitCodeClubCIAutomationApp/Sources/CrashAutomationManager.swift:341-356 | once a run has armed, no later launch with the same run ID arms again, whatever else its environment holds |
| AutomationManager.ArmingIsolatedByRunID | ExitCodeClubCIAutomationApp/Sources/CrashAutomationManager.swift:345-351 | arming one run does not change whether any other run arms |
| AutomationManager.TallyUpTo | ExitCodeClubCIAutomationApp/Sources/CrashAutomationManager.swift:392-405 | sent + failed equals the number of reports; there is a last error exactly when some send failed |
| AutomationManager.TallyCounts | ExitCodeClubCIAutomationApp/Sources/CrashAutomationManager.swift:392-405 | the sent count is the number of sends that went through, and the failed count the number of sends that threw |
| AutomationManager.TallyLastError | ExitCodeClubCIAutomationApp/Sources/CrashAutomationManager.swift:394-405 | there is no error exactly when every send went through; otherwise it is the error of the last send that threw |
| AutomationManager.StatusText | ExitCodeClubCIAutomationApp/Sources/CrashAutomationManager.swift:407-411 | "Sent: s, Failed: f" with the counts in decimal, followed by "\nError: " and the last error when there is one |
| AutomationManager.EmptyStatusText | ExitCodeClubCIAutomationApp/Sources/CrashAutomationManager.swift:387-390 | the early "Sent: 0, Failed: 0" for an empty store is what the loop would show for no reports |
| AutomationManager.StatusTextInjective | ExitCodeClubCIAutomationApp/Sources/CrashAutomationManager.swift:407-411 | the status line determines the sent count, the failed count and the error |
| AutomationManager.UITestMissesTwoFailures | ExitCodeClubCIAutomationApp/UITests/ExitCodeClubCIAutomationAppUITests.swift:58-61 | when both of two sends throw and the last error's text contains no '1', the tally has two failures and the test's check as written still passes on its status line |
| AutomationManager.UITestPassesIffNoFailure | ExitCodeClubCIAutomationApp/UITests/ExitCodeClubCIAutomationAppUITests.swift:58-61 | the corrected check passes exactly when no report failed |
| AutomationManager.CrashAutomationManager.constructor | ExitCodeClubCIAutomationApp/Sources/CrashAutomationManager.swift:271-276 | the status starts as "Starting..."; nothing is selected, started or pending |
| AutomationManager.CrashAutomationManager.StartIfNeeded | ExitCodeClubCIAutomationApp/Sources/CrashAutomationManager.swift:278-284 | the first call installs once and runs the launch check; later calls change nothing |
| AutomationManager.CrashAutomationManager.InstallCrashReporter | ExitCodeClubCIAutomationApp/Sources/CrashAutomationManager.swift:332-336 | an install failure sets the status to "Install failed: " followed by the error |
| AutomationManager.CrashAutomationManager.ResolveCrashType | ExitCodeClubCIAutomationApp/Sources/CrashAutomationManager.swift:311-317 | returns the requested type when the environment names one; otherwise some member of `allCases` |
| AutomationManager.CrashAutomationManager.MaybeTriggerCrashOnLaunch | ExitCodeClubCIAutomationApp/Sources/CrashAutomationManager.swift:341-356 | only when the flag is exactly "1" and the run's key is not yet true: sets the key, selects the resolved type and sets `pendingCrash`; otherwise nothing changes |
| AutomationManager.CrashAutomationManager.TriggerCrashNow | ExitCodeClubCIAutomationApp/Sources/CrashAutomationManager.swift:290-300 | selects the resolved type and queues its crash |
| AutomationManager.CrashAutomationManager.OnUIReady | ExitCodeClubCIAutomationApp/Sources/CrashAutomationManager.swift:359-369 | with a crash pending and a type selected, clears `pendingCrash` and queues that crash; otherwise nothing changes; afterwards nothing is pending, so a second call is a no-op |
| AutomationManager.CrashAutomationManager.SendPendingReports | ExitCodeClubCIAutomationApp/Sources/CrashAutomationManager.swift:377-412 | no store shows "No report store"; otherwise shows the status line of the tally over all report IDs |
| ServiceSink.Accepted | ExitCodeClubCIAutomationApp/Sources/CrashServiceSink.swift:55 | the statuses taken as a successful upload are exactly 200 through 299 |
| ServiceSink.Upload | ExitCodeClubCIAutomationApp/Sources/CrashServiceSink.swift:42-63 | succeeds iff the report is a dictionary report answered over HTTP with status 200–299; a non-dictionary report always fails with `badServerResponse`; a rejection carries the HTTP status (0 if not HTTP) and the body |
| ServiceSink.FilterReports | ExitCodeClubCIAutomationApp/Sources/CrashServiceSink.swift:16-40 | returns the uploaded reports in order and the last error; an empty batch comes back unchanged with no error |
| ServiceSink.SuccessfulPlusFailed | ExitCodeClubCIAutomationApp/Sources/CrashServiceSink.swift:29-38 | kept reports plus failed uploads equals the number of reports |
| ServiceSink.SuccessfulIsSubsequence | ExitCodeClubCIAutomationApp/Sources/CrashServiceSink.swift:26-36 | the kept reports are a subsequence of the input, in the original order |
| ServiceSink.SuccessfulMembers | ExitCodeClubCIAutomationApp/Sources/CrashServiceSink.swift:29-36 | a report is kept iff it sits at some position whose upload succeeded |
| ServiceSink.SuccessfulPositions | ExitCodeClubCIAutomationApp/Sources/CrashServiceSink.swift:26-36 | the j-th kept report is the report at the j-th position whose upload succeeded; the kept positions are increasing and are exactly the successful ones |
| ServiceSink.LastErrorIsLastFailure | ExitCodeClubCIAutomationApp/Sources/CrashServiceSink.swift:27-38 | the error is nil iff every upload succeeded; otherwise it is the error of the last failing upload |

## Left out

- `CrashType.trigger`, `triggerRandomized` and its five wrappers, and the Objective-C crash generators. They are foreign calls, signals and deliberate undefined behaviour whose only behaviour is not returning. A queued crash is recorded as its type in `scheduledCrashes`.
- Timers:
  - the 2-second and random 0.5–3.0-second `asyncAfter` delays;
  - `scheduleAbortFallback` and its SIGKILL after 15 seconds.
  
  `scheduledCrashes` keeps only the order in which crashes are queued, not when they run.
- `installCrashReporter`'s KSCrash configuration. Only the install's outcome is modelled, as the `installError` parameter.
- `FlamegraphHang.swift`: a wall-clock busy loop with floating-point work whose results are discarded.
- URLSession, the request building, and `Task`/`async`:
  - the transport outcome of each upload is the parameter `exchanges(i)`;
  - `FilterReports` runs synchronously, and its results are the completion handler's arguments, so the handler is called exactly once.
- Upload: does not model a failure of `JSONSerialization`; a dictionary report is taken to serialise.
- Sending through KSCrash's report store (`sendReport(withID:)`):
  - its outcome per report is the parameter `outcome(i)`;
  - the assignment of the sink to the store's pipeline and the `print` of each failure are not modelled;
  - `sendPendingReportsNow` is a `Task` wrapper and is not modelled.
- `userInfo` values are typed `Any` in KSCrash. Only string values, the ones this code writes, are modelled.
- CrashReporter: only its `userInfo` is modelled. The reporter itself (`KSCrash.shared`) is not part of this model.
- `RunWithUserInfo`: the action is reduced to whether it returns (`actionReturns`).
- Uniformity of the random choices is not modelled:
  - the hop count;
  - the stage picks;
  - `CrashType.random()`;
  - the delay.
  
  Each choice is nondeterministic or an input.
- UI (`ContentView.swift`, `@Published` observation), the app entry point, `Project.swift`, `Tuist/Package.swift` and the UI test driver. The UI test's status check is modelled only as the finding below.

## Findings

| source | as written | input that shows it | evidently intended | confidence | as-written member | corrected member |
|---|---|---|---|---|---|---|
| ExitCodeClubCIAutomationApp/UITests/ExitCodeClubCIAutomationAppUITests.swift:58-61 | the test fails only if the status line contains "Failed: 1" | two failed sends: status "Sent: 0, Failed: 2\nError: e" passes | fail whenever at least one report failed to send, as the assertion message says | high, not executed | AutomationManager.UITestMissesTwoFailures | AutomationManager.UITestPassesIffNoFailure |
