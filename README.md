# metaperf test runner and event helpers, modelled in Dafny

This project models the two pieces of sequential logic in the metaperf
Firefox performance-test add-on.

**The test runner (`addon/content/metaperf.js`).** `startTest` stores the
configuration `{ subtests, repeat, rest }` and expands it into a flat
command list, one command per subtest and repeat. All repeats of one
subtest are contiguous, and subtests keep their declaration order. A
sequencer runs that list: `_doSequence` stores the list and the completion
callback, empties the shared `_results` list, resets the cursor
`_nextCommandIx` and takes the first step. Each `_nextCommand` either runs
the command under the cursor and advances it, or, past the end, calls the
completion callback. Each subtest gets a `Timer`, whose `stop` appends one
measurement `{ name: "metaperf-<label>", value }` to `_results`. At the end,
`_doneInternal` reports the names and values of the non-array measurements
and hands the completion callback a JSON copy of `_results`.

**The event helpers (`addon/content/head.js`).** `once` probes three
method-name pairs in a fixed order and registers a self-removing handler on
the first pair the target has. `onceSpread` is `once` that resolves with
all event arguments. `waitUntil` polls a predicate until it holds.
`consoleMethod` normalises its second argument before sending. The end of
`stopRecording` waits for the high-resolution overview rendering.

The runner object is the class `Runner.MetaPerf`, with the source's fields.
`Runner.Timer` is its stopwatch. Running a command is a call into subtest
code outside this model, so `NextCommand` returns a `Step` that says which
call it made. An event target is the class `Events.Target`: a set of
method names and a listener list per registration pair and event name. The
promise of `once` is `Events.Deferred`, and its handler is
`Events.OnceHandler`. The predicate polled by `waitUntil` is the sequence of
its answers. The OVERVIEW_RENDERED firings are a list of argument lists.
Timestamps are integers passed in by the caller.

Notes on the code as written, which the model follows:

- `once` on a target with none of the three pairs does not throw. It
  registers nothing and returns a promise that never settles.
- `_doneInternal` selects the tab on `this._win`, which only `startTest`
  sets. Reached without `startTest`, it throws a TypeError after reporting
  and before the completion callback (`Runner.MetaPerf.DoneInternalStep`).
- `config.rest` is read into a local variable and never used again, so no
  rest interval is modelled.
- The initial `_onSequenceComplete` is `0`, which is not callable. A
  `_nextCommand` past the end before any `_doSequence` therefore throws a
  TypeError, and the model returns `ThrewTypeError` for it.
- Completion is not guarded. Every `_nextCommand` past the end calls the
  callback again, so it fires exactly once only when each command advances
  exactly once (`Runner.RunSequence`).
- The JSON copy turns a `NaN` measurement, which is what a timer stopped
  before it was started records, into `null`.

## Model

| member | source | states |
|---|---|---|
| `Commands.AssembleCommands` | addon/content/metaperf.js:15-24 | the nested loops build the expansion: length is `|subtests| * repeat`, and command `k` runs `subtests[k / repeat]` |
| `Commands.Expand` | addon/content/metaperf.js:15-24 | every command of the expansion runs one of the configured subtests |
| `Commands.ExpandLength` | addon/content/metaperf.js:15-24 | one command per subtest and repeat; a repeat count of zero or less counts as zero |
| `Commands.ExpandWithoutRepeats` | addon/content/metaperf.js:20-22 | `repeat <= 0` yields an empty command list |
| `Commands.ExpandBlock` | addon/content/metaperf.js:15-24 | positions `q * repeat` to `q * repeat + repeat - 1` all hold the command of `subtests[q]`, so repeats are contiguous and in declaration order |
| `Commands.ExpandAt` | addon/content/metaperf.js:15-24 | command `k` belongs to `subtests[k / repeat]` |
| `Results.Scalars` | addon/content/metaperf.js:77-80 | the report filter never lengthens the list, and no value it keeps is an array |
| `Results.ScalarsAppend` | addon/content/metaperf.js:72-81 | the report filter keeps results order: filtering a concatenation concatenates the filtered parts |
| `Results.ScalarsMembers` | addon/content/metaperf.js:77-80 | a measurement is reported if and only if it is in the results and its value is not an array |
| `Results.ScalarsWithoutSeries` | addon/content/metaperf.js:77-80 | with no array values, every measurement is reported, in order |
| `Results.Clone` | addon/content/metaperf.js:103 | the JSON copy has one entry per result, and none of its values is `NaN` |
| `Results.CloneKeepsNames` | addon/content/metaperf.js:103 | the JSON copy has the same names in the same order as the live results |
| `Results.CloneExact` | addon/content/metaperf.js:103 | the JSON copy equals the live results exactly when no value is `NaN` |
| `Results.CloneIdempotent` | addon/content/metaperf.js:103 | copying a copy changes nothing |
| `Runner.FullRunRunsEachCommandOnce` | addon/content/metaperf.js:39-54 | with `n + 1` steps over `n` commands, step `j < n` runs command `j`, and only the last step is the completion |
| `Runner.MetaPerf.constructor` | addon/content/metaperf.js:32-38 | the prototype's initial state: no results, default config `{[], 1, 100}`, cursor 0, no commands, non-callable completion `0`, no test-complete callback |
| `Runner.MetaPerf.NextCommand` | addon/content/metaperf.js:39-45 | before the end: runs `commands[ix]` and increments the cursor by one; at or past the end: calls the completion callback (or throws on `0`) and leaves the cursor; nothing else changes |
| `Runner.MetaPerf.DoSequence` | addon/content/metaperf.js:47-54 | stores commands and callback, empties results, resets the cursor and takes exactly one step |
| `Runner.MetaPerf.BuildAndRun` | addon/content/metaperf.js:9-27 | runs the expansion of the stored config with `_doneInternal` as the completion callback |
| `Runner.MetaPerf.StartTest` | addon/content/metaperf.js:107-123 | installs the test-complete callback, stores the config and starts the run over its expansion |
| `Runner.MetaPerf.CreateTimer` | addon/content/metaperf.js:93-95 | a fresh, unstarted timer bound to this runner and label |
| `Runner.MetaPerf.ReportAllResults` | addon/content/metaperf.js:67-81 | `testNames` and `testResults` are the names and values of exactly the non-array measurements, in results order, so they have equal length |
| `Runner.MetaPerf.DoneInternalStep` | addon/content/metaperf.js:97-105 | reports the scalar measurements first; then, without a window (no `startTest`), ends in a TypeError before any callback; otherwise delivers the JSON copy of the results as a value when a test-complete callback is set, and nothing when none is |
| `Runner.Timer.constructor` | addon/content/metaperf.js:129-130 | a timer for one runner and label, with no start time |
| `Runner.Timer.Start` | addon/content/metaperf.js:131 | records the start time |
| `Runner.Timer.Stop` | addon/content/metaperf.js:132-134 | appends exactly one entry `metaperf-<label>` with value `now - start` (`NaN` if never started); earlier entries are unchanged |
| `Runner.StubCommand` | addon/content/metaperf.js:16-19 | one command with a self-timing stub subtest appends one `metaperf-<subtest>` measurement and then advances the sequencer exactly as `_nextCommand` does; configuration, command list and callbacks are unchanged |
| `Runner.RunSequence` | addon/content/metaperf.js:39-54 | `_doSequence` plus `extra` calls yields the steps in index order, then a completion step per extra call; the cursor ends at `min(extra + 1, n)` and never passes `n` |
| `Runner.RunWithStubSubtests` | addon/content/metaperf.js:15-54 | a whole run with self-timing subtests runs every expanded command once, in order, completes once, and delivers and reports one `metaperf-<subtest>` measurement per command in run order |
| `Runner.TwoSubtestsTwiceEach` | addon/content/metaperf.js:15-24 | subtests `a`, `b` with two repeats record `metaperf-a, metaperf-a, metaperf-b, metaperf-b` |
| `Events.FirstSupported` | addon/content/head.js:124-129 | a chosen pair is one the target supports: both its names are present |
| `Events.FirstSupportedIsFirst` | addon/content/head.js:124-129 | the chosen pair is supported (both names present), and no pair earlier in the order `on`/`off`, `addEventListener`/`removeEventListener`, `addListener`/`removeListener` is supported |
| `Events.FirstSupportedNone` | addon/content/head.js:124-138 | no pair is chosen exactly when the target supports none of the three |
| `Events.WithoutAbsent` | addon/content/head.js:131 | removing a handler that is not registered leaves the list unchanged |
| `Events.WithoutAppended` | addon/content/head.js:130-131 | removing the handler just added, which was not there before, restores the list |
| `Events.Target.Add` | addon/content/head.js:130-133 | registering appends one listener to the chosen pair's list for the event and changes no other list |
| `Events.Target.Remove` | addon/content/head.js:131 | unregistering drops the matching listener from that one list |
| `Events.Deferred.Resolve` | addon/content/head.js:132 | a pending promise settles with the value; a settled one keeps its first value |
| `Events.Payload` | addon/content/head.js:132 | with `spread` the promise value is the whole argument list; without it, the first argument, or `undefined` when there is none |
| `Events.OnceHandler.OnEvent` | addon/content/head.js:130-133 | the handler removes itself with the same event name and capture flag, then resolves with all arguments when spreading and the first argument otherwise |
| `Events.Once` | addon/content/head.js:120-139 | registers one fresh handler on the first supported pair only, leaving every other list unchanged; with no supported pair it changes nothing and the promise stays pending |
| `Events.OnceSpread` | addon/content/head.js:145-147 | `once` with `spread` set |
| `Events.Fire` | addon/content/head.js:130-132 | the target calls the handler only while it is registered; otherwise nothing changes |
| `Events.OnceLifecycle` | addon/content/head.js:120-139 | with a supported pair, exactly one new listener with the given capture flag is appended to the first supported pair's list and nothing settles until a firing; over any number of firings the promise settles once, with the first firing's payload; the handler runs once; every listener list ends as it was before `once`; with no supported pair nothing is registered and nothing ever settles |
| `Polling.FirstTrue` | addon/content/head.js:397-400 | the index of the first poll where the predicate holds, or none |
| `Polling.WaitUntil` | addon/content/head.js:397-406 | the promise never settles with anything but `true`, and at most one timer is scheduled per failed poll |
| `Polling.WaitUntilResolvesAtFirstTrue` | addon/content/head.js:397-405 | resolves, only ever with `true`, exactly when some poll holds; it schedules no delay if the first poll holds and one delay per failed poll before that |
| `Polling.WaitUntilDelays` | addon/content/head.js:402-404 | the first delay is `interval`, and every later delay is the default 10 |
| `Polling.DroppedIntervalWitness` | addon/content/head.js:402-404 | with `interval` 100 and two failed polls, the code waits 100 then 10; the intended version waits 100 twice |
| `Polling.WaitUntilIntendedDelays` | addon/content/head.js:389-406 | the corrected `waitUntil` settles the same way, and every delay it schedules is `interval` |
| `FrameScripts.NormalizedArgs` | addon/content/head.js:272-274 | a null or undefined second argument becomes `""`; every other argument is unchanged; a shorter list grows to two entries |
| `FrameScripts.NormalizedArgsIdempotent` | addon/content/head.js:272-274 | the second argument sent is never null or undefined, so normalising again changes nothing |
| `FrameScripts.ConsoleMethod` | addon/content/head.js:263-276 | throws the "loadFrameScripts" error when frame scripts are not loaded; otherwise sends `devtools:test:console` with the normalised arguments |
| `Recording.FirstHighRes` | addon/content/head.js:355-360 | the index of the first rendering whose second argument is the high-resolution interval, or none |
| `Recording.AwaitFinalOverview` | addon/content/head.js:353-360 | without `waitForOverview` it consumes nothing; otherwise it stops right after the first high-resolution rendering, and if there is none it consumes every firing and keeps waiting |

## Left out

- Browser, tab and toolbox plumbing: `addTab`, `removeTab`, `initBackend`, `initPerformance`, `initConsole`, `teardown`, `cleanup`, and the window lookup, focus and tab restore in `startTest` and `_doneInternal`. These are Firefox APIs.
- Preference snapshot and reset, and the devtools imports (`DEFAULT_PREFS`, the pref writes). These are external services.
- Message-manager round trips: `evalInDebuggee`, `consoleExecute`, `waitForProfilerConnection`, `loadFrameScripts`. `consoleMethod` is modelled up to the message it sends. Whether `mm` is set is a parameter.
- `idleWait`, `busyWait` and real `setTimeout` scheduling. Time is caller-supplied integers, and `waitUntil` records the delays it would schedule.
- Floating point. `performance.now()` values are integers. The `toFixed(1)`/`isNaN` display string and the `-1` rendering in `_reportAllResults` are not modelled.
- Logging and telemetry: `_log`, `_logLine`, the `METAPERF_RESULTS_JSON` line, `Profiler.mark`, and the `tpRecordTime` call. The report is modelled as the two lists that call would receive.
- Lookup of `test_<name>` in the global object. Calling a missing subtest throws inside the command, outside the model. The subtests themselves are external code. `Runner.RunWithStubSubtests` stands in stub subtests that only start and stop their timer.
- Synthetic UI input (`command`, `click`, `mousedown`, `dragStart`, `dragStop`, `fireKey`, `forceCC`, `reload`) and the rest of `startRecording`/`stopRecording`, which only orders awaits on UI events.
- `addon/content/test-profilerFetchData.js` is not part of this model. It is a scripted interaction with a remote profiler.
- Runner.MetaPerf.DoneInternalStep: the copy is a value, so aliasing of a live array cannot be expressed. The model cannot show what delivering `_results` without the copy would do, only that the delivered value is fixed when it is taken. The `METAPERF_RESULTS_JSON` log line and the selected tab are not modelled; the window is only a flag saying whether `_win` is set.
- Runner.Timer.Stop: the prototype-level `_results` array is not modelled. It is shared by all runners, and a timer stopped before any `_doSequence` would write into it.
- Commands.AssembleCommands: `repeat` is an integer. A fractional `repeat` (the loop would run `ceil(repeat)` times) is not modelled.
- Events.Target.Remove: all three conventions remove every matching registration. Differences between DOM capture-phase dispatch and emitter dispatch are not modelled. `Events.Fire` calls the handler whenever it is registered for the event.
- Recording.AwaitFinalOverview: `===` is modelled as equality with a number value. The wait is unbounded in the code. The model observes a finite list of firings and reports "still waiting" when no high-resolution rendering is among them.

## Findings

| source | as written | input that shows it | evidently intended | confidence | as-written member | corrected member |
|---|---|---|---|---|---|---|
| addon/content/head.js:402-404 | the retry calls `waitUntil(predicate)` and drops `interval`, so every retry after the first waits the default 10 ms | `waitUntil(p, 100)` with `p` false, false, then true: delays 100, 10 | every poll spaced `interval` apart, as the documentation of `interval` ("How often the predicate is invoked") says | high; not executed | `Polling.DroppedIntervalWitness` | `Polling.WaitUntilIntendedDelays` |
