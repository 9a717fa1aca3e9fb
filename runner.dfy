/**
 * The test runner object of addon/content/metaperf.js: the command
 * sequencer (`_doSequence`, `_nextCommand`), the run set-up (`startTest`,
 * `_startTest`), the per-subtest `Timer`, and the hand-off at the end of a
 * run (`_reportAllResults`, `_doneInternal`).
 */
module Runner {
  import opened Wrappers
  import opened Commands
  import opened Results

  /** `{ subtests, repeat, rest }`; `rest` is stored but the runner never reads it back. */
  datatype Config = Config(subtests: seq<string>, repeat: int, rest: int)

  /** The `_config` default on the prototype. */
  const DefaultConfig: Config := Config([], 1, 100)

  /**
   * The value stored in `_onSequenceComplete`: the prototype's initial `0`,
   * which is not callable, the runner's own `_doneInternal`, or a callback
   * some other caller of `_doSequence` passed in.
   */
  datatype Callback = NotAFunction | DoneInternal | External(id: nat)

  /** What one `_nextCommand` call does. */
  datatype Step =
    | Ran(index: nat, command: Command)   // called `commands[index]`
    | Completed(callback: Callback)       // called the completion callback
    | ThrewTypeError                      // tried to call the non-callable `0`

  /** What `_nextCommand` does once the list is exhausted. */
  function CompletionStep(cb: Callback): Step
  {
    if cb.NotAFunction? then ThrewTypeError else Completed(cb)
  }

  /**
   * The steps of `_doSequence(commands, cb)` followed by `calls - 1` further
   * `_nextCommand` calls: commands in index order, then the completion step
   * for every call after the last command.
   */
  function Trace(commands: seq<Command>, cb: Callback, calls: nat): seq<Step>
  {
    seq(calls, i requires 0 <= i < calls =>
      if i < |commands| then Ran(i, commands[i]) else CompletionStep(cb))
  }

  /**
   * A run of `n` commands driven by `n + 1` calls runs command `i` as its
   * `i`-th step (each step names the index it ran, so no command runs twice)
   * and completes exactly once, at the end.
   */
  lemma FullRunRunsEachCommandOnce(commands: seq<Command>, cb: Callback)
    ensures var t := Trace(commands, cb, |commands| + 1);
      && |t| == |commands| + 1
      && (forall j :: 0 <= j < |commands| ==> t[j] == Ran(j, commands[j]))
      && (forall j :: 0 <= j < |t| ==> (t[j].Ran? <==> j < |commands|))
      && t[|commands|] == CompletionStep(cb)
  {
    var t := Trace(commands, cb, |commands| + 1);
    forall j | 0 <= j < |t| ensures t[j].Ran? <==> j < |commands| {
      if j >= |commands| {
        assert t[j] == CompletionStep(cb);
      }
    }
  }

  /** The name a timer records under. */
  function TimerName(tag: string): string
  {
    "metaperf-" + tag
  }

  /** `performance.now() - startTime`, which is `NaN` while `startTime` is undefined. */
  function Elapsed(startTime: Option<int>, now: int): Value
  {
    match startTime
    case Some(t) => Number(now - t)
    case None => NaN
  }

  /**
   * How `_doneInternal` ends: the copy reaches the completion callback, no
   * callback is installed, or `this._win.gBrowser` throws because `_win`
   * was never set.
   */
  datatype Handoff = Delivered(copy: seq<Measurement>) | NoCallback | NoWindowTypeError

  /** The two lists `_reportAllResults` would hand to `tpRecordTime`. */
  datatype Report = Report(testNames: seq<string>, testResults: seq<Value>)

  class MetaPerf {
    var results: seq<Measurement>
    var config: Config
    var nextCommandIx: nat
    var commands: seq<Command>
    var onSequenceComplete: Callback
    /** Whether `_onTestComplete` is set; `startTest` sets it. */
    var onTestComplete: bool
    /** Whether `_win` holds the browser window; `startTest` sets it. */
    var hasWindow: bool

    /** The cursor never passes the end of the command list. */
    ghost predicate Valid()
      reads this
    {
      nextCommandIx <= |commands|
    }

    /** A runner with the prototype's initial fields. */
    constructor ()
      ensures Valid()
      ensures results == [] && config == DefaultConfig
      ensures nextCommandIx == 0 && commands == []
      ensures onSequenceComplete == NotAFunction && !onTestComplete && !hasWindow
    {
      results := [];
      config := DefaultConfig;
      nextCommandIx := 0;
      commands := [];
      onSequenceComplete := NotAFunction;
      onTestComplete := false;
      hasWindow := false;
    }

    /**
     * `_nextCommand`: run the command under the cursor and advance it, or,
     * past the end, call the completion callback and leave the cursor.
     */
    method NextCommand() returns (step: Step)
      requires Valid()
      modifies this`nextCommandIx
      ensures Valid()
      ensures old(nextCommandIx) < |commands| ==>
        step == Ran(old(nextCommandIx), commands[old(nextCommandIx)])
        && nextCommandIx == old(nextCommandIx) + 1
      ensures old(nextCommandIx) >= |commands| ==>
        step == CompletionStep(onSequenceComplete) && nextCommandIx == old(nextCommandIx)
    {
      if nextCommandIx >= |commands| {
        step := CompletionStep(onSequenceComplete);
        return;
      }
      step := Ran(nextCommandIx, commands[nextCommandIx]);
      nextCommandIx := nextCommandIx + 1;
    }

    /**
     * `_doSequence`: store the list and the callback, empty the results,
     * reset the cursor and take the first step.
     */
    method DoSequence(cmds: seq<Command>, onComplete: Callback) returns (step: Step)
      modifies this
      ensures Valid()
      ensures commands == cmds && onSequenceComplete == onComplete && results == []
      ensures config == old(config) && onTestComplete == old(onTestComplete) && hasWindow == old(hasWindow)
      ensures step == Trace(cmds, onComplete, 1)[0]
      ensures nextCommandIx == if cmds == [] then 0 else 1
    {
      commands := cmds;
      onSequenceComplete := onComplete;
      results := [];
      nextCommandIx := 0;
      step := NextCommand();
    }

    /** `_startTest`: expand the configuration and run it with `_doneInternal` as callback. */
    method BuildAndRun() returns (step: Step)
      modifies this
      ensures Valid()
      ensures commands == Expand(old(config).subtests, old(config).repeat)
      ensures onSequenceComplete == DoneInternal && results == []
      ensures config == old(config) && onTestComplete == old(onTestComplete) && hasWindow == old(hasWindow)
      ensures step == Trace(commands, DoneInternal, 1)[0]
      ensures nextCommandIx == if commands == [] then 0 else 1
    {
      var assembled := AssembleCommands(config.subtests, config.repeat);
      step := DoSequence(assembled, DoneInternal);
    }

    /**
     * `startTest`: install the completion callback, store the configuration,
     * find the browser window, start the run.
     */
    method StartTest(cfg: Config) returns (step: Step)
      modifies this
      ensures Valid()
      ensures config == cfg && onTestComplete && hasWindow
      ensures commands == Expand(cfg.subtests, cfg.repeat)
      ensures onSequenceComplete == DoneInternal && results == []
      ensures step == Trace(commands, DoneInternal, 1)[0]
      ensures nextCommandIx == if commands == [] then 0 else 1
    {
      onTestComplete := true;
      config := cfg;
      hasWindow := true;
      step := BuildAndRun();
    }

    /** `_createTimer`: a fresh, not yet started timer that writes into this runner. */
    method CreateTimer(tag: string) returns (t: Timer)
      ensures fresh(t) && t.runner == this && t.tag == tag && t.startTime == None
    {
      t := new Timer(this, tag);
    }

    /**
     * `_reportAllResults`: the names and values of the measurements that are
     * not arrays, in results order.
     */
    method ReportAllResults() returns (testNames: seq<string>, testResults: seq<Value>)
      ensures testNames == Names(Scalars(results))
      ensures testResults == ValuesOf(Scalars(results))
    {
      testNames, testResults := [], [];
      var i := 0;
      while i < |results|
        invariant 0 <= i <= |results|
        invariant testNames == Names(Scalars(results[..i]))
        invariant testResults == ValuesOf(Scalars(results[..i]))
      {
        var res := results[i];
        assert results[..i + 1][..i] == results[..i];
        if !res.value.Series? {
          testNames := testNames + [res.name];
          testResults := testResults + [res.value];
        }
        i := i + 1;
      }
      assert results[..|results|] == results;
    }

    /**
     * `_doneInternal`: report the scalar measurements, then select the tab on
     * `_win`, which throws while `_win` is unset, then hand a JSON copy of
     * the results to the completion callback if one is installed.
     */
    method DoneInternalStep() returns (report: Report, handoff: Handoff)
      ensures report == Report(Names(Scalars(results)), ValuesOf(Scalars(results)))
      ensures handoff ==
        if !hasWindow then NoWindowTypeError
        else if onTestComplete then Delivered(Clone(results))
        else NoCallback
    {
      var names, values := ReportAllResults();
      report := Report(names, values);
      if !hasWindow {
        handoff := NoWindowTypeError;
      } else if onTestComplete {
        handoff := Delivered(Clone(results));
      } else {
        handoff := NoCallback;
      }
    }
  }

  /** `Timer(metaperf, tag)`: a stopwatch that appends one measurement to its runner's results. */
  class Timer {
    const runner: MetaPerf
    const tag: string
    var startTime: Option<int>

    constructor (runner: MetaPerf, tag: string)
      ensures this.runner == runner && this.tag == tag && startTime == None
    {
      this.runner := runner;
      this.tag := tag;
      startTime := None;
    }

    /** `start`: remember the current time. */
    method Start(now: int)
      modifies this`startTime
      ensures startTime == Some(now)
    {
      startTime := Some(now);
    }

    /**
     * `stop`: append `{ name: "metaperf-<tag>", value: now - startTime }`;
     * every earlier entry stays as it was.
     */
    method Stop(now: int)
      modifies runner`results
      ensures runner.results == old(runner.results) + [Measurement(TimerName(tag), Elapsed(startTime, now))]
    {
      runner.results := runner.results + [Measurement(TimerName(tag), Elapsed(startTime, now))];
    }
  }

  /**
   * Drives a fresh runner the way its commands do: `_doSequence`, then
   * `extra` further `_nextCommand` calls. Returns every step taken and the
   * final cursor, which never passes the end of the list.
   */
  method RunSequence(cmds: seq<Command>, onComplete: Callback, extra: nat)
    returns (steps: seq<Step>, finalIx: nat)
    ensures steps == Trace(cmds, onComplete, extra + 1)
    ensures finalIx == if extra + 1 < |cmds| then extra + 1 else |cmds|
  {
    var mp := new MetaPerf();
    var step := mp.DoSequence(cmds, onComplete);
    steps := [step];
    var calls := 0;
    while calls < extra
      invariant 0 <= calls <= extra
      invariant mp.Valid() && mp.commands == cmds && mp.onSequenceComplete == onComplete
      invariant mp.nextCommandIx == if calls + 1 < |cmds| then calls + 1 else |cmds|
      invariant steps == Trace(cmds, onComplete, calls + 1)
    {
      step := mp.NextCommand();
      TraceExtend(cmds, onComplete, calls + 1);
      steps := steps + [step];
      calls := calls + 1;
    }
    finalIx := mp.nextCommandIx;
  }

  /** One more call adds one step. */
  lemma TraceExtend(cmds: seq<Command>, cb: Callback, n: nat)
    ensures Trace(cmds, cb, n + 1)
      == Trace(cmds, cb, n) + [if n < |cmds| then Ran(n, cmds[n]) else CompletionStep(cb)]
  {
  }

  /** When the subtest of command `k` starts its timer and when it stops it. */
  datatype Timing = Timing(start: int, stop: int)

  /**
   * The results a run of `cmds` leaves when the subtest of command `k` only
   * starts its timer at `timings[k].start` and stops it at `timings[k].stop`.
   */
  function StubResults(cmds: seq<Command>, timings: seq<Timing>): (rs: seq<Measurement>)
    requires |timings| >= |cmds|
  {
    seq(|cmds|, k requires 0 <= k < |cmds| =>
      Measurement(TimerName(cmds[k].subtest), Number(timings[k].stop - timings[k].start)))
  }

  /**
   * The command closure of `_startTest` with a stub `test_<subtest>` that
   * starts and stops its timer and settles at once: one measurement is
   * appended, then the sequencer takes its next step.
   */
  method StubCommand(mp: MetaPerf, cmd: Command, timing: Timing) returns (step: Step)
    requires mp.Valid()
    modifies mp
    ensures mp.Valid()
    ensures mp.results == old(mp.results)
      + [Measurement(TimerName(cmd.subtest), Number(timing.stop - timing.start))]
    ensures mp.commands == old(mp.commands) && mp.onSequenceComplete == old(mp.onSequenceComplete)
    ensures mp.onTestComplete == old(mp.onTestComplete) && mp.hasWindow == old(mp.hasWindow)
    ensures mp.config == old(mp.config)
    ensures old(mp.nextCommandIx) < |mp.commands| ==>
      step == Ran(old(mp.nextCommandIx), mp.commands[old(mp.nextCommandIx)])
      && mp.nextCommandIx == old(mp.nextCommandIx) + 1
    ensures old(mp.nextCommandIx) >= |mp.commands| ==>
      step == CompletionStep(mp.onSequenceComplete) && mp.nextCommandIx == old(mp.nextCommandIx)
  {
    var t := mp.CreateTimer(cmd.subtest);
    t.Start(timing.start);
    t.Stop(timing.stop);
    step := mp.NextCommand();
  }

  /** One more timed command appends its measurement. */
  lemma StubResultsExtend(cmds: seq<Command>, timings: seq<Timing>, k: nat)
    requires k < |cmds| <= |timings|
    ensures StubResults(cmds[..k + 1], timings)
      == StubResults(cmds[..k], timings)
         + [Measurement(TimerName(cmds[k].subtest), Number(timings[k].stop - timings[k].start))]
  {
  }

  /** Stub measurements are plain numbers: the filter keeps them all and the JSON copy is exact. */
  lemma StubResultsAreScalars(cmds: seq<Command>, timings: seq<Timing>)
    requires |cmds| <= |timings|
    ensures Clone(StubResults(cmds, timings)) == StubResults(cmds, timings)
    ensures Scalars(StubResults(cmds, timings)) == StubResults(cmds, timings)
  {
    var rs := StubResults(cmds, timings);
    CloneExact(rs);
    ScalarsWithoutSeries(rs);
  }

  /**
   * A whole run, `startTest` to `_doneInternal`, against stub subtests that
   * time themselves and finish at once: the commands of the expanded
   * configuration run in order, the completion callback fires once, and the
   * delivered copy and the report hold one measurement per command, named
   * after its subtest, in run order.
   */
  /**
   * The state of a stub run after `k` commands: the runner's cursor, its
   * callbacks, the steps so far and the measurements of the first `k`
   * subtests.
   */
  ghost predicate StubRunAt(mp: MetaPerf, cmds: seq<Command>, timings: seq<Timing>, steps: seq<Step>, k: nat)
    reads mp
  {
    && k <= |cmds| <= |timings|
    && mp.Valid() && mp.commands == cmds
    && mp.nextCommandIx == (if k < |cmds| then k + 1 else |cmds|)
    && mp.onSequenceComplete == DoneInternal && mp.onTestComplete && mp.hasWindow
    && steps == Trace(cmds, DoneInternal, k + 1)
    && mp.results == StubResults(cmds[..k], timings)
  }

  /** One iteration of the stub driver: run command `k`, record the step it leads to. */
  method StubRunStep(mp: MetaPerf, cmds: seq<Command>, timings: seq<Timing>, steps: seq<Step>, k: nat)
    returns (steps': seq<Step>)
    requires k < |cmds| && StubRunAt(mp, cmds, timings, steps, k)
    modifies mp
    ensures StubRunAt(mp, cmds, timings, steps', k + 1)
  {
    var step := StubCommand(mp, cmds[k], timings[k]);
    StubResultsExtend(cmds, timings, k);
    TraceExtend(cmds, DoneInternal, k + 1);
    steps' := steps + [step];
  }

  method RunWithStubSubtests(cfg: Config, timings: seq<Timing>)
    returns (steps: seq<Step>, report: Report, handoff: Handoff)
    requires |timings| >= |Expand(cfg.subtests, cfg.repeat)|
    ensures var cmds := Expand(cfg.subtests, cfg.repeat);
      && steps == Trace(cmds, DoneInternal, |cmds| + 1)
      && handoff == Delivered(StubResults(cmds, timings))
      && report == Report(Names(StubResults(cmds, timings)), ValuesOf(StubResults(cmds, timings)))
  {
    var cmds := Expand(cfg.subtests, cfg.repeat);
    var n := |cmds|;
    var mp := new MetaPerf();
    var step := mp.StartTest(cfg);
    steps := [step];
    assert steps == Trace(cmds, DoneInternal, 1);
    var k := 0;
    while k < n
      invariant 0 <= k <= n
      invariant StubRunAt(mp, cmds, timings, steps, k)
    {
      steps := StubRunStep(mp, cmds, timings, steps, k);
      k := k + 1;
    }
    assert cmds[..k] == cmds;
    StubResultsAreScalars(cmds, timings);
    report, handoff := mp.DoneInternalStep();
  }

  /** Subtests `a` and `b`, two repeats each, record `metaperf-a` twice and then `metaperf-b` twice. */
  lemma TwoSubtestsTwiceEach(timings: seq<Timing>)
    requires |timings| >= 4
    ensures |Expand(["a", "b"], 2)| == 4
    ensures Names(StubResults(Expand(["a", "b"], 2), timings))
      == ["metaperf-a", "metaperf-a", "metaperf-b", "metaperf-b"]
  {
    assert ["a", "b"][..1] == ["a"];
    assert Expand(["a"], 2) == [RunSubtest("a"), RunSubtest("a")];
    var cmds := Expand(["a", "b"], 2);
    assert cmds == [RunSubtest("a"), RunSubtest("a"), RunSubtest("b"), RunSubtest("b")];
    assert TimerName("a") == "metaperf-a" && TimerName("b") == "metaperf-b";
    var names := Names(StubResults(cmds, timings));
    assert names[0] == names[1] == "metaperf-a" && names[2] == names[3] == "metaperf-b";
  }
}
