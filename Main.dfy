/**
 * The command-line entry point: which listeners a run reports to, how the
 * `check` action turns spec paths into tests, how the `test` action finds
 * its tests, and when the process asks for exit code 1.
 */
module GalenMain {
  import opened Wrappers
  import opened Suites
  import opened TestFiles
  import opened TestFilter
  import opened Runner

  /** A listener of the run: console reporting, one configured by class name, the failure tracker, or one set by the embedding code. */
  datatype Listener = ConsoleReporting | Configured(className: string) | FailureTracking | Supplied(id: string)

  const UrlNotSpecified: string := "Url is not specified"
  const ScreenSizeNotSpecified: string := "Screen size is not specified"
  const NoSpecs: string := "There are no specs specified"

  /** A listener that forwards every notification to the listeners added to it, in the order they were added. */
  class CombinedListener {
    var listeners: seq<Listener>

    constructor()
      ensures listeners == []
    {
      listeners := [];
    }

    method Add(listener: Listener)
      modifies this
      ensures listeners == old(listeners) + [listener]
    {
      listeners := listeners + [listener];
    }
  }

  /** The configured reporting listeners, one per class name, in configuration order. */
  function ConfiguredListeners(classNames: seq<string>): (r: seq<Listener>)
    ensures |r| == |classNames|
    ensures forall k :: 0 <= k < |r| ==> r[k] == Configured(classNames[k])
  {
    if classNames == [] then []
    else ConfiguredListeners(classNames[..|classNames| - 1]) + [Configured(classNames[|classNames| - 1])]
  }

  /** Console reporting first, then the configured listeners. */
  method CreateListeners(classNames: seq<string>) returns (combined: CombinedListener)
    ensures fresh(combined)
    ensures combined.listeners == [ConsoleReporting] + ConfiguredListeners(classNames)
  {
    combined := new CombinedListener();
    combined.Add(ConsoleReporting);
    for k := 0 to |classNames|
      invariant combined.listeners == [ConsoleReporting] + ConfiguredListeners(classNames[..k])
    {
      assert classNames[..k + 1][..k] == classNames[..k];
      combined.Add(Configured(classNames[k]));
    }
    assert classNames[..|classNames|] == classNames;
  }

  /**
   * The `check` action needs a url, a screen size and at least one spec
   * path; the first of these that is missing is reported.
   */
  function VerifyArgumentsForPageCheck(arguments: Arguments): (r: Option<MainError>)
    ensures r.None? <==> arguments.url.Some? && arguments.screenSize.Some? && |arguments.paths| >= 1
    ensures arguments.url.None? ==> r == Some(IllegalArgument(UrlNotSpecified))
    ensures arguments.url.Some? && arguments.screenSize.None? ==> r == Some(IllegalArgument(ScreenSizeNotSpecified))
    ensures arguments.url.Some? && arguments.screenSize.Some? && arguments.paths == [] ==> r == Some(IllegalArgument(NoSpecs))
  {
    if arguments.url.None? then Some(IllegalArgument(UrlNotSpecified))
    else if arguments.screenSize.None? then Some(IllegalArgument(ScreenSizeNotSpecified))
    else if |arguments.paths| < 1 then Some(IllegalArgument(NoSpecs))
    else None
  }

  /** The test `check` builds for one spec path. */
  function CheckTest(arguments: Arguments, path: string): GalenTest {
    BasicTest(path, [PageTest(arguments.url, arguments.screenSize, Firefox,
                              [Check([path], arguments.includedTags, arguments.excludedTags, arguments.original)])])
  }

  /** The tests `check` builds, one per path, in path order. */
  function CheckTests(arguments: Arguments, paths: seq<string>): seq<GalenTest> {
    if paths == [] then [] else CheckTests(arguments, paths[..|paths| - 1]) + [CheckTest(arguments, paths[|paths| - 1])]
  }

  /**
   * One test per spec path, in path order: named after the path, with one
   * page test on the given url and size in Firefox, whose only action checks
   * that one spec with the tags of the command line.
   */
  lemma {:induction false} CheckTestsShape(arguments: Arguments, paths: seq<string>)
    ensures var tests := CheckTests(arguments, paths);
            && |tests| == |paths|
            && forall k :: 0 <= k < |tests| ==>
                 && tests[k].BasicTest?
                 && tests[k].name == paths[k]
                 && |tests[k].pageTests| == 1
                 && tests[k].pageTests[0].url == arguments.url
                 && tests[k].pageTests[0].size == arguments.screenSize
                 && tests[k].pageTests[0].browser == Firefox
                 && tests[k].pageTests[0].actions
                    == [Check([paths[k]], arguments.includedTags, arguments.excludedTags, arguments.original)]
  {
    if paths != [] {
      CheckTestsShape(arguments, paths[..|paths| - 1]);
    }
  }

  /** The loop of `check` that builds the tests. */
  method BuildCheckTests(arguments: Arguments) returns (galenTests: seq<GalenTest>)
    ensures galenTests == CheckTests(arguments, arguments.paths)
  {
    galenTests := [];
    var paths := arguments.paths;
    for k := 0 to |paths|
      invariant galenTests == CheckTests(arguments, paths[..k])
    {
      assert paths[..k + 1][..k] == paths[..k];
      var pageSpecPath := paths[k];
      var test := BasicTest(pageSpecPath, [PageTest(arguments.url, arguments.screenSize, Firefox,
                                                    [Check([pageSpecPath], arguments.includedTags, arguments.excludedTags, arguments.original)])]);
      galenTests := galenTests + [test];
    }
    assert paths[..|paths|] == paths;
  }

  /** The `check` action: the argument error, or the run of one test per spec path. */
  function CheckRun(arguments: Arguments, env: Environment): Result<SuiteRun, MainError> {
    match VerifyArgumentsForPageCheck(arguments)
    case Some(e) => Err(e)
    case None => Ok(SuiteRunFor(CheckTests(arguments, arguments.paths), arguments, env.execute, PoolSize(arguments.parallelSuites)))
  }

  method PerformCheck(arguments: Arguments, env: Environment) returns (r: Result<SuiteRun, MainError>)
    ensures r == CheckRun(arguments, env)
  {
    var error := VerifyArgumentsForPageCheck(arguments);
    if error.Some? {
      return Err(error.value);
    }
    var galenTests := BuildCheckTests(arguments);
    var run := RunTests(arguments, galenTests, env.execute);
    r := Ok(run);
  }

  /**
   * What the named action does before the listeners are told that the run
   * is done: `test` and `check` run tests; `config` and any other action
   * run none.
   */
  function ActionRun(arguments: Arguments, env: Environment): Result<Option<SuiteRun>, MainError> {
    if arguments.action == Some("test") then
      match PathsRun(arguments, env) case Err(e) => Err(e) case Ok(run) => Ok(Some(run))
    else if arguments.action == Some("check") then
      match CheckRun(arguments, env) case Err(e) => Err(e) case Ok(run) => Ok(Some(run))
    else Ok(None)
  }

  /** The listeners of a run, the notifications they received, the reports written, and the exit code asked for. */
  datatype Outcome = Outcome(listeners: seq<Listener>, events: seq<Event>, reports: seq<Report>, exitCode: nat)

  class GalenMain {
    /** The listener the embedding code may set; it is told about the run after all the others. */
    var listener: Option<Listener>

    constructor()
      ensures listener == None
    {
      listener := None;
    }

    function GetListener(): Option<Listener>
      reads this
    {
      listener
    }

    method SetListener(listener: Option<Listener>)
      modifies this
      ensures this.listener == listener
    {
      this.listener := listener;
    }

    /**
     * With an action: the listeners are console reporting, the configured
     * ones, the failure tracker and the supplied one, in that order; the
     * action runs; the listeners are told the run is done; and exit code 1
     * is asked for exactly when the fail-exit-code setting is on and a
     * validation failure was reported. An exception from the action ends
     * the run before `done`. Without an action nothing runs.
     */
    method Execute(arguments: Arguments, env: Environment) returns (r: Result<Outcome, MainError>)
      ensures arguments.action.None? ==> r == Ok(Outcome([], [], [], 0))
      ensures arguments.action.Some? ==> (r.Err? <==> ActionRun(arguments, env).Err?)
      ensures r.Err? ==> r.error == ActionRun(arguments, env).error
      ensures arguments.action.Some? && r.Ok? ==>
                var run := ActionRun(arguments, env).value;
                && r.value.listeners == [ConsoleReporting] + ConfiguredListeners(env.reportingListeners) + [FailureTracking]
                                        + (if listener.Some? then [listener.value] else [])
                && r.value.events == (if run.Some? then run.value.events else []) + [Done]
                && r.value.reports == (if run.Some? then run.value.reports else [])
      ensures r.Ok? ==> (r.value.exitCode == 1 <==> arguments.action.Some? && env.useFailExitCode && HasFailures(r.value.events))
      ensures r.Ok? ==> r.value.exitCode <= 1
    {
      if arguments.action.None? {
        return Ok(Outcome([], [], [], 0));
      }
      var combinedListener := CreateListeners(env.reportingListeners);
      combinedListener.Add(FailureTracking);
      if listener.Some? {
        combinedListener.Add(listener.value);
      }

      var events: seq<Event> := [];
      var reports: seq<Report> := [];
      if arguments.action == Some("test") {
        var run := RunTestsFromPaths(arguments, env);
        if run.Err? {
          return Err(run.error);
        }
        events, reports := run.value.events, run.value.reports;
      } else if arguments.action == Some("check") {
        var run := PerformCheck(arguments, env);
        if run.Err? {
          return Err(run.error);
        }
        events, reports := run.value.events, run.value.reports;
      }
      events := events + [Done];

      var exitCode := 0;
      if env.useFailExitCode {
        if HasFailures(events) {
          exitCode := 1;
        }
      }
      r := Ok(Outcome(combinedListener.listeners, events, reports, exitCode));
    }
  }

  /**
   * Exit code 1 follows from the tests alone: with the fail-exit-code
   * setting on, a run asks for it exactly when a test the filter selected
   * reported a validation failure.
   */
  lemma ExitCodeFromTests(tests: seq<GalenTest>, arguments: Arguments, execute: GalenTest -> Execution, threads: nat)
    ensures var run := SuiteRunFor(tests, arguments, execute, threads);
            HasFailures(run.events + [Done]) <==>
              exists t :: t in Selected(tests, CreateTestFilter(arguments.filter)) && HasFailures(execute(t).events)
  {
    var pattern := CreateTestFilter(arguments.filter);
    var run := SuiteRunFor(tests, arguments, execute, threads);
    var trace := TraceFor(tests, pattern, execute);
    FailuresComeFromTests(tests, pattern, execute);
    HasFailuresAppend([BeforeTestSuite(tests)], trace);
    HasFailuresAppend([BeforeTestSuite(tests)] + trace, [AfterTestSuite(run.infos)]);
    HasFailuresAppend(run.events, [Done]);
    assert !HasFailures([BeforeTestSuite(tests)]) && !HasFailures([AfterTestSuite(run.infos)]) && !HasFailures([Done]);
  }

  /**
   * With valid arguments `check` runs exactly the tests built from its spec
   * paths: the listener first hears of all of them, then of each in path
   * order unless the filter drops it.
   */
  lemma CheckRunsOneTestPerPath(arguments: Arguments, env: Environment)
    requires arguments.url.Some? && arguments.screenSize.Some? && arguments.paths != []
    ensures CheckRun(arguments, env).Ok?
    ensures var run := CheckRun(arguments, env).value;
            && run.events[0] == BeforeTestSuite(CheckTests(arguments, arguments.paths))
            && |run.events[0].tests| == |arguments.paths|
            && run.events[|run.events| - 1] == AfterTestSuite(run.infos)
            && run.threads == PoolSize(arguments.parallelSuites)
  {
    CheckTestsShape(arguments, arguments.paths);
  }
}
