/**
 * Running a list of tests. The source hands each selected test to a fixed
 * thread pool; the model is the one-thread case, where the tests run one
 * after another in list order.
 */
module Runner {
  import opened Wrappers
  import opened Suites
  import opened TestFiles
  import opened TestFilter

  /**
   * What the runner takes from outside: the file system, the suite reader,
   * the script-test collector (each gives the tests of a file, or the
   * message of the exception it throws), what executing a test does, the
   * class names of the configured reporting listeners and the
   * fail-exit-code setting.
   */
  datatype Environment = Environment(
    files: map<string, FileNode>,
    readSuite: FileNode -> Result<seq<GalenTest>, string>,
    collectScript: FileNode -> Result<seq<GalenTest>, string>,
    execute: GalenTest -> Execution,
    reportingListeners: seq<string>,
    useFailExitCode: bool)

  /** The size of the pool the tests ran on, the infos collected, the notifications sent, and the reports written. */
  datatype SuiteRun = SuiteRun(threads: nat, infos: seq<TestInfo>, events: seq<Event>, reports: seq<Report>)

  /** The size of the thread pool: the smallest positive number not below the requested parallelism. */
  function PoolSize(parallelSuites: int): (n: nat)
    ensures 1 <= n && parallelSuites <= n
    ensures n == 1 || n == parallelSuites
  {
    if parallelSuites > 1 then parallelSuites else 1
  }

  /** The info recorded for a test: its name, its report, and the throwable that ended it, also logged in the report. */
  function InfoFor(test: GalenTest, run: Execution): (info: TestInfo)
    ensures info.name == test.name && info.exception == run.thrown
    ensures |run.report| <= |info.report| && info.report[..|run.report|] == run.report
    ensures run.thrown.None? ==> info.report == run.report
    ensures run.thrown.Some? ==> info.report[|run.report|..] == [ErrorEntry(run.thrown.value)]
  {
    TestInfo(test.name, run.report + (if run.thrown.Some? then [ErrorEntry(run.thrown.value)] else []), run.thrown)
  }

  /** The tests the filter lets through, in list order. */
  function Selected(tests: seq<GalenTest>, pattern: Option<Pattern>): seq<GalenTest> {
    if tests == [] then []
    else
      var test := tests[|tests| - 1];
      Selected(tests[..|tests| - 1], pattern) + (if MatchesPattern(test.name, pattern) then [test] else [])
  }

  /** The infos the runner collects while it goes through the tests. */
  function InfosFor(tests: seq<GalenTest>, pattern: Option<Pattern>, execute: GalenTest -> Execution): seq<TestInfo> {
    if tests == [] then []
    else
      var test := tests[|tests| - 1];
      InfosFor(tests[..|tests| - 1], pattern, execute)
      + (if MatchesPattern(test.name, pattern) then [InfoFor(test, execute(test))] else [])
  }

  /** The notifications for the tests run: started, what the test itself reported, finished. */
  function TraceFor(tests: seq<GalenTest>, pattern: Option<Pattern>, execute: GalenTest -> Execution): seq<Event> {
    if tests == [] then []
    else
      var test := tests[|tests| - 1];
      TraceFor(tests[..|tests| - 1], pattern, execute)
      + (if MatchesPattern(test.name, pattern) then [TestStarted(test)] + execute(test).events + [TestFinished(test)] else [])
  }

  /** The reports written after the suite: the TestNG report first, then the HTML report, each when asked for. */
  function ReportsFor(arguments: Arguments, infos: seq<TestInfo>): (r: seq<Report>)
    ensures forall p :: TestNgReport(p, infos) in r <==> arguments.testngReport == Some(p)
    ensures forall p :: HtmlReport(p, infos) in r <==> arguments.htmlReport == Some(p)
    ensures forall k :: 0 <= k < |r| ==> r[k].infos == infos
    ensures |r| == (if arguments.testngReport.Some? then 1 else 0) + (if arguments.htmlReport.Some? then 1 else 0)
    ensures |r| == 2 ==> r[0].TestNgReport? && r[1].HtmlReport?
  {
    (match arguments.testngReport case Some(p) => [TestNgReport(p, infos)] case None => [])
    + (match arguments.htmlReport case Some(p) => [HtmlReport(p, infos)] case None => [])
  }

  /** The whole run of a test list: before-suite with every test, the selected tests in turn, after-suite with all infos. */
  function SuiteRunFor(tests: seq<GalenTest>, arguments: Arguments, execute: GalenTest -> Execution, threads: nat): SuiteRun {
    var pattern := CreateTestFilter(arguments.filter);
    var infos := InfosFor(tests, pattern, execute);
    SuiteRun(threads, infos, [BeforeTestSuite(tests)] + TraceFor(tests, pattern, execute) + [AfterTestSuite(infos)],
             ReportsFor(arguments, infos))
  }

  /**
   * Exactly one info per test the filter selects, in order, none for the
   * others: the k-th info is named after the k-th selected test and holds
   * that test's exception, which also ends its report.
   */
  lemma {:induction false} InfosAreSelected(tests: seq<GalenTest>, pattern: Option<Pattern>, execute: GalenTest -> Execution)
    ensures var infos := InfosFor(tests, pattern, execute);
            var selected := Selected(tests, pattern);
            && |infos| == |selected|
            && forall k :: 0 <= k < |infos| ==>
                 && infos[k].name == selected[k].name
                 && infos[k].exception == execute(selected[k]).thrown
                 && infos[k].report == execute(selected[k]).report
                                       + (match infos[k].exception case Some(e) => [ErrorEntry(e)] case None => [])
  {
    if tests != [] {
      var init := tests[..|tests| - 1];
      InfosAreSelected(init, pattern, execute);
      var test := tests[|tests| - 1];
      if !MatchesPattern(test.name, pattern) {
        assert InfosFor(tests, pattern, execute) == InfosFor(init, pattern, execute) + [];
        assert Selected(tests, pattern) == Selected(init, pattern) + [];
      }
    }
  }

  /** The filter lets a test through exactly when its name matches. */
  lemma {:induction false} SelectedMatches(tests: seq<GalenTest>, pattern: Option<Pattern>, t: GalenTest)
    ensures t in Selected(tests, pattern) <==> t in tests && MatchesPattern(t.name, pattern)
  {
    if tests != [] {
      var init := tests[..|tests| - 1];
      SelectedMatches(init, pattern, t);
      assert tests == init + [tests[|tests| - 1]];
    }
  }

  /** Without a filter every test runs. */
  lemma {:induction false} NoFilterSelectsAll(tests: seq<GalenTest>)
    ensures Selected(tests, None) == tests
  {
    if tests != [] {
      var init, last := tests[..|tests| - 1], tests[|tests| - 1];
      NoFilterSelectsAll(init);
      assert MatchesPattern(last.name, None);
      assert Selected(tests, None) == Selected(init, None) + [last];
      assert tests == init + [last];
    }
  }

  /** The listener sees a validation failure exactly when one of the tests run reported one. */
  lemma {:induction false} FailuresComeFromTests(tests: seq<GalenTest>, pattern: Option<Pattern>, execute: GalenTest -> Execution)
    ensures HasFailures(TraceFor(tests, pattern, execute)) <==>
              exists t :: t in Selected(tests, pattern) && HasFailures(execute(t).events)
  {
    if tests != [] {
      var init := tests[..|tests| - 1];
      var test := tests[|tests| - 1];
      FailuresComeFromTests(init, pattern, execute);
      var before := TraceFor(init, pattern, execute);
      if MatchesPattern(test.name, pattern) {
        var own := [TestStarted(test)] + execute(test).events + [TestFinished(test)];
        HasFailuresAppend(before, own);
        HasFailuresAppend([TestStarted(test)], execute(test).events);
        HasFailuresAppend([TestStarted(test)] + execute(test).events, [TestFinished(test)]);
        assert !HasFailures([TestStarted(test)]) && !HasFailures([TestFinished(test)]);
        assert HasFailures(TraceFor(tests, pattern, execute)) <==> HasFailures(before) || HasFailures(execute(test).events);
        var selected := Selected(tests, pattern);
        assert selected == Selected(init, pattern) + [test];
        if HasFailures(execute(test).events) {
          assert test in selected;
        }
        if exists t :: t in selected && HasFailures(execute(t).events) {
          var t :| t in selected && HasFailures(execute(t).events);
          assert t == test || t in Selected(init, pattern);
        }
        forall t | t in Selected(init, pattern)
          ensures t in selected
        {
        }
      } else {
        assert TraceFor(tests, pattern, execute) == before + [] == before;
        assert Selected(tests, pattern) == Selected(init, pattern) + [] == Selected(init, pattern);
      }
    }
  }

  lemma HasFailuresAppend(a: seq<Event>, b: seq<Event>)
    ensures HasFailures(a + b) <==> HasFailures(a) || HasFailures(b)
  {
    if HasFailures(a) {
      var k :| 0 <= k < |a| && a[k].ValidationFailed?;
      assert (a + b)[k].ValidationFailed?;
    }
    if HasFailures(a + b) {
      var k :| 0 <= k < |a + b| && (a + b)[k].ValidationFailed?;
      if k >= |a| {
        assert b[k - |a|].ValidationFailed?;
      }
    }
    if HasFailures(b) {
      var k :| 0 <= k < |b| && b[k].ValidationFailed?;
      assert (a + b)[|a| + k].ValidationFailed?;
    }
  }

  /**
   * The suite run: before-suite with the full test list, then each test the
   * filter selects with its info recorded and any throwable captured, then
   * after-suite with every info, then the reports.
   */
  method RunTestsInThreads(tests: seq<GalenTest>, arguments: Arguments, execute: GalenTest -> Execution, amountOfThreads: nat)
      returns (run: SuiteRun)
    ensures run == SuiteRunFor(tests, arguments, execute, amountOfThreads)
  {
    var filterPattern := CreateTestFilter(arguments.filter);
    var testInfos: seq<TestInfo> := [];
    var events := [BeforeTestSuite(tests)];
    for k := 0 to |tests|
      invariant testInfos == InfosFor(tests[..k], filterPattern, execute)
      invariant events == [BeforeTestSuite(tests)] + TraceFor(tests[..k], filterPattern, execute)
    {
      var test := tests[k];
      assert tests[..k + 1][..k] == tests[..k] && tests[..k + 1][k] == test;
      if MatchesPattern(test.name, filterPattern) {
        events := events + [TestStarted(test)];
        var result := execute(test);
        var report := result.report;
        if result.thrown.Some? {
          report := report + [ErrorEntry(result.thrown.value)];
        }
        assert TestInfo(test.name, report, result.thrown) == InfoFor(test, result);
        testInfos := testInfos + [TestInfo(test.name, report, result.thrown)];
        events := events + result.events + [TestFinished(test)];
      } else {
        assert testInfos + [] == testInfos && events + [] == events;
      }
    }
    assert tests[..|tests|] == tests;
    events := events + [AfterTestSuite(testInfos)];
    run := SuiteRun(amountOfThreads, testInfos, events, ReportsFor(arguments, testInfos));
  }

  /** The pool is as large as the requested parallelism, and at least one thread. */
  method RunTests(arguments: Arguments, tests: seq<GalenTest>, execute: GalenTest -> Execution) returns (run: SuiteRun)
    ensures run == SuiteRunFor(tests, arguments, execute, PoolSize(arguments.parallelSuites))
  {
    if arguments.parallelSuites > 1 {
      run := RunTestsInThreads(tests, arguments, execute, arguments.parallelSuites);
    } else {
      run := RunTestsInThreads(tests, arguments, execute, 1);
    }
  }

  /** The tests read from each file in turn, or the first exception the reader throws. */
  function TestsFrom(read: FileNode -> Result<seq<GalenTest>, string>, files: seq<FileNode>): Result<seq<GalenTest>, string> {
    if files == [] then Ok([])
    else
      match TestsFrom(read, files[..|files| - 1])
      case Err(e) => Err(e)
      case Ok(tests) =>
        match read(files[|files| - 1])
        case Err(e) => Err(e)
        case Ok(more) => Ok(tests + more)
  }

  /**
   * Reading succeeds exactly when every file reads, and then gives the
   * files' tests in order; otherwise the exception is that of the first
   * file that fails.
   */
  lemma {:induction false} TestsFromReadsAll(read: FileNode -> Result<seq<GalenTest>, string>, files: seq<FileNode>)
    ensures TestsFrom(read, files).Ok? <==> forall k :: 0 <= k < |files| ==> read(files[k]).Ok?
    ensures forall k :: 0 <= k < |files| && read(files[k]).Err? && (forall j :: 0 <= j < k ==> read(files[j]).Ok?) ==>
              TestsFrom(read, files) == Err(read(files[k]).error)
  {
    if files != [] {
      var init := files[..|files| - 1];
      TestsFromReadsAll(read, init);
      forall k | 0 <= k < |init| ensures init[k] == files[k] { }
    }
  }

  /**
   * The tests of a `test` action: the suite files' tests in order, then the
   * script tests collected into the same list; the first exception thrown
   * ends the reading.
   */
  function TestsOf(env: Environment, basicTestFiles: seq<FileNode>, jsTestFiles: seq<FileNode>): Result<seq<GalenTest>, MainError> {
    match TestsFrom(env.readSuite, basicTestFiles)
    case Err(e) => Err(Thrown(e))
    case Ok(suiteTests) =>
      match TestsFrom(env.collectScript, jsTestFiles)
      case Err(e) => Err(Thrown(e))
      case Ok(scriptTests) => Ok(suiteTests + scriptTests)
  }

  /**
   * The suite files are read first, in order; the script tests are collected
   * into the same list after them. The first exception either throws ends
   * the method before any test runs.
   */
  method RunTestFiles(basicTestFiles: seq<FileNode>, jsTestFiles: seq<FileNode>, arguments: Arguments, env: Environment)
      returns (r: Result<SuiteRun, MainError>)
    ensures r == match TestsOf(env, basicTestFiles, jsTestFiles)
                 case Err(e) => Err(e)
                 case Ok(tests) => Ok(SuiteRunFor(tests, arguments, env.execute, PoolSize(arguments.parallelSuites)))
  {
    var tests: seq<GalenTest> := [];
    for k := 0 to |basicTestFiles|
      invariant TestsFrom(env.readSuite, basicTestFiles[..k]) == Ok(tests)
    {
      assert basicTestFiles[..k + 1][..k] == basicTestFiles[..k];
      var read := env.readSuite(basicTestFiles[k]);
      if read.Err? {
        TestsFromFails(env.readSuite, basicTestFiles, k + 1);
        return Err(Thrown(read.error));
      }
      tests := tests + read.value;
    }
    assert basicTestFiles[..|basicTestFiles|] == basicTestFiles;
    ghost var suiteTests := tests;
    var scriptTests: seq<GalenTest> := [];
    for k := 0 to |jsTestFiles|
      invariant TestsFrom(env.collectScript, jsTestFiles[..k]) == Ok(scriptTests)
      invariant tests == suiteTests + scriptTests
    {
      assert jsTestFiles[..k + 1][..k] == jsTestFiles[..k];
      var collected := env.collectScript(jsTestFiles[k]);
      if collected.Err? {
        TestsFromFails(env.collectScript, jsTestFiles, k + 1);
        return Err(Thrown(collected.error));
      }
      tests := tests + collected.value;
      scriptTests := scriptTests + collected.value;
    }
    assert jsTestFiles[..|jsTestFiles|] == jsTestFiles;
    var run := RunTests(arguments, tests, env.execute);
    r := Ok(run);
  }

  /** Once the first n files fail to read, so do all the files. */
  lemma {:induction false} TestsFromFails(read: FileNode -> Result<seq<GalenTest>, string>, files: seq<FileNode>, n: nat)
    requires n <= |files| && TestsFrom(read, files[..n]).Err?
    ensures TestsFrom(read, files) == TestsFrom(read, files[..n])
    decreases |files| - n
  {
    if n < |files| {
      assert files[..n + 1][..n] == files[..n];
      TestsFromFails(read, files, n + 1);
    } else {
      assert files[..n] == files;
    }
  }

  /**
   * The `test` action: the test files for the paths, or the error for the
   * first missing path, or the error for finding no test file at all; then
   * the run of every test they hold.
   */
  function PathsRun(arguments: Arguments, env: Environment): Result<SuiteRun, MainError> {
    match FilesFor(env.files, arguments.paths)
    case Err(e) => Err(e)
    case Ok(b) =>
      if |b.basic| > 0 || |b.js| > 0 then
        match TestsOf(env, b.basic, b.js)
        case Err(e) => Err(e)
        case Ok(tests) => Ok(SuiteRunFor(tests, arguments, env.execute, PoolSize(arguments.parallelSuites)))
      else Err(Runtime(NoTestFiles))
  }

  method RunTestsFromPaths(arguments: Arguments, env: Environment) returns (r: Result<SuiteRun, MainError>)
    ensures r == PathsRun(arguments, env)
  {
    var files := CollectTestFiles(env.files, arguments.paths, arguments.recursive);
    if files.Err? {
      return Err(files.error);
    }
    var b := files.value;
    if |b.basic| > 0 || |b.js| > 0 {
      r := RunTestFiles(b.basic, b.js, arguments, env);
    } else {
      r := Err(Runtime(NoTestFiles));
    }
  }

  /**
   * A missing path stops the `test` action before any test runs: the first
   * one missing is reported.
   */
  lemma MissingPathStopsRun(arguments: Arguments, env: Environment, k: nat)
    requires k < |arguments.paths| && arguments.paths[k] !in env.files
    requires forall j :: 0 <= j < k ==> arguments.paths[j] in env.files
    ensures PathsRun(arguments, env) == Err(FileNotFound(arguments.paths[k]))
  {
    FirstMissingPath(env.files, arguments.paths, k);
  }

  /**
   * When every path exists, the `test` action fails with "Couldn't find any
   * test files" exactly when no file below any of them is a suite or a script test.
   */
  lemma NoTestFilesFails(arguments: Arguments, env: Environment)
    requires forall k :: 0 <= k < |arguments.paths| ==> arguments.paths[k] in env.files
    ensures PathsRun(arguments, env) == Err(Runtime(NoTestFiles)) <==>
              FoundAll(env.files, arguments.paths) == Buckets([], [])
  {
    PathsAllExist(env.files, arguments.paths);
  }

  /**
   * A suite file that cannot be read, or a script whose collection throws,
   * ends the `test` action with that exception: no test runs. Suite files
   * are all read before any script is collected.
   */
  lemma ReadFailureStopsRun(arguments: Arguments, env: Environment)
    requires FilesFor(env.files, arguments.paths).Ok?
    ensures var b := FilesFor(env.files, arguments.paths).value;
            forall k ::
              (&& 0 <= k < |b.basic| && env.readSuite(b.basic[k]).Err?
               && (forall j :: 0 <= j < k ==> env.readSuite(b.basic[j]).Ok?))
              ==> PathsRun(arguments, env) == Err(Thrown(env.readSuite(b.basic[k]).error))
    ensures var b := FilesFor(env.files, arguments.paths).value;
            forall k ::
              (&& 0 <= k < |b.js| && env.collectScript(b.js[k]).Err?
               && (forall j :: 0 <= j < |b.basic| ==> env.readSuite(b.basic[j]).Ok?)
               && (forall j :: 0 <= j < k ==> env.collectScript(b.js[j]).Ok?))
              ==> PathsRun(arguments, env) == Err(Thrown(env.collectScript(b.js[k]).error))
  {
    var b := FilesFor(env.files, arguments.paths).value;
    TestsFromReadsAll(env.readSuite, b.basic);
    TestsFromReadsAll(env.collectScript, b.js);
  }
}
