/**
 * The values the command-line runner passes around: its parsed arguments,
 * the tests it builds or reads, what running one test yields, the
 * notifications its listener receives, and the errors it raises.
 */
module Suites {
  import opened Wrappers

  datatype Size = Size(width: int, height: int)

  /** The parsed command line; `null` options are None. */
  datatype Arguments = Arguments(
    action: Option<string>,
    paths: seq<string>,
    url: Option<string>,
    screenSize: Option<Size>,
    includedTags: seq<string>,
    excludedTags: seq<string>,
    original: string,
    filter: Option<string>,
    parallelSuites: int,
    recursive: bool,
    htmlReport: Option<string>,
    testngReport: Option<string>)

  datatype Browser = Firefox

  /** A page action that checks the page against layout specs, restricted by tags. */
  datatype PageAction = Check(specs: seq<string>, includedTags: seq<string>, excludedTags: seq<string>, originalCommand: string)

  /** Open a url in a browser of the given size and run the actions on it. */
  datatype PageTest = PageTest(url: Option<string>, size: Option<Size>, browser: Browser, actions: seq<PageAction>)

  /**
   * A test: a basic test made of page tests, or one whose body the suite
   * reader or a script built and which the runner only knows by name.
   */
  datatype GalenTest = BasicTest(name: string, pageTests: seq<PageTest>) | OtherTest(name: string)

  datatype ReportEntry = Entry(text: string) | ErrorEntry(message: string)

  /**
   * What executing one test does: the entries it writes to its report, the
   * notifications it sends to the listener while it runs, and the throwable
   * that ended it, if any.
   */
  datatype Execution = Execution(report: seq<ReportEntry>, events: seq<Event>, thrown: Option<string>)

  /** What the runner records about one test it ran. */
  datatype TestInfo = TestInfo(name: string, report: seq<ReportEntry>, exception: Option<string>)

  /** A notification delivered to the run's listener. */
  datatype Event =
    | BeforeTestSuite(tests: seq<GalenTest>)
    | TestStarted(test: GalenTest)
    | ValidationFailed(detail: string)
    | TestFinished(test: GalenTest)
    | AfterTestSuite(infos: seq<TestInfo>)
    | Done

  datatype Report = TestNgReport(path: string, infos: seq<TestInfo>) | HtmlReport(path: string, infos: seq<TestInfo>)

  /**
   * The exceptions that end an action: the ones the runner throws itself,
   * and one thrown by the suite reader or the script-test collector.
   */
  datatype MainError =
    | IllegalArgument(message: string)
    | FileNotFound(path: string)
    | Runtime(message: string)
    | Thrown(message: string)

  /** The listener saw at least one validation failure. */
  predicate HasFailures(events: seq<Event>) {
    exists k :: 0 <= k < |events| && events[k].ValidationFailed?
  }
}
