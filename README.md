# Galen range expressions and test runner, in Dafny

This project models two parts of the Galen layout-testing framework and proves properties of them.

**The range-expression reader** (`ExpectRange.read`). A layout spec constrains a measured quantity with range expressions such as `10px`, `~50px`, `>3px`, `<3px`, `10 to 20px` or `50% of parent/width`. The reader works over a character cursor (`StringCharReader`), using three token scanners:
- `expectDouble` reads a number;
- `expectNonNumeric` reads a unit or connector word;
- `expectAnyWord` reads a value path.

The reader returns a `Range` (exact, between, greater-than or less-than), optionally relative to a value path. Any malformed input raises a `SyntaxException` with a fixed message.

In the model:
- the reader is a class with a `cursor` field;
- each scanner is a method with the source's loop and is proved against a specification function over the text and a start position (`DoubleAt`, `NonNumericAt`, `AnyWordAt`, `PercentageOfAt`, `RangeAt`);
- the lemmas state what the grammar accepts, what each scanner returns, and which error each malformed input gets.

**The command-line runner** (`GalenMain`). It covers:
- which listeners a run reports to, and in what order;
- how the `check` action turns spec paths into tests;
- how the `test` action finds `.test` and `.test.js` files on disk, and which errors it raises when a path is missing or no test file is found;
- the `*` name filter;
- what running a test list means: per-test infos, captured exceptions, and the notifications around them;
- when exit code 1 is asked for.

The file system is a tree of `File`/`Dir` nodes. The runner is modelled in its one-thread form: a loop that returns the notifications it sent. The suite reader, the script-test collector, test execution and the configuration are parameters, gathered in `Runner.Environment`.

Points of the code's behaviour that the model keeps as written:
- In `searchForTests` the recursive-search flag is passed down but never read, so every subdirectory is walked. `TestFiles.SearchForTests` takes the flag and ignores it, and its result does not depend on it.
- `~50px` gives `Between(49, 51)`: the tolerance is `max(|v| / 100, 1)`. `RangeExamples.ApproximateFifty` proves that result.
- `10 to 5px` is accepted as `Between(10, 5)`. The reader never checks that the lower bound is at most the upper one.

## Model

All source paths are under `src/main/java/net/mindengine/galen/`; the table writes them in full.

| member | source | states |
|---|---|---|
| Expectations.ClassesDisjoint | src/main/java/net/mindengine/galen/parser/ExpectRange.java:118-128 | delimiters and digits are disjoint; whitespace is a delimiter; `.`, `%`, `~`, `<`, `>` are neither |
| CharReader.FirstNonWhitespace | src/main/java/net/mindengine/galen/parser/ExpectRange.java:37 | returns None exactly when only whitespace is left; otherwise returns the symbol at the first non-whitespace position; consumes nothing |
| CharReader.StringCharReader.Next | src/main/java/net/mindengine/galen/parser/ExpectRange.java:116-117 | returns the symbol under the cursor and advances the cursor by one |
| CharReader.StringCharReader.Back | src/main/java/net/mindengine/galen/parser/ExpectRange.java:121-123 | moves the cursor back by one, so the pushed-back symbol is read again |
| ExpectRange.MsgFor | src/main/java/net/mindengine/galen/parser/ExpectRange.java:186-188 | the message is `Cannot parse range: "`, then the offending token, then a closing quote; the token can be read back from it |
| ExpectRange.ParseDouble | src/main/java/net/mindengine/galen/parser/ExpectRange.java:176-183 | a text of digits and at most one point parses exactly when it holds a digit (`""` and `"."` fail); the value is never negative |
| ExpectRange.ParseDoubleWhole | src/main/java/net/mindengine/galen/parser/ExpectRange.java:176-183 | a non-empty run of digits parses to the whole number it writes |
| ExpectRange.ParseDoubleFraction | src/main/java/net/mindengine/galen/parser/ExpectRange.java:176-183 | digits d, a point, then digits f (not both empty) parse to the number the digits of d and f write together, divided by 10 to the number of digits in f |
| ExpectRange.DoubleFromContents | src/main/java/net/mindengine/galen/parser/ExpectRange.java:155-175 | the number text accumulated is exactly the digits and points passed over |
| ExpectRange.DoubleFromNumberText | src/main/java/net/mindengine/galen/parser/ExpectRange.java:160-170 | the number scanner never accumulates a second point |
| ExpectRange.DoubleFromStop | src/main/java/net/mindengine/galen/parser/ExpectRange.java:155-175 | the scanner fails only on a second point, with `msgFor(".")`; it stops early only once it holds a digit: after a delimiter, or in front of a symbol that is neither a delimiter nor part of a number (that symbol stays unread); and it stops at the first such place: once it holds a digit, every symbol it passes over is a digit or a point, except that the last one may be the delimiter that ended the number |
| ExpectRange.DoubleFromFirstStop | src/main/java/net/mindengine/galen/parser/ExpectRange.java:157-174 | once the scanner holds a digit, every symbol it passes over is a digit or a point, except that the last one it reads may be a delimiter; a symbol that is neither is never consumed |
| ExpectRange.DoubleFromSecondPoint | src/main/java/net/mindengine/galen/parser/ExpectRange.java:160-163 | the scanner fails only at a point that follows a point it kept, met before any place where it would stop |
| ExpectRange.DoubleAt | src/main/java/net/mindengine/galen/parser/ExpectRange.java:150-184 | on success, the value is the parse of the digits and points read, is non-negative, and the scan ended at its first stop (after the delimiter, or in front of the other symbol, that first follows a digit); it fails with "Cannot parse range value" only when no digit is left in the text and at most one point is, naming that point; it fails with `msgFor(".")` only on a second point met before that first stop (so `..` gives `msgFor(".")`) |
| ExpectRange.NonNumericFromShape | src/main/java/net/mindengine/galen/parser/ExpectRange.java:112-131 | the word is the non-delimiters passed over; no digit is passed over; the scan ends at the end of the text, in front of a digit, or after the delimiter that ends a non-empty word, and that is the first delimiter after a symbol of the word |
| ExpectRange.NonNumericFromFirstStop | src/main/java/net/mindengine/galen/parser/ExpectRange.java:116-120 | once the word has a symbol, the scanner passes over no delimiter except as the last symbol it reads |
| ExpectRange.AnyWordFromShape | src/main/java/net/mindengine/galen/parser/ExpectRange.java:133-148 | the word is the non-delimiters passed over; the scan ends at the end of the text or after the delimiter that ends a non-empty word, the first delimiter after a symbol of the word |
| ExpectRange.AnyWordFromFirstStop | src/main/java/net/mindengine/galen/parser/ExpectRange.java:137-141 | once the word has a symbol, the scanner passes over no delimiter except as the last symbol it reads |
| ExpectRange.Trim | src/main/java/net/mindengine/galen/parser/ExpectRange.java:103 | the result is a contiguous part of the word; its first and last symbols are above the space character; every dropped symbol is at most the space character |
| ExpectRange.PercentageOfAt | src/main/java/net/mindengine/galen/parser/ExpectRange.java:100-110 | succeeds exactly when the next word is `of` and the trimmed word after it is non-empty, and then returns that trimmed word, which has no delimiter, with the cursor after it; otherwise fails with "Missing value path for relative range" |
| ExpectRange.RangeTypeOf | src/main/java/net/mindengine/galen/parser/ExpectRange.java:35-46 | `~` gives approximate, `>` greater-than, `<` less-than, anything else (or only whitespace) no prefix; each in both directions |
| ExpectRange.CreateRange | src/main/java/net/mindengine/galen/parser/ExpectRange.java:80-98 | approximate v gives a between range strictly around v, symmetric, of half-width max(\|v\|/100, 1); `>` and `<` give the open ranges; no prefix gives exact v |
| ExpectRange.ExpectNonNumeric | src/main/java/net/mindengine/galen/parser/ExpectRange.java:112-131 | the loop returns the word `NonNumericAt` gives and leaves the cursor where it says |
| ExpectRange.ExpectAnyWord | src/main/java/net/mindengine/galen/parser/ExpectRange.java:133-148 | the loop returns the word `AnyWordAt` gives and leaves the cursor where it says |
| ExpectRange.ExpectDouble | src/main/java/net/mindengine/galen/parser/ExpectRange.java:150-184 | the loop returns the number or error `DoubleAt` gives; on success it leaves the cursor where `DoubleAt` says |
| ExpectRange.ReadPercentageOf | src/main/java/net/mindengine/galen/parser/ExpectRange.java:100-110 | returns the path or error `PercentageOfAt` gives; on success it leaves the cursor where `PercentageOfAt` says |
| ExpectRange.Read | src/main/java/net/mindengine/galen/parser/ExpectRange.java:33-78 | returns the range or error `RangeAt` gives; on success it leaves the cursor where `RangeAt` says |
| RangeProperties.DoubleFromDigits | src/main/java/net/mindengine/galen/parser/ExpectRange.java:167-170 | a run of digits is appended whole and starts the number |
| RangeProperties.DoubleFromSkips | src/main/java/net/mindengine/galen/parser/ExpectRange.java:157-174 | before the first digit or point, every other symbol is skipped, delimiters included |
| RangeProperties.NonNumericFromWord | src/main/java/net/mindengine/galen/parser/ExpectRange.java:125-128 | a run of non-digit non-delimiters is appended whole |
| RangeProperties.AnyWordFromWord | src/main/java/net/mindengine/galen/parser/ExpectRange.java:142-145 | a run of non-delimiters is appended whole |
| RangeProperties.IntegerAt | src/main/java/net/mindengine/galen/parser/ExpectRange.java:150-184 | a whole number after non-number symbols reads as its value; a delimiter right after it is consumed, any other symbol is left unread |
| RangeProperties.NonNumericWordAt | src/main/java/net/mindengine/galen/parser/ExpectRange.java:112-131 | a word ended by a digit leaves the digit unread; a word ended by a delimiter consumes it |
| RangeProperties.AnyWordAtWord | src/main/java/net/mindengine/galen/parser/ExpectRange.java:133-148 | a word of non-delimiters reads whole, and the delimiter after it is consumed |
| RangeProperties.NonDelimitersFrom | src/main/java/net/mindengine/galen/parser/ExpectRange.java:125-127 | every symbol kept in a word comes from the text scanned |
| RangeProperties.NonNumericWord | src/main/java/net/mindengine/galen/parser/ExpectRange.java:112-131 | `expectNonNumeric` returns no delimiter and no digit; when a digit stopped it, the cursor is on that digit; it stops after the first delimiter that follows a symbol of the word |
| RangeProperties.AnyWord | src/main/java/net/mindengine/galen/parser/ExpectRange.java:133-148 | `expectAnyWord` returns no delimiter, and stops at the end of the text or after the first delimiter that follows a symbol of the word |
| RangeProperties.PercentOfPath | src/main/java/net/mindengine/galen/parser/ExpectRange.java:100-110 | the value path of any relative range read is non-empty and free of delimiters |
| RangeProperties.NoNegativeBounds | src/main/java/net/mindengine/galen/parser/ExpectRange.java:80-98 | no bound is negative; a lower bound can be negative only in an approximate range (a `~` prefix), and then it is below the upper bound; there is no sign |
| RangeProperties.PxEndsRange | src/main/java/net/mindengine/galen/parser/ExpectRange.java:50-56 | `px` after the first number returns the finalized range with no path, for every prefix, and reads nothing more |
| RangeProperties.PercentEndsRange | src/main/java/net/mindengine/galen/parser/ExpectRange.java:50-53 | `%` after the first number returns the same range relative to the `of` path, or the missing-path error |
| RangeProperties.PrefixNeedsUnit | src/main/java/net/mindengine/galen/parser/ExpectRange.java:54-77 | with a prefix, any connector other than `px` or `%` raises `msgFor(connector)` |
| RangeProperties.NoPrefixReadsSecondNumber | src/main/java/net/mindengine/galen/parser/ExpectRange.java:57-66 | without a prefix, the second number is read before the connector is checked: its error wins; then a connector other than `to` raises `msgFor(connector)` |
| RangeProperties.ToGivesBetween | src/main/java/net/mindengine/galen/parser/ExpectRange.java:61-75 | `a to b` followed by `px` gives between(a, b); followed by `%` it gives the same range relative to the `of` path; any other ending raises "Missing ending" |
| RangeExamples.ParseDoubleExamples | src/main/java/net/mindengine/galen/parser/ExpectRange.java:176-183 | `2.5` parses to 2.5; `.` and the empty text do not parse |
| RangeExamples.ExactPixels | src/main/java/net/mindengine/galen/parser/ExpectRange.java:33-78 | `100px` reads as exactly 100 |
| RangeExamples.ApproximateHundred | src/main/java/net/mindengine/galen/parser/ExpectRange.java:33-78 | `~100px` reads as between(99, 101) |
| RangeExamples.ApproximateFifty | src/main/java/net/mindengine/galen/parser/ExpectRange.java:80-98 | `~50px` reads as between(49, 51): the tolerance never drops below 1 |
| RangeExamples.GreaterThanTen | src/main/java/net/mindengine/galen/parser/ExpectRange.java:33-78 | `>10px` reads as greater than 10 |
| RangeExamples.LessThanTen | src/main/java/net/mindengine/galen/parser/ExpectRange.java:33-78 | `<10px` reads as less than 10 |
| RangeExamples.TenToTwentyPixels | src/main/java/net/mindengine/galen/parser/ExpectRange.java:57-71 | `10 to 20px` reads as between(10, 20) |
| RangeExamples.TenToTwentyPercentWithoutPath | src/main/java/net/mindengine/galen/parser/ExpectRange.java:100-110 | `10 to 20%` at the end of the input fails with "Missing value path for relative range" |
| RangeExamples.FiftyPercentOfWidth | src/main/java/net/mindengine/galen/parser/ExpectRange.java:50-53 | `50% of width` reads as exactly 50, relative to `width` |
| RangeExamples.SecondPoint | src/main/java/net/mindengine/galen/parser/ExpectRange.java:160-163 | `1.2.3px` fails with `msgFor(".")` |
| RangeExamples.PrefixWithTo | src/main/java/net/mindengine/galen/parser/ExpectRange.java:77 | `~10 to 20px` fails with `msgFor("to")` |
| TestFiles.SuffixesExclusive | src/main/java/net/mindengine/galen/GalenMain.java:394-399 | no name ends in both `.test` and `.test.js` |
| TestFiles.Classify | src/main/java/net/mindengine/galen/GalenMain.java:392-399 | a file is a suite file exactly when its lower-cased name ends in `.test`, and a script test exactly when it ends in `.test.js` |
| TestFiles.FoundIsFilesOfKind | src/main/java/net/mindengine/galen/GalenMain.java:390-406 | the walk always descends: its two lists are exactly the suite files and the script tests among all files below the start, in walk order |
| TestFiles.OfKindSelects | src/main/java/net/mindengine/galen/GalenMain.java:393-399 | a file is in a bucket exactly when it was met and its name selects that bucket |
| TestFiles.BucketsDisjoint | src/main/java/net/mindengine/galen/GalenMain.java:390-406 | no file lands in both lists |
| TestFiles.SearchForTests | src/main/java/net/mindengine/galen/GalenMain.java:390-406 | appends to the caller's two lists exactly the files of each kind found below the entry; the recursion flag has no effect |
| TestFiles.PathsAllExist | src/main/java/net/mindengine/galen/GalenMain.java:197-216 | the paths are accepted exactly when every one exists; the lists are then the findings for each path in turn |
| TestFiles.FirstMissingPath | src/main/java/net/mindengine/galen/GalenMain.java:213-215 | the first path that does not exist is the one reported, whatever follows it |
| TestFiles.CollectTestFiles | src/main/java/net/mindengine/galen/GalenMain.java:194-216 | the loop over the paths returns what `FilesFor` gives |
| TestFilter.Compile | src/main/java/net/mindengine/galen/GalenMain.java:386 | the pattern has one element per filter symbol: `.*` for each `*`, the symbol itself otherwise |
| TestFilter.CreateTestFilter | src/main/java/net/mindengine/galen/GalenMain.java:385-387 | no filter gives no pattern; a filter gives a pattern of the same length in which each `*` is `.*` and every other symbol stands for itself |
| TestFilter.MatchesPattern | src/main/java/net/mindengine/galen/GalenMain.java:378-383 | without a pattern every name matches; the empty pattern matches only the empty name |
| TestFilter.LiteralFilter | src/main/java/net/mindengine/galen/GalenMain.java:378-387 | a filter without `*` or other regular-expression operators selects exactly the name equal to it |
| TestFilter.StarMatchesLine | src/main/java/net/mindengine/galen/GalenMain.java:386 | `*` alone (`.*`) matches exactly the names without a line terminator |
| TestFilter.TrailingStar | src/main/java/net/mindengine/galen/GalenMain.java:378-387 | `prefix*`, with no regular-expression operator in the prefix, selects exactly the names that start with the prefix and continue without a line terminator |
| TestFilter.LoginFilter | src/main/java/net/mindengine/galen/GalenMain.java:378-387 | `Login*` keeps "Login flow" and drops "Checkout flow" |
| Runner.PoolSize | src/main/java/net/mindengine/galen/GalenMain.java:245-250 | the pool size is at least 1 and at least the requested parallelism, and is one of the two |
| Runner.ReportsFor | src/main/java/net/mindengine/galen/GalenMain.java:349-356 | a TestNG report exists exactly for the TestNG path asked for, and an HTML report exactly for the HTML path asked for; each is written at most once, so there is one report per path asked for; TestNG comes first; both receive all infos |
| Runner.InfoFor | src/main/java/net/mindengine/galen/GalenMain.java:267-285 | the info is named after the test and holds the throwable that ended it; its report is what the test wrote, followed by an error entry for that throwable when there is one |
| Runner.InfosAreSelected | src/main/java/net/mindengine/galen/GalenMain.java:261-285 | exactly one info per test the filter selects, in order: named after the test, holding its exception, with that exception appended to its report |
| Runner.SelectedMatches | src/main/java/net/mindengine/galen/GalenMain.java:261-262 | a test runs exactly when its name matches the filter |
| Runner.NoFilterSelectsAll | src/main/java/net/mindengine/galen/GalenMain.java:378-383 | without a filter every test runs |
| Runner.FailuresComeFromTests | src/main/java/net/mindengine/galen/GalenMain.java:277-288 | the listener hears of a validation failure exactly when a test that ran reported one |
| Runner.HasFailuresAppend | src/main/java/net/mindengine/galen/GalenMain.java:277-288 | helper for `FailuresComeFromTests`: a failure is in a joined trace exactly when it is in one of the parts |
| Runner.RunTestsInThreads | src/main/java/net/mindengine/galen/GalenMain.java:253-303 | the run: before-suite with the full list, then each selected test with its info and any captured throwable, then after-suite with every info, then the reports |
| Runner.RunTests | src/main/java/net/mindengine/galen/GalenMain.java:243-251 | the run uses a pool of `PoolSize(parallelSuites)` threads |
| Runner.RunTestFiles | src/main/java/net/mindengine/galen/GalenMain.java:226-241 | the suite files' tests come first, in file order, then the script tests; the first exception the suite reader or the script collector throws ends the method before any test runs |
| Runner.TestsFromReadsAll | src/main/java/net/mindengine/galen/GalenMain.java:230-237 | reading succeeds exactly when every file reads; otherwise the exception is that of the first file that fails |
| Runner.ReadFailureStopsRun | src/main/java/net/mindengine/galen/GalenMain.java:217-237 | a suite file that cannot be read, or a script whose collection throws, ends the `test` action with that exception, and no test runs; every suite file is read before any script is collected |
| Runner.RunTestsFromPaths | src/main/java/net/mindengine/galen/GalenMain.java:193-224 | the `test` action returns what `PathsRun` gives |
| Runner.MissingPathStopsRun | src/main/java/net/mindengine/galen/GalenMain.java:197-216 | a missing path fails the action with `FileNotFound` for the first missing path; no test runs |
| Runner.NoTestFilesFails | src/main/java/net/mindengine/galen/GalenMain.java:218-223 | when every path exists, "Couldn't find any test files" is raised exactly when both lists are empty |
| GalenMain.CombinedListener.constructor | src/main/java/net/mindengine/galen/GalenMain.java:127 | a new combined listener has no members |
| GalenMain.CombinedListener.Add | src/main/java/net/mindengine/galen/GalenMain.java:128-134 | adds a member after the existing ones |
| GalenMain.ConfiguredListeners | src/main/java/net/mindengine/galen/GalenMain.java:139-148 | one listener per configured class name, in configuration order |
| GalenMain.CreateListeners | src/main/java/net/mindengine/galen/GalenMain.java:126-136 | console reporting first, then the configured listeners |
| GalenMain.VerifyArgumentsForPageCheck | src/main/java/net/mindengine/galen/GalenMain.java:174-187 | accepts exactly when url, screen size and at least one path are given; otherwise reports the first missing one, in that order |
| GalenMain.CheckTestsShape | src/main/java/net/mindengine/galen/GalenMain.java:155-169 | one test per spec path, in path order: named after the path, with one Firefox page test on the given url and size, whose only action checks that one spec with the command line's tags |
| GalenMain.BuildCheckTests | src/main/java/net/mindengine/galen/GalenMain.java:153-169 | the loop builds the tests `CheckTests` gives |
| GalenMain.PerformCheck | src/main/java/net/mindengine/galen/GalenMain.java:150-172 | `check` first validates its arguments and runs no test if they fail; otherwise it runs the built tests |
| GalenMain.CheckRunsOneTestPerPath | src/main/java/net/mindengine/galen/GalenMain.java:150-172 | with valid arguments, the run first announces one test per path, ends with after-suite, and uses `PoolSize` threads |
| GalenMain.GalenMain.constructor | src/main/java/net/mindengine/galen/GalenMain.java:61 | no listener is set at first |
| GalenMain.GalenMain.SetListener | src/main/java/net/mindengine/galen/GalenMain.java:412-414 | sets the extra listener |
| GalenMain.GalenMain.Execute | src/main/java/net/mindengine/galen/GalenMain.java:63-105 | listeners are console, configured, failure tracker, then the extra one; the action's error propagates before `done`; otherwise `done` follows the action; exit code 1 exactly when fail-exit-code is on and a failure was reported; with no action nothing runs |
| GalenMain.ExitCodeFromTests | src/main/java/net/mindengine/galen/GalenMain.java:84-88 | the run's trace holds a failure exactly when a selected test reported one |

## Left out

- Line tracking: every syntax error carries the "unknown line" sentinel, so no position is modelled.
- IEEE-754 doubles: numbers are exact reals. `Math.abs(v) / 100` and `Double.parseDouble` are exact here. The scanner only ever passes digits and at most one point to the parser, so exponents, signs and `NaN` cannot occur.
- The sources of `Expectations` and `StringCharReader` are not available, so both are defined minimally: `Expectations` takes delimiters to be space, tab, line feed and carriage return, and digits to be `0`–`9`; `StringCharReader` is a cursor over a string. On a whitespace-only text the first-non-whitespace peek gives no symbol, which means no prefix.
- `Specs.Range`: the `Range` class is not part of this model; only its four kinds and the optional path are kept.
- Version printing when no action is given, `performConfig` (creating the config file from a template), and all console output: I/O.
- Reflective loading of configured listeners: the configured class names stand for the listener instances.
- The thread pool, the busy-wait until the pool terminates, `Date` timestamps and `TestSession` registration: the runner is modelled as one thread running the tests in list order.
- Exceptions thrown by listeners or report builders, which the source prints and swallows: the model's listeners and report builders never throw.
- `System.exit`: the exit code is returned instead.
- The suite reader, the script-test collector, test execution, the report builders and the configuration are external. They are the functions and fields of `Runner.Environment`. The reader and the collector may fail; each failure is modelled as the message of the exception thrown (`MainError.Thrown`), not its class. The failure tracker is taken to record a failure when a test sends a validation-failure notification.
- Runner.RunTestsInThreads: the listener's notifications are recorded once, as delivered to the combined listener, not per member. Each test info is built as a whole value rather than created empty and filled through setters.
- TestFiles.SearchForTests: the two lists the caller owns are passed in and returned as values rather than mutated in place.
- TestFiles.ToLower: only ASCII letters are lower-cased; the platform's full Unicode case mapping is not modelled.
- A path that exists but is neither a file nor a directory cannot be represented in the file tree, so the source's "ignore it" case is not modelled.
- TestFilter.Compile: only `*` is given a meaning. Every other symbol is taken literally, so regular-expression metacharacters in a filter are not modelled, and neither is an invalid pattern.
