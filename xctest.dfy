/**
  The `xctest run` command family of the idb command line (idb/cli/commands/xctest.py):
  how the `app`, `ui` and `logic` sub-commands turn their arguments into the test filters
  and flags of a run request, how installing bundles first rewrites the bundle ids, and
  how the stream of test results decides the exit code.
 */
module Xctest {
  import opened Common

  /** The three sub-commands of `xctest run`; each is a command class of its own. */
  datatype Command = App | Ui | Logic {
    /** The sub-command's name, which the command group leaves in `args.run`. */
    function Name(): string {
      match this
      case App => "app"
      case Ui => "ui"
      case Logic => "logic"
    }
  }

  /** The two members of `CodeCoverageFormat`, selected by name with `--coverage-format`. */
  datatype CoverageFormat = Exported | Raw

  /**
    The parsed command line apart from the bundle ids, which installing rewrites.
    A list option is `None` when the flag was not given or the sub-command has no such flag.
   */
  datatype RunOptions = RunOptions(
    run: string,
    install: bool,
    testToRun: Option<seq<string>>,
    testsToRun: Option<seq<string>>,
    testsToSkip: Option<seq<string>>,
    testArguments: Option<seq<string>>,
    timeout: Option<int>,
    resultBundlePath: Option<string>,
    reportActivities: bool,
    reportAttachments: bool,
    activitiesOutputPath: Option<string>,
    coverageOutputPath: Option<string>,
    coverageFormat: string,
    logDirectoryPath: Option<string>,
    waitForDebugger: bool)

  /** What the command hands to `client.run_xctest` (the environment is not modelled). */
  datatype RunRequest = RunRequest(
    testBundleId: string,
    appBundleId: Option<string>,
    testHostAppBundleId: Option<string>,
    isUiTest: bool,
    isLogicTest: bool,
    testsToRun: Option<set<string>>,
    testsToSkip: Option<set<string>>,
    timeout: Option<int>,
    arguments: seq<string>,
    resultBundlePath: Option<string>,
    reportActivities: bool,
    reportAttachments: bool,
    activitiesOutputPath: Option<string>,
    coverageOutputPath: Option<string>,
    coverageFormat: CoverageFormat,
    logDirectoryPath: Option<string>,
    waitForDebugger: bool)

  /** One element of the result stream of `client.run_xctest`. */
  datatype TestRunInfo = TestRunInfo(
    className: string,
    methodName: string,
    passed: bool,
    crashedOutsideTestCase: bool)

  /** How a run ends. */
  datatype RunOutcome =
    | Completed                           // the result stream ended normally
    | ExitWithCode(code: int)             // `ExitWithCodeException`
    | UnknownCoverageFormat(name: string) // the `KeyError` of `CodeCoverageFormat[name]`

  /** Python's truthiness of an optional list: present and non-empty. */
  predicate NonEmpty(xs: Option<seq<string>>) {
    xs.Some? && |xs.value| > 0
  }

  // ---------------------------------------------------------------------------
  // Joining and splitting on commas

  /** The elements of a non-empty list separated by single commas (Python's `",".join`). */
  function Join(xs: seq<string>): string
    requires |xs| > 0
  {
    if |xs| == 1 then xs[0] else Join(xs[..|xs| - 1]) + "," + xs[|xs| - 1]
  }

  /** Every element followed by a comma: what the `+=` loop of the logic command builds. */
  function Terminated(xs: seq<string>): string {
    if xs == [] then "" else Terminated(xs[..|xs| - 1]) + xs[|xs| - 1] + ","
  }

  /** Python's `s[:-1]`: everything but the last character, and `""` for `""`. */
  function DropLast(s: string): string {
    if |s| == 0 then "" else s[..|s| - 1]
  }

  /** Python's `s.split(",")`: the maximal comma-free pieces, always at least one. */
  function Split(s: string): (r: seq<string>)
    ensures |r| >= 1
  {
    if s == [] then [""]
    else if s[0] == ',' then [""] + Split(s[1..])
    else var rest := Split(s[1..]); [[s[0]] + rest[0]] + rest[1..]
  }

  /** The sum of the lengths of the elements. */
  function TotalLength(xs: seq<string>): nat {
    if xs == [] then 0 else TotalLength(xs[..|xs| - 1]) + |xs[|xs| - 1]|
  }

  predicate CommaFree(s: string) {
    forall k :: 0 <= k < |s| ==> s[k] != ','
  }

  /** Dropping the trailing comma of the accumulated string leaves exactly the joined names. */
  lemma {:induction false} TerminatedIsJoin(xs: seq<string>)
    requires |xs| > 0
    ensures Terminated(xs) == Join(xs) + ","
    ensures DropLast(Terminated(xs)) == Join(xs)
  {
    var init := xs[..|xs| - 1];
    if |xs| == 1 {
      assert init == [];
    } else {
      TerminatedIsJoin(init);
    }
    var last, t, j := xs[|xs| - 1], Terminated(xs), Join(xs);
    if |xs| == 1 {
      calc {
        t;
        Terminated(init) + last + ",";
        "" + last + ",";
        j + ",";
      }
    } else {
      calc {
        t;
        Terminated(init) + last + ",";
        Join(init) + "," + last + ",";
        j + ",";
      }
    }
    assert |t| - 1 == |j|;
    assert t[..|j|] == j;
  }

  /** The joined string is as long as its parts plus one comma between each two. */
  lemma {:induction false} JoinLength(xs: seq<string>)
    requires |xs| > 0
    ensures |Join(xs)| == TotalLength(xs) + |xs| - 1
  {
    var init := xs[..|xs| - 1];
    if |xs| == 1 {
      assert init == [];
    } else {
      JoinLength(init);
    }
  }

  /** Splitting a comma-free string gives it back whole. */
  lemma {:induction false} SplitCommaFree(s: string)
    requires CommaFree(s)
    ensures Split(s) == [s]
  {
    if s != [] {
      assert s[0] != ',';
      assert CommaFree(s[1..]) by {
        forall k | 0 <= k < |s| - 1 ensures s[1..][k] != ',' { assert s[1..][k] == s[k + 1]; }
      }
      SplitCommaFree(s[1..]);
      assert [s[0]] + s[1..] == s;
    }
  }

  /** Splitting distributes over a separating comma. */
  lemma {:induction false} SplitAtComma(s: string, t: string)
    ensures Split(s + "," + t) == Split(s) + Split(t)
  {
    if s == [] {
      assert s + "," + t == [','] + t;
      assert (s + "," + t)[1..] == t;
    } else {
      assert (s + "," + t)[0] == s[0];
      assert (s + "," + t)[1..] == s[1..] + "," + t;
      SplitAtComma(s[1..], t);
    }
  }

  /** When no name holds a comma, splitting the joined string on commas gives back the names. */
  lemma {:induction false} SplitJoin(xs: seq<string>)
    requires |xs| > 0
    requires forall i :: 0 <= i < |xs| ==> CommaFree(xs[i])
    ensures Split(Join(xs)) == xs
  {
    var last := xs[|xs| - 1];
    SplitCommaFree(last);
    if |xs| > 1 {
      var init := xs[..|xs| - 1];
      SplitJoin(init);
      SplitAtComma(Join(init), last);
      assert xs == init + [last];
    }
  }

  // ---------------------------------------------------------------------------
  // Test filters

  /** `CommonRunXcTestCommand.get_tests_to_run`: the base command runs every test. */
  function BaseTestsToRun(options: RunOptions): (r: Option<set<string>>)
    ensures r == None
  {
    None
  }

  /** `CommonRunXcTestCommand.get_tests_to_skip`: the base command skips nothing. */
  function BaseTestsToSkip(options: RunOptions): (r: Option<set<string>>)
    ensures r == None
  {
    None
  }

  /**
    `XctestRunAppCommand.get_tests_to_run` and `get_tests_to_skip` (also those of `ui`):
    no filter for a missing or empty list, otherwise the set of the given names.
   */
  function AppFilter(names: Option<seq<string>>): (r: Option<set<string>>)
    ensures r.None? <==> !NonEmpty(names)
    ensures r.Some? ==> forall t :: t in r.value <==> t in names.value
    ensures r.Some? ==> 0 < |r.value| <= |names.value|
  {
    if NonEmpty(names) then
      ElementsSize(names.value);
      Some(Elements(names.value))
    else
      None
  }

  /**
    `XctestRunLogicCommand.get_tests_to_run`: `--test-to-run` wins; otherwise the names of
    `--tests-to-run` become one comma-joined string, the companion expecting a set of size one.
   */
  method LogicTestsToRun(testToRun: Option<seq<string>>, testsToRun: Option<seq<string>>)
    returns (r: Option<set<string>>)
    ensures NonEmpty(testToRun) ==>
      r.Some? && forall t :: t in r.value <==> t in testToRun.value
    ensures !NonEmpty(testToRun) && NonEmpty(testsToRun) ==>
      r == Some({Join(testsToRun.value)})
    ensures !NonEmpty(testToRun) && !NonEmpty(testsToRun) ==> r == None
  {
    if NonEmpty(testToRun) {
      return Some(Elements(testToRun.value));
    }
    if NonEmpty(testsToRun) {
      var names := testsToRun.value;
      var tests := "";
      for i := 0 to |names|
        invariant tests == Terminated(names[..i])
      {
        assert names[..i + 1][..i] == names[..i];
        tests := tests + names[i] + ",";
      }
      assert names[..|names|] == names;
      TerminatedIsJoin(names);
      tests := DropLast(tests);
      return Some({tests});
    }
    return None;
  }

  /** The `get_tests_to_run` of each sub-command's class. */
  method TestsToRun(command: Command, options: RunOptions) returns (r: Option<set<string>>)
    ensures command != Logic ==> r == AppFilter(options.testsToRun)
    ensures command == Logic && NonEmpty(options.testToRun) ==>
      r.Some? && forall t :: t in r.value <==> t in options.testToRun.value
    ensures command == Logic && !NonEmpty(options.testToRun) && NonEmpty(options.testsToRun) ==>
      r == Some({Join(options.testsToRun.value)})
    ensures command == Logic && !NonEmpty(options.testToRun) && !NonEmpty(options.testsToRun) ==>
      r == None
  {
    match command
    case App => r := AppFilter(options.testsToRun);
    case Ui => r := AppFilter(options.testsToRun);
    case Logic => r := LogicTestsToRun(options.testToRun, options.testsToRun);
  }

  /** The `get_tests_to_skip` of each sub-command's class: `logic` keeps the base default. */
  function TestsToSkip(command: Command, options: RunOptions): (r: Option<set<string>>)
    ensures command == Logic ==> r == None
    ensures command != Logic ==> (r.None? <==> !NonEmpty(options.testsToSkip))
    ensures command != Logic && r.Some? ==>
      forall t :: t in r.value <==> t in options.testsToSkip.value
  {
    if command == Logic then BaseTestsToSkip(options) else AppFilter(options.testsToSkip)
  }

  // ---------------------------------------------------------------------------
  // Derived flags and the request

  /** `CodeCoverageFormat[name]`: the member of that name, or the `KeyError`. */
  function ParseCoverageFormat(name: string): (r: Option<CoverageFormat>)
    ensures r == Some(Exported) <==> name == "EXPORTED"
    ensures r == Some(Raw) <==> name == "RAW"
  {
    if name == "EXPORTED" then Some(Exported)
    else if name == "RAW" then Some(Raw)
    else None
  }

  /**
    The arguments of `client.run_xctest` in `CommonRunXcTestCommand.run_with_client`, given
    the bundle ids after installing, the filters and the coverage format.
   */
  function MakeRequest(
    options: RunOptions,
    testBundleId: string, appBundleId: Option<string>, testHostAppBundleId: Option<string>,
    testsToRun: Option<set<string>>, testsToSkip: Option<set<string>>,
    coverageFormat: CoverageFormat): (r: RunRequest)
    ensures r.reportAttachments ==> r.reportActivities
    ensures r.reportActivities <==> options.reportActivities || options.reportAttachments
    ensures !(r.isUiTest && r.isLogicTest)
    ensures r.isUiTest <==> options.run == Ui.Name()
    ensures r.isLogicTest <==> options.run == Logic.Name()
    ensures options.testArguments.None? ==> r.arguments == []
    ensures options.testArguments.Some? ==> r.arguments == options.testArguments.value
    ensures r.timeout == options.timeout && r.resultBundlePath == options.resultBundlePath
    ensures r.activitiesOutputPath == options.activitiesOutputPath
    ensures r.coverageOutputPath == options.coverageOutputPath
    ensures r.logDirectoryPath == options.logDirectoryPath
    ensures r.reportAttachments == options.reportAttachments
    ensures r.waitForDebugger == options.waitForDebugger
    ensures r.coverageFormat == coverageFormat
    ensures r.appBundleId == appBundleId && r.testHostAppBundleId == testHostAppBundleId
    ensures r.testBundleId == testBundleId && r.testsToRun == testsToRun && r.testsToSkip == testsToSkip
  {
    RunRequest(
      testBundleId, appBundleId, testHostAppBundleId,
      options.run == "ui", options.run == "logic",
      testsToRun, testsToSkip,
      options.timeout,
      if options.testArguments.Some? then options.testArguments.value else [],
      options.resultBundlePath,
      options.reportActivities || options.reportAttachments,
      options.reportAttachments,
      options.activitiesOutputPath,
      options.coverageOutputPath,
      coverageFormat,
      options.logDirectoryPath,
      options.waitForDebugger)
  }

  // ---------------------------------------------------------------------------
  // The crash flag

  /** The value of `crashed_outside_test_case` after the loop has seen `results`. */
  function CrashFlag(results: seq<TestRunInfo>): bool {
    if results == [] then false
    else CrashFlag(results[..|results| - 1]) || results[|results| - 1].crashedOutsideTestCase
  }

  /** The folded flag is set exactly when some result crashed outside a test case. */
  lemma {:induction false} CrashFlagIffSomeCrash(results: seq<TestRunInfo>)
    ensures CrashFlag(results) <==>
      exists i :: 0 <= i < |results| && results[i].crashedOutsideTestCase
  {
    if results != [] {
      var init := results[..|results| - 1];
      CrashFlagIffSomeCrash(init);
      if exists i :: 0 <= i < |init| && init[i].crashedOutsideTestCase {
        var i :| 0 <= i < |init| && init[i].crashedOutsideTestCase;
        assert results[i] == init[i];
      }
    }
  }

  /** Once set, the flag stays set for the rest of the stream. */
  lemma {:induction false} CrashFlagNeverReverts(results: seq<TestRunInfo>, n: nat, m: nat)
    requires n <= m <= |results|
    ensures CrashFlag(results[..n]) ==> CrashFlag(results[..m])
  {
    CrashFlagIffSomeCrash(results[..n]);
    CrashFlagIffSomeCrash(results[..m]);
    if CrashFlag(results[..n]) {
      var i :| 0 <= i < n && results[..n][i].crashedOutsideTestCase;
      assert results[..m][i] == results[i];
    }
  }

  /**
    The loop of `run_with_client` over the result stream: the run exits with code 3 if and only
    if some result crashed outside a test case.
   */
  method ConsumeResults(results: seq<TestRunInfo>) returns (outcome: RunOutcome)
    ensures outcome == ExitWithCode(3) <==>
      exists i :: 0 <= i < |results| && results[i].crashedOutsideTestCase
    ensures outcome != ExitWithCode(3) ==> outcome == Completed
  {
    var crashed := false;
    for i := 0 to |results|
      invariant crashed == CrashFlag(results[..i])
    {
      assert results[..i + 1][..i] == results[..i];
      crashed := crashed || results[i].crashedOutsideTestCase;
    }
    assert results[..|results|] == results;
    CrashFlagIffSomeCrash(results);
    if crashed {
      return ExitWithCode(3);
    }
    return Completed;
  }

  // ---------------------------------------------------------------------------
  // The argument namespace and installing

  /** The name the last install response reported, or `current` when there was none. */
  function LastName(current: string, responses: seq<string>): string {
    if responses == [] then current else responses[|responses| - 1]
  }

  /**
    The parsed argument namespace of one `xctest run` sub-command. Installing rewrites its
    bundle ids in place; an id is `None` when the sub-command has no such argument.
   */
  class Namespace {
    const command: Command
    const options: RunOptions
    var testBundleId: string
    var appBundleId: Option<string>
    var testHostAppBundleId: Option<string>

    /**
      `args.run` names the sub-command that parsed the namespace; `app` and `ui` take an app
      bundle id and trailing test arguments (`[]` when none are given); only `ui` takes a test
      host app bundle id.
     */
    ghost predicate Valid()
      reads this
    {
      && options.run == command.Name()
      && (appBundleId.Some? <==> command != Logic)
      && (testHostAppBundleId.Some? <==> command == Ui)
      && (options.testArguments.Some? <==> command != Logic)
    }

    constructor (command: Command, options: RunOptions, testBundleId: string,
                 appBundleId: Option<string>, testHostAppBundleId: Option<string>)
      requires options.run == command.Name()
      requires appBundleId.Some? <==> command != Logic
      requires testHostAppBundleId.Some? <==> command == Ui
      requires options.testArguments.Some? <==> command != Logic
      ensures Valid()
      ensures this.command == command && this.options == options
      ensures this.testBundleId == testBundleId
      ensures this.appBundleId == appBundleId && this.testHostAppBundleId == testHostAppBundleId
    {
      this.command := command;
      this.options := options;
      this.testBundleId := testBundleId;
      this.appBundleId := appBundleId;
      this.testHostAppBundleId := testHostAppBundleId;
    }

    /** `CommonRunXcTestCommand.install_bundles`: each install response renames the test bundle. */
    method InstallTestBundle(responses: seq<string>)
      modifies this
      ensures testBundleId == LastName(old(testBundleId), responses)
      ensures appBundleId == old(appBundleId) && testHostAppBundleId == old(testHostAppBundleId)
    {
      for i := 0 to |responses|
        invariant testBundleId == LastName(old(testBundleId), responses[..i])
        invariant appBundleId == old(appBundleId) && testHostAppBundleId == old(testHostAppBundleId)
      {
        testBundleId := responses[i];
      }
      assert responses[..|responses|] == responses;
    }

    /** The app installs of `XctestRunAppCommand.install_bundles`: each renames the app bundle. */
    method InstallAppBundle(responses: seq<string>)
      requires appBundleId.Some?
      modifies this
      ensures appBundleId == Some(LastName(old(appBundleId).value, responses))
      ensures testBundleId == old(testBundleId) && testHostAppBundleId == old(testHostAppBundleId)
    {
      for i := 0 to |responses|
        invariant appBundleId == Some(LastName(old(appBundleId).value, responses[..i]))
        invariant testBundleId == old(testBundleId) && testHostAppBundleId == old(testHostAppBundleId)
      {
        appBundleId := Some(responses[i]);
      }
      assert responses[..|responses|] == responses;
    }

    /** The host installs of `XctestRunUICommand.install_bundles`: each renames the test host. */
    method InstallTestHostBundle(responses: seq<string>)
      requires testHostAppBundleId.Some?
      modifies this
      ensures testHostAppBundleId == Some(LastName(old(testHostAppBundleId).value, responses))
      ensures testBundleId == old(testBundleId) && appBundleId == old(appBundleId)
    {
      for i := 0 to |responses|
        invariant testHostAppBundleId == Some(LastName(old(testHostAppBundleId).value, responses[..i]))
        invariant testBundleId == old(testBundleId) && appBundleId == old(appBundleId)
      {
        testHostAppBundleId := Some(responses[i]);
      }
      assert responses[..|responses|] == responses;
    }

    /**
      The `install_bundles` of the sub-command's class: the test bundle first, then for `app`
      and `ui` the app, then for `ui` the test host; each id becomes the last name reported.
     */
    method InstallBundles(tests: seq<string>, apps: seq<string>, hosts: seq<string>)
      requires Valid()
      modifies this
      ensures Valid()
      ensures testBundleId == LastName(old(testBundleId), tests)
      ensures command != Logic ==> appBundleId == Some(LastName(old(appBundleId).value, apps))
      ensures command == Ui ==>
        testHostAppBundleId == Some(LastName(old(testHostAppBundleId).value, hosts))
      ensures command == Logic ==> appBundleId == old(appBundleId)
      ensures command != Ui ==> testHostAppBundleId == old(testHostAppBundleId)
    {
      InstallTestBundle(tests);
      if command != Logic {
        InstallAppBundle(apps);
      }
      if command == Ui {
        InstallTestHostBundle(hosts);
      }
    }

    /**
      `CommonRunXcTestCommand.run_with_client`: install when asked, derive the filters and
      flags, run, and exit with code 3 when some result crashed outside a test case.
      `tests`, `apps` and `hosts` are the names the install streams report; `results` is the
      stream of test results.
     */
    method RunWithClient(tests: seq<string>, apps: seq<string>, hosts: seq<string>,
                         results: seq<TestRunInfo>)
      returns (request: Option<RunRequest>, outcome: RunOutcome)
      requires Valid()
      modifies this
      ensures Valid()
      ensures options.install ==> testBundleId == LastName(old(testBundleId), tests)
      ensures options.install && command != Logic ==>
        appBundleId == Some(LastName(old(appBundleId).value, apps))
      ensures options.install && command == Ui ==>
        testHostAppBundleId == Some(LastName(old(testHostAppBundleId).value, hosts))
      ensures command == Logic ==> appBundleId == None
      ensures command != Ui ==> testHostAppBundleId == None
      ensures !options.install ==>
        testBundleId == old(testBundleId) && appBundleId == old(appBundleId)
        && testHostAppBundleId == old(testHostAppBundleId)
      ensures request.None? <==> ParseCoverageFormat(options.coverageFormat).None?
      ensures request.None? ==> outcome == UnknownCoverageFormat(options.coverageFormat)
      ensures request.Some? ==>
        && request.value.testBundleId == testBundleId
        && request.value.appBundleId == appBundleId
        && request.value.testHostAppBundleId == testHostAppBundleId
        && request.value.testsToSkip == TestsToSkip(command, options)
        && request.value.coverageFormat == ParseCoverageFormat(options.coverageFormat).value
        && (request.value.reportActivities <==> options.reportActivities || options.reportAttachments)
        && request.value.reportAttachments == options.reportAttachments
        && (request.value.isUiTest <==> command == Ui)
        && (request.value.isLogicTest <==> command == Logic)
        && request.value.waitForDebugger == options.waitForDebugger
        && request.value.timeout == options.timeout
        && request.value.resultBundlePath == options.resultBundlePath
        && request.value.activitiesOutputPath == options.activitiesOutputPath
        && request.value.coverageOutputPath == options.coverageOutputPath
        && request.value.logDirectoryPath == options.logDirectoryPath
        && (command != Logic ==> request.value.arguments == options.testArguments.value)
        && (command == Logic ==> request.value.arguments == [])
      ensures request.Some? && command != Logic ==>
        request.value.testsToRun == AppFilter(options.testsToRun)
      ensures request.Some? && command == Logic && NonEmpty(options.testToRun) ==>
        && request.value.testsToRun.Some?
        && forall t :: t in request.value.testsToRun.value <==> t in options.testToRun.value
      ensures (request.Some? && command == Logic && !NonEmpty(options.testToRun)
               && NonEmpty(options.testsToRun)) ==>
        request.value.testsToRun == Some({Join(options.testsToRun.value)})
      ensures (request.Some? && command == Logic && !NonEmpty(options.testToRun)
               && !NonEmpty(options.testsToRun)) ==>
        request.value.testsToRun == None
      ensures request.Some? ==>
        (outcome == ExitWithCode(3) <==>
          exists i :: 0 <= i < |results| && results[i].crashedOutsideTestCase)
      ensures request.Some? && outcome != ExitWithCode(3) ==> outcome == Completed
    {
      if options.install {
        InstallBundles(tests, apps, hosts);
      }
      var toRun := TestsToRun(command, options);
      var toSkip := TestsToSkip(command, options);
      var format := ParseCoverageFormat(options.coverageFormat);
      if format.None? {
        return None, UnknownCoverageFormat(options.coverageFormat);
      }
      var r := MakeRequest(options, testBundleId, appBundleId, testHostAppBundleId,
                           toRun, toSkip, format.value);
      request := Some(r);
      outcome := ConsumeResults(results);
    }
  }
}
