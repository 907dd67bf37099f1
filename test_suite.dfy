/** Tests and test suites as the executors see them, the metadata reported for them, and
    the lifecycle a single test goes through: register setup, set up, register setup
    completion, register execution, run. */
module TestSuites {
  import opened Wrappers
  import opened CoreApi
  import opened Retry
  import opened TestConfigurations

  /** The network object a test's setup returns (opaque to the library). */
  datatype Network = Network(handle: nat)

  /** What a test's Setup yields: an error, or a network, which in Go may be nil (None). */
  datatype SetupOutcome = SetupFailed(message: string) | SetupReturned(network: Option<Network>)

  /** How a test's Run ends: it returns (with or without an error), or it panics with an
      error value, or it panics with a value that is not an error. */
  datatype RunOutcome = Returned(err: Option<string>) | PanickedWithError(message: string) | PanickedWithValue

  /** A test. `configure` is the sequence of builder setter calls its Configure makes;
      `setup` gets the files-artifact URLs its network context is built from. */
  datatype Test = Test(
    configure: seq<Setter>,
    setup: map<FilesArtifactId, string> -> SetupOutcome,
    run: Option<Network> -> RunOutcome)

  type StaticFileId = string

  /** A suite: its tests by name, the network width and (in the newer service) the
      declared static files, id -> source path. */
  datatype TestSuite = TestSuite(
    tests: map<string, Test>,
    networkWidthBits: uint32,
    staticFiles: map<StaticFileId, string>)

  /** A suite's configurator: whether setting the log level succeeds, and the suite that
      parsing the parameters creates, if parsing succeeds. */
  datatype Configurator = Configurator(
    setLogLevel: string -> bool,
    parseParamsAndCreateSuite: string -> Option<TestSuite>)

  const GoDefaultConfig := TestConfiguration(GoDefaultSetupTimeoutSeconds, GoDefaultRunTimeoutSeconds, DefaultPartitioningEnabled, map[])
  const RustDefaultConfig := TestConfiguration(RustDefaultSetupTimeoutSeconds, RustDefaultRunTimeoutSeconds, DefaultPartitioningEnabled, map[])

  /** The configuration a Go test builds on a fresh builder. */
  function GoTestConfig(test: Test): TestConfiguration
  {
    Configure(GoDefaultConfig, test.configure)
  }

  /** The configuration a Rust test builds on a fresh builder. */
  function RustTestConfig(test: Test): TestConfiguration
  {
    Configure(RustDefaultConfig, test.configure)
  }

  // ---------------------------------------------------------------------------------
  // Metadata

  datatype TestMetadata = TestMetadata(
    isPartitioningEnabled: bool,
    usedArtifactUrls: map<string, bool>,
    testSetupTimeoutInSeconds: uint32,
    testRunTimeoutInSeconds: uint32)

  /** The pseudo-set of the URLs a test's artifacts are downloaded from. */
  function UsedArtifactUrls(urls: map<FilesArtifactId, string>): map<string, bool>
  {
    map u | u in urls.Values :: true
  }

  /** The used-URL set holds exactly the artifact URLs, each marked true. */
  lemma UsedArtifactUrlsSpec(urls: map<FilesArtifactId, string>, u: string)
    ensures u in UsedArtifactUrls(urls) <==> exists id :: id in urls && urls[id] == u
    ensures u in UsedArtifactUrls(urls) ==> UsedArtifactUrls(urls)[u]
  {
    if u in UsedArtifactUrls(urls) {
      var id :| id in urls && urls[id] == u;
    }
  }

  function MetadataOf(config: TestConfiguration): TestMetadata
  {
    TestMetadata(config.isPartitioningEnabled, UsedArtifactUrls(config.filesArtifactUrls),
                 config.setupTimeoutSeconds, config.runTimeoutSeconds)
  }

  /** The metadata of every test of a suite, configured from the given defaults. */
  function AllTestMetadata(tests: map<string, Test>, defaults: TestConfiguration): map<string, TestMetadata>
  {
    map name | name in tests :: MetadataOf(Configure(defaults, tests[name].configure))
  }

  /** The loop over a test configuration's artifact URLs. */
  method CollectUsedArtifactUrls(urls: map<FilesArtifactId, string>) returns (used: map<string, bool>)
    ensures used == UsedArtifactUrls(urls)
  {
    used := map[];
    var remaining := urls.Keys;
    ghost var seen: set<string> := {};
    while remaining != {}
      invariant remaining <= urls.Keys
      invariant seen == set id | id in urls.Keys - remaining :: urls[id]
      invariant used == map u | u in seen :: true
      decreases |remaining|
    {
      var id :| id in remaining;
      used := used[urls[id] := true];
      seen := seen + {urls[id]};
      remaining := remaining - {id};
    }
    assert seen == urls.Values;
  }

  /** The loop over a suite's tests: configure each on a fresh builder and record its
      metadata under its name. */
  method CollectAllTestMetadata(tests: map<string, Test>, defaults: TestConfiguration) returns (all: map<string, TestMetadata>)
    ensures all == AllTestMetadata(tests, defaults)
  {
    all := map[];
    var remaining := tests.Keys;
    while remaining != {}
      invariant remaining <= tests.Keys
      invariant all == map name | name in tests.Keys - remaining :: MetadataOf(Configure(defaults, tests[name].configure))
      decreases |remaining|
    {
      var name :| name in remaining;
      var config := Configure(defaults, tests[name].configure);
      var used := CollectUsedArtifactUrls(config.filesArtifactUrls);
      all := all[name := TestMetadata(config.isPartitioningEnabled, used, config.setupTimeoutSeconds, config.runTimeoutSeconds)];
      remaining := remaining - {name};
    }
    assert tests.Keys - remaining == tests.Keys;
  }

  /** The metadata of a test copies its partitioning flag and timeouts from its
      configuration; a test that sets nothing reports the defaults. */
  lemma MetadataCopiesConfig(tests: map<string, Test>, defaults: TestConfiguration, name: string)
    requires name in tests
    ensures name in AllTestMetadata(tests, defaults)
    ensures var m := AllTestMetadata(tests, defaults)[name];
      var c := Configure(defaults, tests[name].configure);
      && m.isPartitioningEnabled == c.isPartitioningEnabled
      && m.testSetupTimeoutInSeconds == c.setupTimeoutSeconds
      && m.testRunTimeoutInSeconds == c.runTimeoutSeconds
    ensures tests[name].configure == [] ==>
      AllTestMetadata(tests, defaults)[name] == TestMetadata(defaults.isPartitioningEnabled, UsedArtifactUrls(defaults.filesArtifactUrls),
                                                             defaults.setupTimeoutSeconds, defaults.runTimeoutSeconds)
  {
  }

  // ---------------------------------------------------------------------------------
  // Running a test

  /** How a test error reaches the caller: returned by Run, or recovered from a panic. */
  datatype TestError = ReturnedError(message: string) | RecoveredPanic(message: string)

  datatype TestRunResult = Passed | Failed(error: TestError) | Crashed

  /** Go `runTest`: a returned error is wrapped, a panic with an error value is recovered
      into the result, and a panic with any other value makes the recovery's type
      assertion panic in turn, which ends the program. */
  function GoRunTest(test: Test, network: Option<Network>): (r: TestRunResult)
    ensures r.Passed? <==> test.run(network) == Returned(None)
    ensures r.Crashed? <==> test.run(network).PanickedWithValue?
    ensures test.run(network).PanickedWithError? ==> r == Failed(RecoveredPanic(test.run(network).message))
  {
    match test.run(network)
    case Returned(None) => Passed
    case Returned(Some(e)) => Failed(ReturnedError(e))
    case PanickedWithError(e) => Failed(RecoveredPanic(e))
    case PanickedWithValue => Crashed
  }

  /** Rust `run`: only a returned error is an error; nothing recovers a panic. */
  function RustRunTest(test: Test, network: Option<Network>): (r: TestRunResult)
    ensures r.Passed? <==> test.run(network) == Returned(None)
    ensures r.Crashed? <==> !test.run(network).Returned?
  {
    match test.run(network)
    case Returned(None) => Passed
    case Returned(Some(e)) => Failed(ReturnedError(e))
    case _ => Crashed
  }

  datatype LifecycleStep = RegisterTestSetup | Setup | RegisterTestSetupCompletion | RegisterTestExecution | Run

  /** The fixed order of the lifecycle calls. */
  const LifecycleOrder: seq<LifecycleStep> := [RegisterTestSetup, Setup, RegisterTestSetupCompletion, RegisterTestExecution, Run]

  /** The API container's answers to the three registration calls. */
  datatype LifecycleApi = LifecycleApi(
    registerTestSetup: bool,
    registerTestSetupCompletion: bool,
    registerTestExecution: bool)

  datatype LifecycleError = StepFailed(step: LifecycleStep) | TestFailed(error: TestError) | TestCrashed

  /** Whether each lifecycle step, in order, succeeds. */
  function LifecycleOks(api: LifecycleApi, test: Test, urls: map<FilesArtifactId, string>,
                        runTest: (Test, Option<Network>) -> TestRunResult): seq<bool>
  {
    var s := test.setup(urls);
    [api.registerTestSetup, s.SetupReturned?, api.registerTestSetupCompletion, api.registerTestExecution,
     s.SetupReturned? && runTest(test, s.network).Passed?]
  }

  /** Step k fails. */
  function FailsAt(oks: seq<bool>): nat -> bool
  {
    (k: nat) => k < |oks| && !oks[k]
  }

  /** The index of the first failing step, if any. */
  function FirstFailure(oks: seq<bool>): Option<nat>
  {
    FirstSuccess(FailsAt(oks), |oks|)
  }

  /** How many steps are performed: up to and including the first failure. */
  function StepsTaken(oks: seq<bool>): (n: nat)
    ensures n <= |oks|
  {
    AttemptsBounded(FailsAt(oks), |oks|);
    AttemptsMade(FailsAt(oks), |oks|)
  }

  /** The first failure is a failing step after only succeeding ones, the steps
      performed stop right at it, and without a failure every step is performed. */
  lemma FirstFailureSpec(oks: seq<bool>)
    ensures StepsTaken(oks) <= |oks|
    ensures FirstFailure(oks).Some? ==>
      var i := FirstFailure(oks).value;
      i < |oks| && !oks[i] && (forall j :: 0 <= j < i ==> oks[j]) && StepsTaken(oks) == i + 1
    ensures FirstFailure(oks).None? <==> forall j :: 0 <= j < |oks| ==> oks[j]
    ensures FirstFailure(oks).None? ==> StepsTaken(oks) == |oks|
  {
    var ok := FailsAt(oks);
    FirstSuccessSpec(ok, |oks|);
    if FirstFailure(oks).None? {
      forall j | 0 <= j < |oks| ensures oks[j] {
        assert !ok(j);
      }
    } else {
      var i := FirstFailure(oks).value;
      forall j | 0 <= j < i ensures oks[j] {
        assert !ok(j);
      }
    }
  }

  /** A failing step after only succeeding ones is the first failure. */
  lemma FirstFailureAt(oks: seq<bool>, i: nat)
    requires i < |oks| && !oks[i]
    requires forall j :: 0 <= j < i ==> oks[j]
    ensures FirstFailure(oks) == Some(i) && StepsTaken(oks) == i + 1
  {
    var ok := FailsAt(oks);
    forall j | 0 <= j < i ensures !ok(j) {
      assert oks[j];
    }
    FirstSuccessUnique(ok, |oks|, i);
  }

  /** The error a lifecycle that fails at step i reports. */
  function LifecycleErrorAt(test: Test, urls: map<FilesArtifactId, string>, runTest: (Test, Option<Network>) -> TestRunResult, i: nat): LifecycleError
  {
    if i == 4 && test.setup(urls).SetupReturned? then
      match runTest(test, test.setup(urls).network)
      case Failed(e) => TestFailed(e)
      case Crashed => TestCrashed
      case Passed => StepFailed(Run)
    else if i < 5 then StepFailed(LifecycleOrder[i])
    else StepFailed(Run)
  }

  /** Performs the lifecycle of one test whose network context is built from `urls`;
      `runTest` is the language's way of running the test. */
  method RunLifecycle(api: LifecycleApi, test: Test, urls: map<FilesArtifactId, string>,
                      runTest: (Test, Option<Network>) -> TestRunResult)
    returns (r: Result<(), LifecycleError>, steps: seq<LifecycleStep>)
    ensures steps == LifecycleOrder[..StepsTaken(LifecycleOks(api, test, urls, runTest))]
    ensures r.Ok? <==> FirstFailure(LifecycleOks(api, test, urls, runTest)).None?
    ensures r.Err? ==> r.error == LifecycleErrorAt(test, urls, runTest, FirstFailure(LifecycleOks(api, test, urls, runTest)).value)
  {
    ghost var oks := LifecycleOks(api, test, urls, runTest);
    ghost var ok := FailsAt(oks);
    steps := [RegisterTestSetup];
    if !api.registerTestSetup {
      FirstSuccessUnique(ok, 5, 0);
      return Err(StepFailed(RegisterTestSetup)), steps;
    }
    steps := steps + [Setup];
    var setup := test.setup(urls);
    if !setup.SetupReturned? {
      FirstSuccessUnique(ok, 5, 1);
      return Err(StepFailed(Setup)), steps;
    }
    steps := steps + [RegisterTestSetupCompletion];
    if !api.registerTestSetupCompletion {
      FirstSuccessUnique(ok, 5, 2);
      return Err(StepFailed(RegisterTestSetupCompletion)), steps;
    }
    steps := steps + [RegisterTestExecution];
    if !api.registerTestExecution {
      FirstSuccessUnique(ok, 5, 3);
      return Err(StepFailed(RegisterTestExecution)), steps;
    }
    steps := steps + [Run];
    var result := runTest(test, setup.network);
    if !result.Passed? {
      FirstSuccessUnique(ok, 5, 4);
      if result.Failed? {
        return Err(TestFailed(result.error)), steps;
      }
      return Err(TestCrashed), steps;
    }
    FirstSuccessSpec(ok, 5);
    assert !ok(0) && !ok(1) && !ok(2) && !ok(3) && !ok(4);
    r := Ok(());
  }

  /** A lifecycle that fails at some step performs that step last and none after it; a
      lifecycle performs the run exactly when every earlier step succeeded. */
  lemma LifecycleStopsAtFailure(api: LifecycleApi, test: Test, urls: map<FilesArtifactId, string>,
                                runTest: (Test, Option<Network>) -> TestRunResult)
    ensures var oks := LifecycleOks(api, test, urls, runTest);
      var steps := LifecycleOrder[..StepsTaken(oks)];
      && 1 <= |steps| && steps[0] == RegisterTestSetup
      && (Run in steps <==> api.registerTestSetup && test.setup(urls).SetupReturned? && api.registerTestSetupCompletion && api.registerTestExecution)
      && (FirstFailure(oks).Some? ==> steps[|steps| - 1] == LifecycleOrder[FirstFailure(oks).value])
  {
    var oks := LifecycleOks(api, test, urls, runTest);
    FirstFailureSpec(oks);
    if !api.registerTestSetup {
      FirstFailureAt(oks, 0);
    } else if !test.setup(urls).SetupReturned? {
      FirstFailureAt(oks, 1);
    } else if !api.registerTestSetupCompletion {
      FirstFailureAt(oks, 2);
    } else if !api.registerTestExecution {
      FirstFailureAt(oks, 3);
    } else if !oks[4] {
      FirstFailureAt(oks, 4);
      assert LifecycleOrder[..StepsTaken(oks)][4] == Run;
    } else {
      assert forall j :: 0 <= j < |oks| ==> oks[j];
      assert StepsTaken(oks) == 5;
      assert LifecycleOrder[..5][4] == Run;
    }
  }
}
