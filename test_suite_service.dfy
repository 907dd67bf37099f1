/** The Go test-suite gRPC service: it reports the suite's metadata, copies the static
    files the API container asks for, and sets up and then runs one test. Its one piece
    of state is the record of the last successful setup. */
module TestSuiteServices {
  import opened Wrappers
  import opened CoreApi
  import Strings
  import opened TestConfigurations
  import opened TestSuites

  /** The metadata the service reports; static-file ids form a pseudo-set. */
  datatype ServiceSuiteMetadata = ServiceSuiteMetadata(
    testMetadata: map<string, TestMetadata>,
    networkWidthBits: uint32,
    staticFiles: map<StaticFileId, bool>)

  function StaticFileKeys(staticFiles: map<StaticFileId, string>): map<StaticFileId, bool>
  {
    map id | id in staticFiles :: true
  }

  /** What `GetTestSuiteMetadata` reports for a suite. */
  function ServiceMetadata(suite: TestSuite): ServiceSuiteMetadata
  {
    ServiceSuiteMetadata(AllTestMetadata(suite.tests, GoDefaultConfig), suite.networkWidthBits, StaticFileKeys(suite.staticFiles))
  }

  /** One entry per test, each as its Go configuration describes it, the suite's width,
      and exactly the declared static-file ids, each marked true. */
  lemma ServiceMetadataSpec(suite: TestSuite)
    ensures var m := ServiceMetadata(suite);
      && m.testMetadata.Keys == suite.tests.Keys
      && (forall name :: name in suite.tests ==> m.testMetadata[name] == MetadataOf(GoTestConfig(suite.tests[name])))
      && m.networkWidthBits == suite.networkWidthBits
      && m.staticFiles.Keys == suite.staticFiles.Keys
      && (forall id :: id in m.staticFiles ==> m.staticFiles[id])
  {
  }

  /** The loop over the declared static files. */
  method CollectStaticFileKeys(staticFiles: map<StaticFileId, string>) returns (keys: map<StaticFileId, bool>)
    ensures keys == StaticFileKeys(staticFiles)
  {
    keys := map[];
    var remaining := staticFiles.Keys;
    while remaining != {}
      invariant remaining <= staticFiles.Keys
      invariant keys == map id | id in staticFiles.Keys - remaining :: true
      decreases |remaining|
    {
      var id :| id in remaining;
      keys := keys[id := true];
      remaining := remaining - {id};
    }
    assert staticFiles.Keys - remaining == staticFiles.Keys;
  }

  /** The test-suite container's file system: whether a path exists, and whether copying
      one file onto another (open, create, copy) succeeds. */
  datatype Disk = Disk(pathExists: string -> bool, copyOk: (string, string) -> bool)

  datatype StaticFileError =
    | UndeclaredStaticFile(id: StaticFileId)
    | MissingSource(id: StaticFileId, path: string)
    | MissingDestination(id: StaticFileId, relativePath: string)
    | CopyFailed(id: StaticFileId)

  /** Where a static file is copied to: under the suite execution volume. */
  function DestinationPath(relativePath: string): string
  {
    Strings.Join(SuiteExVolMountpoint, relativePath)
  }

  /** A requested static file is declared by the suite, its source exists and a file
      has been created at its destination. */
  predicate ValidRequest(suite: TestSuite, requests: map<StaticFileId, string>, disk: Disk, id: StaticFileId)
    requires id in requests
  {
    && id in suite.staticFiles
    && disk.pathExists(suite.staticFiles[id])
    && disk.pathExists(DestinationPath(requests[id]))
  }

  /** The error the validation reports for an invalid request. */
  function ValidationError(suite: TestSuite, requests: map<StaticFileId, string>, disk: Disk, id: StaticFileId): StaticFileError
    requires id in requests
  {
    if id !in suite.staticFiles then UndeclaredStaticFile(id)
    else if !disk.pathExists(suite.staticFiles[id]) then MissingSource(id, suite.staticFiles[id])
    else MissingDestination(id, requests[id])
  }

  predicate AllValid(suite: TestSuite, requests: map<StaticFileId, string>, disk: Disk)
  {
    forall id :: id in requests ==> ValidRequest(suite, requests, disk, id)
  }

  /** Copying a valid request succeeds. */
  predicate CopySucceeds(suite: TestSuite, requests: map<StaticFileId, string>, disk: Disk, id: StaticFileId)
    requires id in requests && ValidRequest(suite, requests, disk, id)
  {
    disk.copyOk(suite.staticFiles[id], DestinationPath(requests[id]))
  }

  predicate Distinct(s: seq<StaticFileId>)
  {
    forall i, j :: 0 <= i < j < |s| ==> s[i] != s[j]
  }

  datatype SetupInfo = SetupInfo(network: Network, testName: string)

  datatype ServiceError =
    | NoApiClient
    | NoSuchTest(name: string)
    | SetupErrored(message: string)
    | NilNetwork
    | NotSetUp
    | TestRunFailed(error: TestError)
    | TestRunCrashed

  /** What `SetupTest` records, or the error it reports. */
  function SetupOutcomeOf(suite: TestSuite, hasApiClient: bool, testName: string): Result<SetupInfo, ServiceError>
  {
    if !hasApiClient then Err(NoApiClient)
    else if testName !in suite.tests then Err(NoSuchTest(testName))
    else
      var test := suite.tests[testName];
      match test.setup(GoTestConfig(test).filesArtifactUrls)
      case SetupFailed(message) => Err(SetupErrored(message))
      case SetupReturned(None) => Err(NilNetwork)
      case SetupReturned(Some(network)) => Ok(SetupInfo(network, testName))
  }

  /** What `RunTest` reports given the recorded setup. */
  function RunOutcomeOf(suite: TestSuite, hasApiClient: bool, setup: Option<SetupInfo>): Result<(), ServiceError>
  {
    if !hasApiClient then Err(NoApiClient)
    else match setup
      case None => Err(NotSetUp)
      case Some(info) =>
        if info.testName !in suite.tests then Err(NoSuchTest(info.testName))
        else match GoRunTest(suite.tests[info.testName], Some(info.network))
          case Passed => Ok(())
          case Failed(e) => Err(TestRunFailed(e))
          case Crashed => Err(TestRunCrashed)
  }

  /** A setup is recorded exactly when there is an API client, the test exists and its
      setup, given the network context of the test's artifact URLs, returns a non-nil
      network; the record names that network and test. */
  lemma SetupRecordsOnlyRealNetworks(suite: TestSuite, hasApiClient: bool, testName: string)
    ensures SetupOutcomeOf(suite, hasApiClient, testName).Ok? <==>
      && hasApiClient && testName in suite.tests
      && suite.tests[testName].setup(GoTestConfig(suite.tests[testName]).filesArtifactUrls).SetupReturned?
      && suite.tests[testName].setup(GoTestConfig(suite.tests[testName]).filesArtifactUrls).network.Some?
    ensures SetupOutcomeOf(suite, hasApiClient, testName).Ok? ==>
      var info := SetupOutcomeOf(suite, hasApiClient, testName).value;
      info.testName == testName
      && Some(info.network) == suite.tests[testName].setup(GoTestConfig(suite.tests[testName]).filesArtifactUrls).network
    ensures !hasApiClient ==> SetupOutcomeOf(suite, hasApiClient, testName) == Err(NoApiClient)
    ensures hasApiClient && testName !in suite.tests ==> SetupOutcomeOf(suite, hasApiClient, testName) == Err(NoSuchTest(testName))
  {
  }

  /** A run before any successful setup, or without an API client, errors; after one,
      the run succeeds exactly when the recorded test, run on the recorded network,
      passes. */
  lemma RunNeedsSetup(suite: TestSuite, hasApiClient: bool, setup: Option<SetupInfo>)
    ensures !hasApiClient ==> RunOutcomeOf(suite, hasApiClient, setup) == Err(NoApiClient)
    ensures hasApiClient && setup.None? ==> RunOutcomeOf(suite, hasApiClient, setup) == Err(NotSetUp)
    ensures RunOutcomeOf(suite, hasApiClient, setup).Ok? <==>
      && hasApiClient && setup.Some? && setup.value.testName in suite.tests
      && suite.tests[setup.value.testName].run(Some(setup.value.network)) == Returned(None)
  {
  }

  /** Setting a test up and then running it runs that test on the network its setup
      returned. */
  lemma SetupThenRun(suite: TestSuite, testName: string)
    requires SetupOutcomeOf(suite, true, testName).Ok?
    ensures var test := suite.tests[testName];
      var network := test.setup(GoTestConfig(test).filesArtifactUrls).network;
      RunOutcomeOf(suite, true, Some(SetupOutcomeOf(suite, true, testName).value)).Ok? <==>
        test.run(network) == Returned(None)
  {
  }

  class TestSuiteService {
    const suite: TestSuite
    const hasApiClient: bool
    var testSetupInfo: Option<SetupInfo>

    /** `NewTestSuiteService`: nothing is set up yet. */
    constructor (suite: TestSuite, hasApiClient: bool)
      ensures this.suite == suite && this.hasApiClient == hasApiClient && testSetupInfo == None
    {
      this.suite := suite;
      this.hasApiClient := hasApiClient;
      testSetupInfo := None;
    }

    method GetTestSuiteMetadata() returns (m: ServiceSuiteMetadata)
      ensures m == ServiceMetadata(suite)
    {
      var all := CollectAllTestMetadata(suite.tests, GoDefaultConfig);
      var keys := CollectStaticFileKeys(suite.staticFiles);
      m := ServiceSuiteMetadata(all, suite.networkWidthBits, keys);
    }

    /** Validates every request before copying any file, then copies each requested
        file once; `copied` lists the files copied, in the order copied. */
    method CopyStaticFilesToExecutionVolume(requests: map<StaticFileId, string>, disk: Disk)
      returns (r: Result<(), StaticFileError>, copied: seq<StaticFileId>)
      ensures !AllValid(suite, requests, disk) ==>
        && r.Err? && copied == []
        && exists id :: id in requests && !ValidRequest(suite, requests, disk, id) && r.error == ValidationError(suite, requests, disk, id)
      ensures r.Ok? <==> AllValid(suite, requests, disk) && forall id :: id in requests ==> CopySucceeds(suite, requests, disk, id)
      ensures AllValid(suite, requests, disk) && r.Err? ==>
        exists id :: id in requests && !CopySucceeds(suite, requests, disk, id) && r == Err(CopyFailed(id))
      ensures Distinct(copied)
      ensures forall id :: id in copied ==> id in requests && ValidRequest(suite, requests, disk, id) && CopySucceeds(suite, requests, disk, id)
      ensures r.Ok? ==> forall id :: id in requests ==> id in copied
    {
      var sources: map<StaticFileId, string> := map[];
      var destinations: map<StaticFileId, string> := map[];
      var remaining := requests.Keys;
      while remaining != {}
        invariant remaining <= requests.Keys
        invariant sources.Keys == destinations.Keys == requests.Keys - remaining
        invariant forall id :: id in sources ==>
          ValidRequest(suite, requests, disk, id) && sources[id] == suite.staticFiles[id] && destinations[id] == DestinationPath(requests[id])
        decreases |remaining|
      {
        var id :| id in remaining;
        if id !in suite.staticFiles {
          return Err(UndeclaredStaticFile(id)), [];
        }
        var source := suite.staticFiles[id];
        if !disk.pathExists(source) {
          return Err(MissingSource(id, source)), [];
        }
        var destination := DestinationPath(requests[id]);
        if !disk.pathExists(destination) {
          return Err(MissingDestination(id, requests[id])), [];
        }
        sources := sources[id := source];
        destinations := destinations[id := destination];
        remaining := remaining - {id};
      }
      assert AllValid(suite, requests, disk) by {
        forall id | id in requests ensures ValidRequest(suite, requests, disk, id) {
          assert id in sources;
        }
      }

      copied := [];
      remaining := requests.Keys;
      while remaining != {}
        invariant remaining <= requests.Keys
        invariant forall id :: id in copied <==> id in requests.Keys - remaining
        invariant Distinct(copied)
        invariant forall id :: id in copied ==> CopySucceeds(suite, requests, disk, id)
        decreases |remaining|
      {
        var id :| id in remaining;
        if !disk.copyOk(sources[id], destinations[id]) {
          return Err(CopyFailed(id)), copied;
        }
        assert id !in copied;
        assert forall i :: 0 <= i < |copied| ==> copied[i] != id;
        copied := copied + [id];
        remaining := remaining - {id};
      }
      r := Ok(());
    }

    /** Sets up the named test and records it; on any error the record is unchanged. */
    method SetupTest(testName: string) returns (r: Result<(), ServiceError>)
      modifies this
      ensures match SetupOutcomeOf(suite, hasApiClient, testName)
        case Ok(info) => r == Ok(()) && testSetupInfo == Some(info)
        case Err(e) => r == Err(e) && testSetupInfo == old(testSetupInfo)
    {
      if !hasApiClient {
        return Err(NoApiClient);
      }
      if testName !in suite.tests {
        return Err(NoSuchTest(testName));
      }
      var test := suite.tests[testName];
      var builder := new TestConfigurationBuilder.NewGo();
      CallSetters(builder, test.configure);
      var config := builder.Build();
      var setup := test.setup(config.filesArtifactUrls);
      if setup.SetupFailed? {
        return Err(SetupErrored(setup.message));
      }
      if setup.network.None? {
        return Err(NilNetwork);
      }
      testSetupInfo := Some(SetupInfo(setup.network.value, testName));
      r := Ok(());
    }

    /** Runs the test recorded at setup on the recorded network. */
    method RunTest() returns (r: Result<(), ServiceError>)
      ensures r == RunOutcomeOf(suite, hasApiClient, testSetupInfo)
    {
      if !hasApiClient {
        return Err(NoApiClient);
      }
      if testSetupInfo.None? {
        return Err(NotSetUp);
      }
      var info := testSetupInfo.value;
      if info.testName !in suite.tests {
        return Err(NoSuchTest(info.testName));
      }
      var result := GoRunTest(suite.tests[info.testName], Some(info.network));
      match result {
        case Passed => r := Ok(());
        case Failed(e) => r := Err(TestRunFailed(e));
        case Crashed => r := Err(TestRunCrashed);
      }
    }
  }
}
