/** The Go test-suite executor: set the log level, parse the parameters, dial the API
    container, register the suite (with bounded retries), then run the flow the
    registration's action asks for. Each remote call is an oracle in `GoApi`. */
module GoExecution {
  import opened Wrappers
  import opened Retry
  import opened TestConfigurations
  import opened TestSuites

  const MaxSuiteRegistrationRetries: nat := 20
  const TimeBetweenSuiteRegistrationRetriesMillis: nat := 500

  datatype SuiteAction = SerializeSuiteMetadata | ExecuteTest | UnknownAction(code: int)

  datatype TestSuiteMetadata = TestSuiteMetadata(
    testMetadata: map<string, TestMetadata>,
    networkWidthBits: uint32)

  /** The API container's answers: whether dialing succeeds, the answer to the k-th
      registration attempt (None is an error), whether the metadata is accepted, the
      name of the test to execute (None is an error), and the lifecycle calls. */
  datatype GoApi = GoApi(
    dialOk: bool,
    registerSuite: nat -> Option<SuiteAction>,
    serializeSuiteMetadataOk: TestSuiteMetadata -> bool,
    testExecutionInfo: Option<string>,
    lifecycle: LifecycleApi)

  /** The calls the executor makes, in order. */
  datatype Event =
    | SetLogLevel
    | ParseParams
    | Dial
    | Registration(retry: RetryEvent)
    | SendSuiteMetadata(metadata: TestSuiteMetadata)
    | GetTestExecutionInfo
    | Lifecycle(step: LifecycleStep)

  datatype ExecutionError =
    | LogLevelRejected
    | ParamsRejected
    | DialFailed
    | RegistrationGaveUp(retries: nat, millisBetween: nat)
    | UnrecognizedAction(code: int)
    | MetadataNotSent
    | ExecutionInfoUnavailable
    | NoSuchTest(name: string)
    | TestLifecycleFailed(error: LifecycleError)

  type Outcome = (Result<(), ExecutionError>, seq<Event>)

  function RegistrationEvents(retries: seq<RetryEvent>): (es: seq<Event>)
    ensures |es| == |retries| && forall i :: 0 <= i < |retries| ==> es[i] == Registration(retries[i])
  {
    seq(|retries|, i requires 0 <= i < |retries| => Registration(retries[i]))
  }

  function LifecycleEvents(steps: seq<LifecycleStep>): (es: seq<Event>)
    ensures |es| == |steps| && forall i :: 0 <= i < |steps| ==> es[i] == Lifecycle(steps[i])
  {
    seq(|steps|, i requires 0 <= i < |steps| => Lifecycle(steps[i]))
  }

  /** Registration attempt k succeeds. */
  function RegistrationOk(api: GoApi): nat -> bool
  {
    (k: nat) => api.registerSuite(k).Some?
  }

  /** The metadata the suite reports: every test's metadata from a fresh Go builder,
      and the suite's network width. */
  function SuiteMetadata(suite: TestSuite): TestSuiteMetadata
  {
    TestSuiteMetadata(AllTestMetadata(suite.tests, GoDefaultConfig), suite.networkWidthBits)
  }

  /** What `runSerializeSuiteMetadataFlow` does. */
  function MetadataFlow(suite: TestSuite, api: GoApi): Outcome
  {
    var m := SuiteMetadata(suite);
    (if api.serializeSuiteMetadataOk(m) then Ok(()) else Err(MetadataNotSent), [SendSuiteMetadata(m)])
  }

  /** The outcome of the lifecycle of a known test. */
  function TestLifecycle(api: GoApi, test: Test): Outcome
  {
    var urls := GoTestConfig(test).filesArtifactUrls;
    var oks := LifecycleOks(api.lifecycle, test, urls, GoRunTest);
    (if FirstFailure(oks).None? then Ok(())
     else Err(TestLifecycleFailed(LifecycleErrorAt(test, urls, GoRunTest, FirstFailure(oks).value))),
     LifecycleEvents(LifecycleOrder[..StepsTaken(oks)]))
  }

  /** What `runTestExecutionFlow` does. */
  function TestFlow(suite: TestSuite, api: GoApi): Outcome
  {
    match api.testExecutionInfo
    case None => (Err(ExecutionInfoUnavailable), [GetTestExecutionInfo])
    case Some(name) =>
      if name !in suite.tests then (Err(NoSuchTest(name)), [GetTestExecutionInfo])
      else
        var o := TestLifecycle(api, suite.tests[name]);
        (o.0, [GetTestExecutionInfo] + o.1)
  }

  /** The calls up to and including the registration attempts. */
  function RegistrationPrefix(api: GoApi): seq<Event>
  {
    [SetLogLevel, ParseParams, Dial]
      + RegistrationEvents(RetryTrace(RegistrationOk(api), MaxSuiteRegistrationRetries, TimeBetweenSuiteRegistrationRetriesMillis))
  }

  /** The dispatch on the action of the first successful registration. */
  function Dispatch(suite: TestSuite, api: GoApi, action: SuiteAction): Outcome
  {
    match action
    case SerializeSuiteMetadata => MetadataFlow(suite, api)
    case ExecuteTest => TestFlow(suite, api)
    case UnknownAction(code) => (Err(UnrecognizedAction(code)), [])
  }

  /** What `TestSuiteExecutor.Run` does. */
  function GoRun(configurator: Configurator, api: GoApi, logLevel: string, params: string): Outcome
  {
    if !configurator.setLogLevel(logLevel) then (Err(LogLevelRejected), [SetLogLevel])
    else match configurator.parseParamsAndCreateSuite(params)
      case None => (Err(ParamsRejected), [SetLogLevel, ParseParams])
      case Some(suite) =>
        if !api.dialOk then (Err(DialFailed), [SetLogLevel, ParseParams, Dial])
        else match FirstSuccess(RegistrationOk(api), MaxSuiteRegistrationRetries)
          case None =>
            (Err(RegistrationGaveUp(MaxSuiteRegistrationRetries, TimeBetweenSuiteRegistrationRetriesMillis)), RegistrationPrefix(api))
          case Some(k) =>
            FirstSuccessSpec(RegistrationOk(api), MaxSuiteRegistrationRetries);
            var o := Dispatch(suite, api, api.registerSuite(k).value);
            (o.0, RegistrationPrefix(api) + o.1)
  }

  /** Builds the suite metadata and sends it. */
  method RunSerializeSuiteMetadataFlow(suite: TestSuite, api: GoApi) returns (r: Result<(), ExecutionError>, events: seq<Event>)
    ensures (r, events) == MetadataFlow(suite, api)
  {
    var all := CollectAllTestMetadata(suite.tests, GoDefaultConfig);
    var metadata := TestSuiteMetadata(all, suite.networkWidthBits);
    events := [SendSuiteMetadata(metadata)];
    if !api.serializeSuiteMetadataOk(metadata) {
      return Err(MetadataNotSent), events;
    }
    r := Ok(());
  }

  /** Looks up the test the API container names, builds its configuration on a fresh
      builder and runs its lifecycle. */
  method RunTestExecutionFlow(suite: TestSuite, api: GoApi) returns (r: Result<(), ExecutionError>, events: seq<Event>)
    ensures (r, events) == TestFlow(suite, api)
  {
    events := [GetTestExecutionInfo];
    if api.testExecutionInfo.None? {
      return Err(ExecutionInfoUnavailable), events;
    }
    var name := api.testExecutionInfo.value;
    if name !in suite.tests {
      return Err(NoSuchTest(name)), events;
    }
    var test := suite.tests[name];
    var builder := new TestConfigurationBuilder.NewGo();
    CallSetters(builder, test.configure);
    var config := builder.Build();
    var result, steps := RunLifecycle(api.lifecycle, test, config.filesArtifactUrls, GoRunTest);
    events := events + LifecycleEvents(steps);
    if result.Err? {
      return Err(TestLifecycleFailed(result.error)), events;
    }
    r := Ok(());
  }

  /** `TestSuiteExecutor.Run`. */
  method Run(configurator: Configurator, api: GoApi, logLevel: string, params: string) returns (r: Result<(), ExecutionError>, events: seq<Event>)
    ensures (r, events) == GoRun(configurator, api, logLevel, params)
  {
    events := [SetLogLevel];
    if !configurator.setLogLevel(logLevel) {
      return Err(LogLevelRejected), events;
    }
    events := [SetLogLevel, ParseParams];
    var parsed := configurator.parseParamsAndCreateSuite(params);
    if parsed.None? {
      return Err(ParamsRejected), events;
    }
    var suite := parsed.value;
    events := [SetLogLevel, ParseParams, Dial];
    if !api.dialOk {
      return Err(DialFailed), events;
    }
    var registered, retries := RetryEveryFailure(RegistrationOk(api), MaxSuiteRegistrationRetries, TimeBetweenSuiteRegistrationRetriesMillis);
    events := events + RegistrationEvents(retries);
    if registered.None? {
      return Err(RegistrationGaveUp(MaxSuiteRegistrationRetries, TimeBetweenSuiteRegistrationRetriesMillis)), events;
    }
    FirstSuccessSpec(RegistrationOk(api), MaxSuiteRegistrationRetries);
    var action := api.registerSuite(registered.value).value;
    var flowEvents: seq<Event>;
    match action {
      case SerializeSuiteMetadata =>
        r, flowEvents := RunSerializeSuiteMetadataFlow(suite, api);
      case ExecuteTest =>
        r, flowEvents := RunTestExecutionFlow(suite, api);
      case UnknownAction(code) =>
        r, flowEvents := Err(UnrecognizedAction(code)), [];
    }
    events := events + flowEvents;
  }

  /** An event of the test execution flow. */
  predicate IsTestFlowEvent(e: Event)
  {
    e.GetTestExecutionInfo? || e.Lifecycle?
  }

  /** The log level is set and the parameters parsed before dialing; if either fails,
      the executor stops with that error and never dials. */
  lemma GoRunConfiguresBeforeDialing(configurator: Configurator, api: GoApi, logLevel: string, params: string)
    ensures var (r, t) := GoRun(configurator, api, logLevel, params);
      && |t| >= 1 && t[0] == SetLogLevel
      && (Dial in t <==> configurator.setLogLevel(logLevel) && configurator.parseParamsAndCreateSuite(params).Some?)
      && (Dial in t ==> |t| >= 3 && t[1] == ParseParams && t[2] == Dial)
      && (!configurator.setLogLevel(logLevel) ==> r == Err(LogLevelRejected) && t == [SetLogLevel])
      && (configurator.setLogLevel(logLevel) && configurator.parseParamsAndCreateSuite(params).None? ==> r == Err(ParamsRejected))
  {
    var (r, t) := GoRun(configurator, api, logLevel, params);
    if configurator.setLogLevel(logLevel) && configurator.parseParamsAndCreateSuite(params).Some? {
      assert t[2] == Dial;
    }
  }

  /** The calls before dispatch: configuration, dialing and registration attempts, each
      attempt below the number made. */
  lemma RegistrationPrefixEvents(api: GoApi)
    ensures var p := RegistrationPrefix(api);
      && |p| >= 3 && p[..3] == [SetLogLevel, ParseParams, Dial]
      && forall e :: e in p ==>
           && !IsTestFlowEvent(e) && !e.SendSuiteMetadata?
           && (e.Registration? && e.retry.Attempt? ==> e.retry.index < AttemptsMade(RegistrationOk(api), MaxSuiteRegistrationRetries))
  {
    var ok := RegistrationOk(api);
    var trace := RetryTrace(ok, MaxSuiteRegistrationRetries, TimeBetweenSuiteRegistrationRetriesMillis);
    RetryTraceEvents(ok, MaxSuiteRegistrationRetries, TimeBetweenSuiteRegistrationRetriesMillis);
    var p := RegistrationPrefix(api);
    forall e | e in p
      ensures !IsTestFlowEvent(e) && !e.SendSuiteMetadata?
      ensures e.Registration? && e.retry.Attempt? ==> e.retry.index < AttemptsMade(ok, MaxSuiteRegistrationRetries)
    {
      var i :| 0 <= i < |p| && p[i] == e;
      if 3 <= i {
        assert e == Registration(trace[i - 3]);
        assert trace[i - 3] in trace;
      }
    }
  }

  /** The dispatched flows make no registration call. */
  lemma DispatchEvents(suite: TestSuite, api: GoApi, action: SuiteAction)
    ensures forall e :: e in Dispatch(suite, api, action).1 ==>
      !e.Registration? && (e.SendSuiteMetadata? ==> e == SendSuiteMetadata(SuiteMetadata(suite)))
  {
  }

  /** Registration is attempted at most 20 times, attempts 0, 1, ... in order; when all
      20 fail, each failure is followed by a 500 ms pause, the last one included, and the
      executor gives up with an error naming the retry count and interval. */
  lemma GoRunRegistrationRetries(configurator: Configurator, api: GoApi, logLevel: string, params: string)
    requires configurator.setLogLevel(logLevel) && configurator.parseParamsAndCreateSuite(params).Some? && api.dialOk
    ensures var (r, t) := GoRun(configurator, api, logLevel, params);
      && (forall e :: e in t && e.Registration? && e.retry.Attempt? ==> e.retry.index < MaxSuiteRegistrationRetries)
      && (FirstSuccess(RegistrationOk(api), MaxSuiteRegistrationRetries).None? ==>
            && r == Err(RegistrationGaveUp(20, 500))
            && |t| == 3 + 2 * 20
            && forall j :: 0 <= j < 20 ==>
                 t[3 + 2 * j] == Registration(Attempt(j)) && t[3 + 2 * j + 1] == Registration(Pause(500)))
  {
    var ok := RegistrationOk(api);
    RegistrationPrefixEvents(api);
    var (r, t) := GoRun(configurator, api, logLevel, params);
    var prefix := RegistrationPrefix(api);
    match FirstSuccess(ok, MaxSuiteRegistrationRetries)
    case None =>
      assert t == prefix;
      var trace := RetryTrace(ok, MaxSuiteRegistrationRetries, TimeBetweenSuiteRegistrationRetriesMillis);
      RetryTraceShape(ok, MaxSuiteRegistrationRetries, TimeBetweenSuiteRegistrationRetriesMillis);
      forall j | 0 <= j < 20
        ensures t[3 + 2 * j] == Registration(Attempt(j)) && t[3 + 2 * j + 1] == Registration(Pause(500))
      {
        assert t[3 + 2 * j] == Registration(trace[2 * j]);
        assert t[3 + 2 * j + 1] == Registration(trace[2 * j + 1]);
      }
    case Some(k) =>
      var suite := configurator.parseParamsAndCreateSuite(params).value;
      FirstSuccessSpec(ok, MaxSuiteRegistrationRetries);
      var o := Dispatch(suite, api, api.registerSuite(k).value);
      DispatchEvents(suite, api, api.registerSuite(k).value);
      assert t == prefix + o.1;
  }

  /** Once registered, the run is the registration prefix followed by the dispatched
      flow. */
  lemma GoRunAfterRegistration(configurator: Configurator, api: GoApi, logLevel: string, params: string)
    requires configurator.setLogLevel(logLevel) && configurator.parseParamsAndCreateSuite(params).Some? && api.dialOk
    requires FirstSuccess(RegistrationOk(api), MaxSuiteRegistrationRetries).Some?
    ensures var k := FirstSuccess(RegistrationOk(api), MaxSuiteRegistrationRetries).value;
      var suite := configurator.parseParamsAndCreateSuite(params).value;
      && api.registerSuite(k).Some?
      && GoRun(configurator, api, logLevel, params) ==
           (Dispatch(suite, api, api.registerSuite(k).value).0,
            RegistrationPrefix(api) + Dispatch(suite, api, api.registerSuite(k).value).1)
  {
    FirstSuccessSpec(RegistrationOk(api), MaxSuiteRegistrationRetries);
  }

  /** The first successful registration stops the retries: the attempts before it all
      failed, it is made, and no later attempt is. */
  lemma GoRunStopsAtFirstRegistration(configurator: Configurator, api: GoApi, logLevel: string, params: string)
    requires configurator.setLogLevel(logLevel) && configurator.parseParamsAndCreateSuite(params).Some? && api.dialOk
    requires FirstSuccess(RegistrationOk(api), MaxSuiteRegistrationRetries).Some?
    ensures var k := FirstSuccess(RegistrationOk(api), MaxSuiteRegistrationRetries).value;
      var t := GoRun(configurator, api, logLevel, params).1;
      && api.registerSuite(k).Some? && (forall j :: 0 <= j < k ==> api.registerSuite(j).None?)
      && Registration(Attempt(k)) in t && (forall j :: k < j ==> Registration(Attempt(j)) !in t)
  {
    var ok := RegistrationOk(api);
    var k := FirstSuccess(ok, MaxSuiteRegistrationRetries).value;
    FirstSuccessSpec(ok, MaxSuiteRegistrationRetries);
    forall j | 0 <= j < k ensures api.registerSuite(j).None? {
      assert !ok(j);
    }
    var suite := configurator.parseParamsAndCreateSuite(params).value;
    var trace := RetryTrace(ok, MaxSuiteRegistrationRetries, TimeBetweenSuiteRegistrationRetriesMillis);
    RetryTraceShape(ok, MaxSuiteRegistrationRetries, TimeBetweenSuiteRegistrationRetriesMillis);
    RegistrationPrefixEvents(api);
    GoRunAfterRegistration(configurator, api, logLevel, params);
    var prefix := RegistrationPrefix(api);
    var o := Dispatch(suite, api, api.registerSuite(k).value);
    DispatchEvents(suite, api, api.registerSuite(k).value);
    var t := GoRun(configurator, api, logLevel, params).1;
    assert t == prefix + o.1;
    assert prefix[3 + 2 * k] == Registration(trace[2 * k]);
    assert t[3 + 2 * k] == Registration(Attempt(k));
  }

  /** The action of the first successful registration is the one dispatched: metadata
      serialization runs only the metadata flow, test execution runs only the test flow,
      and any other action is an error with no further call. */
  lemma GoRunDispatchesFirstAction(configurator: Configurator, api: GoApi, logLevel: string, params: string)
    requires configurator.setLogLevel(logLevel) && configurator.parseParamsAndCreateSuite(params).Some? && api.dialOk
    requires FirstSuccess(RegistrationOk(api), MaxSuiteRegistrationRetries).Some?
    ensures var k := FirstSuccess(RegistrationOk(api), MaxSuiteRegistrationRetries).value;
      var suite := configurator.parseParamsAndCreateSuite(params).value;
      var (r, t) := GoRun(configurator, api, logLevel, params);
      && api.registerSuite(k).Some?
      && (api.registerSuite(k).value == SerializeSuiteMetadata ==>
            && r == MetadataFlow(suite, api).0
            && SendSuiteMetadata(SuiteMetadata(suite)) in t
            && forall e :: e in t ==> !IsTestFlowEvent(e))
      && (api.registerSuite(k).value == ExecuteTest ==>
            && r == TestFlow(suite, api).0
            && GetTestExecutionInfo in t
            && forall e :: e in t ==> !e.SendSuiteMetadata?)
      && (api.registerSuite(k).value.UnknownAction? ==>
            && r == Err(UnrecognizedAction(api.registerSuite(k).value.code))
            && forall e :: e in t ==> !IsTestFlowEvent(e) && !e.SendSuiteMetadata?)
  {
    var k := FirstSuccess(RegistrationOk(api), MaxSuiteRegistrationRetries).value;
    var suite := configurator.parseParamsAndCreateSuite(params).value;
    GoRunAfterRegistration(configurator, api, logLevel, params);
    RegistrationPrefixEvents(api);
    var prefix := RegistrationPrefix(api);
    var action := api.registerSuite(k).value;
    var o := Dispatch(suite, api, action);
    var t := prefix + o.1;
    if action == SerializeSuiteMetadata {
      assert t[|prefix|] == o.1[0];
    }
    if action == ExecuteTest {
      assert t[|prefix|] == o.1[0];
    }
  }

  /** The test flow makes no registration call for a test the suite does not have, and
      otherwise performs the test's lifecycle, built from its own artifact URLs, in the
      fixed order and no further than the first failing step. */
  lemma TestFlowFollowsLifecycle(suite: TestSuite, api: GoApi)
    requires api.testExecutionInfo.Some?
    ensures var name := api.testExecutionInfo.value;
      var (r, t) := TestFlow(suite, api);
      && t[0] == GetTestExecutionInfo
      && (name !in suite.tests ==> r == Err(NoSuchTest(name)) && t == [GetTestExecutionInfo])
      && (name in suite.tests ==>
            var test := suite.tests[name];
            var urls := GoTestConfig(test).filesArtifactUrls;
            var oks := LifecycleOks(api.lifecycle, test, urls, GoRunTest);
            && |t| == 1 + StepsTaken(oks)
            && (forall i :: 1 <= i < |t| ==> t[i] == Lifecycle(LifecycleOrder[i - 1]))
            && (r.Ok? <==> forall j :: 0 <= j < 5 ==> oks[j]))
  {
    var name := api.testExecutionInfo.value;
    if name in suite.tests {
      var test := suite.tests[name];
      var oks := LifecycleOks(api.lifecycle, test, GoTestConfig(test).filesArtifactUrls, GoRunTest);
      FirstFailureSpec(oks);
    }
  }
}
