/** The Rust test-suite executor and the container that runs one Rust test. The
    executor sets the log level, parses the parameters and, only when it was given an
    API socket, connects to the API container with bounded retries. */
module RustExecution {
  import opened Wrappers
  import opened Retry
  import opened TestConfigurations
  import opened TestSuites

  const MaxConnectionAttempts: nat := 20
  const TimeBetweenConnectionRetriesMillis: nat := 500

  /** What building the connection needs: whether an endpoint can be made from the
      socket's URL, whether the async runtime starts, and whether the k-th connect
      attempt succeeds. */
  datatype ConnectionEnv = ConnectionEnv(
    endpointOk: string -> bool,
    runtimeOk: bool,
    connectOk: nat -> bool)

  datatype Event =
    | SetLogLevel
    | ParseParams
    | CreateEndpoint(url: string)
    | CreateRuntime
    | Connection(retry: RetryEvent)

  datatype RunError =
    | LogLevelRejected
    | ParamsRejected
    | EndpointRejected(socket: string)
    | RuntimeFailed
    | ConnectionGaveUp(attempts: nat, millisBetween: nat)

  type Outcome = (Result<(), RunError>, seq<Event>)

  function ConnectionEvents(retries: seq<RetryEvent>): (es: seq<Event>)
    ensures |es| == |retries| && forall i :: 0 <= i < |retries| ==> es[i] == Connection(retries[i])
  {
    seq(|retries|, i requires 0 <= i < |retries| => Connection(retries[i]))
  }

  /** The endpoint URL for an API socket. */
  function SocketUrl(socket: string): string
  {
    "http://" + socket
  }

  /** What connecting to the API container through `socket` does. */
  function Connect(socket: string, env: ConnectionEnv): Outcome
  {
    var url := SocketUrl(socket);
    if !env.endpointOk(url) then (Err(EndpointRejected(socket)), [CreateEndpoint(url)])
    else if !env.runtimeOk then (Err(RuntimeFailed), [CreateEndpoint(url), CreateRuntime])
    else
      var events := [CreateEndpoint(url), CreateRuntime]
        + ConnectionEvents(RetryTrace(env.connectOk, MaxConnectionAttempts, TimeBetweenConnectionRetriesMillis));
      if FirstSuccess(env.connectOk, MaxConnectionAttempts).None? then
        (Err(ConnectionGaveUp(MaxConnectionAttempts, TimeBetweenConnectionRetriesMillis)), events)
      else (Ok(()), events)
  }

  /** What `TestSuiteExecutor::run` does. */
  function RustRun(configurator: Configurator, socket: Option<string>, env: ConnectionEnv, logLevel: string, params: string): Outcome
  {
    if !configurator.setLogLevel(logLevel) then (Err(LogLevelRejected), [SetLogLevel])
    else if configurator.parseParamsAndCreateSuite(params).None? then (Err(ParamsRejected), [SetLogLevel, ParseParams])
    else match socket
      case None => (Ok(()), [SetLogLevel, ParseParams])
      case Some(s) =>
        var o := Connect(s, env);
        (o.0, [SetLogLevel, ParseParams] + o.1)
  }

  /** The `Some(socket)` arm of `TestSuiteExecutor::run`: the endpoint, the runtime,
      then the bounded connect loop. */
  method ConnectTo(socket: string, env: ConnectionEnv) returns (r: Result<(), RunError>, events: seq<Event>)
    ensures (r, events) == Connect(socket, env)
  {
    var url := SocketUrl(socket);
    events := [CreateEndpoint(url)];
    if !env.endpointOk(url) {
      return Err(EndpointRejected(socket)), events;
    }
    events := [CreateEndpoint(url), CreateRuntime];
    if !env.runtimeOk {
      return Err(RuntimeFailed), events;
    }
    var connected, retries := RetryEveryFailure(env.connectOk, MaxConnectionAttempts, TimeBetweenConnectionRetriesMillis);
    events := events + ConnectionEvents(retries);
    if connected.None? {
      return Err(ConnectionGaveUp(MaxConnectionAttempts, TimeBetweenConnectionRetriesMillis)), events;
    }
    r := Ok(());
  }

  /** `TestSuiteExecutor::run`. */
  method Run(configurator: Configurator, socket: Option<string>, env: ConnectionEnv, logLevel: string, params: string)
    returns (r: Result<(), RunError>, events: seq<Event>)
    ensures (r, events) == RustRun(configurator, socket, env, logLevel, params)
  {
    events := [SetLogLevel];
    if !configurator.setLogLevel(logLevel) {
      return Err(LogLevelRejected), events;
    }
    events := [SetLogLevel, ParseParams];
    var suite := configurator.parseParamsAndCreateSuite(params);
    if suite.None? {
      return Err(ParamsRejected), events;
    }
    match socket {
      case None =>
        r := Ok(());
      case Some(s) =>
        var connectEvents;
        r, connectEvents := ConnectTo(s, env);
        events := events + connectEvents;
    }
  }

  /** The log level is set and the parameters parsed before anything is connected, and a
      failure of either ends the run; without a socket nothing is connected and the run
      succeeds, and with one the run is the connection. */
  lemma RustRunConfiguresFirst(configurator: Configurator, socket: Option<string>, env: ConnectionEnv, logLevel: string, params: string)
    ensures var (r, t) := RustRun(configurator, socket, env, logLevel, params);
      && |t| >= 1 && t[0] == SetLogLevel
      && (!configurator.setLogLevel(logLevel) ==> r == Err(LogLevelRejected) && t == [SetLogLevel])
      && (configurator.setLogLevel(logLevel) && configurator.parseParamsAndCreateSuite(params).None? ==>
            r == Err(ParamsRejected) && t == [SetLogLevel, ParseParams])
      && ((exists i :: 0 <= i < |t| && t[i].Connection?) ==>
            socket.Some? && configurator.setLogLevel(logLevel) && configurator.parseParamsAndCreateSuite(params).Some?)
      && (socket.None? && configurator.setLogLevel(logLevel) && configurator.parseParamsAndCreateSuite(params).Some? ==>
            r == Ok(()) && t == [SetLogLevel, ParseParams])
      && (socket.Some? && configurator.setLogLevel(logLevel) && configurator.parseParamsAndCreateSuite(params).Some? ==>
            r == Connect(socket.value, env).0 && t == [SetLogLevel, ParseParams] + Connect(socket.value, env).1)
  {
  }

  /** At most 20 connect attempts are made, in order, and connecting succeeds exactly
      when one of them does, stopping right after it; when all fail, each is followed by
      a 500 ms pause, the last one included, and the error states the attempt count and
      interval. */
  lemma ConnectionRetries(socket: string, env: ConnectionEnv)
    requires env.endpointOk(SocketUrl(socket)) && env.runtimeOk
    ensures var (r, t) := Connect(socket, env);
      && t[..2] == [CreateEndpoint(SocketUrl(socket)), CreateRuntime]
      && (forall e :: e in t && e.Connection? && e.retry.Attempt? ==> e.retry.index < MaxConnectionAttempts)
      && (r.Ok? <==> FirstSuccess(env.connectOk, MaxConnectionAttempts).Some?)
      && (FirstSuccess(env.connectOk, MaxConnectionAttempts).Some? ==>
            t[|t| - 1] == Connection(Attempt(FirstSuccess(env.connectOk, MaxConnectionAttempts).value)))
      && (FirstSuccess(env.connectOk, MaxConnectionAttempts).None? ==>
            && r == Err(ConnectionGaveUp(20, 500))
            && |t| == 2 + 2 * 20
            && forall j :: 0 <= j < 20 ==>
                 t[2 + 2 * j] == Connection(Attempt(j)) && t[2 + 2 * j + 1] == Connection(Pause(500)))
  {
    var ce := ConnectionEvents(RetryTrace(env.connectOk, MaxConnectionAttempts, TimeBetweenConnectionRetriesMillis));
    ConnectionEventsShape(env);
    var (r, t) := Connect(socket, env);
    var head := [CreateEndpoint(SocketUrl(socket)), CreateRuntime];
    assert t == head + ce;
    forall e | e in t && e.Connection? ensures e in ce { }
    if FirstSuccess(env.connectOk, MaxConnectionAttempts).None? {
      forall j | 0 <= j < 20
        ensures t[2 + 2 * j] == Connection(Attempt(j)) && t[2 + 2 * j + 1] == Connection(Pause(500))
      {
        assert t[2 + 2 * j] == ce[2 * j];
        assert t[2 + 2 * j + 1] == ce[2 * j + 1];
      }
    } else {
      assert t[|t| - 1] == ce[|ce| - 1];
    }
  }

  /** The connect attempts alone, as the retry loop makes them. */
  lemma ConnectionEventsShape(env: ConnectionEnv)
    ensures var ce := ConnectionEvents(RetryTrace(env.connectOk, MaxConnectionAttempts, TimeBetweenConnectionRetriesMillis));
      && (forall e :: e in ce && e.retry.Attempt? ==> e.retry.index < MaxConnectionAttempts)
      && (FirstSuccess(env.connectOk, MaxConnectionAttempts).Some? ==>
            |ce| > 0 && ce[|ce| - 1] == Connection(Attempt(FirstSuccess(env.connectOk, MaxConnectionAttempts).value)))
      && (FirstSuccess(env.connectOk, MaxConnectionAttempts).None? ==>
            && |ce| == 2 * 20
            && forall j :: 0 <= j < 20 ==> ce[2 * j] == Connection(Attempt(j)) && ce[2 * j + 1] == Connection(Pause(500)))
  {
    var trace := RetryTrace(env.connectOk, MaxConnectionAttempts, TimeBetweenConnectionRetriesMillis);
    RetryTraceShape(env.connectOk, MaxConnectionAttempts, TimeBetweenConnectionRetriesMillis);
    RetryTraceEvents(env.connectOk, MaxConnectionAttempts, TimeBetweenConnectionRetriesMillis);
    var ce := ConnectionEvents(trace);
    forall e | e in ce && e.retry.Attempt? ensures e.retry.index < MaxConnectionAttempts {
      var i :| 0 <= i < |ce| && ce[i] == e;
      assert trace[i] in trace;
    }
  }

  // ---------------------------------------------------------------------------------
  // DynTestContainer

  /** `get_test_metadata`: the metadata of the test's configuration on a fresh Rust
      builder; it never fails. */
  method GetTestMetadata(test: Test) returns (r: Result<TestMetadata, string>)
    ensures r.Ok?
    ensures r.value.usedArtifactUrls == UsedArtifactUrls(RustTestConfig(test).filesArtifactUrls)
    ensures r.value.isPartitioningEnabled == RustTestConfig(test).isPartitioningEnabled
    ensures r.value.testSetupTimeoutInSeconds == RustTestConfig(test).setupTimeoutSeconds
    ensures r.value.testRunTimeoutInSeconds == RustTestConfig(test).runTimeoutSeconds
  {
    var builder := new TestConfigurationBuilder.NewRust();
    CallSetters(builder, test.configure);
    var config := builder.Build();
    var used := CollectUsedArtifactUrls(config.filesArtifactUrls);
    r := Ok(TestMetadata(config.isPartitioningEnabled, used, config.setupTimeoutSeconds, config.runTimeoutSeconds));
  }

  /** `setup_and_run`: the lifecycle of the test, with the network context built from
      the artifact URLs of its own configuration; a panic in the test is not caught. */
  method SetupAndRun(test: Test, api: LifecycleApi) returns (r: Result<(), LifecycleError>, steps: seq<LifecycleStep>)
    ensures var oks := LifecycleOks(api, test, RustTestConfig(test).filesArtifactUrls, RustRunTest);
      && steps == LifecycleOrder[..StepsTaken(oks)]
      && (r.Ok? <==> forall j :: 0 <= j < 5 ==> oks[j])
      && (FirstFailure(oks).Some? ==> r == Err(LifecycleErrorAt(test, RustTestConfig(test).filesArtifactUrls, RustRunTest, FirstFailure(oks).value)))
  {
    var builder := new TestConfigurationBuilder.NewRust();
    CallSetters(builder, test.configure);
    var config := builder.Build();
    r, steps := RunLifecycle(api, test, config.filesArtifactUrls, RustRunTest);
    FirstFailureSpec(LifecycleOks(api, test, config.filesArtifactUrls, RustRunTest));
  }

  /** `setup_and_run` succeeds exactly when every registration call and the setup
      succeed and the test's run returns without an error. */
  lemma SetupAndRunOkIffRunOk(test: Test, api: LifecycleApi)
    ensures var urls := RustTestConfig(test).filesArtifactUrls;
      var oks := LifecycleOks(api, test, urls, RustRunTest);
      (forall j :: 0 <= j < 5 ==> oks[j]) <==>
        && api.registerTestSetup && api.registerTestSetupCompletion && api.registerTestExecution
        && test.setup(urls).SetupReturned? && test.run(test.setup(urls).network) == Returned(None)
  {
    var urls := RustTestConfig(test).filesArtifactUrls;
    var oks := LifecycleOks(api, test, urls, RustRunTest);
    assert oks[0] == api.registerTestSetup && oks[1] == test.setup(urls).SetupReturned?;
    assert oks[2] == api.registerTestSetupCompletion && oks[3] == api.registerTestExecution;
    assert oks[4] == (test.setup(urls).SetupReturned? && RustRunTest(test, test.setup(urls).network).Passed?);
  }
}
