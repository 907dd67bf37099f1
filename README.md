# Kurtosis test-suite client library: a Dafny model

This project models the client library that a Kurtosis test suite links against, in its Go, Rust and TypeScript forms, together with the pieces of the example test suite that carry real rules. The library registers the suite with the API container and runs the action the container asks for. That action is either serializing the suite's metadata or executing one test through the setup/run lifecycle. The library also keeps a network context that adds, removes and repartitions services, and it provides builders for test and container configurations. A bounded availability poll waits for a service to come up.

The model is sequential. Every remote call is a field of an oracle datatype, a total function from the request to an outcome: the API container, the test-suite API, the file system and the service health check are all modelled this way. The calls the code makes are recorded as an ordered trace (`seq<Event>`) or as a request log (`seq<Request>`). That makes "no start request before registration" or "a 500 ms pause after every failed attempt" statable.

Stateful source objects are classes. All three networks are classes: `NetworkContext`, the Go and Rust example `TestNetwork`, and the partition test's network. So are the builders, `MockService` and `TestSuiteService`. Each class method's contract ties its new state to a specification function of the old state, and lemmas prove the promised properties of those functions. The three bounded retry loops share one specification, module `Retry`:

- suite registration in Go;
- connecting in Rust;
- the availability poll.

In that specification, `FirstSuccess` is the least successful attempt below the bound, `AttemptsMade` is the number of calls made, and `RetryTrace` is the exact sequence of attempts and pauses.

Modules:

- `Wrappers` holds `Option` and `Result`.
- `Strings` holds `path.Join`, decimal rendering (`strconv.Itoa`) and JavaScript `trim()`.
- `CoreApi` holds the message shapes of the API container: service ids, partition topology and register/start/remove/repartition arguments.
- `Replays` gives the meaning of a sequence of builder setter calls.
- `Networks` models the network context. It follows the reference implementation that the Rust file carries as commented Go.
- `LegacyNetworks` is the older Go snapshot of the network context.
- `Repartitioning` covers the repartitioner, its builder and its mutators, plus the conversion of a topology into request arguments.
- `NetworkPartitionTest` is the partition test's topology and repartition order.
- `Availability` covers the poll loop and `MockService`.
- `Retry` is the shared retry specification.
- `TestConfigurations` holds the test-configuration builders.
- `ContainerConfigs` and `RustContainerConfigs` hold the container creation and run builders.
- `TestSuites` covers test metadata, `runTest` and the test lifecycle.
- `GoExecution` and `RustExecution` cover the executors.
- `TestSuiteServices` is the Go test-suite service.
- `TestNetworks` holds the example networks.
- `ConfigFactories` holds the nginx and API container factories.
- `Configurators` is the TypeScript configurator.

Where the code and its documentation disagree, the model follows the code. A few cases need a decision:

- The Rust `network_context.rs`, `availability_checker.rs` and `repartitioner_builder.rs` `with_partition` bodies are stubs. For these the model follows the reference implementation kept in their comments.
- Line 104 of `network_context.rs` hands a nil error to `stacktrace.Propagate`. That call returns nil, so an unknown artifact id would end the call with neither a service nor an error. The model reports the evidently intended `UnknownFilesArtifact` error instead.
- Both repartition mutators always return nil, so `Build`'s per-mutator error branch can never be taken. The model proves that `Build` always succeeds.

## Model

| member | source | states |
|---|---|---|
| Retry.FirstSuccessSpec | golang/lib/execution/test_suite_executor.go:68-85 | the attempt a bounded retry stops at succeeds and every earlier attempt fails; no attempt succeeds iff every attempt below the bound fails |
| Retry.FirstSuccessUnique | rust/lib/src/execution/test_suite_executor.rs:53-79 | any successful attempt below the bound that follows only failures is the one the loop stops at |
| Retry.AttemptsBounded | golang/lib/services/availability_checker.go:32 | a bounded loop never makes more calls than its bound, and none when the bound is not positive |
| Retry.RetryTraceShape | golang/lib/execution/test_suite_executor.go:68-85 | attempt j sits at position 2j with a pause after each failed attempt; a successful run ends with the successful attempt; a run with no success has exactly bound attempt/pause pairs, the last pause included |
| Retry.RetryTraceEvents | rust/lib/src/execution/test_suite_executor.rs:53-79 | every attempt in the trace is numbered below the number of attempts made, and every pause has the configured length |
| Retry.RetryEveryFailure | rust/lib/src/execution/test_suite_executor.rs:53-79 | the counted loop returns the first successful attempt and emits exactly the specified attempt/pause trace |
| Availability.WaitForStartup | golang/lib/services/availability_checker.go:31-47 | succeeds iff one of the first maxNumRetries polls answers true; the error names the service, poll count and interval; the events are exactly the polls made, with a sleep between consecutive polls and none after the last |
| Availability.PollTraceAlternates | golang/lib/services/availability_checker.go:37-40 | n polls give 2n-1 events alternating poll and sleep, beginning and ending with a poll |
| Availability.PollTraceCounts | golang/lib/services/availability_checker.go:32-41 | a wait with n polls sleeps n-1 times (and not at all without polls) |
| Availability.MockService.constructor | golang/lib/services/mock_service.go:21-26 | a new mock stores its threshold and has made no calls |
| Availability.MockService.IsAvailable | golang/lib/services/mock_service.go:28-31 | each call increments the counter by one and answers whether the incremented count reached the threshold |
| Availability.MockAnswersMonotone | golang/lib/services/mock_service.go:28-31 | once the mock answers true, every later call answers true |
| Availability.MockFirstTrue | golang/lib/services/mock_service.go:28-31 | call k (from 0) answers true exactly when k+1 >= max(N, 1) |
| Availability.MockWaitOutcome | golang/lib/services/mock_service.go:28-31 | waiting on MockService(N) succeeds iff maxNumRetries >= max(N, 1), after exactly that many polls |
| Availability.NeverAvailableThreePolls | rust/lib/tests/availability_checker_tests.rs:24-35 | a service that is never available, checked three times at 200 ms, fails after three polls and two sleeps |
| Strings.Join | lib/networks/network_context.go:124 | joining a directory and a relative part puts exactly one separator between them; an empty side is dropped |
| Strings.JoinRelativeRoundTrip | rust/lib/src/networks/network_context.rs:88 | the relative path can be recovered from the joined absolute path |
| Strings.JoinInjective | rust/lib/src/networks/network_context.rs:76 | under a fixed directory distinct relative paths give distinct absolute paths |
| Strings.NatToStringRoundTrip | golang/testsuite/networks_impl/test_network.go:131 | the decimal rendering is all digits and parses back to the number |
| Strings.NatToStringInjective | golang/testsuite/networks_impl/test_network.go:131 | distinct numbers render to distinct strings |
| Strings.PrefixedNatInjective | golang/testsuite/networks_impl/test_network.go:131 | "api-" followed by distinct counters gives distinct ids |
| Strings.TrimEmptyIffBlank | typescript/testsuite/execution_impl/example_testsuite_configurator.ts:45-50 | `trim()` yields the empty string iff every character is JavaScript whitespace |
| Networks.AddServiceSucceedsIff | rust/lib/src/networks/network_context.rs:47-146 | adding a service succeeds iff registration, file creation, file initialization, artifact lookup, the start command and the start call all succeed |
| Networks.ArtifactUrlMapDeterminedWhenInjective | rust/lib/src/networks/network_context.rs:99-111 | when artifact URLs are distinct, the mount map sends each requested artifact's URL to that artifact's mount directory |
| Networks.SuitePathsDistinct | rust/lib/src/networks/network_context.rs:75-76 | distinct relative file paths get distinct suite-side absolute paths |
| Networks.ServicePathsRelative | rust/lib/src/networks/network_context.rs:88-89 | each service-side path is the service's test-volume mountpoint joined with that file's relative path |
| Networks.ArtifactUrlToMountDirpath | rust/lib/src/networks/network_context.rs:99-111 | succeeds iff every requested artifact id has a URL; the result maps exactly the requested artifacts' URLs to their mount directories; otherwise it names an unknown id |
| Networks.NetworkContext.constructor | rust/lib/src/networks/network_context.rs:17-22 | a new context has an empty registry, no requests sent and no files opened |
| Networks.NetworkContext.AddService | rust/lib/src/networks/network_context.rs:24-41 | adding without a partition is adding to the default partition "", with the error wrapped |
| Networks.NetworkContext.AddServiceToPartition | rust/lib/src/networks/network_context.rs:47-146 | registers first, then creates files, looks up artifacts, gets the start command and starts; the first failure stops the pipeline with its error and leaves the registry unchanged; opened files are only ever added, and only this call's suite-side files; only a successful start inserts the service |
| Networks.NetworkContext.OpenGeneratedFiles | rust/lib/src/networks/network_context.rs:71-90 | succeeds iff every generated file can be created, returning both path maps; otherwise names a file that cannot be created; files opened earlier stay open and only suite-side files of this call are added |
| Networks.NetworkContext.GetService | rust/lib/src/networks/network_context.rs:152-162 | returns the registered service for a present id, errors for an absent one |
| Networks.NetworkContext.RemoveService | rust/lib/src/networks/network_context.rs:168-186 | sends one remove request with the caller's timeout; deletes only that entry and only on success |
| Networks.NetworkContext.GetRepartitionerBuilder | rust/lib/src/networks/network_context.rs:192-195 | a fresh builder with no mutators and the given default-connection flag |
| Networks.NetworkContext.RepartitionNetwork | rust/lib/src/networks/network_context.rs:200-239 | sends one repartition request carrying the converted topology; succeeds iff the container accepts it |
| LegacyNetworks.MakePartConnSerializable | lib/networks/network_context.go:257-261 | the serializable connection carries the same blocked flag |
| LegacyNetworks.SerializableRoundTrip | lib/networks/network_context.go:257-261 | converting a connection to its serializable form and back gives the original |
| LegacyNetworks.LegacyNetworkContext.constructor | lib/networks/network_context.go:52-59 | a new context has sent no requests and opened no files |
| LegacyNetworks.LegacyNetworkContext.AddService | lib/networks/network_context.go:74-86 | behaves as AddServiceToPartition with the default partition "": the same requests, files and result, with an error wrapped with the service id |
| LegacyNetworks.LegacyNetworkContext.AddServiceToPartition | lib/networks/network_context.go:102-182 | registers first; each failure (registration, file creation, initialization, start command) returns its own error after the registration request alone; files are created only after a successful registration and, once all can be created, exactly the suite-side files are added; otherwise one start request with the initializer's image, ports, command, empty env and the artifact ids as given, succeeding iff the start does |
| LegacyNetworks.LegacyAddServiceSucceedsIff | lib/networks/network_context.go:102-182 | the first request is the registration, and adding succeeds iff registration, file creation, initialization, the start command and the start call all succeed |
| LegacyNetworks.LegacyNetworkContext.CreateGeneratedFiles | lib/networks/network_context.go:120-135 | succeeds iff every file can be created under the suite mountpoint, returning those paths; otherwise names a failing file |
| LegacyNetworks.LegacyNetworkContext.RemoveService | lib/networks/network_context.go:187-198 | always sends the constant 10 s stop timeout, ignoring the caller's |
| LegacyNetworks.LegacyNetworkContext.GetRepartitionerBuilder | lib/networks/network_context.go:207-210 | a fresh builder with no mutators and the given default-connection flag |
| LegacyNetworks.LegacyNetworkContext.RepartitionNetwork | lib/networks/network_context.go:216-252 | sends one repartition request with the converted topology and default connection; succeeds iff the container accepts it |
| LegacyNetworks.CopyArtifactMountpoints | lib/networks/network_context.go:144-148 | the artifact mount map is the initializer's map unchanged, keyed by artifact id |
| LegacyNetworks.LegacyConnectionsKeepBlocked | lib/networks/network_context.go:228-240 | every converted connection keeps its blocked flag |
| Repartitioning.Repartitioner.constructor | rust/lib/src/networks/repartitioner_builder.rs:52-58 | a repartitioner holds exactly the topology it is given |
| Repartitioning.Apply | golang/lib/networks/repartitioner_builder_actions.go:25-56 | a partition mutator sets that partition to the set of listed ids and nothing else; a connection mutator sets [A][B] and keeps every other entry; neither touches the default connection |
| Repartitioning.Mutate | golang/lib/networks/repartitioner_builder_actions.go:25-56 | mutating in place gives the topology Apply describes, with no error |
| Repartitioning.RepartitionerBuilder.constructor | rust/lib/src/networks/repartitioner_builder.rs:14-19 | stores the default flag with an empty mutator list |
| Repartitioning.RepartitionerBuilder.WithPartition | rust/lib/src/networks/repartitioner_builder.rs:27-34 | appends exactly one partition mutator |
| Repartitioning.RepartitionerBuilder.WithPartitionConnection | rust/lib/src/networks/repartitioner_builder.rs:36-46 | appends exactly one connection mutator |
| Repartitioning.RepartitionerBuilder.Build | rust/lib/src/networks/repartitioner_builder.rs:51-66 | always succeeds with a new repartitioner whose topology is the mutators replayed in order over the empty topology with the builder's default flag |
| Repartitioning.ReplayUnwrittenPartition | rust/lib/src/networks/repartitioner_builder_actions.rs:20-24 | a partition no mutator writes keeps its membership |
| Repartitioning.ReplayLastPartitionWrite | rust/lib/src/networks/repartitioner_builder.rs:60-64 | a partition's services are those of the last mutator writing it |
| Repartitioning.ReplayUnwrittenConnection | golang/lib/networks/repartitioner_builder_actions.go:50-55 | a connection no mutator writes is unchanged |
| Repartitioning.ReplayLastConnectionWrite | rust/lib/src/networks/repartitioner_builder.rs:60-64 | a connection holds the info of the last mutator writing it |
| Repartitioning.ReplayKeepsDefaultConnection | rust/lib/src/networks/repartitioner_builder.rs:55-64 | mutators never change the default connection |
| Repartitioning.ConnectionIsDirected | rust/lib/src/networks/repartitioner_builder_actions.rs:47-52 | writing [A][B] leaves [B][A] as it was |
| Repartitioning.BuiltUnnamedPartitionAbsent | rust/lib/src/networks/repartitioner_builder.rs:52-64 | a built topology has no partition that no mutator named |
| Repartitioning.ServiceIdPseudoSet | rust/lib/src/networks/network_context.rs:205-209 | the loop builds the id → true map of the set |
| Repartitioning.PartitionServicesToArg | rust/lib/src/networks/network_context.rs:203-214 | the loop builds the partition → id-set argument |
| Repartitioning.InnerConnectionsToArg | rust/lib/src/networks/network_context.rs:218-222 | the inner loop converts every B entry of one A |
| Repartitioning.ConnectionsToArg | rust/lib/src/networks/network_context.rs:216-228 | the nested loops convert every A → B connection |
| Repartitioning.PartitionServicesArgFaithful | lib/networks/network_context.go:217-226 | the argument has the same partitions, each with the same service set |
| Repartitioning.ConnectionsArgFaithful | lib/networks/network_context.go:228-238 | the argument has exactly the same A → B pairs, each converted |
| Repartitioning.ConnectionsArgIdentity | rust/lib/src/networks/network_context.rs:216-228 | an identity conversion gives back the original connection map |
| NetworkPartitionTest.TestTopologyPartitions | golang/testsuite/testsuite_impl/network_partition_test/network_partition_test_.go:259-281 | the test's topology has disjoint partitions; api1 is in the API partition and api2 is there iff it was added; the API → datastore connection is blocked as requested |
| NetworkPartitionTest.RepartitionArgsFor | golang/testsuite/testsuite_impl/network_partition_test/network_partition_test_.go:259-281 | builds the exact test topology: two partitions, the one explicit connection and an unblocked default |
| NetworkPartitionTest.PartitionTestNetwork.RepartitionNetwork | golang/testsuite/testsuite_impl/network_partition_test/network_partition_test_.go:282-288 | records the request and answers with the network's verdict |
| NetworkPartitionTest.RepartitionTestNetwork | golang/testsuite/testsuite_impl/network_partition_test/network_partition_test_.go:255-289 | sends exactly one request with the test topology; the error names the blocked flag |
| NetworkPartitionTest.Run | golang/testsuite/testsuite_impl/network_partition_test/network_partition_test_.go:96-177 | first repartitions blocked without api2, then (only if that and the partitioned phase succeed) healed with api2; succeeds iff both repartitions and both phases do |
| ContainerConfigs.ApplyCreation | golang/lib/services/container_creation_config_builder.go:27-40 | each creation setter replaces its own field only |
| ContainerConfigs.ApplyRun | golang/lib/services/container_run_config_builder.go:18-31 | each run setter replaces its own field only |
| ContainerConfigs.ApplyConfig | golang/lib/services/container_config_builder.go:32-60 | each of the six setters replaces its own field only |
| ContainerConfigs.ConfigLastSetterWins | golang/lib/services/container_config_builder.go:32-60 | after a sequence of setter calls, a field holds its last setter's value |
| ContainerConfigs.ConfigUnsetFieldKept | golang/lib/services/container_config_builder.go:18-30 | a field no setter writes keeps its initial value |
| ContainerConfigs.CreationLastSetterWins | golang/lib/services/container_creation_config_builder.go:27-40 | the last setter of a creation field wins |
| ContainerConfigs.CreationUnsetFieldKept | golang/lib/services/container_creation_config_builder.go:16-25 | an unwritten creation field keeps its initial value |
| ContainerConfigs.RunLastSetterWins | golang/lib/services/container_run_config_builder.go:18-31 | the last setter of a run field wins |
| ContainerConfigs.RunUnsetFieldKept | golang/lib/services/container_run_config_builder.go:10-16 | an unwritten run field keeps its initial value |
| ContainerConfigs.ContainerConfigBuilder.constructor | golang/lib/services/container_config_builder.go:18-30 | stores image, mountpoint and service function; everything else is empty or absent |
| ContainerConfigs.ContainerConfigBuilder.WithUsedPorts | golang/lib/services/container_config_builder.go:32-35 | replaces the ports only and returns the same builder |
| ContainerConfigs.ContainerConfigBuilder.WithGeneratedFiles | golang/lib/services/container_config_builder.go:37-40 | replaces the file functions only and returns the same builder |
| ContainerConfigs.ContainerConfigBuilder.WithFilesArtifacts | golang/lib/services/container_config_builder.go:42-45 | replaces the artifact mounts only and returns the same builder |
| ContainerConfigs.ContainerConfigBuilder.WithEntrypointOverride | golang/lib/services/container_config_builder.go:47-50 | replaces the entrypoint override only and returns the same builder |
| ContainerConfigs.ContainerConfigBuilder.WithCmdOverride | golang/lib/services/container_config_builder.go:52-55 | replaces the command override only and returns the same builder |
| ContainerConfigs.ContainerConfigBuilder.WithEnvironmentVariableOverrides | golang/lib/services/container_config_builder.go:57-60 | replaces the environment map only and returns the same builder |
| ContainerConfigs.ContainerConfigBuilder.Build | golang/lib/services/container_config_builder.go:62-74 | the built configuration agrees with the builder on every field |
| ContainerConfigs.ContainerCreationConfigBuilder.constructor | golang/lib/services/container_creation_config_builder.go:16-25 | stores image, mountpoint and service function with empty ports, files and mounts |
| ContainerConfigs.ContainerCreationConfigBuilder.WithUsedPorts | golang/lib/services/container_creation_config_builder.go:27-30 | replaces the ports only |
| ContainerConfigs.ContainerCreationConfigBuilder.WithGeneratedFiles | golang/lib/services/container_creation_config_builder.go:32-35 | replaces the file functions only |
| ContainerConfigs.ContainerCreationConfigBuilder.WithFilesArtifacts | golang/lib/services/container_creation_config_builder.go:37-40 | replaces the artifact mounts only |
| ContainerConfigs.ContainerCreationConfigBuilder.Build | golang/lib/services/container_creation_config_builder.go:43-52 | the built configuration agrees with the builder on all six fields |
| ContainerConfigs.ContainerRunConfigBuilder.constructor | golang/lib/services/container_run_config_builder.go:10-16 | no entrypoint or command override and an empty environment |
| ContainerConfigs.ContainerRunConfigBuilder.WithEntrypointOverride | golang/lib/services/container_run_config_builder.go:18-21 | replaces the entrypoint override only |
| ContainerConfigs.ContainerRunConfigBuilder.WithCmdOverride | golang/lib/services/container_run_config_builder.go:23-26 | replaces the command override only |
| ContainerConfigs.ContainerRunConfigBuilder.WithEnvironmentVariableOverrides | golang/lib/services/container_run_config_builder.go:28-31 | replaces the environment map only |
| ContainerConfigs.ContainerRunConfigBuilder.Build | golang/lib/services/container_run_config_builder.go:33-39 | the built configuration agrees with the builder on all three fields |
| RustContainerConfigs.ApplyRustCreation | rust/lib/src/services/container_creation_config.rs:75-88 | each Rust creation setter replaces its own field only |
| RustContainerConfigs.RustCreationLastSetterWins | rust/lib/src/services/container_creation_config.rs:75-88 | the last setter of a field wins |
| RustContainerConfigs.RustCreationUnsetFieldKept | rust/lib/src/services/container_creation_config.rs:64-73 | an unwritten field keeps its initial value |
| RustContainerConfigs.RustRunOverridePresentIffSet | rust/lib/src/services/container_run_config.rs:47-60 | after any Rust setter calls on a new builder, an override is present iff some call set it |
| RustContainerConfigs.RustContainerCreationConfigBuilder.constructor | rust/lib/src/services/container_creation_config.rs:64-73 | stores image, mountpoint and service function with an empty port set, file map and artifact map |
| RustContainerConfigs.RustContainerCreationConfigBuilder.WithUsedPorts | rust/lib/src/services/container_creation_config.rs:75-78 | replaces the port set only |
| RustContainerConfigs.RustContainerCreationConfigBuilder.WithGeneratedFiles | rust/lib/src/services/container_creation_config.rs:80-83 | replaces the file functions only |
| RustContainerConfigs.RustContainerCreationConfigBuilder.WithFilesArtifacts | rust/lib/src/services/container_creation_config.rs:85-88 | replaces the artifact mounts only |
| RustContainerConfigs.RustContainerCreationConfigBuilder.Build | rust/lib/src/services/container_creation_config.rs:90-99 | every getter of the built configuration returns the builder's field |
| RustContainerConfigs.RustContainerRunConfigBuilder.constructor | rust/lib/src/services/container_run_config.rs:39-45 | no overrides and an empty environment |
| RustContainerConfigs.RustContainerRunConfigBuilder.WithEntrypointOverride | rust/lib/src/services/container_run_config.rs:47-50 | sets a present entrypoint override only |
| RustContainerConfigs.RustContainerRunConfigBuilder.WithCmdOverride | rust/lib/src/services/container_run_config.rs:52-55 | sets a present command override only |
| RustContainerConfigs.RustContainerRunConfigBuilder.WithEnvironmentVariableOverrides | rust/lib/src/services/container_run_config.rs:57-60 | replaces the environment map only |
| RustContainerConfigs.RustContainerRunConfigBuilder.Build | rust/lib/src/services/container_run_config.rs:62-68 | every getter of the built configuration returns the builder's field |
| TestConfigurations.Apply | golang/lib/testsuite/test_configuration_builder.go:30-48 | each setter replaces its own field only |
| TestConfigurations.LastSetterWins | golang/lib/testsuite/test_configuration_builder.go:30-48 | after a sequence of setter calls, a field holds its last setter's value |
| TestConfigurations.UnsetFieldKeepsDefault | golang/lib/testsuite/test_configuration_builder.go:21-28 | a field no setter writes keeps its default |
| TestConfigurations.SettersOfDifferentFieldsCommute | rust/lib/src/testsuite/test_configuration_builder.rs:29-47 | setters of different fields can be called in either order |
| TestConfigurations.TestConfigurationBuilder.NewGo | golang/lib/testsuite/test_configuration_builder.go:21-28 | 180 s setup and run timeouts, partitioning off, no artifacts |
| TestConfigurations.TestConfigurationBuilder.NewRust | rust/lib/src/testsuite/test_configuration_builder.rs:20-27 | 60 s setup and run timeouts, partitioning off, no artifacts |
| TestConfigurations.TestConfigurationBuilder.WithSetupTimeoutSeconds | golang/lib/testsuite/test_configuration_builder.go:30-33 | replaces the setup timeout only and returns the same builder |
| TestConfigurations.TestConfigurationBuilder.WithRunTimeoutSeconds | golang/lib/testsuite/test_configuration_builder.go:35-38 | replaces the run timeout only and returns the same builder |
| TestConfigurations.TestConfigurationBuilder.WithPartitioningEnabled | golang/lib/testsuite/test_configuration_builder.go:40-43 | replaces the partitioning flag only and returns the same builder |
| TestConfigurations.TestConfigurationBuilder.WithFilesArtifactUrls | golang/lib/testsuite/test_configuration_builder.go:45-48 | replaces the artifact URLs only and returns the same builder |
| TestConfigurations.TestConfigurationBuilder.Build | golang/lib/testsuite/test_configuration_builder.go:50-57 | the configuration carries all four builder fields |
| TestConfigurations.CallSetters | golang/lib/execution/test_suite_executor.go:154-156 | a test's configure hook leaves the builder at the replay of its setter calls |
| TestSuites.UsedArtifactUrlsSpec | golang/lib/execution/test_suite_executor.go:110-113 | a URL is marked used iff it is the value of some configured artifact |
| TestSuites.CollectUsedArtifactUrls | golang/lib/execution/test_suite_executor.go:110-113 | the loop builds exactly the used-URL set |
| TestSuites.CollectAllTestMetadata | golang/lib/execution/test_suite_executor.go:105-121 | the loop builds one metadata entry per test from its configuration |
| TestSuites.MetadataCopiesConfig | golang/lib/execution/test_suite_executor.go:114-119 | each test's metadata copies the partitioning flag and both timeouts of its configuration; without setters, the defaults |
| TestSuites.GoRunTest | golang/lib/execution/test_suite_executor.go:199-212 | passes iff run returns no error; an error-valued panic becomes a recovered error; any other panic crashes |
| TestSuites.RustRunTest | rust/lib/src/testsuite/dyn_test_container.rs:74-75 | passes iff run returns no error; a panic is not caught |
| TestSuites.FirstFailureSpec | golang/lib/execution/test_suite_executor.go:166-193 | the first failing step fails after only successes, and the steps taken end there; no failure iff every step succeeds, and then all are taken |
| TestSuites.FirstFailureAt | golang/lib/execution/test_suite_executor.go:166-193 | a failure at step i after only successes stops the lifecycle after i+1 steps |
| TestSuites.RunLifecycle | golang/lib/execution/test_suite_executor.go:166-195 | performs the lifecycle steps in order up to and including the first failure, returning that step's error, or Ok when none fails |
| TestSuites.LifecycleStopsAtFailure | golang/lib/execution/test_suite_executor.go:166-193 | registering setup always comes first; run is reached iff the three registrations and setup succeed; the last step taken is the failing one |
| GoExecution.RunSerializeSuiteMetadataFlow | golang/lib/execution/test_suite_executor.go:104-135 | sends the suite's metadata once and returns the send's outcome |
| GoExecution.RunTestExecutionFlow | golang/lib/execution/test_suite_executor.go:137-196 | asks for the test name, errors for an unknown test, then runs the lifecycle |
| GoExecution.Run | golang/lib/execution/test_suite_executor.go:38-102 | the executor's result and events are those of its specification: configure, dial, retry registration, dispatch |
| GoExecution.GoRunConfiguresBeforeDialing | golang/lib/execution/test_suite_executor.go:39-62 | the log level is set first and the parameters parsed second; dialing happens iff both succeed |
| GoExecution.GoRunRegistrationRetries | golang/lib/execution/test_suite_executor.go:68-85 | at most 20 registration attempts; when all fail the error names 20 and 500 ms, with a 500 ms pause after every attempt, the 20th included |
| GoExecution.GoRunAfterRegistration | golang/lib/execution/test_suite_executor.go:77-101 | after the first successful registration, the rest of the run is the dispatch of the action it returned |
| GoExecution.GoRunStopsAtFirstRegistration | golang/lib/execution/test_suite_executor.go:68-85 | registration stops at the first success: earlier attempts failed and no later attempt is made |
| GoExecution.GoRunDispatchesFirstAction | golang/lib/execution/test_suite_executor.go:87-101 | metadata serialization runs only the metadata flow, test execution only the test flow, and any other action is an error naming its code |
| GoExecution.TestFlowFollowsLifecycle | golang/lib/execution/test_suite_executor.go:137-196 | an unknown test name errors before any lifecycle call; otherwise the lifecycle events follow in order, and the flow succeeds iff all five steps do |
| RustExecution.ConnectTo | rust/lib/src/execution/test_suite_executor.rs:41-79 | the connect loop's result and events are those of its specification |
| RustExecution.Run | rust/lib/src/execution/test_suite_executor.rs:32-90 | the executor's result and events are those of its specification |
| RustExecution.RustRunConfiguresFirst | rust/lib/src/execution/test_suite_executor.rs:33-40 | the log level and parameters come first and abort on failure; no connection is attempted without a socket, and the run is then Ok |
| RustExecution.ConnectionRetries | rust/lib/src/execution/test_suite_executor.rs:53-79 | at most 20 connect attempts; success iff one succeeds, stopping right after it; otherwise each attempt is followed by a 500 ms pause and the error names 20 and 500 ms |
| RustExecution.GetTestMetadata | rust/lib/src/testsuite/dyn_test_container.rs:26-41 | always Ok, with the used-URL set and the flag and timeouts of the test's Rust configuration |
| RustExecution.SetupAndRun | rust/lib/src/testsuite/dyn_test_container.rs:43-79 | performs the lifecycle steps in order up to the first failure and returns its error |
| RustExecution.SetupAndRunOkIffRunOk | rust/lib/src/testsuite/dyn_test_container.rs:58-78 | succeeds iff the three registrations and setup succeed and run returns no error |
| TestSuiteServices.ServiceMetadataSpec | golang/lib/execution/test_suite_service.go:54-86 | one metadata entry per test from its configuration, the network width copied, and the static-file set equal to the declared keys |
| TestSuiteServices.CollectStaticFileKeys | golang/lib/execution/test_suite_service.go:74-78 | the loop builds exactly the set of declared static-file keys |
| TestSuiteServices.SetupRecordsOnlyRealNetworks | golang/lib/execution/test_suite_service.go:147-193 | setup succeeds iff there is a client, the test exists and its setup returns a network; the record names that test and network |
| TestSuiteServices.RunNeedsSetup | golang/lib/execution/test_suite_service.go:195-229 | running without a client or before a successful setup errors; otherwise it succeeds iff the recorded test passes on the recorded network |
| TestSuiteServices.SetupThenRun | golang/lib/execution/test_suite_service.go:147-229 | after a successful setup, running passes iff the same test passes on the network its setup returned |
| TestSuiteServices.TestSuiteService.constructor | golang/lib/execution/test_suite_service.go:41-48 | a new service has no setup recorded |
| TestSuiteServices.TestSuiteService.GetTestSuiteMetadata | golang/lib/execution/test_suite_service.go:54-86 | returns the suite's metadata as specified |
| TestSuiteServices.TestSuiteService.CopyStaticFilesToExecutionVolume | golang/lib/execution/test_suite_service.go:88-145 | any invalid request fails before any copy; success iff every request is valid and copies; each file is copied at most once, and all of them on success |
| TestSuiteServices.TestSuiteService.SetupTest | golang/lib/execution/test_suite_service.go:147-193 | records the setup outcome on success and leaves the record unchanged on any error |
| TestSuiteServices.TestSuiteService.RunTest | golang/lib/execution/test_suite_service.go:195-229 | returns the run outcome of the recorded setup |
| TestNetworks.ApiServiceIdsDistinct | golang/testsuite/networks_impl/test_network.go:125-133 | "api-N" ids are distinct for distinct counters and never the datastore id |
| TestNetworks.GoAddApiUsesUpId | golang/testsuite/networks_impl/test_network.go:125-133 | no datastore means an error and no change; otherwise the counter is used up whatever the outcome of the add |
| TestNetworks.GoSetupOrder | golang/testsuite/networks_impl/test_network.go:55-105 | refuses when a client exists; otherwise adds datastore, then two APIs under consecutive distinct ids, stopping at the first failure; success sets all three clients |
| TestNetworks.GoTestNetwork.constructor | golang/testsuite/networks_impl/test_network.go:41-51 | no clients and counter 0 |
| TestNetworks.GoTestNetwork.AddApiService | golang/testsuite/networks_impl/test_network.go:125-199 | the result and new state are those of the specification |
| TestNetworks.GoTestNetwork.SetupDatastoreAndTwoApis | golang/testsuite/networks_impl/test_network.go:55-105 | the result and new state are those of the specification |
| TestNetworks.GoTestNetwork.GetPersonModifyingApiClient | golang/testsuite/networks_impl/test_network.go:109-114 | returns the client iff it is set, otherwise an error |
| TestNetworks.GoTestNetwork.GetPersonRetrievingApiClient | golang/testsuite/networks_impl/test_network.go:115-120 | returns the client iff it is set, otherwise an error |
| TestNetworks.NewRustNetValid | rust/testsuite/src/networks_impl/test_network.rs:24-33 | a new network has no datastore, no API services and satisfies the id invariant |
| TestNetworks.RustAddDatastoreSpec | rust/testsuite/src/networks_impl/test_network.rs:35-50 | refuses a second datastore; sets it iff add and wait succeed; API services untouched; invariant kept |
| TestNetworks.RustAddApiServiceSpec | rust/testsuite/src/networks_impl/test_network.rs:52-73 | no datastore means an error and no change; otherwise the id is used up; success returns a fresh id under which only the new service is added |
| TestNetworks.RustGetNeverAdded | rust/testsuite/src/networks_impl/test_network.rs:75-79 | an id never requested is not found |
| TestNetworks.RustTestNetwork.constructor | rust/testsuite/src/networks_impl/test_network.rs:24-33 | the new state is the empty network |
| TestNetworks.RustTestNetwork.AddDatastore | rust/testsuite/src/networks_impl/test_network.rs:35-50 | the result and new state are those of the specification |
| TestNetworks.RustTestNetwork.AddApiService | rust/testsuite/src/networks_impl/test_network.rs:52-73 | the result and new state are those of the specification |
| TestNetworks.RustTestNetwork.GetApiService | rust/testsuite/src/networks_impl/test_network.rs:75-79 | returns the specified lookup |
| ConfigFactories.NginxGetCreationConfig | golang/testsuite/services_impl/nginx_static/nginx_static_container_config_factory.go:31-47 | never fails; port 80 only, mountpoint /test-volume, no generated files; no artifact mount for an empty id, otherwise exactly id → /static; the nginx service-creating function |
| ConfigFactories.NginxGetRunConfig | golang/testsuite/services_impl/nginx_static/nginx_static_container_config_factory.go:49-51 | never fails and overrides nothing |
| ConfigFactories.NginxGetPort | golang/testsuite/services_impl/nginx_static/nginx_static_container_config_factory.go:53-55 | the port is 80 |
| ConfigFactories.ApiGetCreationConfig | golang/testsuite/services_impl/api/api_container_config_factory.go:36-67 | never fails; port 2434/tcp only, mountpoint /test-volume, exactly one generated file config-file, no artifacts; the model's service-creating function |
| ConfigFactories.ApiGetRunConfig | golang/testsuite/services_impl/api/api_container_config_factory.go:69-81 | succeeds iff config-file has a path; then the command is ./api.bin --config with that path and nothing else is overridden |
| Configurators.ValidateArgs | typescript/testsuite/execution_impl/example_testsuite_configurator.ts:44-52 | ok iff both images are non-blank; a blank API image is reported first |
| Configurators.SetLogLevel | typescript/testsuite/execution_impl/example_testsuite_configurator.ts:14-18 | always ok |
| Configurators.ParseParamsAndCreateSuite | typescript/testsuite/execution_impl/example_testsuite_configurator.ts:20-34 | a parse failure is reported as such; success iff the JSON parses and validates, building the suite from the two images |
| Configurators.BlankImageRefused | typescript/testsuite/execution_impl/example_testsuite_configurator.ts:44-52 | whitespace-only images are refused in order; padded names are accepted |

## Left out

- Concurrency: the mutexes in the network context and the test-suite service are left out, and every call is sequential.
- Transport: gRPC and JSON-RPC transport, the generated protobuf code and dial timeouts. Remote calls are oracle fields that answer success or failure.
- Real time: sleeps are events carrying their length in milliseconds, and no clock is modelled.
- Files: file creation, generated-file initialization, static-file stat and copy, and the API config-file writer are oracles. `path.Join` is modelled without `path.Clean`.
- Text: log messages and the text of wrapped errors are left out. Errors are datatypes carrying the values the messages mention.
- Go nil slices and Rust `Option`s are both modelled as `Option`.
- Rust executor: client creation after connecting (`test_suite_executor.rs` lines 81-89) is not modelled. It is left as a TODO in that code.
- Counters: the `u32` API-id counter of the Rust test network is an unbounded `nat`, so its overflow is not modelled.
- Networks.NetworkContext.AddServiceToPartition: an unknown artifact id is an `UnknownFilesArtifact` error. The code as written passes a nil error to `Propagate` and then returns neither a service nor an error.
- LegacyNetworks.LegacyNetworkContext.RemoveService: this version of the code puts a `time.Duration` of 10 s into a seconds field. The model sends 10 seconds.
- LegacyNetworks.LegacyNetworkContext.RepartitionNetwork: this version of the code builds the repartition arguments and then leaves them unused. Instead it calls a `kurtosisService` field that the context does not have. The model sends the converted topology, connections and default connection as one `legacyRepartition` request to the API container.
- Repartitioning.RepartitionerBuilder.Build: the error for a failing mutator is not modelled, because no mutator can fail. Build is proved to always succeed instead.
- Availability.WaitForStartup: the Rust function currently returns `Ok` unconditionally. The model follows the reference loop kept in its comment, and its `u32` retry count is an `int`.
- TestSuites.RustRunTest: a panic in the Rust test run is not caught and is modelled as a crash.
- TestSuiteServices.TestSuiteService.CopyStaticFilesToExecutionVolume: the copy pass repeats the "not found" checks of the validation pass. Those repeated checks can never fail and are not modelled.
- Configurators.SetLogLevel: the model always succeeds, as the function's own return promises. An exception thrown by the logging library for an unknown level is not modelled.
- The service health checks (`IsAvailable` of the example services and of the test-suite service) are left out. They are network I/O, and the test-suite service's version always answers with an empty response. The availability poll takes the health check as a parameter.
- ConfigFactories.ApiGetCreationConfig: in this version of the code the factory passes no service-creating function to a builder that needs one. The model supplies the module constant `ApiServiceCreator`, which wraps a container as a plain service. The factory's datastore client is read only by the config-writing function, so the model keeps that function (`configWriter`) and not the client. The JSON the function writes is not modelled.
- TestNetworks: adding a service and waiting for it in the example networks are one `ServiceHost` oracle.
- NetworkPartitionTest.Run: the calls between the two repartitions are summarised as two outcomes, one for the partitioned phase and one for the healed phase. The HTTP calls are part of these outcomes. So is adding the api2 service (`addApiService`) before the healing repartition.
- The example tests' other `Setup` and `Run` bodies and the TypeScript example network are not part of this model: they drive remote containers over HTTP.
- Rust getters are field reads, and Rust `clone` in `build` is covered by value semantics.
- ContainerConfigs.ContainerConfigBuilder, ContainerConfigs.ContainerCreationConfigBuilder, ContainerConfigs.ContainerRunConfigBuilder, TestConfigurations.TestConfigurationBuilder: aliasing of maps and slices is not modelled. The Go `With*` setters store the caller's map or slice by reference, and `Build` hands that same map or slice to the built configuration. So in Go, a later change to the caller's map also changes the builder and every configuration built from it. The model's maps and sequences are values, so a stored or built configuration never changes afterwards.
- Configurators.ParseParamsAndCreateSuite: the parser is an oracle that returns either a parse error or arguments with two string image fields. Valid JSON of another shape, such as `null`, `{}` or a number-valued image field, is not modelled. In the source, such JSON makes `trim()` throw a TypeError outside the returned result; the model has no thrown outcome.
