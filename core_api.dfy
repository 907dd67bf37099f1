/** The message shapes of the Kurtosis API container's test-execution service, the
    remote calls a network context makes (as an oracle that answers each request), and
    the log of requests a context has sent. Protobuf pseudo-sets (`map<string, bool>`)
    are kept as maps. */
module CoreApi {
  import opened Wrappers

  type ServiceId = string
  type PartitionId = string
  type FilesArtifactId = string

  /** The directory where the suite execution volume is mounted on the testsuite container. */
  const SuiteExVolMountpoint: string := "/suite-execution"

  datatype RegisterServiceArgs = RegisterServiceArgs(
    serviceId: ServiceId,
    partitionId: PartitionId,
    filesToGenerate: map<string, bool>)

  datatype RegisterServiceResponse = RegisterServiceResponse(
    generatedFilesRelativeFilepaths: map<string, string>,
    ipAddr: string)

  datatype StartServiceArgs = StartServiceArgs(
    serviceId: ServiceId,
    dockerImage: string,
    usedPorts: map<string, bool>,
    startCmdArgs: seq<string>,
    dockerEnvVars: map<string, string>,
    suiteExecutionVolMntDirpath: string,
    filesArtifactMountDirpaths: map<string, string>)

  /** The protobuf `uint64` field type. */
  newtype uint64 = x: int | 0 <= x < 0x1_0000_0000_0000_0000

  datatype RemoveServiceArgs = RemoveServiceArgs(serviceId: ServiceId, containerStopTimeoutSeconds: uint64)

  datatype PartitionConnectionInfo = PartitionConnectionInfo(isBlocked: bool)

  /** The legacy JSON-RPC shape of a partition connection. */
  datatype SerializablePartitionConnection = SerializablePartitionConnection(isBlocked: bool)

  datatype RepartitionArgs = RepartitionArgs(
    partitionServices: map<string, map<string, bool>>,
    partitionConnections: map<string, map<string, PartitionConnectionInfo>>,
    defaultConnection: PartitionConnectionInfo)

  datatype LegacyRepartitionArgs = LegacyRepartitionArgs(
    partitionServices: map<string, map<string, bool>>,
    partitionConnections: map<string, map<string, SerializablePartitionConnection>>,
    defaultConnection: SerializablePartitionConnection)

  /** Every request a network context sends to the API container, in sending order. */
  datatype Request =
    | RegisterService(registerArgs: RegisterServiceArgs)
    | StartService(startArgs: StartServiceArgs)
    | RemoveService(removeArgs: RemoveServiceArgs)
    | Repartition(repartitionArgs: RepartitionArgs)
    | LegacyRepartition(legacyRepartitionArgs: LegacyRepartitionArgs)

  /** The API container as seen by the client: for each request, whether the call
      succeeded (and, for a registration, the response). */
  datatype Orchestrator = Orchestrator(
    register: RegisterServiceArgs -> Option<RegisterServiceResponse>,
    start: StartServiceArgs -> bool,
    remove: RemoveServiceArgs -> bool,
    repartition: RepartitionArgs -> bool,
    legacyRepartition: LegacyRepartitionArgs -> bool)

  /** The testsuite container's file system, reduced to whether a file can be created. */
  datatype FileSystem = FileSystem(canCreate: string -> bool)

  /** A handle on a running service, as an initializer builds it from its id and IP. */
  datatype Service = Service(serviceId: ServiceId, ipAddr: string)

  /** The default availability checker bound to a service. */
  datatype AvailabilityChecker = AvailabilityChecker(serviceId: ServiceId, service: Service)

  /** What a Docker container initializer supplies; the calls into user code are
      total functions of their arguments. */
  datatype Initializer = Initializer(
    dockerImage: string,
    usedPorts: map<string, bool>,
    filesToMount: map<string, bool>,
    testVolumeMountpoint: string,
    filesArtifactMountpoints: map<FilesArtifactId, string>,
    /** InitializeMountedFiles, given file id -> path of the opened file. */
    initializeMountedFiles: map<string, string> -> bool,
    /** GetStartCommand, given file id -> absolute path and the service's IP. */
    startCommand: (map<string, string>, string) -> Option<seq<string>>,
    getService: (ServiceId, string) -> Service)
}
