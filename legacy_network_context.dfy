/** The older Go network context: it registers and starts services like the reference
    context but keeps no registry, passes artifact ids through unresolved, always stops
    containers with a fixed timeout, and sends repartitions in the JSON-RPC shape. */
module LegacyNetworks {
  import opened Wrappers
  import opened Strings
  import opened CoreApi
  import opened Repartitioning
  import Networks

  /** The stop timeout every removal sends, whatever the caller asked for. */
  const RemoveServiceContainerStopTimeout: uint64 := 10

  const DefaultPartitionId: PartitionId := ""

  /** The older initializer interface: the service handle is built from the IP alone. */
  datatype LegacyInitializer = LegacyInitializer(
    dockerImage: string,
    usedPorts: map<string, bool>,
    filesToMount: map<string, bool>,
    testVolumeMountpoint: string,
    filesArtifactMountpoints: map<FilesArtifactId, string>,
    initializeMountedFiles: map<string, string> -> bool,
    startCommand: (map<string, string>, string) -> Option<seq<string>>,
    getService: string -> Service)

  /** The JSON-RPC form of a partition connection. */
  function MakePartConnSerializable(connection: PartitionConnectionInfo): (s: SerializablePartitionConnection)
    ensures s.isBlocked == connection.isBlocked
  {
    SerializablePartitionConnection(connection.isBlocked)
  }

  /** Converting a connection loses nothing: it can be converted back. */
  lemma SerializableRoundTrip(connection: PartitionConnectionInfo)
    ensures PartitionConnectionInfo(MakePartConnSerializable(connection).isBlocked) == connection
  {
  }

  /** The outcome of AddServiceToPartition(serviceId, partitionId, init) that takes the
      request log from q0 to q1 and the created files from f0 to f1: the pipeline register,
      create files, initialize them, build the start command, start; each failure stops
      it there, and no step after registration sends a request before the start. */
  predicate LegacyAddServicePost(client: Orchestrator, fs: FileSystem,
                                 q0: seq<Request>, f0: set<string>, q1: seq<Request>, f1: set<string>,
                                 serviceId: ServiceId, partitionId: PartitionId, init: LegacyInitializer,
                                 r: Result<(Service, AvailabilityChecker), Networks.NetworkError>)
  {
    var args := RegisterServiceArgs(serviceId, partitionId, init.filesToMount);
    var reg := RegisterService(args);
    var resp := client.register(args);
    && (resp.None? ==> r == Err(Networks.RegisterFailed(serviceId)) && q1 == q0 + [reg] && f1 == f0)
    && (resp.Some? ==>
      var generated := resp.value.generatedFilesRelativeFilepaths;
      var paths := Networks.SuitePaths(generated);
      var cmd := init.startCommand(paths, resp.value.ipAddr);
      var svc := init.getService(resp.value.ipAddr);
      && f0 <= f1 <= f0 + Networks.SuiteFiles(generated)
      && (!Networks.FilesCreatable(fs, generated) ==>
            && r.Err? && r.error.GeneratedFileOpenFailed? && r.error.fileId in generated
            && !fs.canCreate(Join(SuiteExVolMountpoint, generated[r.error.fileId]))
            && q1 == q0 + [reg])
      && (Networks.FilesCreatable(fs, generated) ==> f1 == f0 + Networks.SuiteFiles(generated))
      && (Networks.FilesCreatable(fs, generated) && !init.initializeMountedFiles(paths) ==>
            r == Err(Networks.InitializeFilesFailed) && q1 == q0 + [reg])
      && (Networks.FilesCreatable(fs, generated) && init.initializeMountedFiles(paths) && cmd.None? ==>
            r == Err(Networks.StartCommandFailed) && q1 == q0 + [reg])
      && (Networks.FilesCreatable(fs, generated) && init.initializeMountedFiles(paths) && cmd.Some? ==>
            var start := StartServiceArgs(serviceId, init.dockerImage, init.usedPorts, cmd.value, map[],
                                          init.testVolumeMountpoint, init.filesArtifactMountpoints);
            && q1 == q0 + [reg, StartService(start)]
            && (r.Ok? <==> client.start(start))
            && (r.Ok? ==> r.value == (svc, AvailabilityChecker(serviceId, svc)))
            && (r.Err? ==> r.error == Networks.StartFailed(serviceId))))
  }

  /** An add succeeds exactly when registration, file creation, file initialization, the
      start command and the start call all succeed; its first request is always the
      registration. */
  lemma LegacyAddServiceSucceedsIff(client: Orchestrator, fs: FileSystem,
                                    q0: seq<Request>, f0: set<string>, q1: seq<Request>, f1: set<string>,
                                    serviceId: ServiceId, partitionId: PartitionId, init: LegacyInitializer,
                                    r: Result<(Service, AvailabilityChecker), Networks.NetworkError>)
    requires LegacyAddServicePost(client, fs, q0, f0, q1, f1, serviceId, partitionId, init, r)
    ensures |q1| > |q0| && q1[|q0|] == RegisterService(RegisterServiceArgs(serviceId, partitionId, init.filesToMount))
    ensures r.Ok? <==>
      var resp := client.register(RegisterServiceArgs(serviceId, partitionId, init.filesToMount));
      && resp.Some?
      && Networks.FilesCreatable(fs, resp.value.generatedFilesRelativeFilepaths)
      && init.initializeMountedFiles(Networks.SuitePaths(resp.value.generatedFilesRelativeFilepaths))
      && init.startCommand(Networks.SuitePaths(resp.value.generatedFilesRelativeFilepaths), resp.value.ipAddr).Some?
      && client.start(q1[|q0| + 1].startArgs)
  {
  }

  class LegacyNetworkContext {
    const client: Orchestrator
    const fs: FileSystem
    const filesArtifactUrls: map<FilesArtifactId, string>
    /** Every request sent to the API container, in order. */
    var requests: seq<Request>
    /** Every file created on the testsuite container. */
    var openedFiles: set<string>

    constructor (client: Orchestrator, fs: FileSystem, filesArtifactUrls: map<FilesArtifactId, string>)
      ensures this.client == client && this.fs == fs && this.filesArtifactUrls == filesArtifactUrls
      ensures requests == [] && openedFiles == {}
    {
      this.client := client;
      this.fs := fs;
      this.filesArtifactUrls := filesArtifactUrls;
      requests := [];
      openedFiles := {};
    }

    /** Adds a service to the default partition: the same pipeline with partition "",
        its error wrapped. */
    method AddService(serviceId: ServiceId, init: LegacyInitializer) returns (r: Result<(Service, AvailabilityChecker), Networks.NetworkError>)
      modifies this
      ensures exists inner ::
        && LegacyAddServicePost(client, fs, old(requests), old(openedFiles), requests, openedFiles, serviceId, DefaultPartitionId, init, inner)
        && r == (if inner.Ok? then inner else Err(Networks.AddToDefaultPartitionFailed(serviceId, inner.error)))
    {
      var inner := AddServiceToPartition(serviceId, DefaultPartitionId, init);
      if inner.Err? {
        r := Err(Networks.AddToDefaultPartitionFailed(serviceId, inner.error));
      } else {
        r := inner;
      }
    }

    method AddServiceToPartition(serviceId: ServiceId, partitionId: PartitionId, init: LegacyInitializer)
      returns (r: Result<(Service, AvailabilityChecker), Networks.NetworkError>)
      modifies this
      ensures LegacyAddServicePost(client, fs, old(requests), old(openedFiles), requests, openedFiles, serviceId, partitionId, init, r)
    {
      var registerArgs := RegisterServiceArgs(serviceId, partitionId, init.filesToMount);
      requests := requests + [RegisterService(registerArgs)];
      var resp := client.register(registerArgs);
      if resp.None? {
        return Err(Networks.RegisterFailed(serviceId));
      }
      var generated := resp.value.generatedFilesRelativeFilepaths;
      var files := CreateGeneratedFiles(generated);
      if files.Err? {
        return Err(files.error);
      }
      if !init.initializeMountedFiles(files.value) {
        return Err(Networks.InitializeFilesFailed);
      }
      var filesArtifactMountDirpaths := CopyArtifactMountpoints(init.filesArtifactMountpoints);
      var startCmdArgs := init.startCommand(files.value, resp.value.ipAddr);
      if startCmdArgs.None? {
        return Err(Networks.StartCommandFailed);
      }
      var startArgs := StartServiceArgs(serviceId, init.dockerImage, init.usedPorts, startCmdArgs.value,
                                        map[], init.testVolumeMountpoint, filesArtifactMountDirpaths);
      requests := requests + [StartService(startArgs)];
      if !client.start(startArgs) {
        return Err(Networks.StartFailed(serviceId));
      }
      var service := init.getService(resp.value.ipAddr);
      r := Ok((service, AvailabilityChecker(serviceId, service)));
    }

    /** Creates one file per generated file id; the map of testsuite-side absolute paths
        is what the start command receives. */
    method CreateGeneratedFiles(generated: map<string, string>) returns (r: Result<map<string, string>, Networks.NetworkError>)
      modifies this`openedFiles
      ensures r.Ok? <==> Networks.FilesCreatable(fs, generated)
      ensures r.Ok? ==> r.value == Networks.SuitePaths(generated) && openedFiles == old(openedFiles) + Networks.SuiteFiles(generated)
      ensures r.Err? ==> r.error.GeneratedFileOpenFailed? && r.error.fileId in generated
                         && !fs.canCreate(Join(SuiteExVolMountpoint, generated[r.error.fileId]))
      ensures old(openedFiles) <= openedFiles <= old(openedFiles) + Networks.SuiteFiles(generated)
    {
      var absolute: map<string, string> := map[];
      var remaining := generated.Keys;
      while remaining != {}
        invariant remaining <= generated.Keys
        invariant absolute == map f | f in generated.Keys - remaining :: Join(SuiteExVolMountpoint, generated[f])
        invariant forall f | f in generated.Keys - remaining :: fs.canCreate(Join(SuiteExVolMountpoint, generated[f]))
        invariant openedFiles == old(openedFiles) + set f | f in generated.Keys - remaining :: Join(SuiteExVolMountpoint, generated[f])
        decreases |remaining|
      {
        var fileId :| fileId in remaining;
        var absoluteFilepath := Join(SuiteExVolMountpoint, generated[fileId]);
        absolute := absolute[fileId := absoluteFilepath];
        if !fs.canCreate(absoluteFilepath) {
          return Err(Networks.GeneratedFileOpenFailed(fileId));
        }
        openedFiles := openedFiles + {absoluteFilepath};
        remaining := remaining - {fileId};
      }
      assert generated.Keys - remaining == generated.Keys;
      r := Ok(absolute);
    }

    /** Sends a removal with the fixed stop timeout; the caller's timeout is ignored. */
    method RemoveService(serviceId: ServiceId, containerStopTimeoutSeconds: int) returns (r: Result<(), Networks.NetworkError>)
      modifies this`requests
      ensures requests == old(requests) + [Request.RemoveService(RemoveServiceArgs(serviceId, RemoveServiceContainerStopTimeout))]
      ensures r.Ok? <==> client.remove(RemoveServiceArgs(serviceId, RemoveServiceContainerStopTimeout))
      ensures r.Err? ==> r.error == Networks.RemoveFailed(serviceId)
    {
      var args := RemoveServiceArgs(serviceId, RemoveServiceContainerStopTimeout);
      requests := requests + [Request.RemoveService(args)];
      if !client.remove(args) {
        return Err(Networks.RemoveFailed(serviceId));
      }
      r := Ok(());
    }

    method GetRepartitionerBuilder(isDefaultPartitionConnectionBlocked: bool) returns (b: RepartitionerBuilder)
      ensures fresh(b)
      ensures b.isDefaultPartitionConnectionBlocked == isDefaultPartitionConnectionBlocked && b.mutators == []
    {
      b := new RepartitionerBuilder(isDefaultPartitionConnectionBlocked);
    }

    /** Sends the topology, every connection made serializable, to the API container. */
    method RepartitionNetwork(repartitioner: Repartitioner) returns (r: Result<(), Networks.NetworkError>)
      modifies this`requests
      ensures requests == old(requests) + [LegacyRepartition(LegacyRepartitionArgs(
        PartitionServicesArg(repartitioner.partitionServices),
        ConnectionsArg(repartitioner.partitionConnections, MakePartConnSerializable),
        MakePartConnSerializable(repartitioner.defaultConnection)))]
      ensures r.Ok? <==> client.legacyRepartition(requests[|requests| - 1].legacyRepartitionArgs)
      ensures r.Err? ==> r.error == Networks.RepartitionFailed
    {
      var partitionServices := PartitionServicesToArg(repartitioner.partitionServices);
      var serializablePartConns := ConnectionsToArg(repartitioner.partitionConnections, MakePartConnSerializable);
      var serializableDefaultConn := MakePartConnSerializable(repartitioner.defaultConnection);
      var args := LegacyRepartitionArgs(partitionServices, serializablePartConns, serializableDefaultConn);
      requests := requests + [LegacyRepartition(args)];
      if !client.legacyRepartition(args) {
        return Err(Networks.RepartitionFailed);
      }
      r := Ok(());
    }
  }

  /** Copies the artifact id -> mount dirpath map key for key, without URL resolution. */
  method CopyArtifactMountpoints(mounts: map<FilesArtifactId, string>) returns (m: map<string, string>)
    ensures m == mounts
  {
    m := map[];
    var remaining := mounts.Keys;
    while remaining != {}
      invariant remaining <= mounts.Keys
      invariant m == map id | id in mounts.Keys - remaining :: mounts[id]
      decreases |remaining|
    {
      var id :| id in remaining;
      m := m[id := mounts[id]];
      remaining := remaining - {id};
    }
  }

  /** Each converted connection of a legacy repartition keeps its blocked flag. */
  lemma LegacyConnectionsKeepBlocked(pc: map<PartitionId, map<PartitionId, PartitionConnectionInfo>>, a: PartitionId, b: PartitionId)
    requires a in pc && b in pc[a]
    ensures a in ConnectionsArg(pc, MakePartConnSerializable)
    ensures ConnectionsArg(pc, MakePartConnSerializable)[a][b].isBlocked == pc[a][b].isBlocked
  {
  }
}
