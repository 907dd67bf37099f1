/** The network context a test uses to change its network: it registers and starts
    services through the API container, keeps a registry of the services it started,
    removes them, and repartitions the network. This is the reference behaviour of the
    Rust library's network context. */
module Networks {
  import opened Wrappers
  import opened Strings
  import opened CoreApi
  import opened Repartitioning

  /** The partition every service joins unless another is named. */
  const DefaultPartitionId: PartitionId := ""

  datatype NetworkError =
    | RegisterFailed(serviceId: ServiceId)
    | GeneratedFileOpenFailed(fileId: string)
    | InitializeFilesFailed
    | UnknownFilesArtifact(filesArtifactId: FilesArtifactId)
    | StartCommandFailed
    | StartFailed(serviceId: ServiceId)
    | AddToDefaultPartitionFailed(serviceId: ServiceId, cause: NetworkError)
    | ServiceNotFound(serviceId: ServiceId)
    | RemoveFailed(serviceId: ServiceId)
    | RepartitionFailed

  /** The part of a context that its operations change. */
  datatype NetState = NetState(
    services: map<ServiceId, Service>,
    requests: seq<Request>,
    openedFiles: set<string>)

  // ------------------------------------------------------------------------------------
  //  What one AddServiceToPartition call computes
  // ------------------------------------------------------------------------------------

  /** Generated file id -> its absolute path on the testsuite container. */
  function SuitePaths(generated: map<string, string>): map<string, string>
  {
    map fileId | fileId in generated :: Join(SuiteExVolMountpoint, generated[fileId])
  }

  /** Generated file id -> its absolute path as the service sees it. */
  function ServicePaths(mountpointOnService: string, generated: map<string, string>): map<string, string>
  {
    map fileId | fileId in generated :: Join(mountpointOnService, generated[fileId])
  }

  /** The files the testsuite creates for a registration's generated files. */
  function SuiteFiles(generated: map<string, string>): set<string>
  {
    set fileId | fileId in generated :: Join(SuiteExVolMountpoint, generated[fileId])
  }

  predicate FilesCreatable(fs: FileSystem, generated: map<string, string>)
  {
    forall fileId | fileId in generated :: fs.canCreate(Join(SuiteExVolMountpoint, generated[fileId]))
  }

  /** `am` maps the URL of every requested artifact to a mount dirpath requested for an
      artifact with that URL (when two ids share a URL, map order picks the survivor). */
  predicate IsArtifactUrlMap(urls: map<FilesArtifactId, string>, mounts: map<FilesArtifactId, string>, am: map<string, string>)
  {
    && mounts.Keys <= urls.Keys
    && am.Keys == (set id | id in mounts :: urls[id])
    && forall url | url in am :: exists id | id in mounts :: urls[id] == url && am[url] == mounts[id]
  }

  predicate StartArgsFor(sa: StartServiceArgs, serviceId: ServiceId, init: Initializer,
                         urls: map<FilesArtifactId, string>, cmd: seq<string>)
  {
    && sa.serviceId == serviceId
    && sa.dockerImage == init.dockerImage
    && sa.usedPorts == init.usedPorts
    && sa.startCmdArgs == cmd
    && sa.dockerEnvVars == map[]
    && sa.suiteExecutionVolMntDirpath == init.testVolumeMountpoint
    && IsArtifactUrlMap(urls, init.filesArtifactMountpoints, sa.filesArtifactMountDirpaths)
  }

  function RegisterArgsFor(serviceId: ServiceId, partitionId: PartitionId, init: Initializer): RegisterServiceArgs
  {
    RegisterServiceArgs(serviceId, partitionId, init.filesToMount)
  }

  /** The outcome of AddServiceToPartition(serviceId, partitionId, init) from state s0:
      the pipeline register, create files, initialize them, resolve artifacts, build the
      start command, start, record; each failure stops it there. */
  predicate AddServicePost(client: Orchestrator, fs: FileSystem, urls: map<FilesArtifactId, string>,
                           s0: NetState, s1: NetState,
                           serviceId: ServiceId, partitionId: PartitionId, init: Initializer,
                           r: Result<(Service, AvailabilityChecker), NetworkError>)
  {
    var reg := RegisterService(RegisterArgsFor(serviceId, partitionId, init));
    var resp := client.register(RegisterArgsFor(serviceId, partitionId, init));
    && (r.Err? ==> s1.services == s0.services)
    && (resp.None? ==> r == Err(RegisterFailed(serviceId)) && s1 == s0.(requests := s0.requests + [reg]))
    && (resp.Some? ==>
      var generated := resp.value.generatedFilesRelativeFilepaths;
      var mounts := init.filesArtifactMountpoints;
      var cmd := init.startCommand(ServicePaths(init.testVolumeMountpoint, generated), resp.value.ipAddr);
      var svc := init.getService(serviceId, resp.value.ipAddr);
      && s0.openedFiles <= s1.openedFiles <= s0.openedFiles + SuiteFiles(generated)
      && (!FilesCreatable(fs, generated) ==>
            && r.Err? && r.error.GeneratedFileOpenFailed? && r.error.fileId in generated
            && !fs.canCreate(Join(SuiteExVolMountpoint, generated[r.error.fileId]))
            && s1.requests == s0.requests + [reg])
      && (FilesCreatable(fs, generated) ==> s1.openedFiles == s0.openedFiles + SuiteFiles(generated))
      && (FilesCreatable(fs, generated) && !init.initializeMountedFiles(SuitePaths(generated)) ==>
            r == Err(InitializeFilesFailed) && s1.requests == s0.requests + [reg])
      && (FilesCreatable(fs, generated) && init.initializeMountedFiles(SuitePaths(generated)) && !(mounts.Keys <= urls.Keys) ==>
            && r.Err? && r.error.UnknownFilesArtifact? && r.error.filesArtifactId in mounts
            && r.error.filesArtifactId !in urls && s1.requests == s0.requests + [reg])
      && (FilesCreatable(fs, generated) && init.initializeMountedFiles(SuitePaths(generated)) && mounts.Keys <= urls.Keys && cmd.None? ==>
            r == Err(StartCommandFailed) && s1.requests == s0.requests + [reg])
      && (FilesCreatable(fs, generated) && init.initializeMountedFiles(SuitePaths(generated)) && mounts.Keys <= urls.Keys && cmd.Some? ==>
            && |s1.requests| == |s0.requests| + 2
            && s1.requests[..|s0.requests| + 1] == s0.requests + [reg]
            && s1.requests[|s0.requests| + 1].StartService?
            && StartArgsFor(s1.requests[|s0.requests| + 1].startArgs, serviceId, init, urls, cmd.value)
            && (r.Ok? <==> client.start(s1.requests[|s0.requests| + 1].startArgs))
            && (r.Err? ==> r.error == StartFailed(serviceId)))
      && (r.Ok? ==> r.value == (svc, AvailabilityChecker(serviceId, svc)) && s1.services == s0.services[serviceId := svc]))
  }

  /** With failures only from the API container, an add succeeds exactly when every
      step of the pipeline does. */
  lemma AddServiceSucceedsIff(client: Orchestrator, fs: FileSystem, urls: map<FilesArtifactId, string>,
                              s0: NetState, s1: NetState,
                              serviceId: ServiceId, partitionId: PartitionId, init: Initializer,
                              r: Result<(Service, AvailabilityChecker), NetworkError>)
    requires AddServicePost(client, fs, urls, s0, s1, serviceId, partitionId, init, r)
    ensures r.Ok? <==>
      var resp := client.register(RegisterArgsFor(serviceId, partitionId, init));
      && resp.Some?
      && FilesCreatable(fs, resp.value.generatedFilesRelativeFilepaths)
      && init.initializeMountedFiles(SuitePaths(resp.value.generatedFilesRelativeFilepaths))
      && init.filesArtifactMountpoints.Keys <= urls.Keys
      && init.startCommand(ServicePaths(init.testVolumeMountpoint, resp.value.generatedFilesRelativeFilepaths), resp.value.ipAddr).Some?
      && client.start(s1.requests[|s0.requests| + 1].startArgs)
  {
  }

  /** When artifact ids have distinct URLs, the mount map sends each id's URL to that
      id's own mount dirpath. */
  lemma {:induction false} ArtifactUrlMapDeterminedWhenInjective(urls: map<FilesArtifactId, string>, mounts: map<FilesArtifactId, string>, am: map<string, string>)
    requires IsArtifactUrlMap(urls, mounts, am)
    requires forall x, y | x in mounts && y in mounts && x != y :: urls[x] != urls[y]
    ensures forall id | id in mounts :: urls[id] in am && am[urls[id]] == mounts[id]
  {
    forall id | id in mounts ensures urls[id] in am && am[urls[id]] == mounts[id] {
      assert urls[id] in (set x | x in mounts :: urls[x]);
      var w :| w in mounts && urls[w] == urls[id] && am[urls[id]] == mounts[w];
      assert w == id;
    }
  }

  /** Distinct relative paths of generated files give distinct files on the testsuite. */
  lemma SuitePathsDistinct(generated: map<string, string>, f: string, g: string)
    requires f in generated && g in generated && generated[f] != generated[g]
    ensures SuitePaths(generated)[f] != SuitePaths(generated)[g]
  {
    if SuitePaths(generated)[f] == SuitePaths(generated)[g] {
      JoinInjective(SuiteExVolMountpoint, generated[f], generated[g]);
    }
  }

  /** Each generated file's service-side path is its relative path under the initializer's
      mountpoint, recoverable from the absolute path. */
  lemma ServicePathsRelative(mountpointOnService: string, generated: map<string, string>, f: string)
    requires f in generated
    ensures RelativeTo(mountpointOnService, ServicePaths(mountpointOnService, generated)[f]) == generated[f]
  {
    JoinRelativeRoundTrip(mountpointOnService, generated[f]);
  }

  /** Resolves every requested artifact id to its URL and maps URL -> mount dirpath;
      an id with no known URL is an error. */
  method ArtifactUrlToMountDirpath(urls: map<FilesArtifactId, string>, mounts: map<FilesArtifactId, string>)
    returns (r: Result<map<string, string>, NetworkError>)
    ensures r.Ok? <==> mounts.Keys <= urls.Keys
    ensures r.Ok? ==> IsArtifactUrlMap(urls, mounts, r.value)
    ensures r.Err? ==> r.error.UnknownFilesArtifact? && r.error.filesArtifactId in mounts && r.error.filesArtifactId !in urls
  {
    var am: map<string, string> := map[];
    var remaining := mounts.Keys;
    while remaining != {}
      invariant remaining <= mounts.Keys
      invariant mounts.Keys - remaining <= urls.Keys
      invariant am.Keys == (set id | id in mounts.Keys - remaining :: urls[id])
      invariant forall url | url in am :: exists id | id in mounts.Keys - remaining :: urls[id] == url && am[url] == mounts[id]
      decreases |remaining|
    {
      var id :| id in remaining;
      if id !in urls {
        return Err(UnknownFilesArtifact(id));
      }
      ghost var done, prev := mounts.Keys - remaining, am;
      am := am[urls[id] := mounts[id]];
      remaining := remaining - {id};
      assert mounts.Keys - remaining == done + {id};
      forall url | url in am
        ensures exists x | x in mounts.Keys - remaining :: urls[x] == url && am[url] == mounts[x]
      {
        if url != urls[id] {
          var x :| x in done && urls[x] == url && prev[url] == mounts[x];
        }
      }
      assert am.Keys == (set x | x in mounts.Keys - remaining :: urls[x]);
    }
    r := Ok(am);
  }

  class NetworkContext {
    const client: Orchestrator
    /** The testsuite container's file system, where generated files are created. */
    const fs: FileSystem
    const filesArtifactUrls: map<FilesArtifactId, string>
    /** The registry of services this context started. */
    var services: map<ServiceId, Service>
    /** Every request sent to the API container, in order. */
    var requests: seq<Request>
    /** Every file created on the testsuite container. */
    var openedFiles: set<string>

    constructor (client: Orchestrator, fs: FileSystem, filesArtifactUrls: map<FilesArtifactId, string>)
      ensures this.client == client && this.fs == fs && this.filesArtifactUrls == filesArtifactUrls
      ensures services == map[] && requests == [] && openedFiles == {}
    {
      this.client := client;
      this.fs := fs;
      this.filesArtifactUrls := filesArtifactUrls;
      services := map[];
      requests := [];
      openedFiles := {};
    }

    function State(): NetState
      reads this
    {
      NetState(services, requests, openedFiles)
    }

    /** Adds a service to the default partition: the same pipeline with partition "",
        its error wrapped. */
    method AddService(serviceId: ServiceId, init: Initializer) returns (r: Result<(Service, AvailabilityChecker), NetworkError>)
      modifies this
      ensures exists inner ::
        && AddServicePost(client, fs, filesArtifactUrls, old(State()), State(), serviceId, DefaultPartitionId, init, inner)
        && r == (if inner.Ok? then inner else Err(AddToDefaultPartitionFailed(serviceId, inner.error)))
    {
      var inner := AddServiceToPartition(serviceId, DefaultPartitionId, init);
      if inner.Err? {
        r := Err(AddToDefaultPartitionFailed(serviceId, inner.error));
      } else {
        r := inner;
      }
    }

    method AddServiceToPartition(serviceId: ServiceId, partitionId: PartitionId, init: Initializer)
      returns (r: Result<(Service, AvailabilityChecker), NetworkError>)
      modifies this
      ensures AddServicePost(client, fs, filesArtifactUrls, old(State()), State(), serviceId, partitionId, init, r)
    {
      var registerArgs := RegisterArgsFor(serviceId, partitionId, init);
      requests := requests + [RegisterService(registerArgs)];
      var resp := client.register(registerArgs);
      if resp.None? {
        return Err(RegisterFailed(serviceId));
      }
      var generated := resp.value.generatedFilesRelativeFilepaths;
      var files := OpenGeneratedFiles(generated, init.testVolumeMountpoint);
      if files.Err? {
        return Err(files.error);
      }
      var (suitePaths, servicePaths) := files.value;
      if !init.initializeMountedFiles(suitePaths) {
        return Err(InitializeFilesFailed);
      }
      var artifactUrlToMountDirpath := ArtifactUrlToMountDirpath(filesArtifactUrls, init.filesArtifactMountpoints);
      if artifactUrlToMountDirpath.Err? {
        return Err(artifactUrlToMountDirpath.error);
      }
      var startCmdArgs := init.startCommand(servicePaths, resp.value.ipAddr);
      if startCmdArgs.None? {
        return Err(StartCommandFailed);
      }
      var startArgs := StartServiceArgs(serviceId, init.dockerImage, init.usedPorts, startCmdArgs.value,
                                        map[], init.testVolumeMountpoint, artifactUrlToMountDirpath.value);
      requests := requests + [StartService(startArgs)];
      if !client.start(startArgs) {
        return Err(StartFailed(serviceId));
      }
      var service := init.getService(serviceId, resp.value.ipAddr);
      services := services[serviceId := service];
      r := Ok((service, AvailabilityChecker(serviceId, service)));
    }

    /** Creates one file per generated file id and computes both absolute path maps;
        stops at the first file that cannot be created. */
    method OpenGeneratedFiles(generated: map<string, string>, mountpointOnService: string)
      returns (r: Result<(map<string, string>, map<string, string>), NetworkError>)
      modifies this`openedFiles
      ensures r.Ok? <==> FilesCreatable(fs, generated)
      ensures r.Ok? ==> r.value == (SuitePaths(generated), ServicePaths(mountpointOnService, generated))
      ensures r.Ok? ==> openedFiles == old(openedFiles) + SuiteFiles(generated)
      ensures r.Err? ==>
        && r.error.GeneratedFileOpenFailed? && r.error.fileId in generated
        && !fs.canCreate(Join(SuiteExVolMountpoint, generated[r.error.fileId]))
      ensures old(openedFiles) <= openedFiles
      ensures openedFiles <= old(openedFiles) + SuiteFiles(generated)
    {
      var onSuite: map<string, string> := map[];
      var onService: map<string, string> := map[];
      var remaining := generated.Keys;
      while remaining != {}
        invariant remaining <= generated.Keys
        invariant onSuite == map f | f in generated.Keys - remaining :: Join(SuiteExVolMountpoint, generated[f])
        invariant onService == map f | f in generated.Keys - remaining :: Join(mountpointOnService, generated[f])
        invariant forall f | f in generated.Keys - remaining :: fs.canCreate(Join(SuiteExVolMountpoint, generated[f]))
        invariant openedFiles == old(openedFiles) + set f | f in generated.Keys - remaining :: Join(SuiteExVolMountpoint, generated[f])
        invariant old(openedFiles) <= openedFiles
        decreases |remaining|
      {
        var fileId :| fileId in remaining;
        var absoluteFilepathOnTestsuite := Join(SuiteExVolMountpoint, generated[fileId]);
        if !fs.canCreate(absoluteFilepathOnTestsuite) {
          return Err(GeneratedFileOpenFailed(fileId));
        }
        openedFiles := openedFiles + {absoluteFilepathOnTestsuite};
        onSuite := onSuite[fileId := absoluteFilepathOnTestsuite];
        onService := onService[fileId := Join(mountpointOnService, generated[fileId])];
        remaining := remaining - {fileId};
      }
      assert generated.Keys - remaining == generated.Keys;
      r := Ok((onSuite, onService));
    }

    /** Looks a service up in the registry. */
    method GetService(serviceId: ServiceId) returns (r: Result<Service, NetworkError>)
      ensures r.Ok? <==> serviceId in services
      ensures r.Ok? ==> r.value == services[serviceId]
      ensures r.Err? ==> r.error == ServiceNotFound(serviceId)
    {
      if serviceId !in services {
        return Err(ServiceNotFound(serviceId));
      }
      r := Ok(services[serviceId]);
    }

    /** Asks the API container to remove a service with the caller's stop timeout; the
        registry entry goes only once that succeeds. */
    method RemoveService(serviceId: ServiceId, containerStopTimeoutSeconds: uint64) returns (r: Result<(), NetworkError>)
      modifies this`services, this`requests
      ensures requests == old(requests) + [Request.RemoveService(RemoveServiceArgs(serviceId, containerStopTimeoutSeconds))]
      ensures r.Ok? <==> client.remove(RemoveServiceArgs(serviceId, containerStopTimeoutSeconds))
      ensures r.Err? ==> r.error == RemoveFailed(serviceId) && services == old(services)
      ensures r.Ok? ==> services == old(services) - {serviceId}
    {
      var args := RemoveServiceArgs(serviceId, containerStopTimeoutSeconds);
      requests := requests + [Request.RemoveService(args)];
      if !client.remove(args) {
        return Err(RemoveFailed(serviceId));
      }
      services := services - {serviceId};
      r := Ok(());
    }

    method GetRepartitionerBuilder(isDefaultPartitionConnectionBlocked: bool) returns (b: RepartitionerBuilder)
      ensures fresh(b)
      ensures b.isDefaultPartitionConnectionBlocked == isDefaultPartitionConnectionBlocked && b.mutators == []
    {
      b := new RepartitionerBuilder(isDefaultPartitionConnectionBlocked);
    }

    /** Sends the repartitioner's topology, converted key for key, to the API container. */
    method RepartitionNetwork(repartitioner: Repartitioner) returns (r: Result<(), NetworkError>)
      modifies this`requests
      ensures requests == old(requests) + [Repartition(RepartitionArgs(
        PartitionServicesArg(repartitioner.partitionServices),
        repartitioner.partitionConnections,
        repartitioner.defaultConnection))]
      ensures r.Ok? <==> client.repartition(requests[|requests| - 1].repartitionArgs)
      ensures r.Err? ==> r.error == RepartitionFailed
    {
      var partitionServices := PartitionServicesToArg(repartitioner.partitionServices);
      var identity := (c: PartitionConnectionInfo) => c;
      var partitionConns := ConnectionsToArg(repartitioner.partitionConnections, identity);
      ConnectionsArgIdentity(repartitioner.partitionConnections, identity);
      var args := RepartitionArgs(partitionServices, partitionConns, repartitioner.defaultConnection);
      requests := requests + [Repartition(args)];
      if !client.repartition(args) {
        return Err(RepartitionFailed);
      }
      r := Ok(());
    }
  }
}
