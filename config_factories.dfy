/** The example services' container-config factories. The nginx factory mounts an
    optional files artifact; the API factory declares one generated config file and
    starts the binary with that file's path. */
module ConfigFactories {
  import opened Wrappers
  import opened Strings
  import opened CoreApi
  import opened ContainerConfigs

  const TestVolumeMountpointPath: string := "/test-volume"

  // ---------------------------------------------------------------------------------
  // nginx static

  const NginxDockerImage: string := "flashspys/nginx-static"
  const NginxListenPort: nat := 80
  const NginxStaticFilesDirpath: string := "/static"

  /** The factory's one setting: the files artifact to extract, or "" for none. */
  datatype NginxStaticContainerConfigFactory = NginxStaticContainerConfigFactory(filesArtifactIdOpt: FilesArtifactId)

  /** How the factory wraps a started container as a service. */
  const NginxServiceCreator: ServiceCreatingFunc := (id: ServiceId, ipAddr: string) => Service(id, ipAddr)

  method NginxGetCreationConfig(factory: NginxStaticContainerConfigFactory, containerIpAddr: string)
    returns (r: Result<ContainerCreationConfig, string>)
    ensures r.Ok?
    ensures r.value.image == NginxDockerImage && r.value.testVolumeMountpoint == "/test-volume"
    ensures r.value.usedPortsSet == map["80" := true]
    ensures r.value.fileGeneratingFuncs == map[]
    ensures factory.filesArtifactIdOpt == "" ==> r.value.filesArtifactMountpoints == map[]
    ensures factory.filesArtifactIdOpt != "" ==> r.value.filesArtifactMountpoints == map[factory.filesArtifactIdOpt := "/static"]
    ensures r.value.serviceCreatingFunc == NginxServiceCreator
  {
    var builder := new ContainerCreationConfigBuilder(NginxDockerImage, TestVolumeMountpointPath, NginxServiceCreator);
    assert NatToString(NginxListenPort) == "80";
    var b := builder.WithUsedPorts(map[NatToString(NginxListenPort) := true]);
    if factory.filesArtifactIdOpt != "" {
      b := builder.WithFilesArtifacts(map[factory.filesArtifactIdOpt := NginxStaticFilesDirpath]);
    }
    var config := builder.Build();
    assert GetCreation(config, UsedPorts) == GetCreation(builder.config, UsedPorts);
    assert GetCreation(config, Image) == GetCreation(builder.config, Image);
    assert GetCreation(config, TestVolumeMountpoint) == GetCreation(builder.config, TestVolumeMountpoint);
    assert GetCreation(config, GeneratedFiles) == GetCreation(builder.config, GeneratedFiles);
    assert GetCreation(config, FilesArtifacts) == GetCreation(builder.config, FilesArtifacts);
    assert GetCreation(config, ServiceCreator) == GetCreation(builder.config, ServiceCreator);
    r := Ok(config);
  }

  /** No entrypoint, cmd or environment override. */
  method NginxGetRunConfig(factory: NginxStaticContainerConfigFactory, containerIpAddr: string,
                           generatedFileFilepaths: map<string, string>, staticFileFilepaths: map<string, string>)
    returns (r: Result<ContainerRunConfig, string>)
    ensures r == Ok(ContainerRunConfig(None, None, map[]))
  {
    var builder := new ContainerRunConfigBuilder();
    var config := builder.Build();
    assert GetRun(config, Entrypoint) == GetRun(builder.config, Entrypoint);
    assert GetRun(config, Cmd) == GetRun(builder.config, Cmd);
    assert GetRun(config, EnvVars) == GetRun(builder.config, EnvVars);
    r := Ok(config);
  }

  /** The port the service listens on, the one its creation config declares. */
  function NginxGetPort(factory: NginxStaticContainerConfigFactory): (port: nat)
    ensures NatToString(port) == "80"
  {
    NginxListenPort
  }

  // ---------------------------------------------------------------------------------
  // API service

  const ApiPort: nat := 2434
  const ConfigFileKey: string := "config-file"
  const ApiBinary: string := "./api.bin"

  /** `configWriter` is the generated-file function that writes the datastore client's
      address as JSON; whether writing succeeds depends on the file. The datastore client
      itself is read only by that function, so the factory holds the function instead. */
  datatype ApiContainerConfigFactory = ApiContainerConfigFactory(image: string, configWriter: FileGeneratingFunc)

  /** The source passes no service-creating function to the creation builder, which
      needs one; the model supplies this one, which wraps a container as a plain service. */

  const ApiServiceCreator: ServiceCreatingFunc := (id: ServiceId, ipAddr: string) => Service(id, ipAddr)

  method ApiGetCreationConfig(factory: ApiContainerConfigFactory, containerIpAddr: string)
    returns (r: Result<ContainerCreationConfig, string>)
    ensures r.Ok?
    ensures r.value.image == factory.image && r.value.testVolumeMountpoint == "/test-volume"
    ensures r.value.usedPortsSet == map["2434/tcp" := true]
    ensures r.value.fileGeneratingFuncs.Keys == {"config-file"}
    ensures r.value.fileGeneratingFuncs["config-file"] == factory.configWriter
    ensures r.value.filesArtifactMountpoints == map[]
    ensures r.value.serviceCreatingFunc == ApiServiceCreator
  {
    var builder := new ContainerCreationConfigBuilder(factory.image, TestVolumeMountpointPath, ApiServiceCreator);
    assert NatToString(ApiPort) == "2434" by {
      assert NatToString(24) == "24";
      assert NatToString(243) == "243";
    }
    assert NatToString(ApiPort) + "/tcp" == "2434/tcp";
    var b := builder.WithUsedPorts(map[NatToString(ApiPort) + "/tcp" := true]);
    b := builder.WithGeneratedFiles(map[ConfigFileKey := factory.configWriter]);
    var config := builder.Build();
    assert GetCreation(config, UsedPorts) == GetCreation(builder.config, UsedPorts);
    assert GetCreation(config, Image) == GetCreation(builder.config, Image);
    assert GetCreation(config, TestVolumeMountpoint) == GetCreation(builder.config, TestVolumeMountpoint);
    assert GetCreation(config, GeneratedFiles) == GetCreation(builder.config, GeneratedFiles);
    assert GetCreation(config, FilesArtifacts) == GetCreation(builder.config, FilesArtifacts);
    assert GetCreation(config, ServiceCreator) == GetCreation(builder.config, ServiceCreator);
    r := Ok(config);
  }

  datatype FactoryError = NoConfigFilepath(key: string)

  /** Needs the path of the generated config file and passes it to the binary; no
      entrypoint or environment override. Because the creation config declares exactly
      that one file, the run config succeeds whenever every declared file has a path. */
  method ApiGetRunConfig(factory: ApiContainerConfigFactory, containerIpAddr: string, generatedFileFilepaths: map<string, string>)
    returns (r: Result<ContainerRunConfig, FactoryError>)
    ensures r.Ok? <==> "config-file" in generatedFileFilepaths
    ensures r.Err? ==> r.error == NoConfigFilepath("config-file")
    ensures r.Ok? ==> r.value == ContainerRunConfig(None, Some(["./api.bin", "--config", generatedFileFilepaths["config-file"]]), map[])
  {
    if ConfigFileKey !in generatedFileFilepaths {
      return Err(NoConfigFilepath(ConfigFileKey));
    }
    var startCmd := [ApiBinary, "--config", generatedFileFilepaths[ConfigFileKey]];
    var builder := new ContainerRunConfigBuilder();
    var b := builder.WithCmdOverride(Some(startCmd));
    var config := builder.Build();
    assert GetRun(config, Entrypoint) == GetRun(builder.config, Entrypoint);
    assert GetRun(config, Cmd) == GetRun(builder.config, Cmd);
    assert GetRun(config, EnvVars) == GetRun(builder.config, EnvVars);
    r := Ok(config);
  }
}
