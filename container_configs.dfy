/** The Go container configurations and their builders: the creation part (image,
    test-volume mountpoint, ports, generated files, artifacts, how to build the service
    handle), the run part (entrypoint, cmd and environment overrides) and the combined
    configuration, which holds the nine fields of both. */
module ContainerConfigs {
  import opened Wrappers
  import opened CoreApi
  import Replays

  /** Builds the service handle from the service's id and IP address. */
  type ServiceCreatingFunc = (ServiceId, string) -> Service

  /** Writes the contents of a generated file, given the file's path; false on failure. */
  type FileGeneratingFunc = string -> bool

  datatype ContainerCreationConfig = ContainerCreationConfig(
    image: string,
    testVolumeMountpoint: string,
    usedPortsSet: map<string, bool>,
    serviceCreatingFunc: ServiceCreatingFunc,
    fileGeneratingFuncs: map<string, FileGeneratingFunc>,
    filesArtifactMountpoints: map<FilesArtifactId, string>)

  /** A Go `[]string` that may be nil is `None` when nil. */
  datatype ContainerRunConfig = ContainerRunConfig(
    entrypointOverrideArgs: Option<seq<string>>,
    cmdOverrideArgs: Option<seq<string>>,
    environmentVariableOverrides: map<string, string>)

  /** The combined configuration; its nine fields are the six creation fields followed
      by the three run fields. */
  datatype ContainerConfig = ContainerConfig(creation: ContainerCreationConfig, run: ContainerRunConfig)

  // ---------------------------------------------------------------------------------
  // Creation part

  datatype CreationSetter =
    | SetUsedPorts(usedPortsSet: map<string, bool>)
    | SetGeneratedFiles(fileGeneratingFuncs: map<string, FileGeneratingFunc>)
    | SetFilesArtifacts(filesArtifactMountpoints: map<FilesArtifactId, string>)

  datatype CreationField = Image | TestVolumeMountpoint | UsedPorts | ServiceCreator | GeneratedFiles | FilesArtifacts

  datatype CreationValue =
    | Text(text: string)
    | Ports(ports: map<string, bool>)
    | Creator(creator: ServiceCreatingFunc)
    | FileFuncs(funcs: map<string, FileGeneratingFunc>)
    | Mounts(mounts: map<FilesArtifactId, string>)

  function GetCreation(c: ContainerCreationConfig, f: CreationField): CreationValue
  {
    match f
    case Image => Text(c.image)
    case TestVolumeMountpoint => Text(c.testVolumeMountpoint)
    case UsedPorts => Ports(c.usedPortsSet)
    case ServiceCreator => Creator(c.serviceCreatingFunc)
    case GeneratedFiles => FileFuncs(c.fileGeneratingFuncs)
    case FilesArtifacts => Mounts(c.filesArtifactMountpoints)
  }

  function CreationFieldOf(op: CreationSetter): CreationField
  {
    match op
    case SetUsedPorts(_) => UsedPorts
    case SetGeneratedFiles(_) => GeneratedFiles
    case SetFilesArtifacts(_) => FilesArtifacts
  }

  function CreationValueOf(op: CreationSetter): CreationValue
  {
    match op
    case SetUsedPorts(p) => Ports(p)
    case SetGeneratedFiles(g) => FileFuncs(g)
    case SetFilesArtifacts(a) => Mounts(a)
  }

  /** A creation setter replaces its own field and no other; image, mountpoint and the
      service-creating function have no setter. */
  function ApplyCreation(c: ContainerCreationConfig, op: CreationSetter): (r: ContainerCreationConfig)
    ensures forall f :: GetCreation(r, f) == if f == CreationFieldOf(op) then CreationValueOf(op) else GetCreation(c, f)
    ensures r.image == c.image && r.testVolumeMountpoint == c.testVolumeMountpoint && r.serviceCreatingFunc == c.serviceCreatingFunc
  {
    match op
    case SetUsedPorts(p) => c.(usedPortsSet := p)
    case SetGeneratedFiles(g) => c.(fileGeneratingFuncs := g)
    case SetFilesArtifacts(a) => c.(filesArtifactMountpoints := a)
  }

  /** A fresh creation builder's configuration: empty ports, files and artifacts. */
  function InitialCreation(image: string, testVolumeMountpoint: string, serviceCreatingFunc: ServiceCreatingFunc): ContainerCreationConfig
  {
    ContainerCreationConfig(image, testVolumeMountpoint, map[], serviceCreatingFunc, map[], map[])
  }

  // ---------------------------------------------------------------------------------
  // Run part

  datatype RunSetter =
    | SetEntrypointOverride(entrypointArgs: Option<seq<string>>)
    | SetCmdOverride(cmdArgs: Option<seq<string>>)
    | SetEnvironmentVariableOverrides(envVars: map<string, string>)

  datatype RunField = Entrypoint | Cmd | EnvVars

  datatype RunValue = Args(args: Option<seq<string>>) | Env(env: map<string, string>)

  function GetRun(c: ContainerRunConfig, f: RunField): RunValue
  {
    match f
    case Entrypoint => Args(c.entrypointOverrideArgs)
    case Cmd => Args(c.cmdOverrideArgs)
    case EnvVars => Env(c.environmentVariableOverrides)
  }

  function RunFieldOf(op: RunSetter): RunField
  {
    match op
    case SetEntrypointOverride(_) => Entrypoint
    case SetCmdOverride(_) => Cmd
    case SetEnvironmentVariableOverrides(_) => EnvVars
  }

  function RunValueOf(op: RunSetter): RunValue
  {
    match op
    case SetEntrypointOverride(a) => Args(a)
    case SetCmdOverride(a) => Args(a)
    case SetEnvironmentVariableOverrides(e) => Env(e)
  }

  /** A run setter replaces its own field and no other. */
  function ApplyRun(c: ContainerRunConfig, op: RunSetter): (r: ContainerRunConfig)
    ensures forall f :: GetRun(r, f) == if f == RunFieldOf(op) then RunValueOf(op) else GetRun(c, f)
  {
    match op
    case SetEntrypointOverride(a) => c.(entrypointOverrideArgs := a)
    case SetCmdOverride(a) => c.(cmdOverrideArgs := a)
    case SetEnvironmentVariableOverrides(e) => c.(environmentVariableOverrides := e)
  }

  /** A fresh run builder's configuration: no overrides. */
  const InitialRun := ContainerRunConfig(None, None, map[])

  // ---------------------------------------------------------------------------------
  // Combined configuration

  datatype ConfigSetter = OnCreation(creationSetter: CreationSetter) | OnRun(runSetter: RunSetter)

  datatype ConfigField = CreationPart(creationField: CreationField) | RunPart(runField: RunField)

  datatype ConfigValue = CreationFieldValue(creationValue: CreationValue) | RunFieldValue(runValue: RunValue)

  function GetConfig(c: ContainerConfig, f: ConfigField): ConfigValue
  {
    match f
    case CreationPart(g) => CreationFieldValue(GetCreation(c.creation, g))
    case RunPart(g) => RunFieldValue(GetRun(c.run, g))
  }

  function ConfigFieldOf(op: ConfigSetter): ConfigField
  {
    match op
    case OnCreation(o) => CreationPart(CreationFieldOf(o))
    case OnRun(o) => RunPart(RunFieldOf(o))
  }

  function ConfigValueOf(op: ConfigSetter): ConfigValue
  {
    match op
    case OnCreation(o) => CreationFieldValue(CreationValueOf(o))
    case OnRun(o) => RunFieldValue(RunValueOf(o))
  }

  function ApplyConfig(c: ContainerConfig, op: ConfigSetter): (r: ContainerConfig)
    ensures forall f :: GetConfig(r, f) == if f == ConfigFieldOf(op) then ConfigValueOf(op) else GetConfig(c, f)
  {
    match op
    case OnCreation(o) => c.(creation := ApplyCreation(c.creation, o))
    case OnRun(o) => c.(run := ApplyRun(c.run, o))
  }

  function Configure(c: ContainerConfig, ops: seq<ConfigSetter>): ContainerConfig
  {
    Replays.Replay(ApplyConfig, c, ops)
  }

  function ConfigureCreation(c: ContainerCreationConfig, ops: seq<CreationSetter>): ContainerCreationConfig
  {
    Replays.Replay(ApplyCreation, c, ops)
  }

  function ConfigureRun(c: ContainerRunConfig, ops: seq<RunSetter>): ContainerRunConfig
  {
    Replays.Replay(ApplyRun, c, ops)
  }

  /** Calling a setter again overwrites the earlier value: after a sequence of setter
      calls each field holds the value of the last call that writes it. */
  lemma ConfigLastSetterWins(c: ContainerConfig, ops: seq<ConfigSetter>, f: ConfigField, i: nat)
    requires i < |ops| && ConfigFieldOf(ops[i]) == f
    requires forall j :: i < j < |ops| ==> ConfigFieldOf(ops[j]) != f
    ensures GetConfig(Configure(c, ops), f) == ConfigValueOf(ops[i])
  {
    Replays.ReplayLastWrite(ApplyConfig, (t: ContainerConfig) => GetConfig(t, f), (o: ConfigSetter) => ConfigFieldOf(o) == f, ConfigValueOf, c, ops, i);
  }

  /** A field that no setter call writes keeps the value the builder started with. */
  lemma ConfigUnsetFieldKept(c: ContainerConfig, ops: seq<ConfigSetter>, f: ConfigField)
    requires forall j :: 0 <= j < |ops| ==> ConfigFieldOf(ops[j]) != f
    ensures GetConfig(Configure(c, ops), f) == GetConfig(c, f)
  {
    Replays.ReplayUnwritten(ApplyConfig, (t: ContainerConfig) => GetConfig(t, f), (o: ConfigSetter) => ConfigFieldOf(o) == f, ConfigValueOf, c, ops);
  }

  lemma CreationLastSetterWins(c: ContainerCreationConfig, ops: seq<CreationSetter>, f: CreationField, i: nat)
    requires i < |ops| && CreationFieldOf(ops[i]) == f
    requires forall j :: i < j < |ops| ==> CreationFieldOf(ops[j]) != f
    ensures GetCreation(ConfigureCreation(c, ops), f) == CreationValueOf(ops[i])
  {
    Replays.ReplayLastWrite(ApplyCreation, (t: ContainerCreationConfig) => GetCreation(t, f), (o: CreationSetter) => CreationFieldOf(o) == f, CreationValueOf, c, ops, i);
  }

  lemma CreationUnsetFieldKept(c: ContainerCreationConfig, ops: seq<CreationSetter>, f: CreationField)
    requires forall j :: 0 <= j < |ops| ==> CreationFieldOf(ops[j]) != f
    ensures GetCreation(ConfigureCreation(c, ops), f) == GetCreation(c, f)
  {
    Replays.ReplayUnwritten(ApplyCreation, (t: ContainerCreationConfig) => GetCreation(t, f), (o: CreationSetter) => CreationFieldOf(o) == f, CreationValueOf, c, ops);
  }

  lemma RunLastSetterWins(c: ContainerRunConfig, ops: seq<RunSetter>, f: RunField, i: nat)
    requires i < |ops| && RunFieldOf(ops[i]) == f
    requires forall j :: i < j < |ops| ==> RunFieldOf(ops[j]) != f
    ensures GetRun(ConfigureRun(c, ops), f) == RunValueOf(ops[i])
  {
    Replays.ReplayLastWrite(ApplyRun, (t: ContainerRunConfig) => GetRun(t, f), (o: RunSetter) => RunFieldOf(o) == f, RunValueOf, c, ops, i);
  }

  lemma RunUnsetFieldKept(c: ContainerRunConfig, ops: seq<RunSetter>, f: RunField)
    requires forall j :: 0 <= j < |ops| ==> RunFieldOf(ops[j]) != f
    ensures GetRun(ConfigureRun(c, ops), f) == GetRun(c, f)
  {
    Replays.ReplayUnwritten(ApplyRun, (t: ContainerRunConfig) => GetRun(t, f), (o: RunSetter) => RunFieldOf(o) == f, RunValueOf, c, ops);
  }

  // ---------------------------------------------------------------------------------
  // Builders

  /** The builder of the combined configuration. */
  class ContainerConfigBuilder {
    var creation: ContainerCreationConfig
    var run: ContainerRunConfig

    function Value(): ContainerConfig
      reads this
    {
      ContainerConfig(creation, run)
    }

    /** Stores image, mountpoint and service-creating function; everything else is empty
        or nil. */
    constructor (image: string, testVolumeMountpoint: string, serviceCreatingFunc: ServiceCreatingFunc)
      ensures Value() == ContainerConfig(InitialCreation(image, testVolumeMountpoint, serviceCreatingFunc), InitialRun)
    {
      creation := InitialCreation(image, testVolumeMountpoint, serviceCreatingFunc);
      run := InitialRun;
    }

    method WithUsedPorts(usedPortsSet: map<string, bool>) returns (b: ContainerConfigBuilder)
      modifies this
      ensures b == this && Value() == ApplyConfig(old(Value()), OnCreation(SetUsedPorts(usedPortsSet)))
    {
      creation := creation.(usedPortsSet := usedPortsSet);
      b := this;
    }

    method WithGeneratedFiles(fileGeneratingFuncs: map<string, FileGeneratingFunc>) returns (b: ContainerConfigBuilder)
      modifies this
      ensures b == this && Value() == ApplyConfig(old(Value()), OnCreation(SetGeneratedFiles(fileGeneratingFuncs)))
    {
      creation := creation.(fileGeneratingFuncs := fileGeneratingFuncs);
      b := this;
    }

    method WithFilesArtifacts(filesArtifactMountpoints: map<FilesArtifactId, string>) returns (b: ContainerConfigBuilder)
      modifies this
      ensures b == this && Value() == ApplyConfig(old(Value()), OnCreation(SetFilesArtifacts(filesArtifactMountpoints)))
    {
      creation := creation.(filesArtifactMountpoints := filesArtifactMountpoints);
      b := this;
    }

    method WithEntrypointOverride(args: Option<seq<string>>) returns (b: ContainerConfigBuilder)
      modifies this
      ensures b == this && Value() == ApplyConfig(old(Value()), OnRun(SetEntrypointOverride(args)))
    {
      run := run.(entrypointOverrideArgs := args);
      b := this;
    }

    method WithCmdOverride(args: Option<seq<string>>) returns (b: ContainerConfigBuilder)
      modifies this
      ensures b == this && Value() == ApplyConfig(old(Value()), OnRun(SetCmdOverride(args)))
    {
      run := run.(cmdOverrideArgs := args);
      b := this;
    }

    method WithEnvironmentVariableOverrides(envVars: map<string, string>) returns (b: ContainerConfigBuilder)
      modifies this
      ensures b == this && Value() == ApplyConfig(old(Value()), OnRun(SetEnvironmentVariableOverrides(envVars)))
    {
      run := run.(environmentVariableOverrides := envVars);
      b := this;
    }

    /** Copies all nine fields unchanged. */
    method Build() returns (c: ContainerConfig)
      ensures forall f :: GetConfig(c, f) == GetConfig(Value(), f)
    {
      c := ContainerConfig(creation, run);
    }
  }

  class ContainerCreationConfigBuilder {
    var config: ContainerCreationConfig

    constructor (image: string, testVolumeMountpoint: string, serviceCreatingFunc: ServiceCreatingFunc)
      ensures config == InitialCreation(image, testVolumeMountpoint, serviceCreatingFunc)
    {
      config := InitialCreation(image, testVolumeMountpoint, serviceCreatingFunc);
    }

    method WithUsedPorts(usedPortsSet: map<string, bool>) returns (b: ContainerCreationConfigBuilder)
      modifies this
      ensures b == this && config == ApplyCreation(old(config), SetUsedPorts(usedPortsSet))
    {
      config := config.(usedPortsSet := usedPortsSet);
      b := this;
    }

    method WithGeneratedFiles(fileGeneratingFuncs: map<string, FileGeneratingFunc>) returns (b: ContainerCreationConfigBuilder)
      modifies this
      ensures b == this && config == ApplyCreation(old(config), SetGeneratedFiles(fileGeneratingFuncs))
    {
      config := config.(fileGeneratingFuncs := fileGeneratingFuncs);
      b := this;
    }

    method WithFilesArtifacts(filesArtifactMountpoints: map<FilesArtifactId, string>) returns (b: ContainerCreationConfigBuilder)
      modifies this
      ensures b == this && config == ApplyCreation(old(config), SetFilesArtifacts(filesArtifactMountpoints))
    {
      config := config.(filesArtifactMountpoints := filesArtifactMountpoints);
      b := this;
    }

    /** Copies all six fields unchanged. */
    method Build() returns (c: ContainerCreationConfig)
      ensures forall f :: GetCreation(c, f) == GetCreation(config, f)
    {
      c := config;
    }
  }

  class ContainerRunConfigBuilder {
    var config: ContainerRunConfig

    /** No entrypoint or cmd override and no environment variables. */
    constructor ()
      ensures config == InitialRun
    {
      config := InitialRun;
    }

    method WithEntrypointOverride(args: Option<seq<string>>) returns (b: ContainerRunConfigBuilder)
      modifies this
      ensures b == this && config == ApplyRun(old(config), SetEntrypointOverride(args))
    {
      config := config.(entrypointOverrideArgs := args);
      b := this;
    }

    method WithCmdOverride(args: Option<seq<string>>) returns (b: ContainerRunConfigBuilder)
      modifies this
      ensures b == this && config == ApplyRun(old(config), SetCmdOverride(args))
    {
      config := config.(cmdOverrideArgs := args);
      b := this;
    }

    method WithEnvironmentVariableOverrides(envVars: map<string, string>) returns (b: ContainerRunConfigBuilder)
      modifies this
      ensures b == this && config == ApplyRun(old(config), SetEnvironmentVariableOverrides(envVars))
    {
      config := config.(environmentVariableOverrides := envVars);
      b := this;
    }

    /** Copies all three fields unchanged. */
    method Build() returns (c: ContainerRunConfig)
      ensures forall f :: GetRun(c, f) == GetRun(config, f)
    {
      c := config;
    }
  }
}
