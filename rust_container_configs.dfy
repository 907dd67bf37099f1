/** The Rust container configurations. The creation configuration keeps its ports as a
    set; the run configuration has the same three fields as the Go one, and its
    override setters always store a present value. Getters are field reads. */
module RustContainerConfigs {
  import opened Wrappers
  import opened CoreApi
  import Replays
  import opened ContainerConfigs

  datatype RustCreationConfig = RustCreationConfig(
    image: string,
    testVolumeMountpoint: string,
    usedPorts: set<string>,
    serviceCreatingFunc: ServiceCreatingFunc,
    fileGeneratingFuncs: map<string, FileGeneratingFunc>,
    filesArtifactMountpoints: map<string, string>)

  datatype RustCreationSetter =
    | SetPortSet(usedPorts: set<string>)
    | SetFileFuncs(fileGeneratingFuncs: map<string, FileGeneratingFunc>)
    | SetArtifactMounts(filesArtifactMountpoints: map<string, string>)

  datatype RustCreationValue =
    | RText(text: string)
    | RPorts(ports: set<string>)
    | RCreator(creator: ServiceCreatingFunc)
    | RFileFuncs(funcs: map<string, FileGeneratingFunc>)
    | RMounts(mounts: map<string, string>)

  function GetRustCreation(c: RustCreationConfig, f: CreationField): RustCreationValue
  {
    match f
    case Image => RText(c.image)
    case TestVolumeMountpoint => RText(c.testVolumeMountpoint)
    case UsedPorts => RPorts(c.usedPorts)
    case ServiceCreator => RCreator(c.serviceCreatingFunc)
    case GeneratedFiles => RFileFuncs(c.fileGeneratingFuncs)
    case FilesArtifacts => RMounts(c.filesArtifactMountpoints)
  }

  function RustCreationFieldOf(op: RustCreationSetter): CreationField
  {
    match op
    case SetPortSet(_) => UsedPorts
    case SetFileFuncs(_) => GeneratedFiles
    case SetArtifactMounts(_) => FilesArtifacts
  }

  function RustCreationValueOf(op: RustCreationSetter): RustCreationValue
  {
    match op
    case SetPortSet(p) => RPorts(p)
    case SetFileFuncs(g) => RFileFuncs(g)
    case SetArtifactMounts(a) => RMounts(a)
  }

  /** with_used_ports, with_generated_files and with_files_artifacts each replace their
      own field and no other. */
  function ApplyRustCreation(c: RustCreationConfig, op: RustCreationSetter): (r: RustCreationConfig)
    ensures forall f :: GetRustCreation(r, f) == if f == RustCreationFieldOf(op) then RustCreationValueOf(op) else GetRustCreation(c, f)
  {
    match op
    case SetPortSet(p) => c.(usedPorts := p)
    case SetFileFuncs(g) => c.(fileGeneratingFuncs := g)
    case SetArtifactMounts(a) => c.(filesArtifactMountpoints := a)
  }

  function ConfigureRustCreation(c: RustCreationConfig, ops: seq<RustCreationSetter>): RustCreationConfig
  {
    Replays.Replay(ApplyRustCreation, c, ops)
  }

  lemma RustCreationLastSetterWins(c: RustCreationConfig, ops: seq<RustCreationSetter>, f: CreationField, i: nat)
    requires i < |ops| && RustCreationFieldOf(ops[i]) == f
    requires forall j :: i < j < |ops| ==> RustCreationFieldOf(ops[j]) != f
    ensures GetRustCreation(ConfigureRustCreation(c, ops), f) == RustCreationValueOf(ops[i])
  {
    Replays.ReplayLastWrite(ApplyRustCreation, (t: RustCreationConfig) => GetRustCreation(t, f),
      (o: RustCreationSetter) => RustCreationFieldOf(o) == f, RustCreationValueOf, c, ops, i);
  }

  lemma RustCreationUnsetFieldKept(c: RustCreationConfig, ops: seq<RustCreationSetter>, f: CreationField)
    requires forall j :: 0 <= j < |ops| ==> RustCreationFieldOf(ops[j]) != f
    ensures GetRustCreation(ConfigureRustCreation(c, ops), f) == GetRustCreation(c, f)
  {
    Replays.ReplayUnwritten(ApplyRustCreation, (t: RustCreationConfig) => GetRustCreation(t, f),
      (o: RustCreationSetter) => RustCreationFieldOf(o) == f, RustCreationValueOf, c, ops);
  }

  /** One call of a Rust run-config setter. */
  datatype RustRunCall = WithEntrypoint(args: seq<string>) | WithCmd(args: seq<string>) | WithEnvVars(env: map<string, string>)

  /** The Rust run setters are the Go ones with the argument always present. */
  function RustRunSetter(op: RustRunCall): RunSetter
  {
    match op
    case WithEntrypoint(args) => SetEntrypointOverride(Some(args))
    case WithCmd(args) => SetCmdOverride(Some(args))
    case WithEnvVars(env) => SetEnvironmentVariableOverrides(env)
  }

  /** After any calls of the Rust run setters on a fresh builder, an override field is
      present exactly when some call set it: the Rust API cannot clear an override. */
  lemma {:induction false} RustRunOverridePresentIffSet(calls: seq<RustRunCall>)
    ensures var r := ConfigureRun(InitialRun, RustRunCalls(calls));
      && (r.entrypointOverrideArgs.Some? <==> exists j :: 0 <= j < |calls| && calls[j].WithEntrypoint?)
      && (r.cmdOverrideArgs.Some? <==> exists j :: 0 <= j < |calls| && calls[j].WithCmd?)
    decreases |calls|
  {
    if calls != [] {
      var prefix := calls[..|calls| - 1];
      RustRunOverridePresentIffSet(prefix);
      assert RustRunCalls(calls)[..|RustRunCalls(calls)| - 1] == RustRunCalls(prefix);
      var last := calls[|calls| - 1];
      if last.WithEntrypoint? {
        assert calls[|calls| - 1].WithEntrypoint?;
      }
      if last.WithCmd? {
        assert calls[|calls| - 1].WithCmd?;
      }
      forall j | 0 <= j < |prefix| ensures calls[j] == prefix[j] { }
    }
  }

  function RustRunCalls(calls: seq<RustRunCall>): (ops: seq<RunSetter>)
    ensures |ops| == |calls| && forall j :: 0 <= j < |calls| ==> ops[j] == RustRunSetter(calls[j])
  {
    if calls == [] then [] else RustRunCalls(calls[..|calls| - 1]) + [RustRunSetter(calls[|calls| - 1])]
  }

  class RustContainerCreationConfigBuilder {
    var config: RustCreationConfig

    /** Stores image, mountpoint and service-creating function, with an empty port set,
        file-function map and artifact map. */
    constructor (image: string, testVolumeMountpoint: string, serviceCreatingFunc: ServiceCreatingFunc)
      ensures config == RustCreationConfig(image, testVolumeMountpoint, {}, serviceCreatingFunc, map[], map[])
    {
      config := RustCreationConfig(image, testVolumeMountpoint, {}, serviceCreatingFunc, map[], map[]);
    }

    method WithUsedPorts(usedPorts: set<string>) returns (b: RustContainerCreationConfigBuilder)
      modifies this
      ensures b == this && config == ApplyRustCreation(old(config), SetPortSet(usedPorts))
    {
      config := config.(usedPorts := usedPorts);
      b := this;
    }

    method WithGeneratedFiles(fileGeneratingFuncs: map<string, FileGeneratingFunc>) returns (b: RustContainerCreationConfigBuilder)
      modifies this
      ensures b == this && config == ApplyRustCreation(old(config), SetFileFuncs(fileGeneratingFuncs))
    {
      config := config.(fileGeneratingFuncs := fileGeneratingFuncs);
      b := this;
    }

    method WithFilesArtifacts(filesArtifactMountpoints: map<string, string>) returns (b: RustContainerCreationConfigBuilder)
      modifies this
      ensures b == this && config == ApplyRustCreation(old(config), SetArtifactMounts(filesArtifactMountpoints))
    {
      config := config.(filesArtifactMountpoints := filesArtifactMountpoints);
      b := this;
    }

    /** Clones all six fields; the builder is only read, so building twice gives equal
        configurations. */
    method Build() returns (c: RustCreationConfig)
      ensures forall f :: GetRustCreation(c, f) == GetRustCreation(config, f)
    {
      c := config;
    }
  }

  class RustContainerRunConfigBuilder {
    var config: ContainerRunConfig

    constructor ()
      ensures config == InitialRun
    {
      config := InitialRun;
    }

    method WithEntrypointOverride(args: seq<string>) returns (b: RustContainerRunConfigBuilder)
      modifies this
      ensures b == this && config == ApplyRun(old(config), RustRunSetter(WithEntrypoint(args)))
    {
      config := config.(entrypointOverrideArgs := Some(args));
      b := this;
    }

    method WithCmdOverride(args: seq<string>) returns (b: RustContainerRunConfigBuilder)
      modifies this
      ensures b == this && config == ApplyRun(old(config), RustRunSetter(WithCmd(args)))
    {
      config := config.(cmdOverrideArgs := Some(args));
      b := this;
    }

    method WithEnvironmentVariableOverrides(envVars: map<string, string>) returns (b: RustContainerRunConfigBuilder)
      modifies this
      ensures b == this && config == ApplyRun(old(config), RustRunSetter(WithEnvVars(envVars)))
    {
      config := config.(environmentVariableOverrides := envVars);
      b := this;
    }

    /** Clones all three fields. */
    method Build() returns (c: ContainerRunConfig)
      ensures forall f :: GetRun(c, f) == GetRun(config, f)
    {
      c := config;
    }
  }
}
