/** The parameterised revision of the construct (`cdk/python_lambda_function.py`): the
    architecture table, validation of runtime, architecture and bundling image, the bundling
    options of `python_lambda_code`, the arguments `PythonLambdaFunction` passes to CDK, and
    the local bundler with its eligibility guards. */
module LambdaFunction {
  import opened Wrappers
  import opened LambdaTypes
  import PyStr
  import UvRecipe

  /** `_Architecture`: a Lambda architecture with the names other tools use for it. */
  datatype Architecture = Architecture(lambdaArchitecture: LambdaArchitecture, platformMachine: string,
                                       dockerArchitecture: string, ecrPlatform: EcrPlatform)

  const X86_64_ARCHITECTURE: Architecture := Architecture(X86_64, "x86_64", "amd64", LinuxAmd64)
  const ARM_64_ARCHITECTURE: Architecture := Architecture(ARM_64, "aarch64", "arm64", LinuxArm64)

  /** `_ARCHITECTURES`, keyed by the Lambda architecture's name. */
  const ARCHITECTURES: map<string, Architecture> :=
    map[X86_64.Name() := X86_64_ARCHITECTURE, ARM_64.Name() := ARM_64_ARCHITECTURE]

  /** The table is closed: exactly the two predefined architectures, each under its own name. */
  lemma ArchitectureTable()
    ensures ARCHITECTURES.Keys == {"x86_64", "arm64"}
    ensures ARCHITECTURES["x86_64"] == Architecture(X86_64, "x86_64", "amd64", LinuxAmd64)
    ensures ARCHITECTURES["arm64"] == Architecture(ARM_64, "aarch64", "arm64", LinuxArm64)
    ensures forall k :: k in ARCHITECTURES ==> ARCHITECTURES[k].lambdaArchitecture.Name() == k
  {
  }

  /** `python_version_from_runtime`: the runtime name without a leading `python`. */
  function PythonVersionFromRuntime(runtime: Runtime): (version: string)
    ensures PyStr.StartsWith(runtime.name, "python") ==> "python" + version == runtime.name
    ensures !PyStr.StartsWith(runtime.name, "python") ==> version == runtime.name
  {
    PyStr.RemovePrefix(runtime.name, "python")
  }

  const DEFAULT_LAMBDA_RUNTIME: Runtime := PYTHON_3_11
  const DEFAULT_PYTHON_VERSION: string := PythonVersionFromRuntime(DEFAULT_LAMBDA_RUNTIME)
  const DEFAULT_LAMBDA_ARCHITECTURE: LambdaArchitecture := X86_64
  const DEFAULT_ARCHITECTURE: Architecture := ARCHITECTURES[DEFAULT_LAMBDA_ARCHITECTURE.Name()]
  const DEFAULT_BUNDLING_DOCKER_IMAGE: string :=
    "ghcr.io/astral-sh/uv:0.5.13-python3.11-bookworm-slim"
    + "@sha256:dc0c70e35f899c69cfe3674afac6186b210373d19d7ed77fd8ab1bdc45f8bf15"

  /** The defaults: Python 3.11 on x86_64. */
  lemma Defaults()
    ensures DEFAULT_PYTHON_VERSION == "3.11"
    ensures DEFAULT_ARCHITECTURE == Architecture(X86_64, "x86_64", "amd64", LinuxAmd64)
  {
    assert PyStr.StartsWith("python3.11", "python");
    assert "python3.11"[6..] == "3.11";
  }

  /** The configuration errors `validate_python_lambda_args` raises: the `AssertionError` of
      `ensure_value`, and the `KeyError` of the table lookup, which comes after the
      missing-digest warning: `warned` says whether that warning was logged first. */
  datatype ConfigError =
    | UnsupportedWithDefaultImage(argument: string, expected: string, actual: string)
    | UnknownArchitecture(key: string, warned: bool)

  /** What validation hands on; `warned` records whether the missing-digest warning was logged. */
  datatype Validated = Validated(runtime: Runtime, architecture: Architecture, bundlingDockerImage: string,
                                 pythonVersion: string, warned: bool)

  /** `ensure_value`: asserts that two objects have the same `name`. */
  function EnsureValue(argumentName: string, actual: string, expected: string): (r: Outcome<ConfigError>)
    ensures r.Pass? <==> actual == expected
    ensures r.Fail? ==> r.error == UnsupportedWithDefaultImage(argumentName, expected, actual)
  {
    if actual == expected then Pass else Fail(UnsupportedWithDefaultImage(argumentName, expected, actual))
  }

  /** `validate_python_lambda_args`. With the default image (`image` is None) the runtime must
      be Python 3.11 and then the architecture x86_64, and the pinned defaults are returned. With
      a custom image neither is checked; the architecture is looked up in the table. */
  function ValidatePythonLambdaArgs(runtime: Runtime, architecture: LambdaArchitecture, image: Option<string>,
                                    packageName: string): (r: Result<Validated, ConfigError>)
    ensures image.None? ==> (r.Ok? <==> runtime.name == "python3.11" && architecture.Name() == "x86_64")
    ensures image.None? && runtime.name != "python3.11" ==>
      r == Err(UnsupportedWithDefaultImage("runtime", "python3.11", runtime.name))
    ensures image.None? && runtime.name == "python3.11" && architecture.Name() != "x86_64" ==>
      r == Err(UnsupportedWithDefaultImage("architecture", "x86_64", architecture.Name()))
    ensures image.None? && r.Ok? ==>
      r.value == Validated(PYTHON_3_11, Architecture(X86_64, "x86_64", "amd64", LinuxAmd64),
                           DEFAULT_BUNDLING_DOCKER_IMAGE, "3.11", false)
    ensures image.Some? ==> (r.Ok? <==> architecture.Name() in {"x86_64", "arm64"})
    ensures image.Some? && r.Err? ==> r.error == UnknownArchitecture(architecture.Name(), '@' !in image.value)
    ensures image.Some? && r.Ok? ==>
      && r.value.runtime == runtime
      && r.value.bundlingDockerImage == image.value
      && r.value.pythonVersion == PythonVersionFromRuntime(runtime)
      && (r.value.warned <==> '@' !in image.value)
      && r.value.architecture.lambdaArchitecture.Name() == architecture.Name()
      && r.value.architecture == (if architecture.Name() == "x86_64"
                                  then Architecture(X86_64, "x86_64", "amd64", LinuxAmd64)
                                  else Architecture(ARM_64, "aarch64", "arm64", LinuxArm64))
  {
    ArchitectureTable();
    Defaults();
    match image {
      case None =>
        match EnsureValue("runtime", runtime.name, DEFAULT_LAMBDA_RUNTIME.name) {
          case Fail(e) => Err(e)
          case Pass =>
            match EnsureValue("architecture", architecture.Name(), DEFAULT_LAMBDA_ARCHITECTURE.Name()) {
              case Fail(e) => Err(e)
              case Pass =>
                Ok(Validated(DEFAULT_LAMBDA_RUNTIME, DEFAULT_ARCHITECTURE, DEFAULT_BUNDLING_DOCKER_IMAGE,
                             DEFAULT_PYTHON_VERSION, false))
            }
        }
      case Some(custom) =>
        var warned := '@' !in custom;
        if architecture.Name() in ARCHITECTURES then
          Ok(Validated(runtime, ARCHITECTURES[architecture.Name()], custom, PythonVersionFromRuntime(runtime), warned))
        else
          Err(UnknownArchitecture(architecture.Name(), warned))
    }
  }

  /** The values `_UvLocalBundling` is constructed from. */
  datatype LocalBundlingSettings = LocalBundlingSettings(packageName: string, architecture: Architecture,
                                                         pythonVersion: string)

  /** `python_lambda_code` without its `uv cache dir` probe, whose result is `cacheDir`. The
      Docker build writes to `/asset-output`, adds the uv cache directory to the recipe's
      environment, and gives the local bundler the same package, architecture and version. */
  function PythonLambdaCode(path: string, packageName: string, architecture: Architecture,
                            bundlingDockerImage: string, pythonVersion: string,
                            cacheDir: Option<string>): (r: UvRecipe.AssetCode<LocalBundlingSettings>)
    ensures r.path == path
    ensures r.bundling.command
         == UvRecipe.BuildAssetCommandAndEnv(packageName, "/asset-output", architecture.platformMachine,
                                             pythonVersion).command
    ensures var env := r.bundling.environment;
      && env.Keys == {UvRecipe.UV_PROJECT_ENVIRONMENT, UvRecipe.UV_NO_INSTALLER_METADATA, UvRecipe.UV_LINK_MODE,
                      UvRecipe.SOURCE_DATE_EPOCH, UvRecipe.UV_CACHE_DIR}
      && env[UvRecipe.UV_CACHE_DIR] == "/opt/uv-cache/"
      && env[UvRecipe.UV_PROJECT_ENVIRONMENT] == "/tmp/uv-demo-" + packageName + "-build"
      && env[UvRecipe.UV_LINK_MODE] == "copy"
      && env[UvRecipe.SOURCE_DATE_EPOCH] == "444444444"
      && env[UvRecipe.UV_NO_INSTALLER_METADATA] == "1"
    ensures r.bundling.volumes == if cacheDir.Some? then Some([UvRecipe.DockerVolume("/opt/uv-cache", cacheDir.value)])
                                  else None
    ensures r.bundling.image == bundlingDockerImage && r.bundling.platform == architecture.dockerArchitecture
    ensures r.bundling.local == LocalBundlingSettings(packageName, architecture, pythonVersion)
  {
    var recipe := UvRecipe.BuildAssetCommandAndEnv(packageName, "/asset-output", architecture.platformMachine,
                                                   pythonVersion);
    UvRecipe.AssetCode(path, UvRecipe.DockerBundling(recipe, bundlingDockerImage, cacheDir,
                                                     architecture.dockerArchitecture,
                                                     LocalBundlingSettings(packageName, architecture, pythonVersion)))
  }

  /** The arguments `PythonLambdaFunction` passes to `aws_lambda.Function`. */
  datatype FunctionProps = FunctionProps(code: UvRecipe.AssetCode<LocalBundlingSettings>, handler: Option<string>,
                                         runtime: Runtime, architecture: LambdaArchitecture)

  /** `PythonLambdaFunction.__init__` as written: the caller's `handler` reaches CDK unchanged,
      because the default computed in `python_lambda_code` never leaves that function. */
  function PythonLambdaFunctionAsWritten(packageName: string, path: string, cacheDir: Option<string>,
                                         handler: Option<string> := None,
                                         runtime: Runtime := DEFAULT_LAMBDA_RUNTIME,
                                         architecture: LambdaArchitecture := DEFAULT_LAMBDA_ARCHITECTURE,
                                         bundlingDockerImage: Option<string> := None)
    : (r: Result<FunctionProps, ConfigError>)
    ensures var v := ValidatePythonLambdaArgs(runtime, architecture, bundlingDockerImage, packageName);
      && (r.Ok? <==> v.Ok?)
      && (r.Err? ==> r.error == v.error)
      && (r.Ok? ==>
            r.value == FunctionProps(PythonLambdaCode(path, packageName, v.value.architecture,
                                                      v.value.bundlingDockerImage, v.value.pythonVersion, cacheDir),
                                     handler, v.value.runtime, v.value.architecture.lambdaArchitecture))
  {
    match ValidatePythonLambdaArgs(runtime, architecture, bundlingDockerImage, packageName)
    case Err(e) => Err(e)
    case Ok(v) =>
      Ok(FunctionProps(PythonLambdaCode(path, packageName, v.architecture, v.bundlingDockerImage, v.pythonVersion,
                                        cacheDir),
                       handler, v.runtime, v.architecture.lambdaArchitecture))
  }

  /** `PythonLambdaFunction.__init__` with the default handler applied, as the construct intends:
      validation runs first and its error is the construct's error; otherwise CDK receives the
      validated runtime and architecture, a non-empty handler, and bundling for those values. */
  function PythonLambdaFunction(packageName: string, path: string, cacheDir: Option<string>,
                                handler: Option<string> := None,
                                runtime: Runtime := DEFAULT_LAMBDA_RUNTIME,
                                architecture: LambdaArchitecture := DEFAULT_LAMBDA_ARCHITECTURE,
                                bundlingDockerImage: Option<string> := None)
    : (r: Result<FunctionProps, ConfigError>)
    ensures var v := ValidatePythonLambdaArgs(runtime, architecture, bundlingDockerImage, packageName);
      && (r.Ok? <==> v.Ok?)
      && (r.Err? ==> r.error == v.error)
      && (r.Ok? ==>
            && r.value.handler == Some(UvRecipe.HandlerOrDefault(handler, packageName))
            && r.value.handler.value != ""
            && r.value.runtime == v.value.runtime
            && r.value.architecture == v.value.architecture.lambdaArchitecture
            && r.value.code.bundling.local
               == LocalBundlingSettings(packageName, v.value.architecture, v.value.pythonVersion)
            && r.value == FunctionProps(PythonLambdaCode(path, packageName, v.value.architecture,
                                                         v.value.bundlingDockerImage, v.value.pythonVersion,
                                                         cacheDir),
                                        Some(UvRecipe.HandlerOrDefault(handler, packageName)),
                                        v.value.runtime, v.value.architecture.lambdaArchitecture))
  {
    PythonLambdaFunctionAsWritten(packageName, path, cacheDir, Some(UvRecipe.HandlerOrDefault(handler, packageName)),
                                  runtime, architecture, bundlingDockerImage)
  }

  /** Without a handler, the construct as written hands CDK no handler at all, where the
      default `demo_lambda1.lambda_function.lambda_handler` was meant. */
  lemma DefaultHandlerDropped()
    ensures var r := PythonLambdaFunctionAsWritten("demo-lambda1", "..", None);
      r.Ok? && r.value.handler == None
    ensures var r := PythonLambdaFunction("demo-lambda1", "..", None);
      r.Ok? && r.value.handler == Some("demo_lambda1" + UvRecipe.HANDLER_SUFFIX)
  {
    UvRecipe.DemoLambda1Handler();
  }

  /** `_UvLocalBundling`: the local bundler CDK tries before falling back to Docker. */
  class UvLocalBundling {
    const packageName: string
    const architecture: Architecture
    const pythonVersion: string

    constructor (packageName: string, architecture: Architecture, pythonVersion: string)
      ensures this.packageName == packageName && this.architecture == architecture
      ensures this.pythonVersion == pythonVersion
    {
      this.packageName := packageName;
      this.architecture := architecture;
      this.pythonVersion := pythonVersion;
    }

    /** The process a local build of `outputDir` runs: this bundler's recipe, with the
        recipe's variables laid over the host environment. */
    function LocalProcess(outputDir: string, host: UvRecipe.Host,
                          run: (seq<string>, map<string, string>) -> UvRecipe.ProcessResult): UvRecipe.ProcessResult
    {
      UvRecipe.LocalBuildProcess(run, host,
        UvRecipe.BuildAssetCommandAndEnv(packageName, outputDir, architecture.platformMachine, pythonVersion))
    }

    /** `try_bundle`: succeeds only on Linux, on the architecture's own machine, with a real
        `/tmp`, when the build exits with status 0. A failed build (a `RuntimeError`) and every
        failed guard give False; a process that cannot start raises past `try_bundle`. */
    method TryBundle(outputDir: string, host: UvRecipe.Host,
                     run: (seq<string>, map<string, string>) -> UvRecipe.ProcessResult)
      returns (r: UvRecipe.BundleResult)
      ensures r == UvRecipe.Returned(true) <==>
        && host.platform == "linux" && host.machine == architecture.platformMachine && !host.tmpIsSymlink
        && LocalProcess(outputDir, host, run) == UvRecipe.Exited(0)
      ensures r == UvRecipe.Returned(false) <==>
        || host.platform != "linux" || host.machine != architecture.platformMachine || host.tmpIsSymlink
        || (LocalProcess(outputDir, host, run).Exited? && LocalProcess(outputDir, host, run).returnCode != 0)
      ensures r == UvRecipe.Propagated <==>
        && host.platform == "linux" && host.machine == architecture.platformMachine && !host.tmpIsSymlink
        && LocalProcess(outputDir, host, run).LaunchFailed?
    {
      if host.platform != "linux" || host.machine != architecture.platformMachine {
        return UvRecipe.Returned(false);
      }
      if host.tmpIsSymlink {
        return UvRecipe.Returned(false);
      }
      var recipe := UvRecipe.BuildAssetCommandAndEnv(packageName, outputDir, architecture.platformMachine,
                                                     pythonVersion);
      var outcome := UvRecipe.RunCommand(UvRecipe.LocalBuildProcess(run, host, recipe));
      match outcome
      case RaisedRuntimeError =>
        return UvRecipe.Returned(false);
      case RaisedOSError =>
        return UvRecipe.Propagated;
      case Succeeded =>
        return UvRecipe.Returned(true);
    }
  }
}
