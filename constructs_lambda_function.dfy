/** The pinned revision of the construct (`cdk/stacks/constructs/python_lambda_function.py`):
    one runtime, one architecture and one bundling image, enforced on the keyword arguments
    the caller passes, and the local bundler with its eligibility guards. */
module ConstructsLambdaFunction {
  import opened Wrappers
  import opened LambdaTypes
  import PyStr
  import UvRecipe
  import LambdaFunction

  /** `PlatformArchitecture`: a Lambda architecture with the names other tools use for it. */
  datatype PlatformArchitecture = PlatformArchitecture(lambdaArchitecture: LambdaArchitecture,
                                                       platformMachine: string, dockerArchitecture: string)

  /** `architectures`; unlike the other revision it is keyed by its own labels. */
  const ARCHITECTURES: map<string, PlatformArchitecture> :=
    map["x86_64" := PlatformArchitecture(X86_64, "x86_64", "amd64"),
        "arm_64" := PlatformArchitecture(ARM_64, "aarch64", "arm64")]

  const LAMBDA_RUNTIME: Runtime := PYTHON_3_11
  const PYTHON_VERSION: string := PyStr.RemovePrefix(LAMBDA_RUNTIME.name, "python")
  const ARCHITECTURE: PlatformArchitecture := ARCHITECTURES["x86_64"]
  const BUNDLING_DOCKER_IMAGE: string :=
    "ghcr.io/astral-sh/uv:0.5.8-python3.11-bookworm-slim"
    + "@sha256:48b430dc3ee332c111253048aa749bf35cb3f8bba469432f202fa5b8e22dd55f"

  /** The pinned platform: Python 3.11 on x86_64, built in an amd64 container. */
  lemma PinnedPlatform()
    ensures ARCHITECTURES.Keys == {"x86_64", "arm_64"}
    ensures PYTHON_VERSION == "3.11"
    ensures LAMBDA_RUNTIME.name == "python3.11"
    ensures ARCHITECTURE == PlatformArchitecture(X86_64, "x86_64", "amd64")
    ensures ARCHITECTURE.lambdaArchitecture.Name() == "x86_64"
  {
    assert PyStr.StartsWith("python3.11", "python");
    assert "python3.11"[6..] == "3.11";
  }

  /** A keyword argument's value as `ensure_kwarg_value` sees it: falsy (such as None), or a
      truthy object with a `name` attribute, or a truthy object without one. */
  datatype KwValue = Falsy | Named(name: string) | Nameless

  /** The `**kwargs` dictionary, which the construct pops entries from. */
  class KeywordArguments {
    var entries: map<string, KwValue>

    constructor (entries: map<string, KwValue>)
      ensures this.entries == entries
    {
      this.entries := entries;
    }

    /** `kwargs.pop(key, None)` */
    method Pop(key: string) returns (v: Option<KwValue>)
      modifies this
      ensures v == Lookup(old(entries), key)
      ensures entries == old(entries) - {key}
    {
      v := Lookup(entries, key);
      entries := entries - {key};
    }
  }

  /** `d.get(key)` */
  function Lookup(d: map<string, KwValue>, key: string): (v: Option<KwValue>)
    ensures v.Some? <==> key in d
    ensures v.Some? ==> v.value == d[key]
  {
    if key in d then Some(d[key]) else None
  }

  /** The `AssertionError` of a mismatched name, the `AttributeError` of a value without one,
      and the `TypeError` of a leftover keyword argument that `aws_lambda.Function` also receives
      from the construct itself. */
  datatype ConfigError = Unsupported(expected: string) | NoNameAttribute(kwarg: string)
                       | DuplicateArgument(name: string)

  /** The check `ensure_kwarg_value` makes of the popped value: absent and falsy values pass,
      a named value passes exactly when its name is the expected one. */
  function KwargCheck(kwarg: string, actual: Option<KwValue>, expectedName: string): (r: Outcome<ConfigError>)
    ensures r.Pass? <==> actual.None? || actual.value.Falsy? || actual.value == Named(expectedName)
    ensures r == Fail(Unsupported(expectedName)) <==> actual.Some? && actual.value.Named? && actual.value.name != expectedName
    ensures r == Fail(NoNameAttribute(kwarg)) <==> actual == Some(Nameless)
  {
    match actual
    case None => Pass
    case Some(Falsy) => Pass
    case Some(Named(name)) => if name == expectedName then Pass else Fail(Unsupported(expectedName))
    case Some(Nameless) => Fail(NoNameAttribute(kwarg))
  }

  /** `ensure_kwarg_value`: removes `kwarg` from the keyword arguments, whatever its value,
      and checks what it removed. */
  method EnsureKwargValue(kwargs: KeywordArguments, kwarg: string, expectedName: string)
    returns (r: Outcome<ConfigError>)
    modifies kwargs
    ensures kwargs.entries == old(kwargs.entries) - {kwarg}
    ensures r == KwargCheck(kwarg, Lookup(old(kwargs.entries), kwarg), expectedName)
  {
    var actual := kwargs.Pop(kwarg);
    r := KwargCheck(kwarg, actual, expectedName);
  }

  /** The asset `PythonLambdaFunction` builds: the repository root `..`, the pinned image and
      platform, the recipe for x86_64 and Python 3.11 writing to `/asset-output`, the uv cache
      directory added to its environment, and a local bundler for the package. */
  function BundledCode(packageName: string, cacheDir: Option<string>): (r: UvRecipe.AssetCode<string>)
    ensures r.path == ".."
    ensures r.bundling.command
         == UvRecipe.BuildAssetCommandAndEnv(packageName, "/asset-output", "x86_64", "3.11").command
    ensures var env := r.bundling.environment;
      && env.Keys == {UvRecipe.UV_PROJECT_ENVIRONMENT, UvRecipe.UV_NO_INSTALLER_METADATA, UvRecipe.UV_LINK_MODE,
                      UvRecipe.SOURCE_DATE_EPOCH, UvRecipe.UV_CACHE_DIR}
      && env[UvRecipe.UV_CACHE_DIR] == "/opt/uv-cache/"
      && env[UvRecipe.UV_PROJECT_ENVIRONMENT] == "/tmp/uv-demo-" + packageName + "-build"
      && env[UvRecipe.UV_LINK_MODE] == "copy"
      && env[UvRecipe.SOURCE_DATE_EPOCH] == "444444444"
      && env[UvRecipe.UV_NO_INSTALLER_METADATA] == "1"
    ensures r.bundling.environment
         == UvRecipe.BuildAssetCommandAndEnv(packageName, "/asset-output", "x86_64", "3.11").env
            + map[UvRecipe.UV_CACHE_DIR := "/opt/uv-cache/"]
    ensures r.bundling.volumes == if cacheDir.Some? then Some([UvRecipe.DockerVolume("/opt/uv-cache", cacheDir.value)])
                                  else None
    ensures r.bundling.image == BUNDLING_DOCKER_IMAGE && r.bundling.platform == "amd64"
    ensures r.bundling.local == packageName
  {
    PinnedPlatform();
    var recipe := UvRecipe.BuildAssetCommandAndEnv(packageName, "/asset-output", ARCHITECTURE.platformMachine,
                                                   PYTHON_VERSION);
    assert recipe == UvRecipe.BuildAssetCommandAndEnv(packageName, "/asset-output", "x86_64", "3.11");
    UvRecipe.AssetCode("..", UvRecipe.DockerBundling(recipe, BUNDLING_DOCKER_IMAGE, cacheDir,
                                                     ARCHITECTURE.dockerArchitecture, packageName))
  }

  /** The arguments `PythonLambdaFunction` passes to `aws_lambda.Function`; `extra` is what is
      left of the keyword arguments. */
  datatype FunctionProps = FunctionProps(code: UvRecipe.AssetCode<string>, handler: string, runtime: Runtime,
                                         architecture: LambdaArchitecture, extra: map<string, KwValue>)

  /** `PythonLambdaFunction.__init__`: the runtime is checked (and popped) before the
      architecture, the first failing check is the construct's error, and on success CDK
      receives the default-or-given handler, the pinned runtime and architecture, and the
      remaining keyword arguments, which no longer hold either of the two. A remaining `code`
      clashes with the construct's own `code=` when the call's keywords are merged; a
      remaining `id` then clashes with the construct id passed in that parameter's place. */
  method PythonLambdaFunction(packageName: string, handler: Option<string>, kwargs: KeywordArguments,
                              cacheDir: Option<string>)
    returns (r: Result<FunctionProps, ConfigError>)
    modifies kwargs
    ensures var runtimeCheck := KwargCheck("runtime", Lookup(old(kwargs.entries), "runtime"), "python3.11");
      && (runtimeCheck.Fail? ==> r == Err(runtimeCheck.error) && kwargs.entries == old(kwargs.entries) - {"runtime"})
      && (runtimeCheck.Pass? ==> kwargs.entries == old(kwargs.entries) - {"runtime", "architecture"})
    ensures var runtimeCheck := KwargCheck("runtime", Lookup(old(kwargs.entries), "runtime"), "python3.11");
      var architectureCheck := KwargCheck("architecture", Lookup(old(kwargs.entries), "architecture"), "x86_64");
      var checked := runtimeCheck.Pass? && architectureCheck.Pass?;
      && (runtimeCheck.Pass? && architectureCheck.Fail? ==> r == Err(architectureCheck.error))
      && (checked && "code" in old(kwargs.entries) ==> r == Err(DuplicateArgument("code")))
      && (checked && "code" !in old(kwargs.entries) && "id" in old(kwargs.entries) ==> r == Err(DuplicateArgument("id")))
      && (r.Ok? <==> checked && "code" !in old(kwargs.entries) && "id" !in old(kwargs.entries))
    ensures r.Ok? ==>
      r.value == FunctionProps(BundledCode(packageName, cacheDir), UvRecipe.HandlerOrDefault(handler, packageName),
                               PYTHON_3_11, X86_64, old(kwargs.entries) - {"runtime", "architecture"})
    ensures r.Ok? ==> r.value.handler != "" && "runtime" !in r.value.extra && "architecture" !in r.value.extra
    ensures r.Ok? ==> "code" !in r.value.extra && "id" !in r.value.extra
  {
    PinnedPlatform();
    var h := UvRecipe.HandlerOrDefault(handler, packageName);
    ghost var entries0 := kwargs.entries;
    var checked := EnsureKwargValue(kwargs, "runtime", LAMBDA_RUNTIME.name);
    if checked.Fail? {
      return Err(checked.error);
    }
    checked := EnsureKwargValue(kwargs, "architecture", ARCHITECTURE.lambdaArchitecture.Name());
    assert Lookup(entries0 - {"runtime"}, "architecture") == Lookup(entries0, "architecture");
    assert entries0 - {"runtime"} - {"architecture"} == entries0 - {"runtime", "architecture"};
    if checked.Fail? {
      return Err(checked.error);
    }
    assert ("code" in kwargs.entries <==> "code" in entries0) && ("id" in kwargs.entries <==> "id" in entries0);
    if "code" in kwargs.entries {
      return Err(DuplicateArgument("code"));
    }
    if "id" in kwargs.entries {
      return Err(DuplicateArgument("id"));
    }
    r := Ok(FunctionProps(BundledCode(packageName, cacheDir), h, LAMBDA_RUNTIME, ARCHITECTURE.lambdaArchitecture,
                          kwargs.entries));
  }

  /** For the platform this revision pins, both revisions hand CDK the same build command and
      the same build environment; they differ only in the image. */
  lemma RevisionsAgree(packageName: string, handler: Option<string>, cacheDir: Option<string>)
    ensures var first := LambdaFunction.PythonLambdaFunction(packageName, "..", cacheDir, handler);
      && first.Ok?
      && first.value.code.bundling.command == BundledCode(packageName, cacheDir).bundling.command
      && first.value.code.bundling.environment == BundledCode(packageName, cacheDir).bundling.environment
      && first.value.code.bundling.volumes == BundledCode(packageName, cacheDir).bundling.volumes
      && first.value.code.bundling.platform == BundledCode(packageName, cacheDir).bundling.platform
      && first.value.handler == Some(UvRecipe.HandlerOrDefault(handler, packageName))
  {
    PinnedPlatform();
    LambdaFunction.Defaults();
  }

  /** `UvLocalBundling`: the local bundler CDK tries before falling back to Docker. */
  class UvLocalBundling {
    const packageName: string

    constructor (packageName: string)
      ensures this.packageName == packageName
    {
      this.packageName := packageName;
    }

    /** The process a local build of `outputDir` runs: the pinned recipe, with the recipe's
        variables laid over the host environment. */
    function LocalProcess(outputDir: string, host: UvRecipe.Host,
                          run: (seq<string>, map<string, string>) -> UvRecipe.ProcessResult): UvRecipe.ProcessResult
    {
      UvRecipe.LocalBuildProcess(run, host, UvRecipe.BuildAssetCommandAndEnv(packageName, outputDir, "x86_64", "3.11"))
    }

    /** `try_bundle`: succeeds only on x86_64 Linux with a real `/tmp`, when the build exits
        with status 0. A failed build (a `RuntimeError`) and every failed guard give False; a
        process that cannot start raises past `try_bundle`. */
    method TryBundle(outputDir: string, host: UvRecipe.Host,
                     run: (seq<string>, map<string, string>) -> UvRecipe.ProcessResult)
      returns (r: UvRecipe.BundleResult)
      ensures r == UvRecipe.Returned(true) <==>
        && host.platform == "linux" && host.machine == "x86_64" && !host.tmpIsSymlink
        && LocalProcess(outputDir, host, run) == UvRecipe.Exited(0)
      ensures r == UvRecipe.Returned(false) <==>
        || host.platform != "linux" || host.machine != "x86_64" || host.tmpIsSymlink
        || (LocalProcess(outputDir, host, run).Exited? && LocalProcess(outputDir, host, run).returnCode != 0)
      ensures r == UvRecipe.Propagated <==>
        && host.platform == "linux" && host.machine == "x86_64" && !host.tmpIsSymlink
        && LocalProcess(outputDir, host, run).LaunchFailed?
    {
      PinnedPlatform();
      if host.platform != "linux" || host.machine != ARCHITECTURE.platformMachine {
        return UvRecipe.Returned(false);
      }
      if host.tmpIsSymlink {
        return UvRecipe.Returned(false);
      }
      var recipe := UvRecipe.BuildAssetCommandAndEnv(packageName, outputDir, ARCHITECTURE.platformMachine,
                                                     PYTHON_VERSION);
      var outcome := UvRecipe.RunCommand(UvRecipe.LocalBuildProcess(run, host, recipe));
      match outcome
      case RaisedRuntimeError =>
        return UvRecipe.Returned(false);
      case RaisedOSError =>
        return UvRecipe.Propagated;
      case Succeeded =>
        return UvRecipe.Returned(true);
    }
  }
}
