/** The bundling recipe shared by both revisions of the Lambda construct: the `bash -c` command
    and environment that build a package's site-packages with uv, the default handler name,
    the exit-status rule of `run_command`, and the options handed to the Docker bundler. */
module UvRecipe {
  import opened Wrappers
  import PyStr
  import PosixPath
  import Shlex

  /** `(command, env)` as `build_asset_command_and_env` returns it. */
  datatype Recipe = Recipe(command: seq<string>, env: map<string, string>)

  /** The working directory of a package's build: fixed per package, so builds are reproducible. */
  function TmpPath(packageName: string): (r: string)
    ensures r == "/tmp/uv-demo-" + packageName + "-build"
  {
    PosixPath.Join2("/tmp", "uv-demo-" + packageName + "-build")
  }

  /** Different packages never share a working directory. */
  lemma TmpPathInjective(a: string, b: string)
    requires TmpPath(a) == TmpPath(b)
    ensures a == b
  {
    var pre, post := "/tmp/uv-demo-", "-build";
    assert a == TmpPath(a)[|pre|..|TmpPath(a)| - |post|];
    assert b == TmpPath(b)[|pre|..|TmpPath(b)| - |post|];
  }

  /** The site-packages directory of the build environment, with a trailing `/.` so that
      `cp -r` copies its contents. */
  function CopySource(packageName: string, pythonVersion: string): string
  {
    PosixPath.Join(TmpPath(packageName), ["lib", "python" + pythonVersion, "site-packages", "."])
  }

  predicate EndsWithSlash(s: string)
  {
    s != [] && s[|s| - 1] == '/'
  }

  /** The copy source lies under the package's working directory; the only irregularity,
      inherited from `os.path.join`, is that a version ending in `/` gets no second slash. */
  lemma CopySourceShape(packageName: string, pythonVersion: string)
    ensures CopySource(packageName, pythonVersion)
         == TmpPath(packageName) + "/lib/python" + pythonVersion
            + (if EndsWithSlash(pythonVersion) then "" else "/") + "site-packages/."
  {
    var t := TmpPath(packageName);
    assert t[|t| - 1] == 'd';
    PosixPath.JoinFour(t, "lib", "python" + pythonVersion, "site-packages", ".");
    JoinLibPython(t, pythonVersion);
    JoinSitePackages(t + "/lib/python" + pythonVersion);
  }

  lemma JoinLibPython(t: string, pythonVersion: string)
    requires t != [] && t[|t| - 1] != '/'
    ensures PosixPath.Join2(PosixPath.Join2(t, "lib"), "python" + pythonVersion) == t + "/lib/python" + pythonVersion
  {
    PosixPath.JoinRelative(t, "lib");
    PosixPath.JoinRelative(t + "/" + "lib", "python" + pythonVersion);
    assert t + "/" + "lib" + "/" + ("python" + pythonVersion) == t + "/lib/python" + pythonVersion;
  }

  lemma JoinSitePackages(j: string)
    requires j != []
    ensures PosixPath.Join2(PosixPath.Join2(j, "site-packages"), ".")
         == j + (if EndsWithSlash(j) then "" else "/") + "site-packages/."
  {
    var j3 := PosixPath.Join2(j, "site-packages");
    assert j3 == j + (if EndsWithSlash(j) then "" else "/") + "site-packages";
    assert j3[|j3| - 1] == 's';
    PosixPath.JoinRelative(j3, ".");
    assert "site-packages" + "/" + "." == "site-packages/.";
  }

  /** `os.path.join(output_path.rstrip("/"), "")`: the output path with exactly one trailing
      `/`, or the empty string when the output path is made of slashes only. */
  function CopyDestination(outputPath: string): (r: string)
    ensures r == [] <==> forall i :: 0 <= i < |outputPath| ==> outputPath[i] == '/'
    ensures r != [] ==>
      && 2 <= |r| <= |outputPath| + 1
      && r[|r| - 1] == '/' && r[|r| - 2] != '/'
      && r[..|r| - 1] == outputPath[..|r| - 1]
      && forall i :: |r| - 1 <= i < |outputPath| ==> outputPath[i] == '/'
  {
    var stripped := PyStr.RStrip(outputPath, '/');
    assert stripped != [] ==> outputPath[|stripped| - 1] == stripped[|stripped| - 1];
    PosixPath.Join2(stripped, "")
  }

  /** First step: refuse to build on a machine of another architecture. */
  function ArchitectureCheckStep(platformMachine: string): string
  {
    "[ \"$(uname -m)\" = " + platformMachine + " ]"
  }

  const SYNC_PREFIX: string := "uv sync --package "

  /** The flags after the package name. The leading blank that ends the name's word is kept
      apart, so that the verifier can see it: it does not look into long string literals. */
  const SYNC_FLAGS: string := [' '] + "--frozen --no-dev --no-editable --compile-bytecode --python "

  /** Second step: install the package's locked, non-dev, non-editable dependencies, byte-compiled. */
  function SyncStep(packageName: string, pythonVersion: string): string
  {
    SYNC_PREFIX + Shlex.Quote(packageName) + SYNC_FLAGS + pythonVersion
  }

  /** Third step: copy the installed site-packages into the output directory. */
  function CopyStep(packageName: string, pythonVersion: string, outputPath: string): string
  {
    "cp -r " + CopySource(packageName, pythonVersion) + " " + CopyDestination(outputPath)
  }

  const UV_PROJECT_ENVIRONMENT: string := "UV_PROJECT_ENVIRONMENT"
  const UV_NO_INSTALLER_METADATA: string := "UV_NO_INSTALLER_METADATA"
  const UV_LINK_MODE: string := "UV_LINK_MODE"
  const SOURCE_DATE_EPOCH: string := "SOURCE_DATE_EPOCH"
  const UV_CACHE_DIR: string := "UV_CACHE_DIR"

  /** The fixed environment of a build whose working directory is `tmpPath`: uv writes no
      installer metadata, copies instead of linking, and stamps files with a pinned epoch. */
  function RecipeEnv(tmpPath: string): (env: map<string, string>)
    ensures env.Keys == {UV_PROJECT_ENVIRONMENT, UV_NO_INSTALLER_METADATA, UV_LINK_MODE, SOURCE_DATE_EPOCH}
    ensures env[UV_PROJECT_ENVIRONMENT] == tmpPath
    ensures env[UV_NO_INSTALLER_METADATA] == "1"
    ensures env[UV_LINK_MODE] == "copy"
    ensures env[SOURCE_DATE_EPOCH] == "444444444"
  {
    map[UV_PROJECT_ENVIRONMENT := tmpPath,
        UV_NO_INSTALLER_METADATA := "1",
        UV_LINK_MODE := "copy",
        SOURCE_DATE_EPOCH := "444444444"]
  }

  /** `build_asset_command_and_env`. The architecture record enters only through its
      `platform_machine` string, so that string is the parameter here. */
  function BuildAssetCommandAndEnv(packageName: string, outputPath: string, platformMachine: string,
                                   pythonVersion: string): (r: Recipe)
    ensures |r.command| == 3 && r.command[0] == "bash" && r.command[1] == "-c"
    ensures r.command[2] == ArchitectureCheckStep(platformMachine) + " && " + SyncStep(packageName, pythonVersion)
                            + " && " + CopyStep(packageName, pythonVersion, outputPath)
    ensures r.env == RecipeEnv("/tmp/uv-demo-" + packageName + "-build")
  {
    var s1, s2, s3 := ArchitectureCheckStep(platformMachine), SyncStep(packageName, pythonVersion),
                      CopyStep(packageName, pythonVersion, outputPath);
    PyStr.JoinThree(" && ", s1, s2, s3);
    Recipe(["bash", "-c", PyStr.JoinWith(" && ", [s1, s2, s3])], RecipeEnv(TmpPath(packageName)))
  }

  /** Trailing slashes on the output path do not change the recipe. */
  lemma RecipeIgnoresTrailingSlashes(packageName: string, outputPath: string, platformMachine: string,
                                     pythonVersion: string, k: nat)
    ensures BuildAssetCommandAndEnv(packageName, outputPath + PyStr.Repeat('/', k), platformMachine, pythonVersion)
         == BuildAssetCommandAndEnv(packageName, outputPath, platformMachine, pythonVersion)
  {
    PyStr.RStripRepeat(outputPath, '/', k);
  }

  /** In the `uv sync` step the package name is one shell word that reads back as the name,
      whatever characters the name holds. */
  lemma SyncStepNamesPackage(packageName: string, pythonVersion: string)
    ensures var s, k, q := SyncStep(packageName, pythonVersion), |SYNC_PREFIX|, Shlex.Quote(packageName);
      && k + |q| < |s|
      && s[..k] == SYNC_PREFIX
      && Shlex.ReadWord(s[k..k + |q|]) == Some(packageName)
      && s[k + |q|] == ' '
      && s[k + |q|..] == SYNC_FLAGS + pythonVersion
  {
    var s, k, q := SyncStep(packageName, pythonVersion), |SYNC_PREFIX|, Shlex.Quote(packageName);
    var rest := SYNC_FLAGS + pythonVersion;
    assert s == SYNC_PREFIX + q + rest;
    assert rest[0] == ' ';
    ThreePartSlices(SYNC_PREFIX, q, rest);
    Shlex.QuoteRoundTrip(packageName);
  }

  lemma ThreePartSlices(a: string, b: string, c: string)
    requires c != []
    ensures var s := a + b + c;
      |a| + |b| < |s| && s[..|a|] == a && s[|a|..|a| + |b|] == b && s[|a| + |b|] == c[0]
    ensures (a + b + c)[|a| + |b|..] == c
  {
  }

  /** `package_name.replace("-", "_")`: the Python module the package installs. */
  function ModuleName(packageName: string): (r: string)
    ensures |r| == |packageName| && '-' !in r
    ensures forall i :: 0 <= i < |r| && packageName[i] != '-' ==> r[i] == packageName[i]
    ensures forall i :: 0 <= i < |r| && packageName[i] == '-' ==> r[i] == '_'
  {
    var r := PyStr.ReplaceChar(packageName, '-', '_');
    assert forall i :: 0 <= i < |r| ==> r[i] != '-';
    r
  }

  const HANDLER_SUFFIX: string := ".lambda_function.lambda_handler"

  /** Python truthiness of an optional string: neither None nor empty. */
  predicate Truthy(s: Option<string>)
  {
    s.Some? && s.value != ""
  }

  /** `handler or f"{module_name}.lambda_function.lambda_handler"` */
  function HandlerOrDefault(handler: Option<string>, packageName: string): (r: string)
    ensures r != ""
    ensures Truthy(handler) ==> r == handler.value
    ensures !Truthy(handler) ==> r == ModuleName(packageName) + HANDLER_SUFFIX
  {
    if Truthy(handler) then handler.value else ModuleName(packageName) + HANDLER_SUFFIX
  }

  /** The exit status `subprocess.run` reports, or a failure to start the process at all
      (for instance `FileNotFoundError` when the executable is missing). */
  datatype ProcessResult = Exited(returnCode: int) | LaunchFailed

  /** What `run_command` does with it: a non-zero status becomes `RuntimeError`; a launch
      failure is an `OSError` that `run_command` does not catch. */
  datatype CommandOutcome = Succeeded | RaisedRuntimeError | RaisedOSError

  function RunCommand(p: ProcessResult): (o: CommandOutcome)
    ensures o == Succeeded <==> p == Exited(0)
    ensures o == RaisedRuntimeError <==> p.Exited? && p.returnCode != 0
    ensures o == RaisedOSError <==> p.LaunchFailed?
  {
    match p
    case Exited(code) => if code == 0 then Succeeded else RaisedRuntimeError
    case LaunchFailed => RaisedOSError
  }

  /** The facts about the deploying host that `try_bundle` asks for. */
  datatype Host = Host(platform: string, machine: string, tmpIsSymlink: bool, environ: map<string, string>)

  /** The outcome of `try_bundle` as CDK sees it: a boolean, or an exception it lets through. */
  datatype BundleResult = Returned(success: bool) | Propagated

  /** `{**os.environ, **env}`: every variable of the host and of the recipe, the recipe's
      value winning where both set one. */
  function LocalEnvironment(host: Host, recipe: Recipe): (e: map<string, string>)
    ensures e.Keys == host.environ.Keys + recipe.env.Keys
    ensures forall k :: k in recipe.env ==> e[k] == recipe.env[k]
    ensures forall k :: k in host.environ && k !in recipe.env ==> e[k] == host.environ[k]
  {
    host.environ + recipe.env
  }

  /** Runs a recipe on the host, in the host's environment overridden by the recipe's. */
  function LocalBuildProcess(run: (seq<string>, map<string, string>) -> ProcessResult, host: Host,
                             recipe: Recipe): ProcessResult
  {
    run(recipe.command, LocalEnvironment(host, recipe))
  }

  datatype DockerVolume = DockerVolume(containerPath: string, hostPath: string)

  /** The values passed to CDK's `BundlingOptions`; `local` stands for the local-bundling
      object by the values it is constructed from. */
  datatype BundlingOptions<L> = BundlingOptions(image: string, environment: map<string, string>,
                                                volumes: Option<seq<DockerVolume>>, command: seq<string>,
                                                platform: string, local: L)

  /** `Code.from_asset(path, asset_hash_type=OUTPUT, bundling=...)` */
  datatype AssetCode<L> = AssetCode(path: string, bundling: BundlingOptions<L>)

  /** Options for building `recipe` inside `image`; `cacheDir` is the directory the `uv cache dir`
      probe found, or None when the probe failed. */
  function DockerBundling<L>(recipe: Recipe, image: string, cacheDir: Option<string>, platform: string,
                             local: L): (b: BundlingOptions<L>)
    ensures b.environment.Keys == recipe.env.Keys + {UV_CACHE_DIR}
    ensures b.environment[UV_CACHE_DIR] == "/opt/uv-cache/"
    ensures forall k :: k in recipe.env && k != UV_CACHE_DIR ==> b.environment[k] == recipe.env[k]
    ensures cacheDir.None? <==> b.volumes.None?
    ensures cacheDir.Some? ==> b.volumes == Some([DockerVolume("/opt/uv-cache", cacheDir.value)])
    ensures b.command == recipe.command && b.image == image && b.platform == platform && b.local == local
  {
    BundlingOptions(image, recipe.env + map[UV_CACHE_DIR := "/opt/uv-cache/"],
                    if cacheDir.Some? then Some([DockerVolume("/opt/uv-cache", cacheDir.value)]) else None,
                    recipe.command, platform, local)
  }

  /** The recipe for `demo-lambda1` with the default platform and interpreter: the name goes
      unquoted into `uv sync`, the copy runs from its fixed working directory into
      `/asset-output/`, and uv links by copying with the pinned epoch. */
  lemma DemoLambda1Recipe()
    ensures BuildAssetCommandAndEnv("demo-lambda1", "/asset-output", "x86_64", "3.11").command
         == ["bash", "-c",
             ("[ \"$(uname -m)\" = " + "x86_64" + " ]")
             + " && " + (SYNC_PREFIX + "demo-lambda1" + SYNC_FLAGS + "3.11")
             + " && " + ("cp -r " + ("/tmp/uv-demo-" + "demo-lambda1" + "-build" + "/lib/python" + "3.11" + "/"
                                    + "site-packages/.") + " " + ("/asset-output" + "/"))]
    ensures BuildAssetCommandAndEnv("demo-lambda1", "/asset-output", "x86_64", "3.11").env[UV_LINK_MODE] == "copy"
    ensures BuildAssetCommandAndEnv("demo-lambda1", "/asset-output", "x86_64", "3.11").env[SOURCE_DATE_EPOCH] == "444444444"
    ensures BuildAssetCommandAndEnv("demo-lambda1", "/asset-output///", "x86_64", "3.11")
         == BuildAssetCommandAndEnv("demo-lambda1", "/asset-output", "x86_64", "3.11")
  {
    assert Shlex.AllSafe("demo-lambda1");
    assert SyncStep("demo-lambda1", "3.11") == SYNC_PREFIX + "demo-lambda1" + SYNC_FLAGS + "3.11";
    CopySourceShape("demo-lambda1", "3.11");
    assert PyStr.RStrip("/asset-output", '/') == "/asset-output";
    assert CopyDestination("/asset-output") == "/asset-output" + "/";
    assert "/asset-output" + PyStr.Repeat('/', 3) == "/asset-output///";
    RecipeIgnoresTrailingSlashes("demo-lambda1", "/asset-output", "x86_64", "3.11", 3);
  }

  /** Without a handler, `demo-lambda1` is served by the `lambda_handler` of its module
      `demo_lambda1`. */
  lemma DemoLambda1Handler()
    ensures HandlerOrDefault(None, "demo-lambda1") == "demo_lambda1" + HANDLER_SUFFIX
  {
    DemoLambda1Module();
  }

  lemma DemoLambda1Module()
    ensures PyStr.ReplaceChar("demo-lambda1", '-', '_') == "demo_lambda1"
  {
    DemoLambda1Parts();
    PyStr.ReplaceCharAround("demo", "lambda1", '-', '_');
  }

  lemma DemoLambda1Parts()
    ensures '-' !in "demo" && '-' !in "lambda1"
    ensures "demo" + ['-'] + "lambda1" == "demo-lambda1"
    ensures "demo" + ['_'] + "lambda1" == "demo_lambda1"
  {
  }
}
