# uv bundling for Python Lambda functions: a Dafny model

The repository has a CDK construct that packages a Python workspace member as an AWS Lambda
function. It builds the package with uv: first locally when the host matches the function's
platform, and otherwise in a pinned Docker image. The construct exists in two revisions:

- `cdk/python_lambda_function.py` takes the runtime, the architecture and the bundling image as parameters.
- `cdk/stacks/constructs/python_lambda_function.py` pins Python 3.11 on x86_64, and refuses other values passed as keyword arguments.

The model covers what both revisions compute:

- **Recipe** (`UvRecipe`, shared by both revisions, whose `build_asset_command_and_env` is identical):
  - a `bash -c` command of three steps joined by `&&`: check the machine, run `uv sync` for the package, copy site-packages to the output directory;
  - a fixed four-entry build environment.
- **Host facts** (`UvRecipe.Host`): `sys.platform`, `platform.machine()`, whether `/tmp` is a symlink, and `os.environ`.
- **Subprocess**: a function parameter that returns an exit status or a launch failure.
- **Python library behaviour**, modelled exactly for the strings used here:
  - `str.removeprefix`, `str.rstrip`, `str.replace` and `str.join` (`PyStr`);
  - `os.path.join` (`PosixPath`);
  - `shlex.quote` (`Shlex`), checked against a reader for the POSIX shell words it produces.
- **First revision** (`LambdaFunction`):
  - the architecture table and the defaults;
  - argument validation;
  - the Docker bundling options;
  - the arguments passed to `aws_lambda.Function`;
  - `_UvLocalBundling` as a class whose `TryBundle` method follows the guard sequence of `try_bundle`.
- **Second revision** (`ConstructsLambdaFunction`):
  - the pinned platform;
  - `ensure_kwarg_value` as a method on a keyword-argument dictionary (`KeywordArguments`), which it pops entries from;
  - the construction;
  - its `UvLocalBundling`.

One behaviour is easy to misread: `try_bundle` catches only `RuntimeError`, which is what `run_command` raises for a non-zero exit status. A process that cannot be started raises an `OSError` such as `FileNotFoundError`, and that error propagates out of `try_bundle` (`UvRecipe.Propagated`); it does not give `False`.

## Model

| member | source | states |
|---|---|---|
| `PyStr.RemovePrefix` | cdk/python_lambda_function.py:40 | With the prefix present, prefix + result is the input; otherwise the input is unchanged. |
| `PyStr.RStrip` | cdk/python_lambda_function.py:88 | The result is a prefix of the input, everything removed is the stripped character, and the result does not end with it. |
| `PyStr.RStripRepeat` | cdk/python_lambda_function.py:88 | Appending any number of the stripped character does not change the result of rstrip. |
| `PyStr.ReplaceChar` | cdk/python_lambda_function.py:145 | The length is kept; each character equal to `from` becomes `to`, and every other character is kept. |
| `PyStr.ReplaceCharAppend` | cdk/stacks/constructs/python_lambda_function.py:100 | Replacement distributes over concatenation. |
| `PyStr.JoinWith` | cdk/python_lambda_function.py:91 | `sep.join(parts)`: the empty list gives `""`, and otherwise the result starts with the first part and ends with the last. `JoinThree` gives the exact three-part form. |
| `PyStr.JoinThree` | cdk/python_lambda_function.py:91 | Joining three steps with a separator puts the separator exactly between them. |
| `PosixPath.Join2` | cdk/python_lambda_function.py:76-88 | One posixpath join step: the result always ends with the new component. An absolute component replaces the path. A relative one keeps the path as prefix, with at most one character between them, and that character is `/`. |
| `PosixPath.Join` | cdk/python_lambda_function.py:76-88 | `os.path.join(a, *parts)`: no parts gives `a`. Otherwise the result ends with the last part. If every part is relative, the result starts with `a`. `JoinConcat`, `JoinAbsolute` and `JoinFour` state how it folds. |
| `PosixPath.JoinFour` | cdk/python_lambda_function.py:87 | `os.path.join` with four components is the pairwise join applied left to right. |
| `PosixPath.JoinConcat` | cdk/python_lambda_function.py:76-88 | `os.path.join` folds its components left to right: joining `ps` and then `qs` is joining `ps + qs`, for all lists. |
| `PosixPath.JoinAbsolute` | cdk/python_lambda_function.py:76-88 | An absolute component discards the base and every component before it. |
| `Shlex.EscapeSingleQuotes` | cdk/python_lambda_function.py:83 | The `replace` of `'` inside `shlex.quote` never shortens the string. `EscapeWithoutQuotes` and `QuoteRoundTrip` state what it does to quotes. |
| `Shlex.EscapeWithoutQuotes` | cdk/python_lambda_function.py:83 | A string without `'` comes back unchanged. |
| `Shlex.Quote` | cdk/python_lambda_function.py:83 | The name is left unchanged exactly when it is non-empty and all-safe; otherwise the result is enclosed in single quotes. |
| `Shlex.QuoteRoundTrip` | cdk/python_lambda_function.py:83 | The shell reads the quoted name back as exactly one word equal to the name, for every string. |
| `UvRecipe.TmpPath` | cdk/python_lambda_function.py:76 | The working directory is exactly `/tmp/uv-demo-` + name + `-build`, with the name inserted unquoted. |
| `UvRecipe.TmpPathInjective` | cdk/stacks/constructs/python_lambda_function.py:65 | Two packages share a working directory only if they have the same name. |
| `UvRecipe.CopySourceShape` | cdk/python_lambda_function.py:87 | The copy source is working dir + `/lib/python` + version + `/site-packages/.`. The middle `/` is dropped when the version ends in `/`. |
| `UvRecipe.CopyDestination` | cdk/python_lambda_function.py:88 | The result is empty iff the output path is all slashes. Otherwise it is the output path with trailing slashes removed and exactly one `/` appended. |
| `UvRecipe.RecipeEnv` | cdk/python_lambda_function.py:93-98 | Exactly four keys: the project environment is the working dir, installer metadata is `1`, the link mode is `copy`, and the epoch is `444444444`. |
| `UvRecipe.BuildAssetCommandAndEnv` | cdk/python_lambda_function.py:69-99 | The command is `["bash", "-c", s]`, where `s` is the machine check, the sync and the copy joined by ` && `. The env is that of the package's working directory. |
| `UvRecipe.RecipeIgnoresTrailingSlashes` | cdk/stacks/constructs/python_lambda_function.py:77 | The output paths `p` and `p` + any number of `/` give the identical recipe. |
| `UvRecipe.SyncStepNamesPackage` | cdk/python_lambda_function.py:82-84 | After `uv sync --package ` comes one shell word that reads back as the package name; the rest of the step is exactly ` --frozen --no-dev --no-editable --compile-bytecode --python ` and the version, so a space ends the word. |
| `UvRecipe.ModuleName` | cdk/stacks/constructs/python_lambda_function.py:100 | The length is kept and no `-` remains: each `-` becomes `_`, and every other character is kept. |
| `UvRecipe.HandlerOrDefault` | cdk/stacks/constructs/python_lambda_function.py:101 | The result is never empty. A truthy handler is kept; a None or empty one becomes module name + `.lambda_function.lambda_handler`. |
| `UvRecipe.RunCommand` | cdk/python_lambda_function.py:62-66 | Success iff the exit status is 0. `RuntimeError` iff the process exited with a non-zero status. An OSError iff the process did not start. |
| `UvRecipe.LocalEnvironment` | cdk/python_lambda_function.py:248 | `{**os.environ, **env}`: the keys of both maps, with the recipe's value for every recipe key and the host's value for every other key. |
| `UvRecipe.LocalBuildProcess` | cdk/stacks/constructs/python_lambda_function.py:183 | Definition; no contract: the recipe's command is run in `LocalEnvironment`. Both `TryBundle` methods state what the outcome means. |
| `UvRecipe.DockerBundling` | cdk/python_lambda_function.py:163-179 | The container env is the recipe env plus only `UV_CACHE_DIR=/opt/uv-cache/`. The cache volume is present iff a cache dir was found. The command, image and platform are passed through. |
| `UvRecipe.DemoLambda1Recipe` | cdk/python_lambda_function.py:69-99 | The exact command for `demo-lambda1` on x86_64 with 3.11. `/asset-output///` gives the same recipe as `/asset-output`. |
| `UvRecipe.DemoLambda1Handler` | cdk/python_lambda_function.py:145-146 | The default handler of `demo-lambda1` is `demo_lambda1.lambda_function.lambda_handler`. |
| `LambdaFunction.ArchitectureTable` | cdk/python_lambda_function.py:29-36 | The table has exactly the keys `x86_64` and `arm64` with their two records, and each entry sits under its own Lambda name. |
| `LambdaFunction.PythonVersionFromRuntime` | cdk/python_lambda_function.py:39-40 | Only a leading `python` is removed. |
| `LambdaFunction.Defaults` | cdk/python_lambda_function.py:43-46 | The default version is `3.11`, and the default architecture is the x86_64 record. |
| `LambdaFunction.EnsureValue` | cdk/python_lambda_function.py:108-111 | Passes iff the names are equal; on failure it names the argument, the expected value and the actual value. |
| `LambdaFunction.ValidatePythonLambdaArgs` | cdk/python_lambda_function.py:102-134 | With the default image the runtime is checked first, then the architecture: it succeeds iff the runtime is `python3.11` and the architecture is `x86_64`, and then gives exactly the pinned defaults. With a custom image it succeeds iff the architecture is in the table; the runtime and image pass through, the version comes from the runtime, and it warns iff the image has no `@`. An unknown architecture gives the `KeyError` for its name, recording that the warning (iff no `@`) was already logged. |
| `LambdaFunction.PythonLambdaCode` | cdk/python_lambda_function.py:137-179 | The asset is the path given. The build command is the recipe for `/asset-output`, and the env has exactly five keys and their values. The volumes, image and platform come from the arguments. The local bundler gets the same package, architecture and version. |
| `LambdaFunction.PythonLambdaFunctionAsWritten` | cdk/python_lambda_function.py:181-213 | Succeeds iff validation succeeds, and a failure is validation's error. CDK gets exactly `python_lambda_code`'s asset for the validated architecture, image and version, the caller's handler unchanged, and the validated runtime and architecture. The handler, runtime, architecture and image default to None, Python 3.11, x86_64 and None, as in the signature. |
| `LambdaFunction.PythonLambdaFunction` | cdk/python_lambda_function.py:182-213 | Succeeds iff validation succeeds, and a failure is validation's error. CDK gets exactly `python_lambda_code`'s asset for the validated architecture, image and version, the non-empty defaulted handler, and the validated runtime and architecture. The handler, runtime, architecture and image default to None, Python 3.11, x86_64 and None, as in the signature. |
| `LambdaFunction.DefaultHandlerDropped` | cdk/python_lambda_function.py:209 | For `demo-lambda1` without a handler, the code as written passes no handler; the corrected construct passes the default. |
| `LambdaFunction.UvLocalBundling.constructor` | cdk/python_lambda_function.py:218-222 | Stores the package, the architecture record and the version. |
| `LambdaFunction.UvLocalBundling.TryBundle` | cdk/python_lambda_function.py:224-253 | True iff the host is Linux on the record's machine, `/tmp` is real, and the build exits 0. False iff a guard fails or the build exits non-zero. The error propagates iff the guards pass and the build cannot start. |
| `ConstructsLambdaFunction.PinnedPlatform` | cdk/stacks/constructs/python_lambda_function.py:26-34 | The table keys are `x86_64` and `arm_64`. The pinned values are Python `3.11` and the x86_64 record (`x86_64`, `amd64`), whose Lambda name is `x86_64`. |
| `ConstructsLambdaFunction.KeywordArguments.Pop` | cdk/stacks/constructs/python_lambda_function.py:104 | Returns the value or None, and removes the key. |
| `ConstructsLambdaFunction.Lookup` | cdk/stacks/constructs/python_lambda_function.py:104 | The value of `kwargs.pop(kwarg, None)`: Some iff the key is present, and then its value. |
| `ConstructsLambdaFunction.KwargCheck` | cdk/stacks/constructs/python_lambda_function.py:104-105 | Passes iff the value is absent, falsy, or named as expected. A different name gives `Unsupported`; a truthy value without a name gives `NoNameAttribute`. |
| `ConstructsLambdaFunction.EnsureKwargValue` | cdk/stacks/constructs/python_lambda_function.py:103-105 | The key is removed whatever its value was, and the result is the check of the removed value. |
| `ConstructsLambdaFunction.BundledCode` | cdk/stacks/constructs/python_lambda_function.py:111-145 | The asset path is `..`, the recipe is for x86_64/3.11 writing to `/asset-output`, and the env is the recipe's env plus `UV_CACHE_DIR=/opt/uv-cache/`: five keys, with `UV_LINK_MODE=copy`, `SOURCE_DATE_EPOCH=444444444`, `UV_NO_INSTALLER_METADATA=1` and the package's project environment. The image and platform `amd64` are the pinned ones; the cache volume is present iff a cache dir was found; the local bundler is for the package. |
| `ConstructsLambdaFunction.PythonLambdaFunction` | cdk/stacks/constructs/python_lambda_function.py:92-150 | The runtime is popped and checked first; its failure is the result and leaves `architecture` in the keyword arguments. Otherwise both keys are removed. After both checks pass, a remaining `code`, and then a remaining `id`, is the `TypeError` of a repeated argument. It succeeds iff both checks pass and neither `code` nor `id` remains, handing CDK the defaulted handler, Python 3.11, x86_64, and the remaining keyword arguments, which hold none of the four keys. |
| `ConstructsLambdaFunction.RevisionsAgree` | cdk/stacks/constructs/python_lambda_function.py:58-88 | For the pinned platform, both revisions produce the same command, environment, volumes and platform. |
| `ConstructsLambdaFunction.UvLocalBundling.constructor` | cdk/stacks/constructs/python_lambda_function.py:155-157 | Stores the package name. |
| `ConstructsLambdaFunction.UvLocalBundling.TryBundle` | cdk/stacks/constructs/python_lambda_function.py:159-188 | True iff the host is Linux on `x86_64`, `/tmp` is real, and the build exits 0. False iff a guard fails or the build exits non-zero. The error propagates iff the guards pass and the build cannot start. |

## Left out

- The CDK objects (`aws_lambda.Function`, `Code.from_asset`, `BundlingOptions`, `DockerImage`, `DockerVolume`) and jsii are foreign library objects. They are represented only by the values passed to them (`UvRecipe.AssetCode`, `UvRecipe.BundlingOptions`, `FunctionProps`).
- The `uv cache dir` probe in both revisions is process I/O. Its outcome is the parameter `cacheDir`: None stands for the `RuntimeError`/`FileNotFoundError` it catches. The model does not include other OS errors, which would propagate from the probe.
- Subprocesses, `sys.platform`, `platform.machine()`, `os.path.islink` and `os.environ` are host facts, given as the `Host` value and the `run` function.
- Logging is left out. The one log message whose emission the arguments alone decide is the missing-digest warning (cdk/python_lambda_function.py:126-130). It is kept as the `warned` flag of validation, both on its result and on the unknown-architecture error that follows the message.
- `python_docker_lambda_code` and `PythonDockerLambdaFunction` copy files, delete directories and write a Dockerfile, so they are not part of this model.
- The stack and app files, the integration and smoke tests, and the demo handlers are not part of this model.
- The first revision's `**kwargs` forwarded to `aws_lambda.Function` are left out, and so is the `TypeError` Python raises when they repeat a keyword that is passed explicitly. The second revision's remaining keyword arguments are kept as the map `FunctionProps.extra`. The model checks them only for `code` and `id`, which clash with arguments the construct itself passes. It does not check for keywords that `aws_lambda.Function` does not accept, since that list belongs to CDK. It also does not exclude `scope`, `construct_id`, `package_name` and `handler`, which Python binds to the construct's own parameters, so they never reach `kwargs`.
- Assertions are modelled as errors that are always raised. The model does not cover that `python -O` turns them off.
- The order of dictionary entries is not modelled; maps stand for dicts.
- `Shlex.ReadWord` reads only the quoting `shlex.quote` produces: safe characters, plus single and double quotes without `$`, backquote or backslash. It is not a complete POSIX shell parser.
- `ConstructsLambdaFunction.KwargCheck` has the value's name as its only attribute. A truthy object without `name` stands for the `AttributeError` case.

## Findings

| source | as written | input that shows it | evidently intended | confidence | as-written member | corrected member |
|---|---|---|---|---|---|---|
| cdk/python_lambda_function.py:145-146 | `python_lambda_code` computes the default handler into a local that is never used. `PythonLambdaFunction` passes the caller's `handler` to `aws_lambda.Function` (line 209). | `PythonLambdaFunction(..., package_name="demo-lambda1", path="..")` with no handler: CDK receives `handler=None` | the default `demo_lambda1.lambda_function.lambda_handler` reaches CDK, as in cdk/stacks/constructs/python_lambda_function.py:101 and 146 | not executed | `LambdaFunction.PythonLambdaFunctionAsWritten` | `LambdaFunction.PythonLambdaFunction` |

`LambdaFunction.DefaultHandlerDropped` states the discrepancy for the input above.
