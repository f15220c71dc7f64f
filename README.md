# serverless-shell: the environment composer and the shell launcher

This project models the core of the Serverless Framework plugin `sls shell`,
`index.js`. The plugin rebuilds the environment a deployed AWS Lambda
function would see. It writes that environment onto the current process's
environment and then spawns an interactive shell or interpreter that
inherits it.

The model has two parts.

- **Environment composer** (`loadEnvVars`). It starts from a fixed baseline
  that imitates the Lambda runtime. Three layers follow: the provider's
  `environment`, the function's `environment`, and the cached AWS session
  credentials. Each layer overwrites the one before it key by key, as
  `Object.assign` does onto `process.env`. The baseline has three fallback
  chains. Memory comes from the function, else the provider, else 1024.
  Region comes from `--region`, else the provider's region, and is written
  to both region keys. The function lookup never fails.
- **Shell launcher** (`shell`). It picks the executable by first match:
  `--shell`, then `custom.shellBinary`, then `node` for a `nodejs*` runtime,
  then the runtime string. It logs one line unless `--quiet`, and it spawns
  the executable with no arguments and the composed environment.
  `custom()` merges the Python packaging defaults.

Files:

- `wrappers.dfy`: `Option`.
- `values.dfy` (module `JsValues`): configuration values, `Number(...)`,
  and `Object.assign` as a left fold (`Assign`). Beside it sits an
  independent "last writer wins" definition (`LastDefined`), and lemmas
  prove the two agree.
- `config.dfy` (module `Config`): typed configuration records. Optional
  fields replace lodash's `_.get` and `_.has`. `service.getFunction` is a
  partial map lookup.
- `composer.dfy` (module `Composer`): the baseline, the two fallback chains,
  the credential overlay, the composed environment, and its properties.
- `launcher.dfy` (module `Launcher`): the binary-selection chain. An
  independent "first match" definition sits beside it, with a lemma that
  the two agree.
- `plugin.dfy` (module `LocalShell`): the plugin object as a class. It has
  the imperative `LoadEnvVars`, which sets the plugin's `functionObj` (the source's `options.functionObj`), fills the
  overlay key by key and assigns onto the process environment. It also has
  `Shell` and `Custom`. `process.env` is the field of a `Process` object.

On these edges the model follows the code:

- When neither `--region` nor a provider region is set, the code still
  writes `AWS_REGION` and `AWS_DEFAULT_REGION`, with value `undefined`. In
  the model both keys are present and hold `Undefined`; they are not
  omitted.
- An unknown function leaves `AWS_LAMBDA_FUNCTION_NAME` present with value
  `undefined`. The key is not removed.
- When the cached credentials lack a field (long-lived keys have no session
  token), the overlay still writes that key, with value `undefined`, over
  whatever the lower layers held. The model keeps `Undefined` there.
- `custom.shellBinary` wins whenever the key exists, even when its value is
  falsy, because the code tests it with `_.has`.
- The memory chain rejects only 0 and NaN. A negative size passes through,
  so the model proves the result is non-zero, not positive.

## Model

| member | source | states |
|---|---|---|
| JsValues.ToNumber | index.js:78-79 | `Number(v)`: `undefined` is NaN, `null` is 0, `true`/`false` are 1/0, a number is itself, and a string is finite exactly when it is all decimal digits, with their decimal value |
| JsValues.Assign | index.js:122-128 | `Object.assign` never drops a key of the target, and the last source's keys end up with that source's values |
| JsValues.LastDefined | index.js:122-128 | reference "last writer wins": a value is found exactly when the target or some source has the key |
| JsValues.AssignSnoc | index.js:122-128 | assigning one more source equals merging that source into the result of the sources before it |
| JsValues.AssignIsLastWriter | index.js:122-128 | for every key, `Object.assign` gives the value of the last source that defines the key, and otherwise the target's own value or absence |
| JsValues.AssignFourLayers | index.js:122-128 | last writer wins, spelled out for four sources over a target |
| Config.GetFunction | index.js:70-71 | the lookup succeeds exactly when a name is given and is a key of `service.functions`, and then returns that entry |
| Composer.SelectedFunction | index.js:68-75 | a failed lookup gives the empty function configuration; a successful one gives the looked-up configuration |
| Composer.MemorySize | index.js:78-80 | the function's size if it converts to a non-zero number, else the provider's if it does, else 1024; never 0 or NaN |
| Composer.Region | index.js:88-93 | a non-empty `--region` wins; otherwise the provider region, or `undefined` when there is none |
| Composer.Baseline | index.js:82-102 | exactly the twelve baseline keys; the seven fixed ones hold their literals; both region keys are equal and come from the region chain; function name, log group and memory size come from the selected function |
| Composer.ProviderEnvironment | index.js:104 | the provider's `environment`, or `{}` when it is absent |
| Composer.FunctionEnvironment | index.js:105 | the selected function's `environment`, or `{}` when it is absent |
| Composer.Layers | index.js:122-128 | four layers in assignment order; the first has exactly the baseline keys; the last is non-empty exactly when the overlay applies |
| Composer.Compose | index.js:122-128 | writing onto the process environment keeps every ambient key, and the overlay's keys end up with the overlay's values |
| Composer.CredentialOverlay | index.js:107-120 | non-empty exactly when the provider is `aws` and has cached credentials; then it sets exactly the four credential keys to the credential fields; it never touches `AWS_DEFAULT_REGION` |
| Composer.ComposeLastLayerWins | index.js:104-128 | every composed key holds the value of the last of baseline, provider env, function env and overlay that defines it, else its ambient value or absence; a missing `environment` counts as `{}` |
| Composer.ComposeKeepsAmbientKeys | index.js:122-128 | a key that no layer names (no baseline key, not in the overlay that applies, not in either env layer) keeps its prior value in the process environment, or stays absent |
| Composer.NoOverlayKeepsAmbientCredentials | index.js:107-128 | when the overlay does not apply (provider not `aws`, or no cached credentials), an ambient `AWS_ACCESS_KEY_ID`, `AWS_SECRET_ACCESS_KEY` or `AWS_SESSION_TOKEN` is untouched unless an env layer names it |
| Composer.ComposeKeepsBaselineKeys | index.js:82-102 | every baseline key is present after composition |
| Composer.ComposeKeepsFixedBaseline | index.js:84-101 | a fixed baseline key keeps its literal unless the provider or function environment names it |
| Composer.ComposeMemorySize | index.js:78-99 | unless an env layer names it, the composed memory size is the fallback chain's value and is not 0 |
| Composer.ComposeFunctionName | index.js:77-98 | unless an env layer names it, the composed function name is the selected function's name (`undefined` when it has none) |
| Composer.ComposeRegionsAgree | index.js:88-93 | with no overlay and no env layer naming them, both region keys are present and equal to the region chain's value |
| Composer.ComposeCredentialOverlay | index.js:107-128 | with an overlay, the four credential keys hold the cached credential fields (`undefined` for a missing field) whatever the lower layers say; `AWS_DEFAULT_REGION` holds the function env's value, else the provider env's, else the region chain's |
| Composer.OverlayMissingTokenIsUndefined | index.js:115-116 | cached credentials without a session token still write `AWS_SESSION_TOKEN`, as `undefined` |
| Composer.OverlayRegionsDiverge | index.js:88-120 | after an overlay, `AWS_REGION` and `AWS_DEFAULT_REGION` can differ: credentials in us-west-2 over a provider in us-east-1 |
| Composer.ComposeFunctionNotFound | index.js:68-105 | an unknown function raises nothing: the function layer is empty and all baseline keys are present; unless the provider environment names them, the name is `undefined`, the log group is named for no function, and memory falls to the provider size or 1024 |
| Composer.MemorySizeExamples | index.js:78-80 | provider 512 gives 512, nothing gives 1024, function 256 over provider 512 gives 256 (also as the string "256"), 0 over a non-numeric string gives 1024 |
| Composer.RegionExamples | index.js:88-93 | `--region us-west-2` beats provider us-east-1; without it, the provider's eu-west-1; an empty option falls through; nothing gives `undefined` |
| Composer.PrecedenceExample | index.js:104-128 | provider `{FOO: a, BAR: b}` under function `{FOO: c}` gives `FOO=c` and `BAR=b` |
| Launcher.SelectShellBinary | index.js:134-143 | a truthy `--shell` is chosen; the choice fails exactly when there is no truthy `--shell`, no `custom.shellBinary` and no runtime |
| Launcher.CustomShellBinary | index.js:137-138 | present exactly when `custom` exists and has the `shellBinary` key, with that key's value |
| Launcher.SpawnMessage | index.js:145 | the line is "Spawning ", then the binary, then "..." |
| Launcher.FirstMatch | index.js:134-143 | the result is absent exactly when every candidate is; otherwise it is the first present candidate |
| Launcher.SelectShellBinaryIsFirstMatch | index.js:134-143 | the plugin's if/else chain equals the first match over its four rules in order |
| Launcher.ExplicitShellWins | index.js:135-136 | an explicit non-empty `--shell` beats `custom.shellBinary` and runtime inference |
| Launcher.CustomShellBinaryWins | index.js:137-138 | a configured `custom.shellBinary` is used even when it is the empty string, when `--shell` is absent or empty |
| Launcher.RuntimeExamples | index.js:139-142 | `nodejs18.x` spawns `node`, `python3.11` spawns itself, `--shell bash` beats a Node runtime |
| LocalShell.ServerlessLocalShell.LoadEnvVars | index.js:67-129 | `options.functionObj` becomes the selected function or `{}`; the process environment becomes the ambient one composed with the four layers |
| LocalShell.ServerlessLocalShell.Shell | index.js:133-156 | spawns the selected executable with no arguments and the current process environment, or nothing when selection throws; logs "Spawning X..." exactly when something is spawned and `--quiet` is not set |
| LocalShell.ServerlessLocalShell.ShellCommand | index.js:57-61 | after the `shell:shell` hook, the child is the selected binary with no arguments and inherits exactly the composed environment, and the "Spawning" line is logged exactly when it is spawned and `--quiet` is not set |
| LocalShell.NodeShellScenario | index.js:57-61 | a `nodejs18.x` provider with no `--shell` and no `custom.shellBinary` spawns `node` with no arguments and the composed environment |
| LocalShell.PythonRequirements | index.js:166-167 | `custom.pythonRequirements` when `custom` and it exist, otherwise `{}` |
| LocalShell.ServerlessLocalShell.Custom | index.js:162-168 | the keys are `zip`, `cleanupZipHelper` and those of `custom.pythonRequirements`; its values win; otherwise `zip=false` and `cleanupZipHelper=true` |

## Left out

- Node's coercion of values assigned into `process.env` is not encoded. Node turns `undefined` into the string `"undefined"` and the memory size into a decimal string. The model keeps the `Value` that was assigned.
- `JsValues.ToNumber` reads strings as unsigned decimal integers only. It does not model whitespace trimming, signs, fractions, exponents, hex, octal or binary prefixes, or `Infinity`. Fractional numbers are not modelled at all.
- `spawnSync` with inherited stdio and `shell: true`, and the child's exit status, are process I/O. The model returns the launch as a value: the executable, no arguments, and the environment.
- `cli.log` output and the `SLS_DEBUG` dump of `process.env` are logging. Only the presence and text of the "Spawning" line are modelled.
- The constructor's command and option declarations and the bluebird promise chain are framework glue. `ShellCommand` models only the order: `loadEnvVars`, then `shell`.
- `serverless.getProvider` is a framework call. The model takes its result as a `ProviderPlugin` record: the log-group naming function, left uninterpreted, and the cached credentials. When the provider is `aws`, `getProvider('aws')` returns the same plugin, so a single record stands for both calls.
- `service.getFunction` is modelled as a lookup in `service.functions`, with the framework's "not found" exception as `None`. The framework's own code is not part of this model.
- Configuration values are typed records. A non-string `custom.shellBinary`, a non-object `pythonRequirements`, and a `provider.name` that is not a string are not modelled.
- Determinism of composition needs no lemma here, because every Dafny function is deterministic.
- `options.functionObj` is a field of the framework's shared `options` object, so other code holding `options` can see it. The model keeps it as a field of the plugin and does not capture that aliasing; nothing in this core reads it back.
- The `ProviderPlugin` record is fixed when the plugin is constructed. It stands for the provider's state when the `shell:shell` hook runs, which is when the source reads the naming convention and the cached credentials. Credentials cached between construction and the hook cannot be represented.
