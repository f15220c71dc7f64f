/**
 * The plugin object itself: `loadEnvVars` writes the composed environment
 * onto the process environment, `shell` decides what to spawn, and `custom`
 * reads the Python packaging settings with their defaults.
 */
module LocalShell {
  import opened Wrappers
  import opened JsValues
  import opened Config
  import opened Composer
  import opened Launcher

  /** The running process; `env` is `process.env`. */
  class Process {
    var env: Env

    constructor (env: Env)
      ensures this.env == env
    {
      this.env := env;
    }
  }

  class ServerlessLocalShell {
    const service: Service
    const options: Options
    /** `serverless.getProvider(service.provider.name)`. */
    const provider: ProviderPlugin
    /** `options.functionObj`: unset until `LoadEnvVars` runs. */
    var functionObj: Option<FunctionConfig>

    constructor (service: Service, options: Options, provider: ProviderPlugin)
      ensures this.service == service && this.options == options
      ensures this.provider == provider && functionObj == None
    {
      this.service := service;
      this.options := options;
      this.provider := provider;
      functionObj := None;
    }

    /**
     * `loadEnvVars`: records the selected function (or `{}` when the lookup
     * fails), then assigns baseline, provider environment, function
     * environment and credential overlay onto the process environment.
     */
    method LoadEnvVars(proc: Process)
      modifies this`functionObj, proc
      ensures functionObj == Some(SelectedFunction(service, options))
      ensures proc.env == Compose(old(proc.env), service, options, provider)
    {
      var found := GetFunction(service, options.functionName);
      if found.Some? {
        functionObj := found;
      } else {
        // the lookup threw: skip, using an empty function
        functionObj := Some(EmptyFunction);
      }
      var fn := functionObj.value;

      var defaults := Baseline(fn, service, options, provider.logGroupName);
      var providerEnv := ProviderEnvironment(service);
      var functionEnv := FunctionEnvironment(fn);

      var creds: Env := map[];
      if service.provider.name == "aws" {
        var cached := provider.cachedCredentials;
        if cached.Some? {
          creds := creds[AccessKeyIdKey := OptionalText(cached.value.accessKeyId)];
          creds := creds[SecretAccessKeyKey := OptionalText(cached.value.secretAccessKey)];
          creds := creds[SessionTokenKey := OptionalText(cached.value.sessionToken)];
          creds := creds[RegionKey := OptionalText(cached.value.region)];
        }
      }
      assert creds == CredentialOverlay(service.provider.name, provider.cachedCredentials);

      proc.env := Assign(proc.env, [defaults, providerEnv, functionEnv, creds]);
    }

    /**
     * `shell`: the executable to spawn with no arguments and the current
     * process environment, or `None` when choosing it throws; and the
     * "Spawning" line, logged unless `--quiet`.
     */
    method Shell(proc: Process) returns (spawned: Option<Launch>, logLine: Option<string>)
      ensures spawned.Some? <==>
                SelectShellBinary(options.shell, service.custom, service.provider.runtime).Some?
      ensures spawned.Some? ==>
                spawned.value == Launch(SelectShellBinary(options.shell, service.custom,
                                                          service.provider.runtime).value,
                                        [], proc.env)
      ensures logLine.Some? <==> spawned.Some? && !options.quiet
      ensures logLine.Some? ==> logLine.value == SpawnMessage(spawned.value.binary)
    {
      var shellBinary := SelectShellBinary(options.shell, service.custom, service.provider.runtime);
      if shellBinary.None? {
        return None, None;
      }
      logLine := None;
      if !options.quiet {
        logLine := Some(SpawnMessage(shellBinary.value));
      }
      spawned := Some(Launch(shellBinary.value, [], proc.env));
    }

    /**
     * The `shell:shell` hook: `loadEnvVars` and then `shell`, so the child
     * inherits the composed environment.
     */
    method ShellCommand(proc: Process) returns (spawned: Option<Launch>, logLine: Option<string>)
      modifies this`functionObj, proc
      ensures functionObj == Some(SelectedFunction(service, options))
      ensures proc.env == Compose(old(proc.env), service, options, provider)
      ensures spawned.Some? ==> spawned.value.env == proc.env && spawned.value.args == []
      ensures spawned.Some? <==>
                SelectShellBinary(options.shell, service.custom, service.provider.runtime).Some?
      ensures spawned.Some? ==>
                spawned.value.binary ==
                  SelectShellBinary(options.shell, service.custom, service.provider.runtime).value
      ensures logLine.Some? <==> spawned.Some? && !options.quiet
      ensures logLine.Some? ==> logLine.value == SpawnMessage(spawned.value.binary)
    {
      LoadEnvVars(proc);
      spawned, logLine := Shell(proc);
    }

    /**
     * `custom()`: `{zip: false, cleanupZipHelper: true}` overridden key by
     * key by `custom.pythonRequirements`, whose other keys pass through.
     */
    function Custom(): (r: Env)
      ensures r.Keys == {"zip", "cleanupZipHelper"} + PythonRequirements(service.custom).Keys
      ensures forall k :: k in PythonRequirements(service.custom) ==> r[k] == PythonRequirements(service.custom)[k]
      ensures "zip" !in PythonRequirements(service.custom) ==> r["zip"] == Bool(false)
      ensures "cleanupZipHelper" !in PythonRequirements(service.custom) ==> r["cleanupZipHelper"] == Bool(true)
    {
      var defaults: Env := map["zip" := Bool(false), "cleanupZipHelper" := Bool(true)];
      var requirements := PythonRequirements(service.custom);
      assert Assign(defaults, [requirements]) == defaults + requirements by {
        assert [requirements][1..] == [];
      }
      Assign(defaults, [requirements])
    }
  }

  /**
   * End to end: a `nodejs18.x` provider with no `--shell` and no
   * `custom.shellBinary` spawns `node` with no arguments and the composed
   * environment.
   */
  method NodeShellScenario(ambient: Env, service: Service, options: Options, provider: ProviderPlugin)
    returns (spawned: Option<Launch>, logLine: Option<string>)
    requires options.shell == None && CustomShellBinary(service.custom) == None
    requires service.provider.runtime == Some("nodejs18.x")
    ensures spawned == Some(Launch("node", [], Compose(ambient, service, options, provider)))
    ensures logLine.Some? <==> !options.quiet
  {
    var proc := new Process(ambient);
    var plugin := new ServerlessLocalShell(service, options, provider);
    assert "nodejs18.x"[..6] == "nodejs";
    spawned, logLine := plugin.ShellCommand(proc);
  }

  /** `service.custom && service.custom.pythonRequirements || {}`. */
  function PythonRequirements(custom: Option<CustomSection>): (r: Env)
    ensures custom.None? || custom.value.pythonRequirements.None? ==> r == map[]
    ensures custom.Some? && custom.value.pythonRequirements.Some? ==> r == custom.value.pythonRequirements.value
  {
    if custom.Some? then custom.value.pythonRequirements.GetOr(map[]) else map[]
  }
}
