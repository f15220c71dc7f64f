/**
 * The environment composer: a synthetic Lambda runtime baseline, then the
 * provider's `environment`, then the function's `environment`, then the
 * cached AWS session credentials, each layer overwriting the one before it
 * key by key and all of them written onto the ambient process environment.
 */
module Composer {
  import opened Wrappers
  import opened JsValues
  import opened Config

  // Keys of the synthetic baseline.
  const LangKey := "LANG"
  const LibraryPathKey := "LD_LIBRARY_PATH"
  const TaskRootKey := "LAMBDA_TASK_ROOT"
  const RuntimeDirKey := "LAMBDA_RUNTIME_DIR"
  const RegionKey := "AWS_REGION"
  const DefaultRegionKey := "AWS_DEFAULT_REGION"
  const LogGroupKey := "AWS_LAMBDA_LOG_GROUP_NAME"
  const LogStreamKey := "AWS_LAMBDA_LOG_STREAM_NAME"
  const FunctionNameKey := "AWS_LAMBDA_FUNCTION_NAME"
  const MemorySizeKey := "AWS_LAMBDA_FUNCTION_MEMORY_SIZE"
  const FunctionVersionKey := "AWS_LAMBDA_FUNCTION_VERSION"
  const NodePathKey := "NODE_PATH"

  // Keys of the credential overlay (besides `RegionKey`).
  const AccessKeyIdKey := "AWS_ACCESS_KEY_ID"
  const SecretAccessKeyKey := "AWS_SECRET_ACCESS_KEY"
  const SessionTokenKey := "AWS_SESSION_TOKEN"

  /** The baseline entries whose values do not depend on any input. */
  const FixedBaseline: Env := map[
    LangKey := Str("en_US.UTF-8"),
    LibraryPathKey := Str("/usr/local/lib64/node-v4.3.x/lib:/lib64:/usr/lib64:/var/runtime:/var/runtime/lib:/var/task:/var/task/lib"),
    TaskRootKey := Str("/var/task"),
    RuntimeDirKey := Str("/var/runtime"),
    LogStreamKey := Str("2016/12/02/[$LATEST]f77ff5e4026c45bda9a9ebcec6bc9cad"),
    FunctionVersionKey := Str("$LATEST"),
    NodePathKey := Str("/var/runtime:/var/task:/var/runtime/node_modules")
  ]

  const BaselineKeys: set<string> :=
    FixedBaseline.Keys + {RegionKey, DefaultRegionKey, LogGroupKey, FunctionNameKey, MemorySizeKey}

  const CredentialKeys: set<string> := {AccessKeyIdKey, SecretAccessKeyKey, SessionTokenKey, RegionKey}

  /**
   * The function configuration `loadEnvVars` works with: the looked-up one,
   * or `{}` when the lookup throws.
   */
  function SelectedFunction(service: Service, options: Options): (f: FunctionConfig)
    ensures GetFunction(service, options.functionName).None? ==> f == EmptyFunction
    ensures GetFunction(service, options.functionName).Some? ==>
              f == GetFunction(service, options.functionName).value
  {
    GetFunction(service, options.functionName).GetOr(EmptyFunction)
  }

  /**
   * `Number(function memorySize) || Number(provider memorySize) || 1024`.
   * The result is never 0 and never NaN.
   */
  function MemorySize(functionMemory: Value, providerMemory: Value): (m: int)
    ensures m != 0
    ensures NumberTruthy(ToNumber(functionMemory)) ==> m == ToNumber(functionMemory).n
    ensures !NumberTruthy(ToNumber(functionMemory)) && NumberTruthy(ToNumber(providerMemory)) ==>
              m == ToNumber(providerMemory).n
    ensures !NumberTruthy(ToNumber(functionMemory)) && !NumberTruthy(ToNumber(providerMemory)) ==>
              m == 1024
  {
    var f := ToNumber(functionMemory);
    if NumberTruthy(f) then f.n
    else
      var p := ToNumber(providerMemory);
      if NumberTruthy(p) then p.n else 1024
  }

  /** `options.region || service.provider.region`. */
  function Region(optionRegion: Option<string>, providerRegion: Option<string>): (v: Value)
    ensures TextTruthy(optionRegion) ==> v == Str(optionRegion.value)
    ensures !TextTruthy(optionRegion) ==> v == OptionalText(providerRegion)
  {
    if TextTruthy(optionRegion) then Str(optionRegion.value) else OptionalText(providerRegion)
  }

  /** The synthetic runtime baseline for function configuration `fn`. */
  function Baseline(fn: FunctionConfig, service: Service, options: Options,
                    logGroupName: Option<string> -> string): (b: Env)
    ensures b.Keys == BaselineKeys
    ensures forall k :: k in FixedBaseline ==> b[k] == FixedBaseline[k]
    ensures b[RegionKey] == b[DefaultRegionKey] == Region(options.region, service.provider.region)
    ensures b[FunctionNameKey] == OptionalText(fn.name)
    ensures b[LogGroupKey] == Str(logGroupName(fn.name))
    ensures b[MemorySizeKey] == Num(MemorySize(fn.memorySize, service.provider.memorySize))
  {
    var region := Region(options.region, service.provider.region);
    FixedBaseline + map[
      RegionKey := region,
      DefaultRegionKey := region,
      LogGroupKey := Str(logGroupName(fn.name)),
      FunctionNameKey := OptionalText(fn.name),
      MemorySizeKey := Num(MemorySize(fn.memorySize, service.provider.memorySize))
    ]
  }

  /** `service.provider.environment || {}`. */
  function ProviderEnvironment(service: Service): (e: Env)
    ensures service.provider.environment.None? ==> e == map[]
    ensures service.provider.environment.Some? ==> e == service.provider.environment.value
  {
    service.provider.environment.GetOr(map[])
  }

  /** `functionObj.environment || {}`. */
  function FunctionEnvironment(fn: FunctionConfig): (e: Env)
    ensures fn.environment.None? ==> e == map[]
    ensures fn.environment.Some? ==> e == fn.environment.value
  {
    fn.environment.GetOr(map[])
  }

  /**
   * The credential overlay: empty unless the provider is `aws` and it has
   * cached credentials; then exactly the four credential keys.
   */
  function CredentialOverlay(providerName: string, cached: Option<Credentials>): (o: Env)
    ensures o != map[] <==> providerName == "aws" && cached.Some?
    ensures o != map[] ==> o.Keys == CredentialKeys
    ensures o != map[] ==>
              && o[AccessKeyIdKey] == OptionalText(cached.value.accessKeyId)
              && o[SecretAccessKeyKey] == OptionalText(cached.value.secretAccessKey)
              && o[SessionTokenKey] == OptionalText(cached.value.sessionToken)
              && o[RegionKey] == OptionalText(cached.value.region)
  {
    if providerName == "aws" && cached.Some? then
      var c := cached.value;
      var o := map[
        AccessKeyIdKey := OptionalText(c.accessKeyId),
        SecretAccessKeyKey := OptionalText(c.secretAccessKey),
        SessionTokenKey := OptionalText(c.sessionToken),
        RegionKey := OptionalText(c.region)
      ];
      assert AccessKeyIdKey in o;
      o
    else map[]
  }

  /** The four layers, lowest precedence first. */
  function Layers(service: Service, options: Options, plugin: ProviderPlugin): (ls: seq<Env>)
    ensures |ls| == 4
    ensures ls[0].Keys == BaselineKeys
    ensures ls[3] != map[] <==> service.provider.name == "aws" && plugin.cachedCredentials.Some?
  {
    var fn := SelectedFunction(service, options);
    [ Baseline(fn, service, options, plugin.logGroupName),
      ProviderEnvironment(service),
      FunctionEnvironment(fn),
      CredentialOverlay(service.provider.name, plugin.cachedCredentials) ]
  }

  /** The process environment after `loadEnvVars`, from the ambient one. */
  function Compose(ambient: Env, service: Service, options: Options, plugin: ProviderPlugin): (c: Env)
    ensures ambient.Keys <= c.Keys
    ensures forall k :: k in CredentialOverlay(service.provider.name, plugin.cachedCredentials) ==>
              k in c && c[k] == CredentialOverlay(service.provider.name, plugin.cachedCredentials)[k]
  {
    Assign(ambient, Layers(service, options, plugin))
  }

  /**
   * Layer precedence: every key has the value of the last of baseline,
   * provider environment, function environment and credential overlay that
   * defines it, and its ambient value (or absence) when none does.
   */
  lemma ComposeLastLayerWins(ambient: Env, service: Service, options: Options,
                             plugin: ProviderPlugin, k: string)
    ensures
      var fn := SelectedFunction(service, options);
      var b := Baseline(fn, service, options, plugin.logGroupName);
      var p := ProviderEnvironment(service);
      var f := FunctionEnvironment(fn);
      var o := CredentialOverlay(service.provider.name, plugin.cachedCredentials);
      Get(Compose(ambient, service, options, plugin), k) ==
        if k in o then Some(o[k])
        else if k in f then Some(f[k])
        else if k in p then Some(p[k])
        else if k in b then Some(b[k])
        else Get(ambient, k)
  {
    var fn := SelectedFunction(service, options);
    AssignFourLayers(ambient, Baseline(fn, service, options, plugin.logGroupName),
                     ProviderEnvironment(service), FunctionEnvironment(fn),
                     CredentialOverlay(service.provider.name, plugin.cachedCredentials), k);
  }

  /**
   * Nothing else changes: a key that no layer can name keeps its ambient
   * value, or stays absent.
   */
  lemma ComposeKeepsAmbientKeys(ambient: Env, service: Service, options: Options,
                                plugin: ProviderPlugin, k: string)
    requires k !in BaselineKeys
    requires k !in CredentialOverlay(service.provider.name, plugin.cachedCredentials)
    requires k !in ProviderEnvironment(service)
    requires k !in FunctionEnvironment(SelectedFunction(service, options))
    ensures Get(Compose(ambient, service, options, plugin), k) == Get(ambient, k)
  {
    ComposeLastLayerWins(ambient, service, options, plugin, k);
  }

  /**
   * Absent credentials leave the ambient ones untouched: without an overlay,
   * a prior access key, secret key or session token keeps its value (or
   * stays absent) unless an environment layer names it.
   */
  lemma NoOverlayKeepsAmbientCredentials(ambient: Env, service: Service, options: Options,
                                      plugin: ProviderPlugin, k: string)
    requires !(service.provider.name == "aws" && plugin.cachedCredentials.Some?)
    requires k in {AccessKeyIdKey, SecretAccessKeyKey, SessionTokenKey}
    requires k !in ProviderEnvironment(service)
    requires k !in FunctionEnvironment(SelectedFunction(service, options))
    ensures Get(Compose(ambient, service, options, plugin), k) == Get(ambient, k)
  {
    ComposeKeepsAmbientKeys(ambient, service, options, plugin, k);
  }

  /** The baseline is never lost: every baseline key is present afterwards. */
  lemma ComposeKeepsBaselineKeys(ambient: Env, service: Service, options: Options, plugin: ProviderPlugin)
    ensures BaselineKeys <= Compose(ambient, service, options, plugin).Keys
  {
    forall k | k in BaselineKeys
      ensures k in Compose(ambient, service, options, plugin)
    {
      ComposeLastLayerWins(ambient, service, options, plugin, k);
    }
  }

  /**
   * The fixed baseline entries keep their literal values unless the provider
   * or function environment names them (the overlay never does).
   */
  lemma ComposeKeepsFixedBaseline(ambient: Env, service: Service, options: Options,
                                  plugin: ProviderPlugin, k: string)
    requires k in FixedBaseline && k !in ProviderEnvironment(service)
    requires k !in FunctionEnvironment(SelectedFunction(service, options))
    ensures
      var c := Compose(ambient, service, options, plugin);
      k in c && c[k] == FixedBaseline[k]
  {
    assert k !in CredentialOverlay(service.provider.name, plugin.cachedCredentials);
    ComposeLastLayerWins(ambient, service, options, plugin, k);
  }

  /**
   * The composed memory size is the fallback chain's, never 0, unless an
   * environment layer names the key.
   */
  lemma ComposeMemorySize(ambient: Env, service: Service, options: Options, plugin: ProviderPlugin)
    requires MemorySizeKey !in ProviderEnvironment(service)
    requires MemorySizeKey !in FunctionEnvironment(SelectedFunction(service, options))
    ensures
      var c := Compose(ambient, service, options, plugin);
      var fn := SelectedFunction(service, options);
      && MemorySizeKey in c
      && c[MemorySizeKey] == Num(MemorySize(fn.memorySize, service.provider.memorySize))
      && c[MemorySizeKey] != Num(0)
  {
    assert MemorySizeKey !in CredentialOverlay(service.provider.name, plugin.cachedCredentials);
    ComposeLastLayerWins(ambient, service, options, plugin, MemorySizeKey);
  }

  /** The composed function name is the selected function's, unless a layer names the key. */
  lemma ComposeFunctionName(ambient: Env, service: Service, options: Options, plugin: ProviderPlugin)
    requires FunctionNameKey !in ProviderEnvironment(service)
    requires FunctionNameKey !in FunctionEnvironment(SelectedFunction(service, options))
    ensures
      var c := Compose(ambient, service, options, plugin);
      FunctionNameKey in c && c[FunctionNameKey] == OptionalText(SelectedFunction(service, options).name)
  {
    assert FunctionNameKey !in CredentialOverlay(service.provider.name, plugin.cachedCredentials);
    ComposeLastLayerWins(ambient, service, options, plugin, FunctionNameKey);
  }

  /**
   * Without an overlay, and unless an environment layer names them, both
   * region keys hold the same value: the CLI region, else the provider's.
   */
  lemma ComposeRegionsAgree(ambient: Env, service: Service, options: Options, plugin: ProviderPlugin)
    requires !(service.provider.name == "aws" && plugin.cachedCredentials.Some?)
    requires RegionKey !in ProviderEnvironment(service) && DefaultRegionKey !in ProviderEnvironment(service)
    requires
      var f := FunctionEnvironment(SelectedFunction(service, options));
      RegionKey !in f && DefaultRegionKey !in f
    ensures
      var c := Compose(ambient, service, options, plugin);
      && RegionKey in c && DefaultRegionKey in c
      && c[RegionKey] == c[DefaultRegionKey] == Region(options.region, service.provider.region)
  {
    ComposeLastLayerWins(ambient, service, options, plugin, RegionKey);
    ComposeLastLayerWins(ambient, service, options, plugin, DefaultRegionKey);
  }

  /**
   * With the overlay, the four credential keys come from the cached
   * credentials whatever the other layers say, while `AWS_DEFAULT_REGION`
   * is left to the layers below.
   */
  lemma ComposeCredentialOverlay(ambient: Env, service: Service, options: Options, plugin: ProviderPlugin)
    requires service.provider.name == "aws" && plugin.cachedCredentials.Some?
    ensures
      var c := Compose(ambient, service, options, plugin);
      var creds := plugin.cachedCredentials.value;
      var p := ProviderEnvironment(service);
      var f := FunctionEnvironment(SelectedFunction(service, options));
      && CredentialKeys <= c.Keys
      && c[AccessKeyIdKey] == OptionalText(creds.accessKeyId)
      && c[SecretAccessKeyKey] == OptionalText(creds.secretAccessKey)
      && c[SessionTokenKey] == OptionalText(creds.sessionToken)
      && c[RegionKey] == OptionalText(creds.region)
      && Get(c, DefaultRegionKey) ==
           if DefaultRegionKey in f then Some(f[DefaultRegionKey])
           else if DefaultRegionKey in p then Some(p[DefaultRegionKey])
           else Some(Region(options.region, service.provider.region))
  {
    assert DefaultRegionKey !in CredentialOverlay(service.provider.name, plugin.cachedCredentials);
    ComposeLastLayerWins(ambient, service, options, plugin, AccessKeyIdKey);
    ComposeLastLayerWins(ambient, service, options, plugin, SecretAccessKeyKey);
    ComposeLastLayerWins(ambient, service, options, plugin, SessionTokenKey);
    ComposeLastLayerWins(ambient, service, options, plugin, RegionKey);
    ComposeLastLayerWins(ambient, service, options, plugin, DefaultRegionKey);
  }

  /**
   * Cached credentials without a session token (long-lived keys) still write
   * the key: `AWS_SESSION_TOKEN` becomes `undefined`.
   */
  lemma OverlayMissingTokenIsUndefined(ambient: Env, service: Service, options: Options,
                                       plugin: ProviderPlugin)
    requires service.provider.name == "aws" && plugin.cachedCredentials.Some?
    requires plugin.cachedCredentials.value.sessionToken == None
    ensures
      var c := Compose(ambient, service, options, plugin);
      SessionTokenKey in c && c[SessionTokenKey] == Undefined
  {
    ComposeCredentialOverlay(ambient, service, options, plugin);
  }

  /** So after an overlay the two region keys can disagree. */
  lemma OverlayRegionsDiverge(ambient: Env, service: Service, options: Options, plugin: ProviderPlugin)
    requires service.provider.name == "aws" && plugin.cachedCredentials.Some?
    requires plugin.cachedCredentials.value.region == Some("us-west-2")
    requires options.region == None && service.provider.region == Some("us-east-1")
    requires DefaultRegionKey !in ProviderEnvironment(service)
    requires DefaultRegionKey !in FunctionEnvironment(SelectedFunction(service, options))
    ensures
      var c := Compose(ambient, service, options, plugin);
      && RegionKey in c && DefaultRegionKey in c
      && c[RegionKey] == Str("us-west-2") && c[DefaultRegionKey] == Str("us-east-1")
  {
    ComposeCredentialOverlay(ambient, service, options, plugin);
  }

  /**
   * An unknown function is not an error: the function layer is empty, the
   * name is `undefined`, memory falls back to the provider or 1024, and the
   * whole baseline is still there.
   */
  lemma ComposeFunctionNotFound(ambient: Env, service: Service, options: Options, plugin: ProviderPlugin)
    requires GetFunction(service, options.functionName).None?
    ensures FunctionEnvironment(SelectedFunction(service, options)) == map[]
    ensures
      var c := Compose(ambient, service, options, plugin);
      var p := ProviderEnvironment(service);
      && BaselineKeys <= c.Keys
      && (FunctionNameKey !in p ==> c[FunctionNameKey] == Undefined)
      && (LogGroupKey !in p ==> c[LogGroupKey] == Str(plugin.logGroupName(None)))
      && (MemorySizeKey !in p ==>
            c[MemorySizeKey] ==
              Num(if NumberTruthy(ToNumber(service.provider.memorySize))
                  then ToNumber(service.provider.memorySize).n else 1024))
  {
    ComposeKeepsBaselineKeys(ambient, service, options, plugin);
    var p := ProviderEnvironment(service);
    if FunctionNameKey !in p {
      ComposeFunctionName(ambient, service, options, plugin);
    }
    if MemorySizeKey !in p {
      ComposeMemorySize(ambient, service, options, plugin);
    }
    assert LogGroupKey !in CredentialOverlay(service.provider.name, plugin.cachedCredentials);
    ComposeLastLayerWins(ambient, service, options, plugin, LogGroupKey);
  }

  /** The memory size examples: 512 from the provider, the 1024 default, 256 over 512. */
  lemma MemorySizeExamples()
    ensures MemorySize(Undefined, Num(512)) == 512
    ensures MemorySize(Undefined, Undefined) == 1024
    ensures MemorySize(Num(256), Num(512)) == 256
    ensures MemorySize(Str("256"), Num(512)) == 256
    ensures MemorySize(Num(0), Str("abc")) == 1024
  {
    assert "256"[..2] == "25" && "25"[..1] == "2" && "2"[..0] == "";
    assert DecimalValue("2") == 2;
    assert DecimalValue("25") == 25;
    assert DecimalValue("256") == 256;
  }

  /** The region examples: the CLI option wins; else the provider's region. */
  lemma RegionExamples()
    ensures Region(Some("us-west-2"), Some("us-east-1")) == Str("us-west-2")
    ensures Region(None, Some("eu-west-1")) == Str("eu-west-1")
    ensures Region(Some(""), Some("eu-west-1")) == Str("eu-west-1")
    ensures Region(None, None) == Undefined
  {
  }

  /** Provider `{FOO: a, BAR: b}` under function `{FOO: c}` gives `FOO=c, BAR=b`. */
  lemma PrecedenceExample(ambient: Env, service: Service, options: Options, plugin: ProviderPlugin)
    requires service.provider.environment == Some(map["FOO" := Str("a"), "BAR" := Str("b")])
    requires SelectedFunction(service, options).environment == Some(map["FOO" := Str("c")])
    ensures
      var c := Compose(ambient, service, options, plugin);
      "FOO" in c && "BAR" in c && c["FOO"] == Str("c") && c["BAR"] == Str("b")
  {
    var o := CredentialOverlay(service.provider.name, plugin.cachedCredentials);
    assert "FOO" !in o && "BAR" !in o;
    ComposeLastLayerWins(ambient, service, options, plugin, "FOO");
    ComposeLastLayerWins(ambient, service, options, plugin, "BAR");
  }
}
