/**
 * The configuration the plugin reads from the Serverless framework, as typed
 * records with optional fields in place of `_.get` / `_.has` probing.
 */
module Config {
  import opened Wrappers
  import opened JsValues

  /** One entry of `service.functions`; `{}` is `EmptyFunction`. */
  datatype FunctionConfig = FunctionConfig(
    name: Option<string>,
    memorySize: Value,
    environment: Option<Env>)

  const EmptyFunction := FunctionConfig(None, Undefined, None)

  /** `service.provider`. */
  datatype ProviderConfig = ProviderConfig(
    name: string,
    region: Option<string>,
    runtime: Option<string>,
    memorySize: Value,
    environment: Option<Env>)

  /** `service.custom`: the plugin's own setting and the Python packaging one. */
  datatype CustomSection = CustomSection(
    shellBinary: Option<string>,
    pythonRequirements: Option<Env>)

  datatype Service = Service(
    provider: ProviderConfig,
    functions: map<string, FunctionConfig>,
    custom: Option<CustomSection>)

  /** The `cachedCredentials` object of the AWS provider plugin. */
  datatype Credentials = Credentials(
    accessKeyId: Option<string>,
    secretAccessKey: Option<string>,
    sessionToken: Option<string>,
    region: Option<string>)

  /**
   * What the plugin asks of the provider plugin: its naming convention for
   * log groups (an uninterpreted function of the function's name) and, for
   * the AWS provider, the credentials it has cached, if any.
   */
  datatype ProviderPlugin = ProviderPlugin(
    logGroupName: Option<string> -> string,
    cachedCredentials: Option<Credentials>)

  /** The command line options of `sls shell`. */
  datatype Options = Options(
    functionName: Option<string>,
    shell: Option<string>,
    quiet: bool,
    region: Option<string>)

  /**
   * `service.getFunction(name)`: the named function, or `None` where the
   * framework throws because there is no such function (or no name).
   */
  function GetFunction(service: Service, name: Option<string>): (r: Option<FunctionConfig>)
    ensures r.Some? <==> name.Some? && name.value in service.functions
    ensures r.Some? ==> r.value == service.functions[name.value]
  {
    if name.Some? && name.value in service.functions then Some(service.functions[name.value]) else None
  }
}
