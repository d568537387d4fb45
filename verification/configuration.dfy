/** `getConfigFromEnvironment`: the labeler's settings read from environment
    variables. Go's `time.ParseDuration` is supplied by the caller as
    `parseDuration`, mapping a text to nanoseconds or to a failure. */
module Configuration {
  import opened Wrappers
  import opened Strconv

  type Env = map<string, string>

  /** The two log levels the configuration chooses between. */
  datatype LogLevel = InfoLevel | DebugLevel

  /** `Config`; the request timeout is in nanoseconds. */
  datatype Config = Config(labelSelector: string, namespace: string, address: string,
                           labelAll: bool, logLevel: LogLevel, k8sRequestTimeout: int)

  /** Each rejected setting, with the offending value. */
  datatype ConfigError =
    | MissingLabelSelector
    | InvalidLabelAll(value: string)
    | InvalidDebug(value: string)
    | InvalidRequestTimeout(value: string)

  const Second: int := 1_000_000_000
  const DefaultK8sRequestTimeout: int := 10 * Second
  const DefaultNamespace: string := "default"
  const DefaultAddress: string := "localhost:27017"

  const LabelSelectorKey: string := "LABEL_SELECTOR"
  const NamespaceKey: string := "NAMESPACE"
  const AddressKey: string := "MONGO_ADDRESS"
  const LabelAllKey: string := "LABEL_ALL"
  const DebugKey: string := "DEBUG"
  const RequestTimeoutKey: string := "K8S_REQUEST_TIMEOUT"

  /** The variables the configuration reads. */
  const Keys: set<string> := {LabelSelectorKey, NamespaceKey, AddressKey, LabelAllKey, DebugKey, RequestTimeoutKey}

  /** A present boolean variable that does not parse. */
  predicate BadBool(env: Env, key: string)
  {
    key in env && ParseBool(env[key]).None?
  }

  /** A present boolean variable that parses to true. */
  predicate SetTrue(env: Env, key: string)
  {
    key in env && ParseBool(env[key]) == Some(true)
  }

  /** A present timeout that does not parse. */
  predicate BadDuration(env: Env, parseDuration: string -> Option<int>)
  {
    RequestTimeoutKey in env && parseDuration(env[RequestTimeoutKey]).None?
  }

  /** The value of `key`, or `default` when it is not set. */
  function Lookup(env: Env, key: string, default: string): string
  {
    if key in env then env[key] else default
  }

  /** Reads the configuration: LABEL_SELECTOR is required; NAMESPACE and
      MONGO_ADDRESS override their defaults verbatim; LABEL_ALL, DEBUG and
      K8S_REQUEST_TIMEOUT are parsed, in that order, and the first one that
      does not parse is reported. DEBUG only ever raises the level. */
  function GetConfigFromEnvironment(env: Env, parseDuration: string -> Option<int>): (r: Result<Config, ConfigError>)
    ensures r.Err? <==>
      LabelSelectorKey !in env || BadBool(env, LabelAllKey) || BadBool(env, DebugKey)
      || BadDuration(env, parseDuration)
    ensures r == Err(MissingLabelSelector) <==> LabelSelectorKey !in env
    ensures r.Err? && r.error.InvalidLabelAll? ==>
      LabelSelectorKey in env && BadBool(env, LabelAllKey) && r.error.value == env[LabelAllKey]
    ensures r.Err? && r.error.InvalidDebug? ==>
      LabelSelectorKey in env && !BadBool(env, LabelAllKey) && BadBool(env, DebugKey)
      && r.error.value == env[DebugKey]
    ensures r.Err? && r.error.InvalidRequestTimeout? ==>
      LabelSelectorKey in env && !BadBool(env, LabelAllKey) && !BadBool(env, DebugKey)
      && BadDuration(env, parseDuration) && r.error.value == env[RequestTimeoutKey]
    ensures r.Ok? ==>
      var c := r.value;
      && c.labelSelector == env[LabelSelectorKey]
      && c.namespace == Lookup(env, NamespaceKey, DefaultNamespace)
      && c.address == Lookup(env, AddressKey, DefaultAddress)
      && (c.labelAll <==> SetTrue(env, LabelAllKey))
      && (c.logLevel == DebugLevel <==> SetTrue(env, DebugKey))
      && (RequestTimeoutKey !in env ==> c.k8sRequestTimeout == DefaultK8sRequestTimeout)
      && (RequestTimeoutKey in env ==> Some(c.k8sRequestTimeout) == parseDuration(env[RequestTimeoutKey]))
  {
    if LabelSelectorKey !in env then Err(MissingLabelSelector)
    else
      var config := Config(env[LabelSelectorKey], DefaultNamespace, DefaultAddress,
                           false, InfoLevel, DefaultK8sRequestTimeout);
      var config := if NamespaceKey in env then config.(namespace := env[NamespaceKey]) else config;
      var config := if AddressKey in env then config.(address := env[AddressKey]) else config;
      if LabelAllKey in env && ParseBool(env[LabelAllKey]).None? then Err(InvalidLabelAll(env[LabelAllKey]))
      else
        var config := if LabelAllKey in env then config.(labelAll := ParseBool(env[LabelAllKey]).value) else config;
        if DebugKey in env && ParseBool(env[DebugKey]).None? then Err(InvalidDebug(env[DebugKey]))
        else
          var config := if DebugKey in env && ParseBool(env[DebugKey]).value then config.(logLevel := DebugLevel) else config;
          if RequestTimeoutKey in env && parseDuration(env[RequestTimeoutKey]).None? then
            Err(InvalidRequestTimeout(env[RequestTimeoutKey]))
          else if RequestTimeoutKey in env then
            Ok(config.(k8sRequestTimeout := parseDuration(env[RequestTimeoutKey]).value))
          else Ok(config)
  }

  /** The configuration an environment holding only LABEL_SELECTOR yields. */
  function DefaultConfig(selector: string): Config
  {
    Config(selector, DefaultNamespace, DefaultAddress, false, InfoLevel, DefaultK8sRequestTimeout)
  }

  /** Every optional setting falls back to its default. */
  lemma OnlySelectorGivesDefaults(env: Env, parseDuration: string -> Option<int>)
    requires env.Keys * Keys == {LabelSelectorKey}
    ensures GetConfigFromEnvironment(env, parseDuration) == Ok(DefaultConfig(env[LabelSelectorKey]))
  {
    assert LabelSelectorKey in env.Keys * Keys;
    assert forall k :: k in Keys && k != LabelSelectorKey ==> k !in env.Keys * Keys;
  }

  /** Variables other than the six recognised ones have no effect. */
  lemma OtherVariablesIgnored(env: Env, parseDuration: string -> Option<int>)
    ensures GetConfigFromEnvironment(env, parseDuration)
         == GetConfigFromEnvironment(map k | k in env && k in Keys :: env[k], parseDuration)
  {
  }

  /** The environment that describes a configuration, given the text
      `timeoutText` the duration parser reads as its timeout. */
  function ConfigToEnv(c: Config, timeoutText: string): Env
  {
    map[LabelSelectorKey := c.labelSelector, NamespaceKey := c.namespace,
        AddressKey := c.address, LabelAllKey := FormatBool(c.labelAll),
        DebugKey := FormatBool(c.logLevel == DebugLevel), RequestTimeoutKey := timeoutText]
  }

  /** Reading back the environment that describes a configuration gives that
      configuration. */
  lemma ConfigEnvRoundTrip(c: Config, timeoutText: string, parseDuration: string -> Option<int>)
    requires parseDuration(timeoutText) == Some(c.k8sRequestTimeout)
    ensures GetConfigFromEnvironment(ConfigToEnv(c, timeoutText), parseDuration) == Ok(c)
  {
  }
}
