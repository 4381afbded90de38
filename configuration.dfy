/** The facade constructor's validation and defaults (src/unleash.ts, `constructor`). */
module Configuration {
  import opened Wrappers
  import opened UnleashUrl
  import opened Contexts

  /** An activation strategy, identified by its name; its evaluation code lives outside the facade. */
  datatype Strategy = Strategy(name: string)

  /** The options of `UnleashConfig` that the facade itself reads or defaults. `None` is an
      omitted (undefined) option. */
  datatype UnleashConfig = UnleashConfig(
    appName: Option<string>,
    environment: Option<string>,
    url: Option<string>,
    refreshInterval: Option<int>,
    metricsInterval: Option<int>,
    disableMetrics: Option<bool>,
    backupPath: Option<string>,
    strategies: Option<seq<Strategy>>,
    disableAutoStart: Option<bool>)

  /** The two configuration errors the constructor throws. */
  datatype ConfigError = UrlRequired | AppNameRequired {
    function Message(): string {
      match this
      case UrlRequired => "Unleash API \"url\" is required"
      case AppNameRequired => "Unleash client \"appName\" is required"
    }
  }

  const DefaultEnvironment: string := "default"
  const DefaultRefreshInterval: int := 15 * 1000
  const DefaultMetricsInterval: int := 60 * 1000

  /** JavaScript truthiness of an optional string: present and not empty. */
  predicate Truthy(s: Option<string>) {
    s.Some? && s.value != ""
  }

  /** What the constructor derives from a valid configuration and hands to the repository,
      the client and the metrics reporter. */
  datatype Settings = Settings(
    url: string,
    urlWarning: Option<string>,
    staticContext: StaticContext,
    refreshInterval: int,
    metricsInterval: int,
    disableMetrics: bool,
    backupPath: string,
    supportedStrategies: seq<Strategy>,
    metricsStrategyNames: seq<string>,
    disableAutoStart: bool)

  /** `strategies.concat(defaultStrategies)`: the custom strategies, in order, then the defaults. */
  function SupportedStrategies(custom: seq<Strategy>, defaults: seq<Strategy>): (r: seq<Strategy>)
    ensures |r| == |custom| + |defaults|
    ensures forall i :: 0 <= i < |custom| ==> r[i] == custom[i]
    ensures forall j :: 0 <= j < |defaults| ==> r[|custom| + j] == defaults[j]
  {
    custom + defaults
  }

  /** `supportedStrategies.map(strategy => strategy.name)`, reported to the metrics service. */
  function StrategyNames(strategies: seq<Strategy>): (names: seq<string>)
    ensures |names| == |strategies|
    ensures forall i :: 0 <= i < |strategies| ==> names[i] == strategies[i].name
  {
    if strategies == [] then [] else [strategies[0].name] + StrategyNames(strategies[1..])
  }

  /** The position of the first strategy called `name`, or the length when there is none:
      what a first-match lookup by name picks. */
  function FirstNamed(strategies: seq<Strategy>, name: string): (i: nat)
    ensures i <= |strategies|
    ensures i < |strategies| ==> strategies[i].name == name
    ensures forall j :: 0 <= j < i ==> strategies[j].name != name
  {
    if strategies == [] then 0
    else if strategies[0].name == name then 0
    else 1 + FirstNamed(strategies[1..], name)
  }

  /** Because the custom strategies come first, a first-match lookup by name finds a custom
      strategy before a default of the same name, and finds a default only when no custom
      strategy has that name. */
  lemma {:induction false} CustomStrategiesShadowDefaults(custom: seq<Strategy>, defaults: seq<Strategy>, name: string)
    ensures FirstNamed(custom, name) < |custom| ==>
      FirstNamed(SupportedStrategies(custom, defaults), name) == FirstNamed(custom, name)
    ensures FirstNamed(custom, name) == |custom| ==>
      FirstNamed(SupportedStrategies(custom, defaults), name) == |custom| + FirstNamed(defaults, name)
  {
    if custom != [] {
      assert SupportedStrategies(custom, defaults)[1..] == SupportedStrategies(custom[1..], defaults);
      CustomStrategiesShadowDefaults(custom[1..], defaults, name);
    }
  }

  /** The constructor's checks and defaults. It throws when `url` is falsy, before looking at
      `appName`, and then when `appName` is falsy; otherwise the URL is cleaned, the static
      context is exactly `{appName, environment}` with `environment` defaulting to "default"
      (only when omitted), and every other omitted option takes its documented default. */
  function Configure(config: UnleashConfig, defaultStrategies: seq<Strategy>, tmpDir: string): (r: Result<Settings, ConfigError>)
    ensures !Truthy(config.url) ==> r == Failure(UrlRequired)
    ensures Truthy(config.url) && !Truthy(config.appName) ==> r == Failure(AppNameRequired)
    ensures r.Success? <==> Truthy(config.url) && Truthy(config.appName)
    ensures r.Success? ==>
      && EndsWith(r.value.url, "/")
      && r.value.url == CleanUnleashUrl(config.url.value).url
      && r.value.urlWarning == CleanUnleashUrl(config.url.value).warning
      && r.value.staticContext.appName == config.appName.value
      && r.value.staticContext.environment == config.environment.GetOr(DefaultEnvironment)
      && r.value.refreshInterval == config.refreshInterval.GetOr(DefaultRefreshInterval)
      && r.value.metricsInterval == config.metricsInterval.GetOr(DefaultMetricsInterval)
      && r.value.disableMetrics == config.disableMetrics.GetOr(false)
      && r.value.disableAutoStart == config.disableAutoStart.GetOr(false)
      && r.value.backupPath == config.backupPath.GetOr(tmpDir)
      && r.value.supportedStrategies == SupportedStrategies(config.strategies.GetOr([]), defaultStrategies)
      && (config.strategies.None? ==> r.value.supportedStrategies == defaultStrategies)
      && r.value.metricsStrategyNames == StrategyNames(r.value.supportedStrategies)
  {
    if !Truthy(config.url) then Failure(UrlRequired)
    else if !Truthy(config.appName) then Failure(AppNameRequired)
    else
      var cleaned := CleanUnleashUrl(config.url.value);
      var supported := SupportedStrategies(config.strategies.GetOr([]), defaultStrategies);
      Success(Settings(
        cleaned.url,
        cleaned.warning,
        StaticContext(config.appName.value, config.environment.GetOr(DefaultEnvironment)),
        config.refreshInterval.GetOr(DefaultRefreshInterval),
        config.metricsInterval.GetOr(DefaultMetricsInterval),
        config.disableMetrics.GetOr(false),
        config.backupPath.GetOr(tmpDir),
        supported,
        StrategyNames(supported),
        config.disableAutoStart.GetOr(false)))
  }

  /** A configured environment is kept even when it is the empty string: the default applies
      only to an omitted option, unlike the truthiness checks on `url` and `appName`. */
  lemma EmptyEnvironmentIsKept(config: UnleashConfig, defaultStrategies: seq<Strategy>, tmpDir: string)
    requires Truthy(config.url) && Truthy(config.appName) && config.environment == Some("")
    ensures Configure(config, defaultStrategies, tmpDir).value.staticContext == StaticContext(config.appName.value, "")
  {
  }
}
