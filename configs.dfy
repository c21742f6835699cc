/**
 * Configuration record and its required-field validation (configs/config.go).
 * Only `validateConfig` is modelled; reading and decoding the YAML file is not.
 * Durations are integer nanoseconds.
 */
module Configs {
  import opened Wrappers
  import Environment

  datatype RetryConfig = RetryConfig(attempts: nat, delay: int, delayType: string)
  datatype DatabaseConfig = DatabaseConfig(uri: string, retry: RetryConfig)
  datatype WebSocketConfig = WebSocketConfig(scheme: string, host: string, path: string, retry: RetryConfig)
  datatype ServicesConfig = ServicesConfig(wallets: seq<string>, tokens: seq<string>)
  datatype CoordinatorConfig = CoordinatorConfig(retry: RetryConfig)
  datatype LogConfig = LogConfig(logLevel: string, prettyPrint: bool)
  datatype AppConfig = AppConfig(env: Environment.Env, addr: string, applicationName: string, log: LogConfig)
  datatype Config = Config(
    app: AppConfig,
    database: DatabaseConfig,
    webSocket: WebSocketConfig,
    services: ServicesConfig,
    coordinator: CoordinatorConfig)

  /** The six validation errors, one per required field, in the order they are checked. */
  datatype ConfigError =
    | MissingDatabaseUri
    | MissingWebSocketScheme
    | MissingWebSocketHost
    | MissingWebSocketPath
    | NoWallets
    | NoTokens
  {
    /** Position of the check in the validation order. */
    function Rank(): nat
    {
      match this
      case MissingDatabaseUri => 0
      case MissingWebSocketScheme => 1
      case MissingWebSocketHost => 2
      case MissingWebSocketPath => 3
      case NoWallets => 4
      case NoTokens => 5
    }

    /** The error text the validator reports. */
    function Message(): string
    {
      match this
      case MissingDatabaseUri => "database.uri is required"
      case MissingWebSocketScheme => "websocket.scheme is required"
      case MissingWebSocketHost => "websocket.host is required"
      case MissingWebSocketPath => "websocket.path is required"
      case NoWallets => "services.wallets must have at least one entry"
      case NoTokens => "services.tokens must have at least one entry"
    }
  }

  /** Whether the field that error `e` guards is missing from `cfg`. */
  predicate Violates(cfg: Config, e: ConfigError)
  {
    match e
    case MissingDatabaseUri => cfg.database.uri == ""
    case MissingWebSocketScheme => cfg.webSocket.scheme == ""
    case MissingWebSocketHost => cfg.webSocket.host == ""
    case MissingWebSocketPath => cfg.webSocket.path == ""
    case NoWallets => |cfg.services.wallets| == 0
    case NoTokens => |cfg.services.tokens| == 0
  }

  /**
   * Runs the required-field checks in their fixed order and reports the first
   * one that fails; `None` means the configuration is accepted.
   */
  function ValidateConfig(cfg: Config): (r: Option<ConfigError>)
    ensures r == None ==> forall e: ConfigError :: !Violates(cfg, e)
    ensures r.Some? ==> Violates(cfg, r.value)
    ensures r.Some? ==> forall e: ConfigError :: e.Rank() < r.value.Rank() ==> !Violates(cfg, e)
  {
    if cfg.database.uri == "" then Some(MissingDatabaseUri)
    else if cfg.webSocket.scheme == "" then Some(MissingWebSocketScheme)
    else if cfg.webSocket.host == "" then Some(MissingWebSocketHost)
    else if cfg.webSocket.path == "" then Some(MissingWebSocketPath)
    else if |cfg.services.wallets| == 0 then Some(NoWallets)
    else if |cfg.services.tokens| == 0 then Some(NoTokens)
    else None
  }

  /**
   * The error text identifies the failed check: the six messages are pairwise
   * distinct, so a rejected configuration's message names the first missing
   * field in the validation order.
   */
  lemma MessageIdentifiesCheck(cfg: Config, e: ConfigError)
    ensures ValidateConfig(cfg).Some? && e.Message() == ValidateConfig(cfg).value.Message() ==>
      e == ValidateConfig(cfg).value && Violates(cfg, e)
      && forall earlier: ConfigError :: earlier.Rank() < e.Rank() ==> !Violates(cfg, earlier)
  {
  }

  /** Acceptance spelled out field by field: all six required fields are present. */
  lemma AcceptedIffComplete(cfg: Config)
    ensures ValidateConfig(cfg) == None <==>
      cfg.database.uri != "" && cfg.webSocket.scheme != "" && cfg.webSocket.host != ""
      && cfg.webSocket.path != "" && |cfg.services.wallets| > 0 && |cfg.services.tokens| > 0
  {
    if ValidateConfig(cfg) == None {
      assert !Violates(cfg, MissingDatabaseUri) && !Violates(cfg, MissingWebSocketScheme);
      assert !Violates(cfg, MissingWebSocketHost) && !Violates(cfg, MissingWebSocketPath);
      assert !Violates(cfg, NoWallets) && !Violates(cfg, NoTokens);
    }
  }

  /**
   * The retry settings, the application settings and the coordinator settings
   * are never inspected: two configurations that agree on the six required
   * fields get the same verdict.
   */
  lemma OnlyRequiredFieldsMatter(cfg: Config, other: Config)
    requires cfg.database.uri == other.database.uri
    requires cfg.webSocket.scheme == other.webSocket.scheme
    requires cfg.webSocket.host == other.webSocket.host
    requires cfg.webSocket.path == other.webSocket.path
    requires |cfg.services.wallets| == |other.services.wallets|
    requires |cfg.services.tokens| == |other.services.tokens|
    ensures ValidateConfig(cfg) == ValidateConfig(other)
  {
  }
}
