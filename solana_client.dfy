/**
 * createSolanaClient (packages/gill/src/core/create-solana-client.ts): resolve
 * a URL object, URL string or cluster moniker to one `URL` object, check its
 * protocol, then derive the RPC URL and the subscriptions URL by changing that
 * same object in place, and bind both to the transport constructors.
 */
module SolanaClient {
  import opened Wrappers
  import opened JsValues
  import opened RpcTypes
  import opened JsStrings
  import opened Urls

  /** The `urlOrMoniker` argument as the caller passes it. */
  datatype UrlOrMoniker =
    | Undefined
    | Text(text: string)
    | UrlObject(url: Url)

  /** The same argument as a value: the caller's `URL` object is read as its record. */
  datatype Endpoint =
    | NoEndpoint
    | Named(text: string)
    | Parsed(url: UrlRecord)

  /** The objects the call may change: the caller's own `URL` object, when one was passed. */
  function CallerObjects(d: UrlOrMoniker): set<Url>
  {
    if d.UrlObject? then {d.url} else {}
  }

  function View(d: UrlOrMoniker): Endpoint
    reads CallerObjects(d)
  {
    match d
    case Undefined => NoEndpoint
    case Text(s) => Named(s)
    case UrlObject(u) => Parsed(u.Record())
  }

  /** `rpcConfig` / `rpcSubscriptionsConfig`: the optional `port` and the settings passed on untouched. */
  datatype TransportConfig = TransportConfig(port: Option<nat>, settings: Config)

  /** The foreign pieces resolution depends on: the WHATWG URL parser and `getPublicSolanaRpcUrl`. */
  datatype UrlEnv = UrlEnv(parse: string -> Option<UrlRecord>, publicRpcUrls: map<Moniker, string>)

  datatype ClientError =
    | UrlOrMonikerRequired
    | InvalidUrlOrMoniker
    | UnsupportedProtocol

  function Message(e: ClientError): string
  {
    match e
    case UrlOrMonikerRequired => "Cluster url or moniker is required"
    case InvalidUrlOrMoniker => "Invalid URL or cluster moniker"
    case UnsupportedProtocol => "Unsupported protocol. Only HTTP and HTTPS are supported"
  }

  /** What `createSolanaRpc(url, rpcConfig)` is built from. */
  datatype RpcClient = RpcClient(url: string, config: Option<TransportConfig>)

  /** What `createSolanaRpcSubscriptions(url, rpcSubscriptionsConfig)` is built from. */
  datatype RpcSubscriptionsClient = RpcSubscriptionsClient(url: string, config: Option<TransportConfig>)

  /** The two injected factories, applied to the transports they are given. */
  datatype SendAndConfirm = SendAndConfirmFactory(rpc: RpcClient, rpcSubscriptions: RpcSubscriptionsClient)
  datatype Simulate = SimulateFactory(rpc: RpcClient)

  /** The returned `SolanaClient` object. */
  datatype SolanaClientHandle = SolanaClientHandle(
    cluster: Cluster,
    rpc: RpcClient,
    rpcSubscriptions: RpcSubscriptionsClient,
    sendAndConfirmTransaction: SendAndConfirm,
    simulateTransaction: Simulate)

  /** `config?.port` is truthy: the config and its port are present and the port is not 0. */
  predicate HasPort(config: Option<TransportConfig>)
  {
    config.Some? && config.value.port.Some? && config.value.port.value != 0
  }

  /** The string `config.port.toString()` that the port setter receives. */
  function PortText(config: Option<TransportConfig>): string
    requires HasPort(config)
  {
    DecimalString(config.value.port.value)
  }

  /** `!urlOrMoniker`: undefined or the empty string (a `URL` object is always truthy). */
  predicate IsFalsy(e: Endpoint)
  {
    e.NoEndpoint? || (e.Named? && e.text == "")
  }

  /** `new URL(getPublicSolanaRpcUrl(s))`: a known moniker whose table URL parses. */
  function PublicRpcUrl(env: UrlEnv, s: string): Option<UrlRecord>
  {
    match ParseMoniker(s)
    case None => None
    case Some(m) => if m in env.publicRpcUrls then env.parse(env.publicRpcUrls[m]) else None
  }

  /** Lines 45-56: the `URL` the rest of the function works on, or the error thrown. */
  function ResolveEndpoint(e: Endpoint, env: UrlEnv): Result<UrlRecord, ClientError>
  {
    if IsFalsy(e) then Failure(UrlOrMonikerRequired)
    else match e
      case Parsed(u) => Success(u)
      case Named(s) =>
        match env.parse(s)
        case Some(u) => Success(u)
        case None =>
          match PublicRpcUrl(env, s)
          case Some(u) => Success(u)
          case None => Failure(InvalidUrlOrMoniker)
  }

  /** Lines 62-64: the object after the RPC port is applied. */
  function RpcUrl(base: UrlRecord, rpcConfig: Option<TransportConfig>): UrlRecord
  {
    if HasPort(rpcConfig) then base.(port := PortText(rpcConfig)) else base
  }

  /** `hostname == "localhost" || hostname.startsWith("127")`. */
  predicate IsLoopbackHost(hostname: string)
  {
    hostname == "localhost" || StartsWith(hostname, "127")
  }

  /** Lines 68-74: the same object after the protocol rewrite and the subscriptions port rule. */
  function SubscriptionsUrl(rpcUrl: UrlRecord, rpcSubscriptionsConfig: Option<TransportConfig>): UrlRecord
  {
    var ws := rpcUrl.(protocol := ReplaceFirst(rpcUrl.protocol, "http", "ws"));
    if HasPort(rpcSubscriptionsConfig) then ws.(port := PortText(rpcSubscriptionsConfig))
    else if IsLoopbackHost(ws.hostname) then ws.(port := "8900")
    else ws
  }

  /** Lines 66-93: the client assembled from the two URL snapshots. */
  function Compose(
    cluster: Cluster, base: UrlRecord,
    rpcConfig: Option<TransportConfig>, rpcSubscriptionsConfig: Option<TransportConfig>): SolanaClientHandle
  {
    var rpcUrl := RpcUrl(base, rpcConfig);
    var rpc := RpcClient(Href(rpcUrl), rpcConfig);
    var subscriptions := RpcSubscriptionsClient(Href(SubscriptionsUrl(rpcUrl, rpcSubscriptionsConfig)), rpcSubscriptionsConfig);
    SolanaClientHandle(cluster, rpc, subscriptions, SendAndConfirmFactory(rpc, subscriptions), SimulateFactory(rpc))
  }

  /** The whole of createSolanaClient on values. */
  function CreateClient(
    cluster: Cluster, e: Endpoint,
    rpcConfig: Option<TransportConfig>, rpcSubscriptionsConfig: Option<TransportConfig>,
    env: UrlEnv): Result<SolanaClientHandle, ClientError>
  {
    match ResolveEndpoint(e, env)
    case Failure(err) => Failure(err)
    case Success(base) =>
      if !MatchesHttpScheme(base.protocol) then Failure(UnsupportedProtocol)
      else Success(Compose(cluster, base, rpcConfig, rpcSubscriptionsConfig))
  }

  /**
   * Lines 45-56 on objects: the caller's own `URL` object is used as it is; a
   * string is parsed into a new one, or looked up as a moniker when it does not
   * parse.
   */
  method ResolveUrl(urlOrMoniker: UrlOrMoniker, env: UrlEnv) returns (r: Result<Url, ClientError>)
    ensures r.Failure? ==> ResolveEndpoint(View(urlOrMoniker), env) == Failure(r.error)
    ensures r.Success? ==> ResolveEndpoint(View(urlOrMoniker), env) == Success(r.value.Record())
    ensures r.Success? ==> if urlOrMoniker.UrlObject? then r.value == urlOrMoniker.url else fresh(r.value)
  {
    if urlOrMoniker.Undefined? || (urlOrMoniker.Text? && urlOrMoniker.text == "") {
      return Failure(UrlOrMonikerRequired);
    }
    if urlOrMoniker.UrlObject? {
      return Success(urlOrMoniker.url);
    }
    var parsed := env.parse(urlOrMoniker.text);
    if parsed.None? {
      parsed := PublicRpcUrl(env, urlOrMoniker.text);
      if parsed.None? {
        return Failure(InvalidUrlOrMoniker);
      }
    }
    var url := new Url(parsed.value);
    return Success(url);
  }

  /** Lines 62-64: `url.port = rpcConfig.port.toString()` when a port is given. */
  method ApplyRpcPort(url: Url, rpcConfig: Option<TransportConfig>)
    modifies url
    ensures url.Record() == RpcUrl(old(url.Record()), rpcConfig)
  {
    if HasPort(rpcConfig) {
      url.port := PortText(rpcConfig);
    }
  }

  /** Lines 68-74: the protocol rewrite, then the explicit or the loopback port. */
  method ApplySubscriptionsRules(url: Url, rpcSubscriptionsConfig: Option<TransportConfig>)
    modifies url
    ensures url.Record() == SubscriptionsUrl(old(url.Record()), rpcSubscriptionsConfig)
  {
    url.protocol := ReplaceFirst(url.protocol, "http", "ws");
    if HasPort(rpcSubscriptionsConfig) {
      url.port := PortText(rpcSubscriptionsConfig);
    } else if IsLoopbackHost(url.hostname) {
      url.port := "8900";
    }
  }

  /**
   * createSolanaClient as the source runs it: one `URL` object (the caller's own
   * when a `URL` was passed) has its port and protocol reassigned in place, and
   * the RPC URL is the snapshot taken between the two rounds of changes.
   */
  method CreateSolanaClient(
    cluster: Cluster, urlOrMoniker: UrlOrMoniker,
    rpcConfig: Option<TransportConfig>, rpcSubscriptionsConfig: Option<TransportConfig>,
    env: UrlEnv) returns (r: Result<SolanaClientHandle, ClientError>)
    modifies CallerObjects(urlOrMoniker)
    ensures r == CreateClient(cluster, old(View(urlOrMoniker)), rpcConfig, rpcSubscriptionsConfig, env)
    ensures urlOrMoniker.UrlObject? ==>
      urlOrMoniker.url.Record() ==
        if r.Success? then SubscriptionsUrl(RpcUrl(old(urlOrMoniker.url.Record()), rpcConfig), rpcSubscriptionsConfig)
        else old(urlOrMoniker.url.Record())
  {
    var resolved := ResolveUrl(urlOrMoniker, env);
    if resolved.Failure? {
      return Failure(resolved.error);
    }
    var url := resolved.value;
    if !MatchesHttpScheme(url.protocol) {
      return Failure(UnsupportedProtocol);
    }
    ghost var client := Compose(cluster, url.Record(), rpcConfig, rpcSubscriptionsConfig);

    ApplyRpcPort(url, rpcConfig);
    var rpc := RpcClient(Href(url.Record()), rpcConfig);
    assert rpc == client.rpc;

    ApplySubscriptionsRules(url, rpcSubscriptionsConfig);
    var rpcSubscriptions := RpcSubscriptionsClient(Href(url.Record()), rpcSubscriptionsConfig);
    assert rpcSubscriptions == client.rpcSubscriptions;

    r := Success(SolanaClientHandle(
      cluster, rpc, rpcSubscriptions,
      SendAndConfirmFactory(rpc, rpcSubscriptions),
      SimulateFactory(rpc)));
  }
}
