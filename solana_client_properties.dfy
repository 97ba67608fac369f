/**
 * What createSolanaClient promises, stated over the value-level model in
 * module SolanaClient (which the in-place method is proved equal to).
 */
module SolanaClientProperties {
  import opened Wrappers
  import opened JsValues
  import opened RpcTypes
  import opened JsStrings
  import opened Urls
  import opened SolanaClient

  /**
   * An absent or empty argument fails with "Cluster url or moniker is required",
   * whatever the parser and the moniker table would have said: nothing is parsed.
   */
  lemma EmptyInputRejectedBeforeParsing(
    cluster: Cluster, e: Endpoint, rpcConfig: Option<TransportConfig>, subsConfig: Option<TransportConfig>,
    env: UrlEnv)
    requires IsFalsy(e)
    ensures CreateClient(cluster, e, rpcConfig, subsConfig, env) == Failure(UrlOrMonikerRequired)
    ensures Message(UrlOrMonikerRequired) == "Cluster url or moniker is required"
  {
  }

  /**
   * Resolution order: a `URL` object is used as it is; a non-empty string is
   * first parsed as a URL and only when that fails looked up as a moniker; the
   * call fails with "Invalid URL or cluster moniker" exactly when both fail.
   */
  lemma ResolutionOrder(e: Endpoint, env: UrlEnv)
    ensures e.Parsed? ==> ResolveEndpoint(e, env) == Success(e.url)
    ensures e.Named? && e.text != "" && env.parse(e.text).Some? ==>
      ResolveEndpoint(e, env) == Success(env.parse(e.text).value)
    ensures e.Named? && e.text != "" && env.parse(e.text).None? && PublicRpcUrl(env, e.text).Some? ==>
      ResolveEndpoint(e, env) == Success(PublicRpcUrl(env, e.text).value)
    ensures ResolveEndpoint(e, env) == Failure(InvalidUrlOrMoniker) <==>
      e.Named? && e.text != "" && env.parse(e.text).None? && PublicRpcUrl(env, e.text).None?
  {
  }

  /** A string that parses as a URL is never looked up in the moniker table. */
  lemma ParsedStringIgnoresMonikerTable(
    s: string, parse: string -> Option<UrlRecord>, table1: map<Moniker, string>, table2: map<Moniker, string>)
    requires parse(s).Some?
    ensures ResolveEndpoint(Named(s), UrlEnv(parse, table1)) == ResolveEndpoint(Named(s), UrlEnv(parse, table2))
  {
  }

  /** A moniker that does not parse as a URL resolves to the parsed table entry for it. */
  lemma MonikerResolvesThroughTable(m: Moniker, env: UrlEnv)
    requires env.parse(MonikerName(m)).None?
    requires m in env.publicRpcUrls && env.parse(env.publicRpcUrls[m]).Some?
    ensures ResolveEndpoint(Named(MonikerName(m)), env) == Success(env.parse(env.publicRpcUrls[m]).value)
  {
    MonikerRoundTrip(m);
  }

  /** A string that is neither a URL nor one of the four monikers is rejected. */
  lemma UnknownNameRejected(s: string, env: UrlEnv)
    requires s != "" && env.parse(s).None? && ParseMoniker(s).None?
    ensures ResolveEndpoint(Named(s), env) == Failure(InvalidUrlOrMoniker)
    ensures Message(InvalidUrlOrMoniker) == "Invalid URL or cluster moniker"
  {
  }

  /**
   * The protocol check comes after resolution and before either client exists:
   * a resolved URL yields a client exactly when its protocol matches
   * `/^https?/i`, and otherwise the error is "Unsupported protocol".
   */
  lemma ProtocolGate(
    cluster: Cluster, e: Endpoint, rpcConfig: Option<TransportConfig>, subsConfig: Option<TransportConfig>,
    env: UrlEnv)
    ensures CreateClient(cluster, e, rpcConfig, subsConfig, env).Success? <==>
      ResolveEndpoint(e, env).Success? && MatchesHttpScheme(ResolveEndpoint(e, env).value.protocol)
    ensures ResolveEndpoint(e, env).Success? && !MatchesHttpScheme(ResolveEndpoint(e, env).value.protocol) ==>
      CreateClient(cluster, e, rpcConfig, subsConfig, env) == Failure(UnsupportedProtocol)
    ensures ResolveEndpoint(e, env).Failure? ==>
      CreateClient(cluster, e, rpcConfig, subsConfig, env) == Failure(ResolveEndpoint(e, env).error)
  {
  }

  /** The test is a case-insensitive prefix test with no end anchor. */
  lemma ProtocolTestIsPrefixOnly()
    ensures MatchesHttpScheme("http:") && MatchesHttpScheme("https:")
    ensures MatchesHttpScheme("HTTPS:") && MatchesHttpScheme("httpx:")
    ensures !MatchesHttpScheme("ws:") && !MatchesHttpScheme("ftp:") && !MatchesHttpScheme("htt:")
  {
    assert EqualIgnoringCase("HTTPS:"[..4], "http");
    assert !EqualIgnoringCase("ftp:"[..4], "http") by {
      assert ToLower("ftp:"[..4][0]) != ToLower("http"[0]);
    }
    assert !EqualIgnoringCase("htt:"[..4], "http") by {
      assert ToLower("htt:"[..4][3]) != ToLower("http"[3]);
    }
  }

  /**
   * The client is wired from two snapshots of one object: the RPC client gets
   * the URL after the RPC port step and `rpcConfig`, the subscriptions client
   * the URL after the protocol and port steps and `rpcSubscriptionsConfig`;
   * send-and-confirm gets both transports and simulate only the RPC one.
   */
  lemma ClientWiring(
    cluster: Cluster, e: Endpoint, rpcConfig: Option<TransportConfig>, subsConfig: Option<TransportConfig>,
    env: UrlEnv)
    requires CreateClient(cluster, e, rpcConfig, subsConfig, env).Success?
    ensures var h := CreateClient(cluster, e, rpcConfig, subsConfig, env).value;
      var base := ResolveEndpoint(e, env).value;
      && h.rpc == RpcClient(Href(RpcUrl(base, rpcConfig)), rpcConfig)
      && h.rpcSubscriptions == RpcSubscriptionsClient(Href(SubscriptionsUrl(RpcUrl(base, rpcConfig), subsConfig)), subsConfig)
      && h.sendAndConfirmTransaction == SendAndConfirmFactory(h.rpc, h.rpcSubscriptions)
      && h.simulateTransaction == SimulateFactory(h.rpc)
  {
  }

  /**
   * The RPC URL is the resolved URL with only its port possibly changed, and
   * the port changes exactly when `rpcConfig.port` is truthy (present and not 0).
   */
  lemma RpcPortRule(base: UrlRecord, rpcConfig: Option<TransportConfig>)
    ensures RpcUrl(base, rpcConfig).(port := base.port) == base
    ensures HasPort(rpcConfig) ==> RpcUrl(base, rpcConfig).port == DecimalString(rpcConfig.value.port.value)
    ensures !HasPort(rpcConfig) ==> RpcUrl(base, rpcConfig) == base
    ensures rpcConfig == Some(TransportConfig(Some(0), map[])) ==> RpcUrl(base, rpcConfig) == base
  {
  }

  /**
   * The subscriptions protocol is the RPC protocol with its first `http`
   * replaced by `ws`: `http:` becomes `ws:` and `https:` becomes `wss:`;
   * hostname and the rest of the URL stay as they were.
   */
  lemma SubscriptionsProtocolRule(rpcUrl: UrlRecord, subsConfig: Option<TransportConfig>)
    ensures SubscriptionsUrl(rpcUrl, subsConfig).hostname == rpcUrl.hostname
    ensures SubscriptionsUrl(rpcUrl, subsConfig).rest == rpcUrl.rest
    ensures StartsWith(rpcUrl.protocol, "http") ==>
      SubscriptionsUrl(rpcUrl, subsConfig).protocol == "ws" + rpcUrl.protocol[4..]
    ensures rpcUrl.protocol == "http:" ==> SubscriptionsUrl(rpcUrl, subsConfig).protocol == "ws:"
    ensures rpcUrl.protocol == "https:" ==> SubscriptionsUrl(rpcUrl, subsConfig).protocol == "wss:"
  {
    if StartsWith(rpcUrl.protocol, "http") {
      ReplaceFirstAtStart(rpcUrl.protocol, "http", "ws");
    }
  }

  /**
   * The replacement is case-sensitive although the protocol test is not: the
   * string `HTTP:` passes `/^https?/i`, and `replace("http", "ws")` leaves it
   * as it is. (The `protocol` setter would then lower-case it, and the WHATWG
   * parser never yields an upper-case scheme in the first place.)
   */
  lemma ReplaceIsCaseSensitive()
    ensures MatchesHttpScheme("HTTP:")
    ensures ReplaceFirst("HTTP:", "http", "ws") == "HTTP:"
  {
    assert EqualIgnoringCase("HTTP:"[..4], "http");
    forall j ensures !OccursAt("HTTP:", "http", j) {
      if 0 <= j && j + 4 <= 5 {
        assert "HTTP:"[j..j + 4][0] != "http"[0];
      }
    }
    ReplaceFirstAbsent("HTTP:", "http", "ws");
  }

  /**
   * The subscriptions port: a truthy `rpcSubscriptionsConfig.port` wins; else a
   * loopback hostname gets 8900; else the port is whatever the RPC step left.
   */
  lemma SubscriptionsPortRule(rpcUrl: UrlRecord, subsConfig: Option<TransportConfig>)
    ensures HasPort(subsConfig) ==>
      SubscriptionsUrl(rpcUrl, subsConfig).port == DecimalString(subsConfig.value.port.value)
    ensures !HasPort(subsConfig) && IsLoopbackHost(rpcUrl.hostname) ==>
      SubscriptionsUrl(rpcUrl, subsConfig).port == "8900"
    ensures !HasPort(subsConfig) && !IsLoopbackHost(rpcUrl.hostname) ==>
      SubscriptionsUrl(rpcUrl, subsConfig).port == rpcUrl.port
  {
  }

  /**
   * Because one object is changed in place, an RPC port override also reaches
   * the subscriptions URL when no subscriptions port is given and the host is
   * not loopback.
   */
  lemma RpcPortCarriesIntoSubscriptions(base: UrlRecord, rpcConfig: Option<TransportConfig>, subsConfig: Option<TransportConfig>)
    requires HasPort(rpcConfig) && !HasPort(subsConfig) && !IsLoopbackHost(base.hostname)
    ensures SubscriptionsUrl(RpcUrl(base, rpcConfig), subsConfig).port == DecimalString(rpcConfig.value.port.value)
  {
  }

  /** Every hostname that begins with `127` counts as loopback, whatever follows. */
  lemma LoopbackIsAPrefixTest()
    ensures IsLoopbackHost("localhost") && IsLoopbackHost("127.0.0.1")
    ensures IsLoopbackHost("127.example.com")
    ensures !IsLoopbackHost("example.com") && !IsLoopbackHost("[::1]")
  {
    assert "example.com"[..3][0] != "127"[0];
    assert "[::1]"[..3][0] != "127"[0];
  }

  /**
   * The returned `cluster` is the argument, and it is the only thing the
   * argument influences: every other field is the same for any cluster.
   */
  lemma ClusterPassthrough(
    c1: Cluster, c2: Cluster, e: Endpoint, rpcConfig: Option<TransportConfig>, subsConfig: Option<TransportConfig>,
    env: UrlEnv)
    ensures CreateClient(c1, e, rpcConfig, subsConfig, env).Success? ==>
      CreateClient(c1, e, rpcConfig, subsConfig, env).value.cluster == c1
    ensures CreateClient(c1, e, rpcConfig, subsConfig, env).Success? ==>
      CreateClient(c2, e, rpcConfig, subsConfig, env) ==
        Success(CreateClient(c1, e, rpcConfig, subsConfig, env).value.(cluster := c2))
    ensures CreateClient(c1, e, rpcConfig, subsConfig, env).Failure? ==>
      CreateClient(c2, e, rpcConfig, subsConfig, env) == CreateClient(c1, e, rpcConfig, subsConfig, env)
  {
  }

  /** `http://localhost` with no overrides: the subscriptions URL is `ws://localhost:8900`. */
  lemma LocalhostDefaultsTo8900(cluster: Cluster, env: UrlEnv)
    ensures var r := CreateClient(cluster, Parsed(UrlRecord("http:", "localhost", "", "/")), None, None, env);
      && r.Success?
      && r.value.rpc.url == "http://localhost/"
      && r.value.rpcSubscriptions.url == "ws://localhost:8900/"
  {
    assert MatchesHttpScheme("http:");
    LocalhostUrls();
  }

  /** The subscriptions record and the two `href`s of the example above. */
  lemma LocalhostUrls()
    ensures SubscriptionsUrl(UrlRecord("http:", "localhost", "", "/"), None) == UrlRecord("ws:", "localhost", "8900", "/")
    ensures Href(UrlRecord("http:", "localhost", "", "/")) == "http://localhost/"
    ensures Href(UrlRecord("ws:", "localhost", "8900", "/")) == "ws://localhost:8900/"
  {
    SubscriptionsProtocolRule(UrlRecord("http:", "localhost", "", "/"), None);
    assert "http:" + "//" + "localhost" == "http://localhost";
    assert "ws:" + "//" + "localhost" == "ws://localhost";
    assert "ws://localhost" + (":" + "8900") == "ws://localhost:8900";
  }

  /** `https://example.com` with no overrides: no port is forced on the subscriptions URL. */
  lemma RemoteHostKeepsItsPort(cluster: Cluster, env: UrlEnv)
    ensures var r := CreateClient(cluster, Parsed(UrlRecord("https:", "example.com", "", "/")), None, None, env);
      && r.Success?
      && r.value.rpcSubscriptions.url == "wss://example.com/"
  {
    assert MatchesHttpScheme("https:");
    RemoteHostUrls();
  }

  /** The subscriptions record and its `href` for the example above. */
  lemma RemoteHostUrls()
    ensures SubscriptionsUrl(UrlRecord("https:", "example.com", "", "/"), None) == UrlRecord("wss:", "example.com", "", "/")
    ensures Href(UrlRecord("wss:", "example.com", "", "/")) == "wss://example.com/"
  {
    SubscriptionsProtocolRule(UrlRecord("https:", "example.com", "", "/"), None);
    LoopbackIsAPrefixTest();
    assert "wss:" + "//" == "wss://";
    assert "wss://" + "example.com" == "wss://example.com";
  }

  /** Explicit ports 8899 and 8901 end up on the two URLs even for a loopback host. */
  lemma ExplicitPortsWin(cluster: Cluster, env: UrlEnv, settings: Config)
    ensures var r := CreateClient(cluster, Parsed(UrlRecord("http:", "127.0.0.1", "", "/")),
        Some(TransportConfig(Some(8899), settings)), Some(TransportConfig(Some(8901), settings)), env);
      && r.Success?
      && r.value.rpc.url == "http://127.0.0.1:8899/"
      && r.value.rpcSubscriptions.url == "ws://127.0.0.1:8901/"
  {
    assert MatchesHttpScheme("http:");
    ExplicitPortUrls(settings);
    ExplicitPortHrefs();
  }

  /** The two URL records of the example above. */
  lemma ExplicitPortUrls(settings: Config)
    ensures RpcUrl(UrlRecord("http:", "127.0.0.1", "", "/"), Some(TransportConfig(Some(8899), settings)))
      == UrlRecord("http:", "127.0.0.1", "8899", "/")
    ensures SubscriptionsUrl(UrlRecord("http:", "127.0.0.1", "8899", "/"), Some(TransportConfig(Some(8901), settings)))
      == UrlRecord("ws:", "127.0.0.1", "8901", "/")
  {
    PortDigits();
    SubscriptionsProtocolRule(UrlRecord("http:", "127.0.0.1", "8899", "/"), Some(TransportConfig(Some(8901), settings)));
  }

  /** The `href`s of the two records above. */
  lemma ExplicitPortHrefs()
    ensures Href(UrlRecord("http:", "127.0.0.1", "8899", "/")) == "http://127.0.0.1:8899/"
    ensures Href(UrlRecord("ws:", "127.0.0.1", "8901", "/")) == "ws://127.0.0.1:8901/"
  {
    assert "http:" + "//" == "http://";
    assert "http://" + "127.0.0.1" == "http://127.0.0.1";
    assert "http://127.0.0.1" + (":" + "8899") == "http://127.0.0.1:8899";
    assert "ws:" + "//" == "ws://";
    assert "ws://" + "127.0.0.1" == "ws://127.0.0.1";
    assert "ws://127.0.0.1" + (":" + "8901") == "ws://127.0.0.1:8901";
  }

  /** The decimal renderings used above, one digit at a time. */
  lemma PortDigits()
    ensures DecimalString(8899) == "8899" && DecimalString(8901) == "8901"
  {
    assert DecimalString(8) == "8" && DecimalString(88) == "88" && DecimalString(889) == "889";
    assert DecimalString(9) == "9" && DecimalString(89) == "89" && DecimalString(890) == "890";
  }
}
