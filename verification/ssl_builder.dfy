/** `CertificateProvidedSslBuilder`: builds the server's TLS context from the
    configured certificate material. A build looks up the key store and then
    the trust store through the caches, resolves the TLS policy, applies it
    to a Netty server builder and lets Netty finish the context; a refresh
    clears the caches. */
module CertificateProvidedSslBuilder {
  import opened Wrappers
  import opened Netty
  import opened SslConfig
  import opened TlsPolicy
  import opened StoreCache

  /** One builder instance: the configuration it was created with and its
      store caches. */
  datatype Builder = Builder(server: HttpServerConfiguration, ssl: SslConfiguration, caches: Caches)

  /** Why a build failed: a store could not be loaded, or Netty rejected the
      settings. */
  datatype Cause = StoreLoadFailure(reason: string) | EngineFailure(reason: string)

  /** `SslConfigurationException`, the one error kind a build raises. A store
      failure is wrapped without a message of its own (the message is then
      the cause's); a Netty failure carries `SetupFailedMessage`. */
  datatype SslConfigurationException = SslConfigurationException(message: Option<string>, cause: Cause)

  const SetupFailedMessage: string := "An error occurred while setting up SSL"

  /** What the outside world contributes to one build: what each store
      loader yields if it is consulted, whether the native engine supports
      ALPN, and what Netty's `build()` makes of the finished settings. */
  datatype Environment = Environment(
    keyLoader: LoadOutcome,
    trustLoader: LoadOutcome,
    openSslAlpn: bool,
    engine: SslContextBuilder -> EngineOutcome)

  /** The builder after a build, and the `Optional<SslContext>` returned or
      the exception thrown. */
  datatype BuildOutcome = BuildOutcome(builder: Builder, result: Result<Option<SslContext>, SslConfigurationException>)

  /** The Netty settings for a build once both stores are known. */
  function Settings(keyStore: Option<KeyStore>, trustStore: Option<KeyStore>, ssl: SslConfiguration,
                    version: HttpVersion, openSslAlpn: bool): SslContextBuilder
  {
    ApplyPolicy(ForServer(KeyManagerFactory(keyStore), TrustManagerFactory(trustStore)),
                ResolvePolicy(ssl, version, openSslAlpn))
  }

  /** What a build does, stated declaratively. It never returns an empty
      optional: it succeeds with the context Netty built from the resolved
      settings, or fails with a configuration error carrying the cause. The
      key store is looked up first; if that throws, the trust-store cache is
      not touched. */
  function BuildSpec(b: Builder, ssl: SslConfiguration, version: HttpVersion, env: Environment): (o: BuildOutcome)
    ensures o.builder.server == b.server && o.builder.ssl == b.ssl
    ensures o.result.Success? ==> o.result.value.Some?
    ensures var kl := Lookup(b.caches.keyStore, env.keyLoader);
      && o.builder.caches.keyStore == kl.slot
      && (kl.result.Failure? ==>
            && o.builder.caches.trustStore == b.caches.trustStore
            && o.result == Failure(SslConfigurationException(None, StoreLoadFailure(kl.result.error))))
    ensures var kl := Lookup(b.caches.keyStore, env.keyLoader);
      var tl := Lookup(b.caches.trustStore, env.trustLoader);
      kl.result.Success? ==>
        && o.builder.caches.trustStore == tl.slot
        && (tl.result.Failure? ==> o.result == Failure(SslConfigurationException(None, StoreLoadFailure(tl.result.error))))
        && (tl.result.Success? ==>
              var built := env.engine(Settings(kl.result.value, tl.result.value, ssl, version, env.openSslAlpn));
              && (built.Built? ==> o.result == Success(Some(built.context)))
              && (built.SslException? ==>
                    o.result == Failure(SslConfigurationException(Some(SetupFailedMessage), EngineFailure(built.message)))))
  {
    var kl := Lookup(b.caches.keyStore, env.keyLoader);
    var afterKey := b.(caches := b.caches.(keyStore := kl.slot));
    match kl.result
    case Failure(cause) =>
      BuildOutcome(afterKey, Failure(SslConfigurationException(None, StoreLoadFailure(cause))))
    case Success(keyStore) =>
      var tl := Lookup(b.caches.trustStore, env.trustLoader);
      var afterTrust := afterKey.(caches := afterKey.caches.(trustStore := tl.slot));
      match tl.result
      case Failure(cause) =>
        BuildOutcome(afterTrust, Failure(SslConfigurationException(None, StoreLoadFailure(cause))))
      case Success(trustStore) =>
        match env.engine(Settings(keyStore, trustStore, ssl, version, env.openSslAlpn))
        case Built(ctx) => BuildOutcome(afterTrust, Success(Some(ctx)))
        case SslException(m) =>
          BuildOutcome(afterTrust, Failure(SslConfigurationException(Some(SetupFailedMessage), EngineFailure(m))))
  }

  /** `build(ssl, httpVersion)`, step by step as the source does it: the key
      manager from the cached key store, then the trust manager from the
      cached trust store, then `setupSslBuilder`, then Netty's build with
      its `SSLException` wrapped. */
  method Build(b: Builder, ssl: SslConfiguration, version: HttpVersion, env: Environment) returns (o: BuildOutcome)
    ensures o == BuildSpec(b, ssl, version, env)
  {
    var key := GetKeyStore(b.caches, env.keyLoader);
    if key.result.Failure? {
      return BuildOutcome(b.(caches := key.caches), Failure(SslConfigurationException(None, StoreLoadFailure(key.result.error))));
    }
    var trust := GetTrustStore(key.caches, env.trustLoader);
    var b' := b.(caches := trust.caches);
    if trust.result.Failure? {
      return BuildOutcome(b', Failure(SslConfigurationException(None, StoreLoadFailure(trust.result.error))));
    }
    var sslBuilder := ForServer(KeyManagerFactory(key.result.value), TrustManagerFactory(trust.result.value));
    sslBuilder := SetupSslBuilder(sslBuilder, ssl, version, env.openSslAlpn);
    var built := env.engine(sslBuilder);
    match built
    case Built(ctx) =>
      o := BuildOutcome(b', Success(Some(ctx)));
    case SslException(m) =>
      o := BuildOutcome(b', Failure(SslConfigurationException(Some(SetupFailedMessage), EngineFailure(m))));
  }

  /** `build(ssl)`: the HTTP version is the server's configured one. */
  method BuildForServerVersion(b: Builder, ssl: SslConfiguration, env: Environment) returns (o: BuildOutcome)
    ensures o == BuildSpec(b, ssl, b.server.httpVersion, env)
  {
    o := Build(b, ssl, b.server.httpVersion, env);
  }

  /** `build()`: the builder's own SSL configuration and the server's HTTP
      version. */
  method BuildDefault(b: Builder, env: Environment) returns (o: BuildOutcome)
    ensures o == BuildSpec(b, b.ssl, b.server.httpVersion, env)
  {
    o := BuildForServerVersion(b, b.ssl, env);
  }

  /** `onApplicationEvent`: the configuration stays, the caches are cleared
      whatever the event says. */
  function OnApplicationEvent(b: Builder, e: RefreshEvent): (r: Builder)
    ensures r.server == b.server && r.ssl == b.ssl
    ensures r.caches == OnRefresh(b.caches, e)
  {
    b.(caches := OnRefresh(b.caches, e))
  }

  /** Once a build has found both stores, a later build without a refresh in
      between consults neither loader, whatever they would yield, and sees
      the same stores. */
  lemma SecondBuildHitsCache(b: Builder, ssl: SslConfiguration, version: HttpVersion, env: Environment,
                             ssl2: SslConfiguration, version2: HttpVersion, env2: Environment)
    requires env.keyLoader.Found? && env.trustLoader.Found?
    ensures var first := BuildSpec(b, ssl, version, env).builder;
      first.caches.keyStore.cached.Some? && first.caches.trustStore.cached.Some? &&
      BuildSpec(first, ssl2, version2, env2).builder.caches == first.caches
  {
  }

  /** After a refresh, the next build consults each loader exactly once and
      keeps the stores they find. */
  lemma BuildAfterRefreshReloads(b: Builder, e: RefreshEvent, ssl: SslConfiguration, version: HttpVersion, env: Environment)
    requires env.keyLoader.Found? && env.trustLoader.Found?
    ensures var c := BuildSpec(OnApplicationEvent(b, e), ssl, version, env).builder.caches;
      && c.keyStore == Slot(Some(env.keyLoader.store), b.caches.keyStore.loads + 1)
      && c.trustStore == Slot(Some(env.trustLoader.store), b.caches.trustStore.loads + 1)
  {
  }

  /** `Integer.MIN_VALUE`, Micronaut's `Ordered.HIGHEST_PRECEDENCE`. */
  const HighestPrecedence: int := -0x8000_0000

  /** `RefreshEventListener.DEFAULT_POSITION`. */
  const RefreshDefaultPosition: int := HighestPrecedence + 200

  /** `getOrder`: ten positions ahead of the default refresh listeners (a
      lower order runs earlier), with no 32-bit wrap-around. */
  function GetOrder(): (r: int)
    ensures r < RefreshDefaultPosition && RefreshDefaultPosition - r == 10
    ensures HighestPrecedence <= r
  {
    RefreshDefaultPosition - 10
  }

  /** `getObservedConfigurationPrefixes`: exactly the general and the
      server-specific SSL namespaces, two distinct prefixes. */
  function ObservedConfigurationPrefixes(): (r: set<string>)
    ensures |r| == 2
    ensures forall p :: p in r <==> p == SslPrefix || p == ServerSslPrefix
  {
    assert SslPrefix[11] != ServerSslPrefix[11];
    {SslPrefix, ServerSslPrefix}
  }
}
