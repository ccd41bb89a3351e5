/** The parts of Netty's TLS vocabulary that the server builder touches: the
    engine's client-auth values, providers, cipher filters, the application
    protocol configuration, and the `SslContextBuilder` as a record of the
    settings it has accumulated. Netty itself is foreign code; each setter
    here records its argument and changes nothing else. */
module Netty {
  import opened Wrappers

  /** `io.netty.handler.ssl.ClientAuth`. */
  datatype ClientAuth = NoClientAuth | Optional | Require

  /** `io.netty.handler.ssl.SslProvider`. */
  datatype SslProvider = Jdk | OpenSsl | OpenSslRefCnt

  /** The cipher-suite filter: Netty's identity filter keeps the list as
      given; the supported filter drops suites the engine does not offer. */
  datatype CipherSuiteFilter = IdentityFilter | SupportedFilter

  /** `ApplicationProtocolConfig.Protocol`. */
  datatype ApnProtocol = NoProtocol | Npn | Alpn | NpnAndAlpn

  /** `ApplicationProtocolConfig.SelectorFailureBehavior`. */
  datatype SelectorFailureBehavior = SelectorFatalAlert | NoAdvertise | SelectorChooseMyLastProtocol

  /** `ApplicationProtocolConfig.SelectedListenerFailureBehavior`. */
  datatype SelectedListenerFailureBehavior = Accept | ListenerFatalAlert | ListenerChooseMyLastProtocol

  datatype ApplicationProtocolConfig = ApplicationProtocolConfig(
    protocol: ApnProtocol,
    selectorBehavior: SelectorFailureBehavior,
    listenerBehavior: SelectedListenerFailureBehavior,
    supportedProtocols: seq<string>)

  /** Protocol identifiers of `ApplicationProtocolNames`: "h2" is the ALPN
      identifier of HTTP/2 over TLS (section 3.3 of RFC 7540) and "http/1.1"
      the one of HTTP/1.1 (section 6 of RFC 7301). */
  const Http2Name: string := "h2"
  const Http11Name: string := "http/1.1"

  /** Stands for `Http2SecurityUtil.CIPHERS`, Netty's fixed suite list for
      HTTP/2. The entries below are illustrative: the list's exact contents
      and order belong to Netty, and the model relies only on its being a
      fixed list that includes TLS_ECDHE_RSA_WITH_AES_128_GCM_SHA256, the
      suite section 9.2.2 of RFC 7540 makes mandatory. */
  const Http2Ciphers: seq<string> := [
    "TLS_ECDHE_ECDSA_WITH_AES_128_GCM_SHA256",
    "TLS_ECDHE_RSA_WITH_AES_128_GCM_SHA256",
    "TLS_ECDHE_ECDSA_WITH_AES_256_GCM_SHA384",
    "TLS_ECDHE_RSA_WITH_AES_256_GCM_SHA384",
    "TLS_ECDHE_ECDSA_WITH_CHACHA20_POLY1305_SHA256",
    "TLS_ECDHE_RSA_WITH_CHACHA20_POLY1305_SHA256",
    "TLS_AES_128_GCM_SHA256",
    "TLS_AES_256_GCM_SHA384",
    "TLS_CHACHA20_POLY1305_SHA256"
  ]

  /** An opaque loaded key or trust store (`java.security.KeyStore`). */
  datatype KeyStore = KeyStore(handle: nat)

  /** Key and trust manager factories, initialised from an optional store
      (an absent store means the platform default). */
  datatype KeyManagerFactory = KeyManagerFactory(store: Option<KeyStore>)
  datatype TrustManagerFactory = TrustManagerFactory(store: Option<KeyStore>)

  /** The settings a `SslContextBuilder` holds before `build()`. An unset
      option is Netty's `null`, meaning the engine's default. */
  datatype SslContextBuilder = SslContextBuilder(
    keyManager: KeyManagerFactory,
    trustManager: TrustManagerFactory,
    protocols: Option<seq<string>>,
    ciphers: Option<seq<string>>,
    cipherFilter: CipherSuiteFilter,
    clientAuth: ClientAuth,
    provider: Option<SslProvider>,
    apn: Option<ApplicationProtocolConfig>)
  {
    /** `protocols(String...)` */
    function WithProtocols(ps: seq<string>): SslContextBuilder {
      this.(protocols := Some(ps))
    }

    /** `ciphers(Iterable, CipherSuiteFilter)`; the one-argument overload
        passes the identity filter. */
    function WithCiphers(cs: seq<string>, f: CipherSuiteFilter): SslContextBuilder {
      this.(ciphers := Some(cs), cipherFilter := f)
    }

    /** `clientAuth(ClientAuth)` */
    function WithClientAuth(a: ClientAuth): SslContextBuilder {
      this.(clientAuth := a)
    }

    /** `sslProvider(SslProvider)` */
    function WithProvider(p: SslProvider): SslContextBuilder {
      this.(provider := Some(p))
    }

    /** `applicationProtocolConfig(ApplicationProtocolConfig)` */
    function WithApn(c: ApplicationProtocolConfig): SslContextBuilder {
      this.(apn := Some(c))
    }
  }

  /** `SslContextBuilder.forServer(kmf).trustManager(tmf)`: a server builder
      with every other setting at Netty's default. */
  function ForServer(km: KeyManagerFactory, tm: TrustManagerFactory): SslContextBuilder {
    SslContextBuilder(km, tm, None, None, IdentityFilter, NoClientAuth, None, None)
  }

  /** The handshake-ready context `SslContextBuilder.build()` returns. It is
      opaque; the model keeps the settings it was built from. */
  datatype SslContext = SslContext(settings: SslContextBuilder)

  /** What `SslContextBuilder.build()` does: return a context or throw an
      `SSLException` (an unknown cipher name, an unsupported protocol). */
  datatype EngineOutcome = Built(context: SslContext) | SslException(message: string)
}
