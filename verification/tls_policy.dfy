/** The TLS settings the server builder derives from its configuration
    (`setupSslBuilder`). `ResolvePolicy` states the decision declaratively;
    `SetupSslBuilder` follows the source branch by branch on a Netty builder,
    and its contract ties the two together. */
module TlsPolicy {
  import opened Wrappers
  import opened Netty
  import opened SslConfig

  /** How the cipher suites are set: left to the engine, or a list with the
      filter that is applied to it. */
  datatype CipherPolicy = EngineDefaultCiphers | UseCiphers(suites: seq<string>, filter: CipherSuiteFilter)

  /** The resolved settings. `None` in a field means the builder is not
      touched for that setting, so the engine default (or whatever the
      builder already held) applies. */
  datatype Policy = Policy(
    protocols: Option<seq<string>>,
    ciphers: CipherPolicy,
    clientAuth: Option<ClientAuth>,
    provider: Option<SslProvider>,
    alpn: Option<ApplicationProtocolConfig>)

  /** The application protocol configuration used for HTTP/2: ALPN,
      advertising "h2" before "http/1.1", with NO_ADVERTISE on the selector
      side and ACCEPT on the listener side. */
  const Http2Alpn: ApplicationProtocolConfig :=
    ApplicationProtocolConfig(Alpn, NoAdvertise, Accept, [Http2Name, Http11Name])

  /** Client-auth translation into the engine's vocabulary. The three
      outcomes are pairwise distinct, and an unset mode leaves the engine
      untouched. */
  function MapClientAuth(mode: Option<ClientAuthentication>): (r: Option<ClientAuth>)
    ensures r == Some(Require) <==> mode == Some(Need)
    ensures r == Some(Optional) <==> mode == Some(Want)
    ensures r.None? <==> mode.None?
    ensures r != Some(NoClientAuth)
  {
    match mode
    case Some(Need) => Some(Require)
    case Some(Want) => Some(Optional)
    case None => None
  }

  /** Cipher choice: an explicit list wins whatever the HTTP version and is
      not filtered; without one, HTTP/2 gets the HTTP/2 suite list filtered
      to what the engine supports, and other versions leave ciphers unset. */
  function ResolveCiphers(configured: Option<seq<string>>, version: HttpVersion): (r: CipherPolicy)
    ensures configured.Some? ==> r == UseCiphers(configured.value, IdentityFilter)
    ensures configured.None? && version == Http20 ==> r == UseCiphers(Http2Ciphers, SupportedFilter)
    ensures configured.None? && version != Http20 ==> r.EngineDefaultCiphers?
    ensures r.UseCiphers? && r.filter == SupportedFilter ==> version == Http20
  {
    match configured
    case Some(cs) => UseCiphers(cs, IdentityFilter)
    case None => if version == Http20 then UseCiphers(Http2Ciphers, SupportedFilter) else EngineDefaultCiphers
  }

  /** Provider choice: only for HTTP/2, where the native engine is taken
      exactly when it can do ALPN and the JDK engine otherwise. */
  function ResolveProvider(version: HttpVersion, openSslAlpn: bool): (r: Option<SslProvider>)
    ensures r.Some? <==> version == Http20
    ensures r == Some(OpenSsl) <==> version == Http20 && openSslAlpn
    ensures r == Some(Jdk) <==> version == Http20 && !openSslAlpn
  {
    if version == Http20 then Some(if openSslAlpn then OpenSsl else Jdk) else None
  }

  /** The declarative policy for one build. */
  function ResolvePolicy(ssl: SslConfiguration, version: HttpVersion, openSslAlpn: bool): (p: Policy)
    ensures p.protocols == ssl.protocols
    ensures p.ciphers == ResolveCiphers(ssl.ciphers, version)
    ensures p.clientAuth == MapClientAuth(ssl.clientAuthentication)
    ensures p.provider == ResolveProvider(version, openSslAlpn)
    ensures p.alpn.Some? <==> version == Http20
    ensures p.alpn.Some? ==> p.alpn.value.protocol == Alpn && p.alpn.value.supportedProtocols == ["h2", "http/1.1"]
    ensures p.alpn.Some? ==> p.alpn.value.selectorBehavior == NoAdvertise && p.alpn.value.listenerBehavior == Accept
    ensures p.provider.Some? <==> p.alpn.Some?
    ensures WellFormed(p)
  {
    Policy(ssl.protocols,
           ResolveCiphers(ssl.ciphers, version),
           MapClientAuth(ssl.clientAuthentication),
           ResolveProvider(version, openSslAlpn),
           if version == Http20 then Some(Http2Alpn) else None)
  }

  /** Policies whose client-auth setting is observable on a builder: the
      resolver never asks for NONE explicitly. */
  predicate WellFormed(p: Policy) {
    p.clientAuth != Some(NoClientAuth)
  }

  /** Applies a policy to a builder, setting exactly what the policy fixes, in
      the source's order (protocols, ciphers, client auth, provider, ALPN). */
  function ApplyPolicy(b: SslContextBuilder, p: Policy): (r: SslContextBuilder)
    ensures r.keyManager == b.keyManager && r.trustManager == b.trustManager
    ensures p.protocols.None? ==> r.protocols == b.protocols
    ensures p.ciphers.EngineDefaultCiphers? ==> r.ciphers == b.ciphers && r.cipherFilter == b.cipherFilter
    ensures p.clientAuth.None? ==> r.clientAuth == b.clientAuth
    ensures p.provider.None? ==> r.provider == b.provider
    ensures p.alpn.None? ==> r.apn == b.apn
    ensures p.protocols.Some? ==> r.protocols == p.protocols
    ensures p.ciphers.UseCiphers? ==> r.ciphers == Some(p.ciphers.suites) && r.cipherFilter == p.ciphers.filter
    ensures p.clientAuth.Some? ==> r.clientAuth == p.clientAuth.value
    ensures p.provider.Some? ==> r.provider == p.provider
    ensures p.alpn.Some? ==> r.apn == p.alpn
  {
    var b1 := if p.protocols.Some? then b.WithProtocols(p.protocols.value) else b;
    var b2 := match p.ciphers
      case UseCiphers(cs, f) => b1.WithCiphers(cs, f)
      case EngineDefaultCiphers => b1;
    var b3 := if p.clientAuth.Some? then b2.WithClientAuth(p.clientAuth.value) else b2;
    var b4 := if p.provider.Some? then b3.WithProvider(p.provider.value) else b3;
    if p.alpn.Some? then b4.WithApn(p.alpn.value) else b4
  }

  /** Reads back the policy a builder carries, taking Netty's defaults as
      "not set". */
  function Observe(b: SslContextBuilder): Policy {
    Policy(b.protocols,
           if b.ciphers.Some? then UseCiphers(b.ciphers.value, b.cipherFilter) else EngineDefaultCiphers,
           if b.clientAuth == NoClientAuth then None else Some(b.clientAuth),
           b.provider,
           b.apn)
  }

  /** Applying a well-formed policy to a fresh server builder loses nothing:
      the policy can be read back from the builder. */
  lemma ObserveApplyRoundTrip(km: KeyManagerFactory, tm: TrustManagerFactory, p: Policy)
    requires WellFormed(p)
    ensures Observe(ApplyPolicy(ForServer(km, tm), p)) == p
  {
  }

  /** On a fresh server builder the three client-auth modes end up as three
      different engine settings: REQUIRE, OPTIONAL and the default NONE. */
  lemma ClientAuthOnFreshBuilder(km: KeyManagerFactory, tm: TrustManagerFactory, ssl: SslConfiguration,
                                 version: HttpVersion, openSslAlpn: bool)
    ensures var r := ApplyPolicy(ForServer(km, tm), ResolvePolicy(ssl, version, openSslAlpn)).clientAuth;
      && (ssl.clientAuthentication == Some(Need) <==> r == Require)
      && (ssl.clientAuthentication == Some(Want) <==> r == Optional)
      && (ssl.clientAuthentication.None? <==> r == NoClientAuth)
  {
  }

  /** `setupSslBuilder`: the source's branches, applied one setter at a time.
      The result is the declarative policy applied to the incoming builder,
      and the identity and trust material are left as they were. */
  method SetupSslBuilder(b0: SslContextBuilder, ssl: SslConfiguration, version: HttpVersion, openSslAlpn: bool)
    returns (b: SslContextBuilder)
    ensures b == ApplyPolicy(b0, ResolvePolicy(ssl, version, openSslAlpn))
    ensures b.keyManager == b0.keyManager && b.trustManager == b0.trustManager
  {
    b := b0;
    if ssl.protocols.Some? {
      b := b.WithProtocols(ssl.protocols.value);
    }
    var isHttp2 := version == Http20;
    if ssl.ciphers.Some? {
      b := b.WithCiphers(ssl.ciphers.value, IdentityFilter);
    } else if isHttp2 {
      b := b.WithCiphers(Http2Ciphers, SupportedFilter);
    }
    if ssl.clientAuthentication.Some? {
      var clientAuth := ssl.clientAuthentication.value;
      if clientAuth == Need {
        b := b.WithClientAuth(Require);
      } else if clientAuth == Want {
        b := b.WithClientAuth(Optional);
      }
    }
    if isHttp2 {
      var provider := if openSslAlpn then OpenSsl else Jdk;
      b := b.WithProvider(provider);
      b := b.WithApn(ApplicationProtocolConfig(Alpn, NoAdvertise, Accept, [Http2Name, Http11Name]));
    }
  }
}
