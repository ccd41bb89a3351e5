# Server TLS context builder (Micronaut, Netty server)

A Dafny model of `CertificateProvidedSslBuilder`, the Micronaut Netty server
component that turns the SSL configuration into a Netty `SslContext`. The
model covers four parts:

- **Policy resolution** (`setupSslBuilder`). `TlsPolicy.ResolvePolicy` states the
  decision as data: the protocol list, the cipher list and its filter, the
  engine client-auth value, and for HTTP/2 the provider and the ALPN
  configuration. `TlsPolicy.SetupSslBuilder` follows the source's branches on a
  Netty builder, and its contract says the result is that policy applied to
  the builder. `TlsPolicy.ObserveApplyRoundTrip` shows that applying a policy
  to a fresh builder loses nothing.
- **Store caches** (`getKeyStore`, `getTrustStore`) and **refresh**
  (`onApplicationEvent`). These are modelled as two slots, each with a load
  counter, and a trace semantics (`StoreCache.Run`). Lemmas cover cache hits,
  the retry after a "no store" answer, and a burst of refreshes followed by
  exactly one reload per slot.
- **Activation condition** (`SelfSignedNotConfigured.validate`), as
  `Activation.Validate` over a condition context that records failures.
- **Build** (`build()`, `build(ssl)`, `build(ssl, httpVersion)`).
  `CertificateProvidedSslBuilder.BuildSpec` is the declarative outcome and
  `CertificateProvidedSslBuilder.Build` is the step-by-step version proved
  equal to it. Also modelled: the listener order and the observed
  configuration prefixes.

Modules: `Wrappers` (Option, Result), `Netty` (the engine vocabulary and the
`SslContextBuilder` settings), `SslConfig` (the configuration read),
`TlsPolicy`, `StoreCache`, `Activation` and `CertificateProvidedSslBuilder`.

Parameters that stand in for code outside the model:

- Each store loader (`SslBuilder.getKeyStore` / `getTrustStore`, which do
  keystore I/O) is a `LoadOutcome`: a store, no store, or an exception.
- `SslProvider.isAlpnSupported(OPENSSL)` is a boolean.
- Netty's `SslContextBuilder.build()` is a function from the accumulated
  settings to a context or an `SSLException`.

## Model

| member | source | states |
|---|---|---|
| TlsPolicy.ResolvePolicy | http-server-netty/src/main/java/io/micronaut/http/server/netty/ssl/CertificateProvidedSslBuilder.java:109-142 | a configured protocol list is used verbatim and an absent one stays unset; ALPN and a provider are set exactly for HTTP/2; ALPN advertises ["h2", "http/1.1"] with NO_ADVERTISE / ACCEPT; ciphers, client auth and provider are those the three helper resolvers give |
| TlsPolicy.ResolveCiphers | http-server-netty/src/main/java/io/micronaut/http/server/netty/ssl/CertificateProvidedSslBuilder.java:114-120 | an explicit cipher list is used unfiltered for every version; with none, HTTP/2 gets the HTTP/2 suite list with the supported-suite filter and other versions leave ciphers unset; the filter is only ever used for HTTP/2 |
| TlsPolicy.MapClientAuth | http-server-netty/src/main/java/io/micronaut/http/server/netty/ssl/CertificateProvidedSslBuilder.java:121-129 | NEED maps to REQUIRE and WANT to OPTIONAL, each as an if-and-only-if; absent leaves client auth untouched; NONE is never set explicitly |
| TlsPolicy.ResolveProvider | http-server-netty/src/main/java/io/micronaut/http/server/netty/ssl/CertificateProvidedSslBuilder.java:131-133 | a provider is chosen only for HTTP/2: OPENSSL exactly when it supports ALPN, JDK exactly when it does not |
| TlsPolicy.ApplyPolicy | http-server-netty/src/main/java/io/micronaut/http/server/netty/ssl/CertificateProvidedSslBuilder.java:110-141 | on any builder, applying a policy sets every setting the policy fixes to the policy's value, keeps the key and trust managers, and leaves every other setting as the builder had it |
| TlsPolicy.ObserveApplyRoundTrip | http-server-netty/src/main/java/io/micronaut/http/server/netty/ssl/CertificateProvidedSslBuilder.java:109-142 | a policy the resolver can produce can be read back unchanged from a fresh server builder it was applied to |
| TlsPolicy.ClientAuthOnFreshBuilder | http-server-netty/src/main/java/io/micronaut/http/server/netty/ssl/CertificateProvidedSslBuilder.java:121-129 | on a fresh server builder, NEED, WANT and absent end as REQUIRE, OPTIONAL and NONE respectively, three distinct engine behaviours |
| TlsPolicy.SetupSslBuilder | http-server-netty/src/main/java/io/micronaut/http/server/netty/ssl/CertificateProvidedSslBuilder.java:109-142 | the source's branch-by-branch setup equals the declarative policy applied to the incoming builder, and leaves the identity and trust material alone |
| StoreCache.Lookup | http-server-netty/src/main/java/io/micronaut/http/server/netty/ssl/CertificateProvidedSslBuilder.java:145-158 | a filled slot is returned without consulting the loader; an empty slot consults it once; the store found is exactly the one cached; "no store" leaves the slot empty; an exception propagates with the slot still empty; the caller receives the slot's content |
| StoreCache.GetKeyStore | http-server-netty/src/main/java/io/micronaut/http/server/netty/ssl/CertificateProvidedSslBuilder.java:152-158 | the key-store lookup is the cached lookup on the key slot and does not touch the trust slot |
| StoreCache.GetTrustStore | http-server-netty/src/main/java/io/micronaut/http/server/netty/ssl/CertificateProvidedSslBuilder.java:144-150 | the trust-store lookup is the cached lookup on the trust slot and does not touch the key slot |
| StoreCache.OnRefresh | http-server-netty/src/main/java/io/micronaut/http/server/netty/ssl/CertificateProvidedSslBuilder.java:168-173 | a refresh empties both slots whatever the event holds, without consulting a loader |
| StoreCache.CachedSlotIsStable | http-server-netty/src/main/java/io/micronaut/http/server/netty/ssl/CertificateProvidedSslBuilder.java:145-158 | once a slot is filled, no sequence of lookups without a refresh changes its content or its load count |
| StoreCache.RefreshBurstClears | http-server-netty/src/main/java/io/micronaut/http/server/netty/ssl/CertificateProvidedSslBuilder.java:168-173 | any non-empty burst of refreshes has the same effect as one: both slots empty, load counts unchanged |
| StoreCache.BurstThenSingleReload | http-server-netty/src/main/java/io/micronaut/http/server/netty/ssl/CertificateProvidedSslBuilder.java:145-173 | after a burst of refreshes, lookups that find stores, followed by any further lookups, reload each slot exactly once |
| StoreCache.NotConfiguredIsRetried | http-server-netty/src/main/java/io/micronaut/http/server/netty/ssl/CertificateProvidedSslBuilder.java:145-157 | n lookups on an empty key or trust slot whose loader finds no store consult that loader n times and cache nothing |
| Activation.Validate | http-server-netty/src/main/java/io/micronaut/http/server/netty/ssl/CertificateProvidedSslBuilder.java:180-193 | the condition holds exactly when neither self-signed key is set, and then records nothing; otherwise it appends one reason naming the deprecated key if that is set, else the current key |
| Activation.DeprecatedKeyTakesPrecedence | http-server-netty/src/main/java/io/micronaut/http/server/netty/ssl/CertificateProvidedSslBuilder.java:182-188 | with the deprecated key set, the current key makes no difference, and the reason differs from the one given for the current key alone |
| CertificateProvidedSslBuilder.BuildSpec | http-server-netty/src/main/java/io/micronaut/http/server/netty/ssl/CertificateProvidedSslBuilder.java:95-107 | a build never yields an empty optional: it returns the context Netty built from the resolved settings, or fails with a configuration error carrying the store or engine cause; the key store is looked up first and a failure there leaves the trust cache alone |
| CertificateProvidedSslBuilder.Build | http-server-netty/src/main/java/io/micronaut/http/server/netty/ssl/CertificateProvidedSslBuilder.java:95-107 | the step-by-step build (cached stores, setup, Netty build with the SSLException wrapped) has exactly the declared outcome |
| CertificateProvidedSslBuilder.BuildForServerVersion | http-server-netty/src/main/java/io/micronaut/http/server/netty/ssl/CertificateProvidedSslBuilder.java:89-93 | build(ssl) uses the HTTP version of the server configuration |
| CertificateProvidedSslBuilder.BuildDefault | http-server-netty/src/main/java/io/micronaut/http/server/netty/ssl/CertificateProvidedSslBuilder.java:83-86 | build() uses the builder's own SSL configuration and the server's HTTP version |
| CertificateProvidedSslBuilder.OnApplicationEvent | http-server-netty/src/main/java/io/micronaut/http/server/netty/ssl/CertificateProvidedSslBuilder.java:168-173 | a refresh keeps the configuration and clears both caches |
| CertificateProvidedSslBuilder.SecondBuildHitsCache | http-server-netty/src/main/java/io/micronaut/http/server/netty/ssl/CertificateProvidedSslBuilder.java:145-158 | after a build that found both stores, a second build without a refresh consults no loader and keeps the same stores |
| CertificateProvidedSslBuilder.BuildAfterRefreshReloads | http-server-netty/src/main/java/io/micronaut/http/server/netty/ssl/CertificateProvidedSslBuilder.java:168-173 | after a refresh the next build consults each loader exactly once and caches the stores found |
| CertificateProvidedSslBuilder.GetOrder | http-server-netty/src/main/java/io/micronaut/http/server/netty/ssl/CertificateProvidedSslBuilder.java:175-178 | the listener's order is ten below the default refresh-listener position, so it runs before listeners at that position, and does not wrap around |
| CertificateProvidedSslBuilder.ObservedConfigurationPrefixes | http-server-netty/src/main/java/io/micronaut/http/server/netty/ssl/CertificateProvidedSslBuilder.java:160-166 | the observed prefixes are exactly the two SSL configuration namespaces, and they are distinct |

## Left out

- Netty internals: what `SslContextBuilder.build()` does with the settings, and how a handshake negotiates a protocol from the list, are not modelled. The build function is a parameter, so "negotiated protocol is in the declared list" is not stated.
- Netty setters are modelled as recording their argument and changing nothing else. The default settings of `forServer` are taken as: client auth NONE, identity filter, everything else unset.
- `Http2SecurityUtil.CIPHERS` is a fixed constant. Its exact contents are Netty's and no property depends on them.
- `SslBuilder` (superclass) is not part of this model. That covers `getKeyManagerFactory` / `getTrustManagerFactory` and the keystore I/O behind `super.getKeyStore` / `getTrustStore`. The model assumes:
  - a manager factory wraps the optional store;
  - a load exception surfaces as `SslConfigurationException` carrying the load failure;
  - the key store is looked up before the trust store (Java's evaluation order at lines 97-99).
- `SslConfiguration`, `ServerSslConfiguration`, `ClientAuthentication`, `RefreshEventListener` and `Ordered` are not part of this model. Their constants are assumptions taken from Micronaut, declared in other Micronaut classes rather than in CertificateProvidedSslBuilder.java: the prefixes "micronaut.ssl" and "micronaut.server.ssl", the enum values WANT and NEED, and DEFAULT_POSITION = Integer.MIN_VALUE + 200. "No client authentication" is modelled as an absent mode.
- Thread safety: the cache fields are plain unsynchronized fields, so the model is sequential only.
- The dependency-injection annotations, `SslEnabledCondition` (not part of this model), and `BuildSelfSignedCondition`, which computes the two flags `Validate` receives.
- `getSslConfiguration` (lines 78-81) only returns the stored configuration. The model reads `Builder.ssl` directly.
- NettyConverters, DefaultValidatorFactory and the `Replaces` annotation: converter registration, a validator-factory shim and an annotation declaration, none of them part of the TLS builder.
