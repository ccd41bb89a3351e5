/** Micronaut's side of the configuration the server builder reads: the HTTP
    version of the server and the SSL settings. */
module SslConfig {
  import opened Wrappers

  /** `io.micronaut.http.HttpVersion`. */
  datatype HttpVersion = Http10 | Http11 | Http20

  /** `io.micronaut.http.ssl.ClientAuthentication`; an unset value (the
      configuration's "none") is the `None` of the enclosing option. */
  datatype ClientAuthentication = Want | Need

  /** The part of `SslConfiguration` that shapes the TLS policy. Store
      locations and passwords are read by the store loader, which the model
      treats as a black box. */
  datatype SslConfiguration = SslConfiguration(
    protocols: Option<seq<string>>,
    ciphers: Option<seq<string>>,
    clientAuthentication: Option<ClientAuthentication>)

  /** The part of `HttpServerConfiguration` the builder reads. */
  datatype HttpServerConfiguration = HttpServerConfiguration(httpVersion: HttpVersion)

  /** `SslConfiguration.PREFIX` and `ServerSslConfiguration.PREFIX`. */
  const SslPrefix: string := "micronaut.ssl"
  const ServerSslPrefix: string := "micronaut.server.ssl"
}
