/** The configuration record of go-smtp-send and its validator (main.go:17-32, 110-118). */
module Config {
  import opened Wrappers

  datatype Server = Server(host: string, tls: bool, verifyTls: bool)

  /** Credentials for SMTP PLAIN authentication; an empty username means "no authentication". */
  datatype PlainAuth = PlainAuth(username: string, password: string)

  datatype Configuration = Configuration(server: Server, from: string, auth: PlainAuth)

  /** The path read when no -config flag is given. */
  const DefaultConfigurationFile: string := "/etc/go-smtp-send.yaml"

  /** The two errors CheckConfig can report ("from field empty", "no host specified"). */
  datatype ConfigError = FromFieldEmpty | NoHostSpecified

  /** A configuration fit to be used: sender address and server host both given. */
  predicate Usable(c: Configuration)
  {
    c.from != "" && c.server.host != ""
  }

  /** Returns the error CheckConfig reports, or None when the configuration is accepted. */
  function CheckConfig(c: Configuration): (r: Option<ConfigError>)
    ensures r == None <==> Usable(c)
    ensures c.from == "" ==> r == Some(FromFieldEmpty)
    ensures c.from != "" && c.server.host == "" ==> r == Some(NoHostSpecified)
  {
    if c.from == "" then Some(FromFieldEmpty)
    else if c.server.host == "" then Some(NoHostSpecified)
    else None
  }

  /** Only the sender and the server host are looked at: TLS, VerifyTLS and Auth play no part. */
  lemma CheckConfigReadsFromAndHostOnly(c1: Configuration, c2: Configuration)
    requires c1.from == c2.from && c1.server.host == c2.server.host
    ensures CheckConfig(c1) == CheckConfig(c2)
  {
  }
}
