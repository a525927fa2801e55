/** The connector's own settings: the three it cannot run without. */
module Configuration {
  import opened Outcomes

  datatype Config = Config(clientId: string, clientSecret: string, subdomain: string)

  /** validateConfig: the client id, the client secret and the subdomain must all be set;
      one missing setting is enough to refuse the configuration. */
  function ValidateConfig(cfg: Config): (r: Result<()>)
    ensures r.Success? <==> cfg.clientId != "" && cfg.clientSecret != "" && cfg.subdomain != ""
    ensures r.Failure? ==> r.error == InvalidConfig
  {
    if cfg.clientId == "" || cfg.clientSecret == "" || cfg.subdomain == "" then Failure(InvalidConfig)
    else Success(())
  }
}
