/** DefaultAdminClientProvider.createAdminClient: the overload without a
    Properties argument starts from an empty configuration. Building the
    Admin client itself is not modelled; only the configuration it is given. */
module AdminClientProvider {
  import opened Wrappers
  import opened Secrets
  import opened ConfigMaps
  import opened AdminClientConfig
  import opened AdminClientProperties

  /** The configuration createAdminClient(bootstrap, ca, keyCert, alias)
      hands to Admin.create: it fails only on malformed Secrets or a null
      address, and otherwise holds nothing but options the method writes,
      with every operational default at its built-in value. */
  function CreateAdminClientConfiguration(
    bootstrap: Option<string>, ca: Option<Secret>, keyCert: Option<Secret>, alias: Option<string>, codec: Codec): (r: Result<Config, Error>)
    ensures r.Failure? <==> CaRejected(ca) || KeyPairRejected(keyCert, alias) || bootstrap.None?
    ensures r.Success? ==> forall k :: k in r.value ==> k in WrittenOptions
    ensures r.Success? ==>
      && Lookup(r.value, BootstrapServers) == bootstrap
      && Lookup(r.value, MetadataMaxAge) == Some(DefaultMetadataMaxAge)
      && Lookup(r.value, RequestTimeout) == Some(DefaultRequestTimeout)
      && Lookup(r.value, Retries) == Some(DefaultRetries)
      && Lookup(r.value, DefaultApiTimeout) == Some(DefaultApiTimeoutValue)
  {
    var empty: Config := map[];
    var r := AdminClientConfiguration(bootstrap, ca, keyCert, alias, Some(empty), codec);
    if r.Success? then
      BootstrapServersSetting(bootstrap.value, ca, keyCert, alias, empty, codec);
      OperationalDefaultSettings(bootstrap.value, ca, keyCert, alias, empty, codec);
      NothingElseChanges(bootstrap.value, ca, keyCert, alias, empty, codec);
      r
    else r
  }
}
