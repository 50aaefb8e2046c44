/** Concrete cases of adminClientConfiguration: the plain, TLS and mutual TLS
    connections, a caller's timeout that survives, and malformed Secrets. */
module AdminClientExamples {
  import opened Wrappers
  import opened Secrets
  import opened ConfigMaps
  import opened AdminClientConfig
  import opened AdminClientProperties

  const CaSecret := Secret("my-cluster-cluster-ca-cert", Some(map["ca.crt" := "Y2VydA=="]))
  const UserSecret := Secret("my-user", Some(map["client.key" := "a2V5", "client.crt" := "Y2VydA=="]))

  /** No Secrets: a plain connection whose configuration holds the address
      and the four defaults and nothing else. */
  lemma PlainConnection(codec: Codec)
    ensures var r := AdminClientConfiguration(Some("broker:9092"), None, None, None, Some(map[]), codec);
      && r.Success?
      && r.value.Keys == {BootstrapServers} + DefaultOptions
      && Lookup(r.value, BootstrapServers) == Some("broker:9092")
      && Lookup(r.value, RequestTimeout) == Some("10000")
  {
    var empty: Config := map[];
    BootstrapServersSetting("broker:9092", None, None, None, empty, codec);
    OperationalDefaultSettings("broker:9092", None, None, None, empty, codec);
    ConfigurationFollowsPrecedence("broker:9092", None, None, None, empty, codec);
    var r := AdminClientConfiguration(Some("broker:9092"), None, None, None, Some(empty), codec);
    PlainKeys(r.value, "broker:9092", RequestedMaterial(None, None, None, codec));
  }

  /** Without TLS material and from an empty configuration, the precedence
      rules set exactly the address and the operational defaults. */
  lemma PlainKeys(r: Config, bootstrap: string, material: Material)
    requires material.trustedCertificates.None? && material.keyPair.None?
    requires FollowsPrecedence(r, bootstrap, material, map[])
    ensures r.Keys == {BootstrapServers} + DefaultOptions
  {
    forall k | k in r
      ensures k in {BootstrapServers} + DefaultOptions
    {
      OperationalDefaultsTable(k);
      assert Lookup(r, k) == Resolve(bootstrap, material, map[], k);
    }
    forall k | k in {BootstrapServers} + DefaultOptions
      ensures k in r
    {
      OperationalDefaultsTable(k);
      assert Lookup(r, k) == Resolve(bootstrap, material, map[], k);
    }
  }

  /** A caller's request timeout of 5000 is not replaced by the default 10000. */
  lemma CallerTimeoutKept(codec: Codec)
    ensures var r := AdminClientConfiguration(Some("broker:9092"), None, None, None, Some(map[RequestTimeout := "5000"]), codec);
      r.Success? && Lookup(r.value, RequestTimeout) == Some("5000")
  {
    OperationalDefaultSettings("broker:9092", None, None, None, map[RequestTimeout := "5000"], codec);
  }

  /** A CA Secret with a "ca.crt" entry: TLS with the CA bundle as truststore
      and, as the caller chose no protocol, "SSL". */
  lemma TlsConnection(codec: Codec)
    ensures var r := AdminClientConfiguration(Some("broker:9093"), Some(CaSecret), None, None, Some(map[]), codec);
      && r.Success?
      && Lookup(r.value, SecurityProtocol) == Some("SSL")
      && Lookup(r.value, TruststoreType) == Some("PEM")
      && Lookup(r.value, TruststoreCertificates) == Some(codec.certsToPemString(CaSecret))
      && (forall k :: k in KeystoreOptions ==> Lookup(r.value, k) == None)
  {
    CaSecretAccepted();
    SecurityProtocolSetting("broker:9093", Some(CaSecret), None, None, map[], codec);
    TruststoreSettings("broker:9093", Some(CaSecret), None, None, map[], codec);
    KeystoreSettings("broker:9093", Some(CaSecret), None, None, map[], codec);
  }

  /** A caller's "SASL_SSL" protocol survives even though TLS material is produced. */
  lemma CallerProtocolKept(codec: Codec)
    ensures var r := AdminClientConfiguration(Some("broker:9093"), Some(CaSecret), None, None, Some(map[SecurityProtocol := "SASL_SSL"]), codec);
      r.Success? && Lookup(r.value, SecurityProtocol) == Some("SASL_SSL")
  {
    CaSecretAccepted();
    SecurityProtocolSetting("broker:9093", Some(CaSecret), None, None, map[SecurityProtocol := "SASL_SSL"], codec);
  }

  /** The example CA Secret passes the ".crt" check. */
  lemma CaSecretAccepted()
    ensures !CaRejected(Some(CaSecret))
  {
    assert EndsWith("ca.crt", CrtSuffix);
  }

  /** The example user Secret holds the key pair "client". */
  lemma UserSecretAccepted()
    ensures !KeyPairRejected(Some(UserSecret), Some("client"))
  {
    assert EntryName("client", KeySuffix) == "client.key" && EntryName("client", CrtSuffix) == "client.crt";
  }

  /** Both Secrets and the alias "client": truststore and keystore are
      written, the key being the decoded "client.key" entry. */
  lemma MutualTlsConnection(codec: Codec)
    ensures var r := AdminClientConfiguration(Some("broker:9094"), Some(CaSecret), Some(UserSecret), Some("client"), Some(map[]), codec);
      && r.Success?
      && Lookup(r.value, TruststoreType) == Some("PEM")
      && Lookup(r.value, KeystoreType) == Some("PEM")
      && Lookup(r.value, KeystoreKey) == Some(DecodedKeyPair(UserSecret, "client", codec).privateKey)
  {
    CaSecretAccepted();
    UserSecretAccepted();
    var empty: Config := map[];
    TruststoreSettings("broker:9094", Some(CaSecret), Some(UserSecret), Some("client"), empty, codec);
    KeystoreSettings("broker:9094", Some(CaSecret), Some(UserSecret), Some("client"), empty, codec);
  }

  /** An empty alias means no client authentication, even with a key pair Secret. */
  lemma EmptyAliasSkipsClientAuth(codec: Codec)
    ensures var r := AdminClientConfiguration(Some("broker:9092"), None, Some(UserSecret), Some(""), Some(map[]), codec);
      r.Success? && Lookup(r.value, KeystoreKey) == None && Lookup(r.value, SecurityProtocol) == None
  {
    KeystoreSettings("broker:9092", None, Some(UserSecret), Some(""), map[], codec);
    SecurityProtocolSetting("broker:9092", None, Some(UserSecret), Some(""), map[], codec);
  }

  /** A key pair Secret without "client.key" is rejected, naming the Secret and alias. */
  lemma MissingClientKey(codec: Codec, config: Config)
    ensures var secret := Secret("my-user", Some(map["client.crt" := "Y2VydA=="]));
      AdminClientConfiguration(Some("broker:9094"), None, Some(secret), Some("client"), Some(config), codec)
        == Failure(MissingKeyPair("my-user", "client"))
  {
    var secret := Secret("my-user", Some(map["client.crt" := "Y2VydA=="]));
    assert EntryName("client", KeySuffix) == "client.key";
    assert "client.key" !in secret.data.value;
  }

  /** When both Secrets are malformed, the CA Secret's error is reported. */
  lemma CaErrorReportedFirst(codec: Codec, config: Config)
    ensures var ca := Secret("my-cluster-cluster-ca-cert", None);
      var secret := Secret("my-user", None);
      AdminClientConfiguration(Some("broker:9094"), Some(ca), Some(secret), Some("client"), Some(config), codec)
        == Failure(NoCrtEntries("my-cluster-cluster-ca-cert"))
  {
  }

  /** A null configuration is rejected before anything else is looked at. */
  lemma NullConfigRejected(codec: Codec)
    ensures AdminClientConfiguration(None, Some(Secret("ca", None)), None, None, None, codec) == Failure(ConfigIsNull)
  {
  }
}
