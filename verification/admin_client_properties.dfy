/** What adminClientConfiguration promises about the configuration it
    returns: per-option precedence, the settings each scenario produces, and
    that validation never depends on the caller's entries. */
module AdminClientProperties {
  import opened Wrappers
  import opened Secrets
  import opened ConfigMaps
  import opened AdminClientConfig

  /** Per option, what the writes before the defaults leave behind. */
  ghost predicate CredentialsRule(bootstrap: string, material: Material, config: Config, k: string) {
    Lookup(CredentialsWritten(bootstrap, material, config), k) ==
      if AuthoritativeValue(bootstrap, material, k).Some? then AuthoritativeValue(bootstrap, material, k)
      else if k == SecurityProtocol && HasTlsMaterial(material) then Some(Lookup(config, k).GetOr(Ssl))
      else Lookup(config, k)
  }

  lemma BootstrapRule(bootstrap: string, material: Material, config: Config, k: string)
    requires k == BootstrapServers
    ensures CredentialsRule(bootstrap, material, config, k)
  {
    var c0 := SetAuthoritative(config, BootstrapServers, bootstrap);
    var c1 := ConfigureTruststore(c0, material.trustedCertificates);
    var c2 := ConfigureKeystore(c1, material.keyPair);
    assert Lookup(c2, k) == Some(bootstrap);
  }

  lemma SecurityProtocolRule(bootstrap: string, material: Material, config: Config, k: string)
    requires k == SecurityProtocol
    ensures CredentialsRule(bootstrap, material, config, k)
  {
    var c0 := SetAuthoritative(config, BootstrapServers, bootstrap);
    assert Lookup(c0, k) == Lookup(config, k);
  }

  lemma TruststoreRule(bootstrap: string, material: Material, config: Config, k: string)
    requires k in TruststoreOptions
    ensures CredentialsRule(bootstrap, material, config, k)
  {
    var c0 := SetAuthoritative(config, BootstrapServers, bootstrap);
    var c1 := ConfigureTruststore(c0, material.trustedCertificates);
    var c2 := ConfigureKeystore(c1, material.keyPair);
    assert k != SecurityProtocol && k !in KeystoreOptions;
    assert Lookup(c2, k) == Lookup(c1, k);
    if material.trustedCertificates.None? {
      assert Lookup(c1, k) == Lookup(c0, k) == Lookup(config, k);
    }
  }

  lemma KeystoreRule(bootstrap: string, material: Material, config: Config, k: string)
    requires k in KeystoreOptions
    ensures CredentialsRule(bootstrap, material, config, k)
  {
    var c0 := SetAuthoritative(config, BootstrapServers, bootstrap);
    var c1 := ConfigureTruststore(c0, material.trustedCertificates);
    var c2 := ConfigureKeystore(c1, material.keyPair);
    assert k != SecurityProtocol && k !in TruststoreOptions && k != BootstrapServers;
    assert Lookup(c1, k) == Lookup(config, k);
    if material.keyPair.None? {
      assert Lookup(c2, k) == Lookup(c1, k);
    }
  }

  lemma OtherOptionRule(bootstrap: string, material: Material, config: Config, k: string)
    requires k != BootstrapServers && k != SecurityProtocol && k !in TruststoreOptions && k !in KeystoreOptions
    ensures CredentialsRule(bootstrap, material, config, k)
  {
    var c0 := SetAuthoritative(config, BootstrapServers, bootstrap);
    var c1 := ConfigureTruststore(c0, material.trustedCertificates);
    var c2 := ConfigureKeystore(c1, material.keyPair);
    assert Lookup(c2, k) == Lookup(config, k);
  }

  /** One option of Apply's result is the one the precedence rules choose. */
  lemma ApplyResolvesOption(bootstrap: string, material: Material, config: Config, k: string)
    ensures Lookup(Apply(bootstrap, material, config), k) == Resolve(bootstrap, material, config, k)
  {
    if k == BootstrapServers {
      BootstrapRule(bootstrap, material, config, k);
    } else if k == SecurityProtocol {
      SecurityProtocolRule(bootstrap, material, config, k);
    } else if k in TruststoreOptions {
      TruststoreRule(bootstrap, material, config, k);
    } else if k in KeystoreOptions {
      KeystoreRule(bootstrap, material, config, k);
    } else {
      OtherOptionRule(bootstrap, material, config, k);
    }
  }

  /** The sequence of writes in Apply realises the precedence rules for every option. */
  lemma ApplyFollowsPrecedence(bootstrap: string, material: Material, config: Config)
    ensures forall k :: Lookup(Apply(bootstrap, material, config), k) == Resolve(bootstrap, material, config, k)
  {
    forall k
      ensures Lookup(Apply(bootstrap, material, config), k) == Resolve(bootstrap, material, config, k)
    {
      ApplyResolvesOption(bootstrap, material, config, k);
    }
  }

  /** The operational defaults table, option by option. */
  lemma OperationalDefaultsTable(k: string)
    ensures TableLookup(OperationalDefaults, k) ==
      if k == MetadataMaxAge then Some(DefaultMetadataMaxAge)
      else if k == RequestTimeout then Some(DefaultRequestTimeout)
      else if k == Retries then Some(DefaultRetries)
      else if k == DefaultApiTimeout then Some(DefaultApiTimeoutValue)
      else None
  {
    var t0 := OperationalDefaults;
    var t1 := [(RequestTimeout, DefaultRequestTimeout), (Retries, DefaultRetries), (DefaultApiTimeout, DefaultApiTimeoutValue)];
    var t2 := [(Retries, DefaultRetries), (DefaultApiTimeout, DefaultApiTimeoutValue)];
    var t3 := [(DefaultApiTimeout, DefaultApiTimeoutValue)];
    assert t0[1..] == t1 && t1[1..] == t2 && t2[1..] == t3 && t3[1..] == [];
    assert TableLookup(t3, k) == if k == DefaultApiTimeout then Some(DefaultApiTimeoutValue) else None;
    assert TableLookup(t2, k) == if k == Retries then Some(DefaultRetries) else TableLookup(t3, k);
    assert TableLookup(t1, k) == if k == RequestTimeout then Some(DefaultRequestTimeout) else TableLookup(t2, k);
  }

  // What the precedence rules give for each group of options. Each lemma
  // takes any configuration `r` that follows the rules.

  ghost predicate FollowsPrecedence(r: Config, bootstrap: string, material: Material, config: Config) {
    forall k :: Lookup(r, k) == Resolve(bootstrap, material, config, k)
  }

  lemma ResolvedSecurityProtocol(r: Config, bootstrap: string, material: Material, config: Config)
    requires FollowsPrecedence(r, bootstrap, material, config)
    ensures Lookup(r, SecurityProtocol) ==
      if SecurityProtocol in config then Some(config[SecurityProtocol])
      else if HasTlsMaterial(material) then Some(Ssl)
      else None
  {
    OperationalDefaultsTable(SecurityProtocol);
    assert Lookup(r, SecurityProtocol) == Resolve(bootstrap, material, config, SecurityProtocol);
  }

  lemma ResolvedTruststore(r: Config, bootstrap: string, material: Material, config: Config)
    requires FollowsPrecedence(r, bootstrap, material, config)
    ensures material.trustedCertificates.Some? ==>
      Lookup(r, TruststoreType) == Some(Pem) && Lookup(r, TruststoreCertificates) == material.trustedCertificates
    ensures material.trustedCertificates.None? ==>
      forall k :: k in TruststoreOptions ==> Lookup(r, k) == Lookup(config, k)
  {
    forall k | k in TruststoreOptions
      ensures Lookup(r, k) == Resolve(bootstrap, material, config, k)
      ensures material.trustedCertificates.None? ==> Lookup(r, k) == Lookup(config, k)
    {
      OperationalDefaultsTable(k);
    }
  }

  lemma ResolvedKeystore(r: Config, bootstrap: string, material: Material, config: Config)
    requires FollowsPrecedence(r, bootstrap, material, config)
    ensures material.keyPair.Some? ==>
      && Lookup(r, KeystoreType) == Some(Pem)
      && Lookup(r, KeystoreCertificateChain) == Some(material.keyPair.value.certificateChain)
      && Lookup(r, KeystoreKey) == Some(material.keyPair.value.privateKey)
    ensures material.keyPair.None? ==>
      forall k :: k in KeystoreOptions ==> Lookup(r, k) == Lookup(config, k)
  {
    forall k | k in KeystoreOptions
      ensures Lookup(r, k) == Resolve(bootstrap, material, config, k)
      ensures material.keyPair.None? ==> Lookup(r, k) == Lookup(config, k)
    {
      OperationalDefaultsTable(k);
    }
  }

  /** An operational option is never written authoritatively. */
  lemma ResolveOperationalOption(bootstrap: string, material: Material, config: Config, k: string)
    requires k in DefaultOptions
    ensures Resolve(bootstrap, material, config, k) ==
      if k in config then Some(config[k]) else TableLookup(OperationalDefaults, k)
  {
    assert k != BootstrapServers && k != SecurityProtocol && k !in TruststoreOptions && k !in KeystoreOptions;
  }

  lemma ResolvedOperationalDefaults(r: Config, bootstrap: string, material: Material, config: Config)
    requires FollowsPrecedence(r, bootstrap, material, config)
    ensures Lookup(r, MetadataMaxAge) == Some(Lookup(config, MetadataMaxAge).GetOr(DefaultMetadataMaxAge))
    ensures Lookup(r, RequestTimeout) == Some(Lookup(config, RequestTimeout).GetOr(DefaultRequestTimeout))
    ensures Lookup(r, Retries) == Some(Lookup(config, Retries).GetOr(DefaultRetries))
    ensures Lookup(r, DefaultApiTimeout) == Some(Lookup(config, DefaultApiTimeout).GetOr(DefaultApiTimeoutValue))
  {
    OperationalDefaultsTable(MetadataMaxAge);
    ResolveOperationalOption(bootstrap, material, config, MetadataMaxAge);
    OperationalDefaultsTable(RequestTimeout);
    ResolveOperationalOption(bootstrap, material, config, RequestTimeout);
    OperationalDefaultsTable(Retries);
    ResolveOperationalOption(bootstrap, material, config, Retries);
    OperationalDefaultsTable(DefaultApiTimeout);
    ResolveOperationalOption(bootstrap, material, config, DefaultApiTimeout);
  }

  lemma ResolvedFrame(r: Config, bootstrap: string, material: Material, config: Config)
    requires FollowsPrecedence(r, bootstrap, material, config)
    ensures forall k :: k !in WrittenOptions ==> Lookup(r, k) == Lookup(config, k)
    ensures forall k :: k in config ==> k in r
  {
    forall k | k !in WrittenOptions
      ensures Lookup(r, k) == Lookup(config, k)
    {
      OperationalDefaultsTable(k);
      assert Lookup(r, k) == Resolve(bootstrap, material, config, k);
    }
    forall k | k in config
      ensures k in r
    {
      assert Lookup(r, k) == Resolve(bootstrap, material, config, k);
    }
  }

  // The properties of adminClientConfiguration itself.

  /** For well-formed Secrets and a bootstrap address the call succeeds, and
      every option of the result is the one the precedence rules choose. */
  lemma ConfigurationFollowsPrecedence(
    bootstrap: string, ca: Option<Secret>, keyCert: Option<Secret>, alias: Option<string>, config: Config, codec: Codec)
    requires !CaRejected(ca) && !KeyPairRejected(keyCert, alias)
    ensures var r := AdminClientConfiguration(Some(bootstrap), ca, keyCert, alias, Some(config), codec);
      && r.Success?
      && FollowsPrecedence(r.value, bootstrap, RequestedMaterial(ca, keyCert, alias, codec), config)
  {
    var material := RequestedMaterial(ca, keyCert, alias, codec);
    assert ExtractMaterial(ca, keyCert, alias, codec) == Success(material);
    ApplyFollowsPrecedence(bootstrap, material, config);
  }

  /** The bootstrap address always replaces the caller's. */
  lemma BootstrapServersSetting(
    bootstrap: string, ca: Option<Secret>, keyCert: Option<Secret>, alias: Option<string>, config: Config, codec: Codec)
    requires !CaRejected(ca) && !KeyPairRejected(keyCert, alias)
    ensures var r := AdminClientConfiguration(Some(bootstrap), ca, keyCert, alias, Some(config), codec);
      r.Success? && Lookup(r.value, BootstrapServers) == Some(bootstrap)
  {
    ConfigurationFollowsPrecedence(bootstrap, ca, keyCert, alias, config, codec);
    var r := AdminClientConfiguration(Some(bootstrap), ca, keyCert, alias, Some(config), codec);
    assert Lookup(r.value, BootstrapServers) == Resolve(bootstrap, RequestedMaterial(ca, keyCert, alias, codec), config, BootstrapServers);
  }

  /** The caller's security protocol is kept; otherwise it becomes "SSL" when
      a CA bundle or a client key pair is produced, and stays unset when
      neither is. */
  lemma SecurityProtocolSetting(
    bootstrap: string, ca: Option<Secret>, keyCert: Option<Secret>, alias: Option<string>, config: Config, codec: Codec)
    requires !CaRejected(ca) && !KeyPairRejected(keyCert, alias)
    ensures var r := AdminClientConfiguration(Some(bootstrap), ca, keyCert, alias, Some(config), codec);
      && r.Success?
      && Lookup(r.value, SecurityProtocol) ==
        if SecurityProtocol in config then Some(config[SecurityProtocol])
        else if ca.Some? || ClientAuthRequested(keyCert, alias) then Some(Ssl)
        else None
  {
    ConfigurationFollowsPrecedence(bootstrap, ca, keyCert, alias, config, codec);
    var r := AdminClientConfiguration(Some(bootstrap), ca, keyCert, alias, Some(config), codec);
    ResolvedSecurityProtocol(r.value, bootstrap, RequestedMaterial(ca, keyCert, alias, codec), config);
  }

  /** With a cluster CA the truststore is PEM holding the CA bundle, whatever
      the caller had; without one the truststore options are the caller's. */
  lemma TruststoreSettings(
    bootstrap: string, ca: Option<Secret>, keyCert: Option<Secret>, alias: Option<string>, config: Config, codec: Codec)
    requires !CaRejected(ca) && !KeyPairRejected(keyCert, alias)
    ensures var r := AdminClientConfiguration(Some(bootstrap), ca, keyCert, alias, Some(config), codec);
      && r.Success?
      && (ca.Some? ==>
            Lookup(r.value, TruststoreType) == Some(Pem)
            && Lookup(r.value, TruststoreCertificates) == Some(codec.certsToPemString(ca.value)))
      && (ca.None? ==> forall k :: k in TruststoreOptions ==> Lookup(r.value, k) == Lookup(config, k))
  {
    ConfigurationFollowsPrecedence(bootstrap, ca, keyCert, alias, config, codec);
    var r := AdminClientConfiguration(Some(bootstrap), ca, keyCert, alias, Some(config), codec);
    ResolvedTruststore(r.value, bootstrap, RequestedMaterial(ca, keyCert, alias, codec), config);
  }

  /** With client authentication requested the keystore is PEM holding the
      decoded chain and key, whatever the caller had; without it (no Secret,
      or a null or empty alias) the keystore options are the caller's and no
      error is raised. */
  lemma KeystoreSettings(
    bootstrap: string, ca: Option<Secret>, keyCert: Option<Secret>, alias: Option<string>, config: Config, codec: Codec)
    requires !CaRejected(ca) && !KeyPairRejected(keyCert, alias)
    ensures var r := AdminClientConfiguration(Some(bootstrap), ca, keyCert, alias, Some(config), codec);
      && r.Success?
      && (ClientAuthRequested(keyCert, alias) ==>
            var pair := DecodedKeyPair(keyCert.value, alias.value, codec);
            Lookup(r.value, KeystoreType) == Some(Pem)
            && Lookup(r.value, KeystoreCertificateChain) == Some(pair.certificateChain)
            && Lookup(r.value, KeystoreKey) == Some(pair.privateKey))
      && (!ClientAuthRequested(keyCert, alias) ==>
            forall k :: k in KeystoreOptions ==> Lookup(r.value, k) == Lookup(config, k))
  {
    ConfigurationFollowsPrecedence(bootstrap, ca, keyCert, alias, config, codec);
    var r := AdminClientConfiguration(Some(bootstrap), ca, keyCert, alias, Some(config), codec);
    ResolvedKeystore(r.value, bootstrap, RequestedMaterial(ca, keyCert, alias, codec), config);
  }

  /** Each operational option keeps the caller's value and otherwise gets its default. */
  lemma OperationalDefaultSettings(
    bootstrap: string, ca: Option<Secret>, keyCert: Option<Secret>, alias: Option<string>, config: Config, codec: Codec)
    requires !CaRejected(ca) && !KeyPairRejected(keyCert, alias)
    ensures var r := AdminClientConfiguration(Some(bootstrap), ca, keyCert, alias, Some(config), codec);
      && r.Success?
      && Lookup(r.value, MetadataMaxAge) == Some(Lookup(config, MetadataMaxAge).GetOr(DefaultMetadataMaxAge))
      && Lookup(r.value, RequestTimeout) == Some(Lookup(config, RequestTimeout).GetOr(DefaultRequestTimeout))
      && Lookup(r.value, Retries) == Some(Lookup(config, Retries).GetOr(DefaultRetries))
      && Lookup(r.value, DefaultApiTimeout) == Some(Lookup(config, DefaultApiTimeout).GetOr(DefaultApiTimeoutValue))
  {
    ConfigurationFollowsPrecedence(bootstrap, ca, keyCert, alias, config, codec);
    var r := AdminClientConfiguration(Some(bootstrap), ca, keyCert, alias, Some(config), codec);
    ResolvedOperationalDefaults(r.value, bootstrap, RequestedMaterial(ca, keyCert, alias, codec), config);
  }

  /** Options the method never writes keep the caller's value (or stay
      unset), and no option of the caller is removed. */
  lemma NothingElseChanges(
    bootstrap: string, ca: Option<Secret>, keyCert: Option<Secret>, alias: Option<string>, config: Config, codec: Codec)
    requires !CaRejected(ca) && !KeyPairRejected(keyCert, alias)
    ensures var r := AdminClientConfiguration(Some(bootstrap), ca, keyCert, alias, Some(config), codec);
      && r.Success?
      && (forall k :: k !in WrittenOptions ==> Lookup(r.value, k) == Lookup(config, k))
      && (forall k :: k in config ==> k in r.value)
  {
    ConfigurationFollowsPrecedence(bootstrap, ca, keyCert, alias, config, codec);
    var r := AdminClientConfiguration(Some(bootstrap), ca, keyCert, alias, Some(config), codec);
    ResolvedFrame(r.value, bootstrap, RequestedMaterial(ca, keyCert, alias, codec), config);
  }

  /** Validation never looks at the caller's entries: whether the call fails,
      and with which error, is the same for every non-null configuration. */
  lemma ValidationIgnoresConfigEntries(
    bootstrap: Option<string>, ca: Option<Secret>, keyCert: Option<Secret>, alias: Option<string>,
    config1: Config, config2: Config, codec: Codec)
    ensures var r1 := AdminClientConfiguration(bootstrap, ca, keyCert, alias, Some(config1), codec);
      var r2 := AdminClientConfiguration(bootstrap, ca, keyCert, alias, Some(config2), codec);
      && (r1.Failure? <==> r2.Failure?)
      && (r1.Failure? ==> r1.error == r2.error)
  {
  }

  /** The three scenarios of the provider's documentation: a plain
      connection touches no security option; TLS without client
      authentication writes the truststore and leaves the keystore alone;
      TLS with client authentication writes the keystore, and the truststore
      too when a cluster CA is given. In both TLS cases a security protocol
      is set. */
  lemma DocumentedScenarios(
    bootstrap: string, ca: Option<Secret>, keyCert: Option<Secret>, alias: Option<string>, config: Config, codec: Codec)
    requires !CaRejected(ca) && !KeyPairRejected(keyCert, alias)
    ensures var scenario := ScenarioOf(RequestedMaterial(ca, keyCert, alias, codec));
      var r := AdminClientConfiguration(Some(bootstrap), ca, keyCert, alias, Some(config), codec);
      && r.Success?
      && (scenario == Plain <==> ca.None? && !ClientAuthRequested(keyCert, alias))
      && (scenario == TlsNoClientAuth <==> ca.Some? && !ClientAuthRequested(keyCert, alias))
      && (scenario == Plain ==>
            forall k :: k == SecurityProtocol || k in TruststoreOptions || k in KeystoreOptions ==>
              Lookup(r.value, k) == Lookup(config, k))
      && (scenario == TlsNoClientAuth ==>
            && Lookup(r.value, SecurityProtocol).Some?
            && Lookup(r.value, TruststoreType) == Some(Pem)
            && forall k :: k in KeystoreOptions ==> Lookup(r.value, k) == Lookup(config, k))
      && (scenario == TlsClientAuth ==>
            && Lookup(r.value, SecurityProtocol).Some?
            && Lookup(r.value, KeystoreType) == Some(Pem)
            && (ca.Some? ==> Lookup(r.value, TruststoreType) == Some(Pem)))
  {
    var material := RequestedMaterial(ca, keyCert, alias, codec);
    ConfigurationFollowsPrecedence(bootstrap, ca, keyCert, alias, config, codec);
    var r := AdminClientConfiguration(Some(bootstrap), ca, keyCert, alias, Some(config), codec);
    ResolvedSecurityProtocol(r.value, bootstrap, material, config);
    ResolvedTruststore(r.value, bootstrap, material, config);
    ResolvedKeystore(r.value, bootstrap, material, config);
  }
}
