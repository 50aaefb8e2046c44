/** DefaultAdminClientProvider.adminClientConfiguration: derives the Kafka Admin
    client configuration from a bootstrap address, an optional cluster CA
    Secret, an optional client key pair Secret with its alias, and the
    caller's configuration.

    The Java method mutates the caller's Properties in place; here it is a
    function from the caller's map to the resulting map. It first validates
    its inputs and extracts the credential material (ExtractMaterial), then
    writes the derived settings (Apply). Invoke follows the statements of the
    Java method one by one instead, tracking the caller's Properties object
    through each write and each throw, and agrees with the two-phase form. */
module AdminClientConfig {
  import opened Wrappers
  import opened Secrets
  import opened ConfigMaps

  // Option names, as defined by Kafka's AdminClientConfig and SslConfigs.
  const BootstrapServers := "bootstrap.servers"
  const SecurityProtocol := "security.protocol"
  const TruststoreType := "ssl.truststore.type"
  const TruststoreCertificates := "ssl.truststore.certificates"
  const KeystoreType := "ssl.keystore.type"
  const KeystoreCertificateChain := "ssl.keystore.certificate.chain"
  const KeystoreKey := "ssl.keystore.key"
  const MetadataMaxAge := "metadata.max.age.ms"
  const RequestTimeout := "request.timeout.ms"
  const Retries := "retries"
  const DefaultApiTimeout := "default.api.timeout.ms"

  const Ssl := "SSL"
  const Pem := "PEM"

  const DefaultMetadataMaxAge := "30000"
  const DefaultRequestTimeout := "10000"
  const DefaultRetries := "3"
  const DefaultApiTimeoutValue := "40000"

  /** Operational tuning written only where the caller left it unset. */
  const OperationalDefaults: seq<(string, string)> := [
    (MetadataMaxAge, DefaultMetadataMaxAge),
    (RequestTimeout, DefaultRequestTimeout),
    (Retries, DefaultRetries),
    (DefaultApiTimeout, DefaultApiTimeoutValue)
  ]

  const TruststoreOptions: set<string> := {TruststoreType, TruststoreCertificates}
  const KeystoreOptions: set<string> := {KeystoreType, KeystoreCertificateChain, KeystoreKey}
  const DefaultOptions: set<string> := {MetadataMaxAge, RequestTimeout, Retries, DefaultApiTimeout}

  /** Every option the configuration code may write. */
  const WrittenOptions: set<string> :=
    {BootstrapServers, SecurityProtocol} + TruststoreOptions + KeystoreOptions + DefaultOptions

  /** Why a call fails. The first three are the InvalidConfigurationException
      raised by the method; the last is the NullPointerException that
      Properties.setProperty raises for a null bootstrap address. */
  datatype Error =
    | ConfigIsNull
    | NoCrtEntries(secretName: string)
    | MissingKeyPair(secretName: string, alias: string)
    | NullBootstrapAddress

  /** The client's private key and certificate chain, as PEM text. */
  datatype KeyPair = KeyPair(privateKey: string, certificateChain: string)

  /** The credential material extracted from the Secrets for one call. */
  datatype Material = Material(trustedCertificates: Option<string>, keyPair: Option<KeyPair>)

  /** The connection scenarios named in the provider's documentation. */
  datatype Scenario = Plain | TlsNoClientAuth | TlsClientAuth

  /** The scenario is decided by which material is present. The code also
      configures client authentication when no cluster CA is given; that
      case counts as TlsClientAuth with the truststore left to the caller. */
  function ScenarioOf(material: Material): Scenario {
    if material.keyPair.Some? then TlsClientAuth
    else if material.trustedCertificates.Some? then TlsNoClientAuth
    else Plain
  }

  predicate HasTlsMaterial(material: Material) {
    material.trustedCertificates.Some? || material.keyPair.Some?
  }

  /** A cluster CA Secret is given but has no data or no ".crt" entry. */
  predicate CaRejected(ca: Option<Secret>) {
    ca.Some? && !HasCrtEntry(ca.value)
  }

  /** Client authentication is requested only by a key pair Secret together
      with a non-empty alias; any other combination means "no client auth". */
  predicate ClientAuthRequested(keyCert: Option<Secret>, alias: Option<string>) {
    keyCert.Some? && alias.Some? && |alias.value| > 0
  }

  /** Client authentication is requested but the Secret lacks a half of the pair. */
  predicate KeyPairRejected(keyCert: Option<Secret>, alias: Option<string>) {
    ClientAuthRequested(keyCert, alias) && !HasKeyPairEntries(keyCert.value, alias.value)
  }

  /** The trust bundle: nothing without a CA Secret, an error for a CA Secret
      without certificates, otherwise the PEM text of its certificates. */
  function TrustedCertificates(ca: Option<Secret>, codec: Codec): (r: Result<Option<string>, Error>)
    ensures r.Failure? <==> CaRejected(ca)
    ensures r.Failure? ==> r.error == NoCrtEntries(ca.value.name)
    ensures r.Success? ==> (r.value.Some? <==> ca.Some?)
    ensures r.Success? && ca.Some? ==> r.value == Some(codec.certsToPemString(ca.value))
  {
    match ca
    case None => Success(None)
    case Some(secret) =>
      if !HasCrtEntry(secret) then Failure(NoCrtEntries(secret.name))
      else Success(Some(codec.certsToPemString(secret)))
  }

  /** The private key and certificate chain stored under `alias`, each
      decoded as US-ASCII text. */
  function DecodedKeyPair(secret: Secret, alias: string, codec: Codec): KeyPair {
    KeyPair(
      AsciiDecode(codec.decodeFromSecret(secret, EntryName(alias, KeySuffix))),
      AsciiDecode(codec.decodeFromSecret(secret, EntryName(alias, CrtSuffix))))
  }

  /** The client key pair: nothing unless client authentication is requested,
      an error when the Secret lacks `alias.key` or `alias.crt`, otherwise
      the decoded pair. */
  function ClientKeyPair(keyCert: Option<Secret>, alias: Option<string>, codec: Codec): (r: Result<Option<KeyPair>, Error>)
    ensures r.Failure? <==> KeyPairRejected(keyCert, alias)
    ensures r.Failure? ==> r.error == MissingKeyPair(keyCert.value.name, alias.value)
    ensures r.Success? ==> (r.value.Some? <==> ClientAuthRequested(keyCert, alias))
    ensures r.Success? && ClientAuthRequested(keyCert, alias) ==>
      r.value == Some(DecodedKeyPair(keyCert.value, alias.value, codec))
  {
    if !ClientAuthRequested(keyCert, alias) then Success(None)
    else
      var secret, name := keyCert.value, alias.value;
      if !HasKeyPairEntries(secret, name) then Failure(MissingKeyPair(secret.name, name))
      else Success(Some(DecodedKeyPair(secret, name, codec)))
  }

  /** The material the inputs ask for, ignoring whether the Secrets are
      well-formed: the CA bundle whenever a CA Secret is given, the key pair
      whenever client authentication is requested. */
  function RequestedMaterial(ca: Option<Secret>, keyCert: Option<Secret>, alias: Option<string>, codec: Codec): Material {
    Material(
      if ca.Some? then Some(codec.certsToPemString(ca.value)) else None,
      if ClientAuthRequested(keyCert, alias) then Some(DecodedKeyPair(keyCert.value, alias.value, codec)) else None)
  }

  /** The validation phase: the CA Secret is checked first, so its error is
      the one reported when both Secrets are malformed. */
  function ExtractMaterial(ca: Option<Secret>, keyCert: Option<Secret>, alias: Option<string>, codec: Codec): (r: Result<Material, Error>)
    ensures r.Failure? <==> CaRejected(ca) || KeyPairRejected(keyCert, alias)
    ensures CaRejected(ca) ==> r == Failure(NoCrtEntries(ca.value.name))
    ensures !CaRejected(ca) && KeyPairRejected(keyCert, alias) ==>
      r == Failure(MissingKeyPair(keyCert.value.name, alias.value))
    ensures r.Success? ==> r.value == RequestedMaterial(ca, keyCert, alias, codec)
  {
    var trusted :- TrustedCertificates(ca, codec);
    var keyPair :- ClientKeyPair(keyCert, alias, codec);
    Success(Material(trusted, keyPair))
  }

  /** With a trust bundle, "SSL" becomes the protocol unless the
      caller chose one, and the truststore type and certificates are written
      over any caller value. */
  function ConfigureTruststore(config: Config, trusted: Option<string>): (r: Config)
    ensures trusted.None? ==> r == config
    ensures trusted.Some? ==>
      && Lookup(r, SecurityProtocol) == Some(Lookup(config, SecurityProtocol).GetOr(Ssl))
      && Lookup(r, TruststoreType) == Some(Pem)
      && Lookup(r, TruststoreCertificates) == trusted
    ensures forall k :: k != SecurityProtocol && k !in TruststoreOptions ==> Lookup(r, k) == Lookup(config, k)
  {
    match trusted
    case None => config
    case Some(pem) =>
      var c := SetDefault(config, SecurityProtocol, Ssl);
      var c := SetAuthoritative(c, TruststoreType, Pem);
      SetAuthoritative(c, TruststoreCertificates, pem)
  }

  /** With a client key pair, "SSL" becomes the protocol unless
      already set, and the keystore type, chain and key are written over any
      caller value. */
  function ConfigureKeystore(config: Config, keyPair: Option<KeyPair>): (r: Config)
    ensures keyPair.None? ==> r == config
    ensures keyPair.Some? ==>
      && Lookup(r, SecurityProtocol) == Some(Lookup(config, SecurityProtocol).GetOr(Ssl))
      && Lookup(r, KeystoreType) == Some(Pem)
      && Lookup(r, KeystoreCertificateChain) == Some(keyPair.value.certificateChain)
      && Lookup(r, KeystoreKey) == Some(keyPair.value.privateKey)
    ensures forall k :: k != SecurityProtocol && k !in KeystoreOptions ==> Lookup(r, k) == Lookup(config, k)
  {
    match keyPair
    case None => config
    case Some(pair) =>
      var c := SetDefault(config, SecurityProtocol, Ssl);
      var c := SetAuthoritative(c, KeystoreType, Pem);
      var c := SetAuthoritative(c, KeystoreCertificateChain, pair.certificateChain);
      SetAuthoritative(c, KeystoreKey, pair.privateKey)
  }

  /** The configuration after the bootstrap address and the stores are
      written, before the operational defaults. */
  function CredentialsWritten(bootstrap: string, material: Material, config: Config): Config {
    var withBootstrap := SetAuthoritative(config, BootstrapServers, bootstrap);
    var withTruststore := ConfigureTruststore(withBootstrap, material.trustedCertificates);
    ConfigureKeystore(withTruststore, material.keyPair)
  }

  /** The writing phase, in the order of the Java method: the bootstrap
      address, the truststore, the keystore, then the operational defaults. */
  function Apply(bootstrap: string, material: Material, config: Config): Config {
    SetDefaults(CredentialsWritten(bootstrap, material, config), OperationalDefaults)
  }


  /** adminClientConfiguration. `config` is None for a null Properties and
      `bootstrap` is None for a null address. The checks run in the order of
      the Java method, so the error reported is that of the first failing one;
      none of them looks at the entries of `config`. */
  function AdminClientConfiguration(
    bootstrap: Option<string>, ca: Option<Secret>, keyCert: Option<Secret>,
    alias: Option<string>, config: Option<Config>, codec: Codec): (r: Result<Config, Error>)
    ensures r.Failure? <==>
      config.None? || CaRejected(ca) || KeyPairRejected(keyCert, alias) || bootstrap.None?
    ensures config.None? ==> r == Failure(ConfigIsNull)
    ensures config.Some? && CaRejected(ca) ==> r == Failure(NoCrtEntries(ca.value.name))
    ensures config.Some? && !CaRejected(ca) && KeyPairRejected(keyCert, alias) ==>
      r == Failure(MissingKeyPair(keyCert.value.name, alias.value))
    ensures config.Some? && !CaRejected(ca) && !KeyPairRejected(keyCert, alias) && bootstrap.None? ==>
      r == Failure(NullBootstrapAddress)
  {
    if config.None? then Failure(ConfigIsNull)
    else
      var material :- ExtractMaterial(ca, keyCert, alias, codec);
      if bootstrap.None? then Failure(NullBootstrapAddress)
      else Success(Apply(bootstrap.value, material, config.value))
  }

  /** What the caller observes after one invocation on a non-null Properties
      object: the object's entries, whether the method returned or threw, and
      the method's outcome. */
  datatype Invocation = Invocation(properties: Config, outcome: Result<Config, Error>)

  /** adminClientConfiguration on a non-null Properties object, statement by
      statement: the CA check (lines 71-79), the key pair check (lines 82-92),
      setProperty of the address, which throws for a null value before storing
      anything (line 94), then the writes. A throw ends the invocation with the
      object as the statements before it left it. */
  function Invoke(
    bootstrap: Option<string>, ca: Option<Secret>, keyCert: Option<Secret>,
    alias: Option<string>, config: Config, codec: Codec): (inv: Invocation)
    ensures inv.outcome == AdminClientConfiguration(bootstrap, ca, keyCert, alias, Some(config), codec)
    ensures inv.outcome.Failure? ==> inv.properties == config
    ensures inv.outcome.Success? ==> inv.properties == inv.outcome.value
  {
    match TrustedCertificates(ca, codec)
    case Failure(e) => Invocation(config, Failure(e))
    case Success(trusted) =>
      match ClientKeyPair(keyCert, alias, codec)
      case Failure(e) => Invocation(config, Failure(e))
      case Success(keyPair) =>
        match bootstrap
        case None => Invocation(config, Failure(NullBootstrapAddress))
        case Some(address) =>
          var withBootstrap := SetAuthoritative(config, BootstrapServers, address);
          var withTruststore := ConfigureTruststore(withBootstrap, trusted);
          var withKeystore := ConfigureKeystore(withTruststore, keyPair);
          var written := SetDefaults(withKeystore, OperationalDefaults);
          Invocation(written, Success(written))
  }

  /** The value the configuration code always writes over the caller's for
      `key`, if any: the bootstrap address and, when present, the store settings. */
  function AuthoritativeValue(bootstrap: string, material: Material, key: string): Option<string> {
    if key == BootstrapServers then Some(bootstrap)
    else if key in TruststoreOptions && material.trustedCertificates.Some? then
      if key == TruststoreType then Some(Pem) else material.trustedCertificates
    else if key in KeystoreOptions && material.keyPair.Some? then
      if key == KeystoreType then Some(Pem)
      else if key == KeystoreCertificateChain then Some(material.keyPair.value.certificateChain)
      else Some(material.keyPair.value.privateKey)
    else None
  }

  /** The precedence rules stated per option, independently of the order of
      the writes: an authoritative value wins, then the caller's value, then
      the built-in fallback ("SSL" as the protocol when there is TLS material,
      the operational defaults), and otherwise the option stays unset. */
  function Resolve(bootstrap: string, material: Material, config: Config, key: string): Option<string> {
    var authoritative := AuthoritativeValue(bootstrap, material, key);
    if authoritative.Some? then authoritative
    else if key in config then Some(config[key])
    else if key == SecurityProtocol && HasTlsMaterial(material) then Some(Ssl)
    else TableLookup(OperationalDefaults, key)
  }
}
