# Admin client configuration of the Strimzi operator, in Dafny

This project models `DefaultAdminClientProvider.adminClientConfiguration`
from the Strimzi operator's `operator-common` module. The method builds
the Kafka Admin client configuration (a `java.util.Properties`) from four
inputs:

- a bootstrap address;
- an optional cluster CA `Secret`;
- an optional client key pair `Secret` with the alias under which the pair
  is stored;
- the caller's configuration.

It picks one of three connection scenarios: plain, TLS without client
authentication, and TLS with client authentication. It then validates the
Secrets and writes the derived options. Some options are written with
`setProperty`, which always overrides the caller. Others are written with
`putIfAbsent`, where the caller's value wins.

The model is functional. The Java method changes the caller's `Properties`
in place. Here the configuration is a `map<string, string>`, and the method
is a pure function returning `Result<map<string, string>, Error>`. A null
argument is an `Option` that is `None`. The thrown exceptions are the
`Error` datatype.

Modules, one per concern:

- `Wrappers` (wrappers.dfy): `Option` and `Result`.
- `Secrets` (secrets.dfy): the `Secret` record (name and optional data
  map), the ".crt" and key pair shape checks, and US-ASCII decoding.
- `ConfigMaps` (config_maps.dfy): the configuration map and the two
  write primitives. `SetAuthoritative` is `setProperty`. `SetDefault` is
  `putIfAbsent`. `SetDefaults` applies `putIfAbsent` over a table.
- `AdminClientConfig` (admin_client_config.dfy): the method itself. It has
  two phases. `ExtractMaterial` validates and extracts. `Apply` writes.
  `Invoke` follows the method's statements one by one instead. It tracks
  the caller's `Properties` object through each write and each throw.
  `Resolve` is an independent per-option statement of the precedence
  rules.
- `AdminClientProperties` (admin_client_properties.dfy): the proofs that
  the sequence of writes follows `Resolve`, and what that means for each
  group of options, for validation order and for the documented scenarios.
- `AdminClientProvider` (admin_client_provider.dfy): the `createAdminClient`
  overload that starts from an empty `Properties`.
- `AdminClientExamples` (admin_client_examples.dfy): concrete cases. They
  cover plain, TLS and mutual TLS connections, caller values that survive,
  and malformed Secrets.

Behaviour of the code that the model keeps as written:

- The two Secret checks are not independent. The CA Secret is checked
  first, so its error wins when both Secrets are malformed
  (`AdminClientConfig.AdminClientConfiguration`,
  `AdminClientExamples.CaErrorReportedFirst`).
- The missing key pair error does not say which entry is missing. The
  code's message names the Secret and both entries `alias.key` and
  `alias.crt`. The model's `MissingKeyPair` error carries the Secret name
  and the alias.
- The documentation lists three scenarios. The code also configures client
  authentication when a key pair Secret and alias are given with no cluster
  CA. `ScenarioOf` counts that case as `TlsClientAuth`, and the truststore
  options stay as the caller set them.
- A null bootstrap address is not mentioned anywhere. `setProperty` passes
  it to `Properties.put`, which throws `NullPointerException` before
  changing the map. The model reports it as `NullBootstrapAddress`, after
  the Secret checks.

## Model

| member | source | states |
|---|---|---|
| Secrets.EntryName | operator-common/src/main/java/io/strimzi/operator/common/DefaultAdminClientProvider.java:84-85 | The entry name `alias + suffix` starts with the alias and ends with the suffix |
| Secrets.AsciiDecode | operator-common/src/main/java/io/strimzi/operator/common/DefaultAdminClientProvider.java:90-91 | US-ASCII decoding gives one character per byte. A byte below 0x80 keeps its code. A character is U+FFFD exactly when its byte is 0x80 or above |
| Secrets.AsciiDecodeEncode | operator-common/src/main/java/io/strimzi/operator/common/DefaultAdminClientProvider.java:90-91 | Decoding the US-ASCII encoding of ASCII text gives back the text |
| Secrets.AsciiEncodeDecode | operator-common/src/main/java/io/strimzi/operator/common/DefaultAdminClientProvider.java:90-91 | Decoding loses nothing on ASCII bytes: encoding the decoded text gives back the bytes |
| ConfigMaps.SetAuthoritative | operator-common/src/main/java/io/strimzi/operator/common/DefaultAdminClientProvider.java:94 | `setProperty`: the key holds the new value whatever it held before; no other key changes |
| ConfigMaps.SetDefault | operator-common/src/main/java/io/strimzi/operator/common/DefaultAdminClientProvider.java:98 | `putIfAbsent`: the key keeps a caller's value and otherwise gets the given one; no other key changes |
| ConfigMaps.TableLookup | operator-common/src/main/java/io/strimzi/operator/common/DefaultAdminClientProvider.java:111-114 | A table has a value for a key exactly when some row names that key |
| ConfigMaps.SetDefaults | operator-common/src/main/java/io/strimzi/operator/common/DefaultAdminClientProvider.java:111-114 | A run of `putIfAbsent` writes: a caller's option keeps its value; an unset option gets the table's first value for it, or stays unset |
| AdminClientConfig.TrustedCertificates | operator-common/src/main/java/io/strimzi/operator/common/DefaultAdminClientProvider.java:70-79 | The CA step fails exactly when a CA Secret has no data or no ".crt" entry, and the error names the Secret. Otherwise it yields a bundle exactly when a CA Secret is given, and that bundle is the Secret's certificates as PEM text |
| AdminClientConfig.ClientKeyPair | operator-common/src/main/java/io/strimzi/operator/common/DefaultAdminClientProvider.java:81-92 | The key pair step fails exactly when client auth is requested and `alias.key` or `alias.crt` is missing. The error names the Secret and alias. Otherwise it yields a pair exactly when a Secret and a non-empty alias are given, and that pair is the decoded `alias.key` and `alias.crt` entries |
| AdminClientConfig.ExtractMaterial | operator-common/src/main/java/io/strimzi/operator/common/DefaultAdminClientProvider.java:66-92 | Validation fails exactly when one of the two checks fails. A bad CA Secret's error wins; otherwise the error names the key pair Secret and alias. On success the material is the CA bundle and decoded pair that the inputs ask for |
| AdminClientConfig.ConfigureTruststore | operator-common/src/main/java/io/strimzi/operator/common/DefaultAdminClientProvider.java:96-101 | With a bundle: the protocol defaults to "SSL", the truststore type is "PEM" and the certificates are the bundle. Only those three options change. Without a bundle nothing changes |
| AdminClientConfig.ConfigureKeystore | operator-common/src/main/java/io/strimzi/operator/common/DefaultAdminClientProvider.java:103-109 | With a key pair: the protocol defaults to "SSL", the keystore type is "PEM", and the chain and key are the pair's. Only those four options change. Without a pair nothing changes |
| AdminClientConfig.AdminClientConfiguration | operator-common/src/main/java/io/strimzi/operator/common/DefaultAdminClientProvider.java:61-117 | The call fails exactly when the config is null, a Secret is malformed or the address is null. The error is that of the first failing check, in the order config, CA, key pair, address |
| AdminClientConfig.Invoke | operator-common/src/main/java/io/strimzi/operator/common/DefaultAdminClientProvider.java:61-117 | Run statement by statement on a non-null `Properties` object, the call has the same outcome as `AdminClientConfiguration`. A failed call leaves the object's entries as they were, so no write comes before an error. A successful call leaves the object holding the returned configuration |
| AdminClientProperties.ApplyFollowsPrecedence | operator-common/src/main/java/io/strimzi/operator/common/DefaultAdminClientProvider.java:94-114 | The writes, in source order, give every option the value the precedence rules choose: address and stores first, then the caller, then "SSL" and the operational defaults |
| AdminClientProperties.OperationalDefaultsTable | operator-common/src/main/java/io/strimzi/operator/common/DefaultAdminClientProvider.java:111-114 | The defaults table gives 30000, 10000, 3 and 40000 for its four options and nothing for any other option |
| AdminClientProperties.ConfigurationFollowsPrecedence | operator-common/src/main/java/io/strimzi/operator/common/DefaultAdminClientProvider.java:61-117 | With well-formed Secrets and an address the call succeeds, and every option of the result is the one the precedence rules choose |
| AdminClientProperties.BootstrapServersSetting | operator-common/src/main/java/io/strimzi/operator/common/DefaultAdminClientProvider.java:94 | On success `bootstrap.servers` is the given address, whatever the caller had |
| AdminClientProperties.SecurityProtocolSetting | operator-common/src/main/java/io/strimzi/operator/common/DefaultAdminClientProvider.java:97-105 | `security.protocol` keeps the caller's value. Otherwise it is "SSL" when a CA Secret or client auth is given, and unset when neither is |
| AdminClientProperties.TruststoreSettings | operator-common/src/main/java/io/strimzi/operator/common/DefaultAdminClientProvider.java:97-101 | With a CA Secret the truststore is "PEM" with the CA bundle, overriding the caller. Without one both truststore options are the caller's |
| AdminClientProperties.KeystoreSettings | operator-common/src/main/java/io/strimzi/operator/common/DefaultAdminClientProvider.java:82-109 | With client auth the keystore is "PEM" with the decoded chain and key, overriding the caller. With no Secret, or a null or empty alias, the call still succeeds and the keystore options are the caller's |
| AdminClientProperties.OperationalDefaultSettings | operator-common/src/main/java/io/strimzi/operator/common/DefaultAdminClientProvider.java:111-114 | The metadata age, request timeout, retries and API timeout options keep the caller's values. Unset ones get 30000, 10000, 3 and 40000 |
| AdminClientProperties.NothingElseChanges | operator-common/src/main/java/io/strimzi/operator/common/DefaultAdminClientProvider.java:94-116 | Every option outside the eleven written names keeps its input value or stays unset, and no option of the caller disappears |
| AdminClientProperties.ValidationIgnoresConfigEntries | operator-common/src/main/java/io/strimzi/operator/common/DefaultAdminClientProvider.java:62-92 | Whether the call fails, and with which error, does not depend on the caller's entries |
| AdminClientProperties.DocumentedScenarios | operator-common/src/main/java/io/strimzi/operator/common/DefaultAdminClientProvider.java:24-44 | Plain: no security option is touched. TLS only: truststore "PEM", a protocol set, keystore untouched. TLS with client auth: keystore "PEM", a protocol set, and truststore "PEM" when a CA Secret is given. Which scenario applies follows from the inputs |
| AdminClientProvider.CreateAdminClientConfiguration | operator-common/src/main/java/io/strimzi/operator/common/DefaultAdminClientProvider.java:20-22 | Starting from empty `Properties`, the call fails only on malformed Secrets or a null address. On success it holds only written options, the address and the four defaults at their built-in values |
| AdminClientExamples.PlainConnection | operator-common/src/main/java/io/strimzi/operator/common/DefaultAdminClientProvider.java:27-31 | No Secrets and an empty configuration: the result holds exactly the address and the four operational defaults, with the request timeout at 10000 |
| AdminClientExamples.CallerTimeoutKept | operator-common/src/main/java/io/strimzi/operator/common/DefaultAdminClientProvider.java:112 | A caller's request timeout of 5000 is kept, not replaced by 10000 |
| AdminClientExamples.TlsConnection | operator-common/src/main/java/io/strimzi/operator/common/DefaultAdminClientProvider.java:33-37 | A CA Secret with "ca.crt" gives "SSL", a "PEM" truststore holding the CA bundle, and none of the three keystore options |
| AdminClientExamples.CallerProtocolKept | operator-common/src/main/java/io/strimzi/operator/common/DefaultAdminClientProvider.java:98 | A caller's "SASL_SSL" protocol survives even with TLS material |
| AdminClientExamples.MutualTlsConnection | operator-common/src/main/java/io/strimzi/operator/common/DefaultAdminClientProvider.java:39-43 | Both Secrets with alias "client": truststore and keystore are "PEM", and the key is the decoded "client.key" entry |
| AdminClientExamples.EmptyAliasSkipsClientAuth | operator-common/src/main/java/io/strimzi/operator/common/DefaultAdminClientProvider.java:82 | An empty alias means no client auth and no error, even with a key pair Secret |
| AdminClientExamples.MissingClientKey | operator-common/src/main/java/io/strimzi/operator/common/DefaultAdminClientProvider.java:83-88 | A key pair Secret without "client.key" is rejected with an error naming the Secret and the alias |
| AdminClientExamples.CaErrorReportedFirst | operator-common/src/main/java/io/strimzi/operator/common/DefaultAdminClientProvider.java:71-92 | When both Secrets lack data, the CA Secret's error is reported |
| AdminClientExamples.NullConfigRejected | operator-common/src/main/java/io/strimzi/operator/common/DefaultAdminClientProvider.java:62-64 | A null configuration fails with the null-config error, before the Secrets or the address are looked at |

## Left out

- `Admin.create` and the `createAdminClient` overload taking `Properties` (lines 46-48) build a network client in a foreign library. Only the configuration handed to it is modelled.
- The bodies of `Util.certsToPemString` and `Util.decodeFromSecret` (base64 decoding, PEM concatenation) are not part of this model. They are the fields of the `Codec` parameter, and the model only carries their results along. Both are assumed to return normally.
- Kubernetes `Secret` metadata other than the name. A Secret with null metadata would throw `NullPointerException` while the error message is built. The model assumes the metadata is present.
- AdminClientProperties.ValidationIgnoresConfigEntries: states only that failure and error do not depend on the caller's entries. It does not say that no write comes before an error. `AdminClientConfig.Invoke` states that, but only as a reading of the method's statement order, because the map-valued model has no partly updated object.
- Error message text. Each error carries the Secret name and, for a missing key pair, the alias.
- Java `Properties` identity and aliasing. The same object is returned in place, while the model returns a new map value. The `Properties` defaults chain is also left out, because `putIfAbsent` does not consult it.
- Concurrency: the method has no shared state. A caller that shares one `Properties` object between threads is outside the model.
- Null entry values inside a Secret's data map, and a null returned by a collaborator, are not modelled.
- systemtest/src/main/java/io/strimzi/systemtest/annotations/BTONotSupportedCondition.java is a JUnit execution condition that reads environment feature flags. It is test plumbing with no configuration logic.
