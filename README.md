# Trust-on-first-use certificate truster of the Cloud Foundry Java client

This project models two parts of the Cloud Foundry Java client's Spring module in Dafny.

The first is `DefaultSslCertificateTruster`, an X.509 trust manager that can be told to trust the
certificate chain a given `(host, port)` serves. It keeps two pieces of state:

- its current delegate trust manager;
- the set of endpoints it has already decided.

`trust(host, port, duration)` does nothing for an endpoint it has already decided. For any other endpoint it:

1. probes the endpoint once with a certificate-collecting trust manager;
2. if the collected chain was not already trusted, fills a new key store with that chain followed by the old delegate's accepted issuers, under the labels `"0"`, `"1"`, …;
3. replaces the delegate with the first X.509 manager a factory builds over that store;
4. records the endpoint.

The truster's `checkClientTrusted`, `checkServerTrusted` and `getAcceptedIssuers` go to whichever delegate is current.

The second is the connection root of `_DefaultConnectionContext`. The configured host and optional port go into a URI
builder, which is then normalised:

- the scheme is forced to `https`;
- an undefined port (`-1`) becomes 443, the default port of the https scheme (section 4.2.2 of RFC 9110).

When certificate trusting is enabled, the truster is then asked to trust the normalised host and port with a 30-second
timeout. The context also supplies the OAuth client id and secret, which default to `"cf"` and `""`.

Modules:

- `Wrappers` (`wrappers.dfy`): `Option`, `Result` and `Outcome`. A method that may throw returns an `Outcome` or a `Result`.
- `Certificates` (`certificates.dfy`): the abstractions below, and the decimal labels of key-store entries.
  - Certificates are opaque values.
  - A trust manager (`X509Manager`) is characterised by its accepted issuers. It accepts a chain exactly when some certificate of the chain is one of them (`Accepts`).
  - A key store is its ordered list of `(alias, certificate)` entries.
- `CertificateTruster` (`truster.dfy`): the truster class and the helpers of `DefaultSslCertificateTruster.java`.
  - `TrustStep` specifies one `trust` call on the truster's state. The lemmas about `TrustStep` relate several calls.
  - Two things are parameters:
    - The TLS probe is an oracle, `Prober`. From the endpoint, the duration and the snapshot delegate it gives the collected chain (or none) and the collector's "trusted" flag, or a network failure.
    - The platform's key store and trust-manager factory are a `Platform` value: the default trust anchors, whether key-store creation succeeds, and, for each store a factory is initialised with, whether that succeeds and whether the factory's list of managers holds an X.509 manager. The constructor's factory over the default store and the factory over each new store can therefore fail independently.
- `ConnectionContext` (`connection_context.dfy`):
  - a URI builder class;
  - `Normalize` and the function `Normalized` that specifies it;
  - the client defaults;
  - `GetSslCertificateTruster`, `Trust` and `GetRoot`.

## Model

| member | source | states |
|---|---|---|
| `Certificates.Check` | cloudfoundry-client-spring/src/main/java/org/cloudfoundry/reactor/util/DefaultSslCertificateTruster.java:57-64 | a trust manager's validation passes exactly when it accepts the chain, and otherwise fails with a certificate exception |
| `Certificates.Label` | cloudfoundry-client-spring/src/main/java/org/cloudfoundry/reactor/util/DefaultSslCertificateTruster.java:98 | the label of a count is a non-empty string of decimal digits with no leading zero except for zero itself, and has one digit exactly when the count is below ten |
| `Certificates.LabelRoundTrip` | cloudfoundry-client-spring/src/main/java/org/cloudfoundry/reactor/util/DefaultSslCertificateTruster.java:98 | reading a label back as a decimal number gives the count it was made from |
| `Certificates.LabelInjective` | cloudfoundry-client-spring/src/main/java/org/cloudfoundry/reactor/util/DefaultSslCertificateTruster.java:96-101 | two counts with the same label are equal, so the running counter never reuses an alias |
| `Certificates.LabelledAliasesDistinct` | cloudfoundry-client-spring/src/main/java/org/cloudfoundry/reactor/util/DefaultSslCertificateTruster.java:96-101 | a store filled from n certificates has n entries, labelled `"0"`..`"n-1"` in order, with pairwise distinct labels |
| `Certificates.LabelledCertificates` | cloudfoundry-client-spring/src/main/java/org/cloudfoundry/reactor/util/DefaultSslCertificateTruster.java:96-104 | the certificates of a filled store are exactly the certificates it was filled with, in order |
| `CertificateTruster.FirstX509IsFirstMatch` | cloudfoundry-client-spring/src/main/java/org/cloudfoundry/reactor/util/DefaultSslCertificateTruster.java:120-128 | the selected manager sits at an X.509 position with no X.509 manager before it, and none is selected exactly when the list holds no X.509 manager |
| `CertificateTruster.GetTrustManager` | cloudfoundry-client-spring/src/main/java/org/cloudfoundry/reactor/util/DefaultSslCertificateTruster.java:120-128 | the search loop returns the first X.509 manager of the factory's list, and fails with the missing-X509TrustManager error when there is none |
| `CertificateTruster.GetTrustManagerFactory` | cloudfoundry-client-spring/src/main/java/org/cloudfoundry/reactor/util/DefaultSslCertificateTruster.java:130-139 | factory creation fails exactly when the default algorithm is unavailable or initialisation with this store fails; otherwise the first X.509 manager it lists (if it lists one for this store) accepts exactly the store's certificates, or the default anchors when there is no store |
| `CertificateTruster.GetUntrustedCertificates` | cloudfoundry-client-spring/src/main/java/org/cloudfoundry/reactor/util/DefaultSslCertificateTruster.java:141-158 | a network failure propagates; a probe without a collected chain fails with the no-chain error; a chain already trusted yields nothing to add; an untrusted chain is returned unchanged |
| `CertificateTruster.AddToTrustStore` | cloudfoundry-client-spring/src/main/java/org/cloudfoundry/reactor/util/DefaultSslCertificateTruster.java:91-108 | the store has one entry per untrusted certificate and then one per accepted issuer, each in order; entry k is labelled `Label(k)`; the store's certificates are the untrusted chain followed by the accepted issuers; a key-store failure is the only error |
| `CertificateTruster.TrustStep` | cloudfoundry-client-spring/src/main/java/org/cloudfoundry/reactor/util/DefaultSslCertificateTruster.java:71-89 | a decided endpoint leaves the state as it was; success adds exactly the endpoint to the decided set; failure happens only for an undecided endpoint |
| `CertificateTruster.TrustIdempotent` | cloudfoundry-client-spring/src/main/java/org/cloudfoundry/reactor/util/DefaultSslCertificateTruster.java:73-76 | after a successful call, an identical call for the same endpoint changes nothing, whatever its probe would report |
| `CertificateTruster.TrustFailures` | cloudfoundry-client-spring/src/main/java/org/cloudfoundry/reactor/util/DefaultSslCertificateTruster.java:81-88 | for an undecided endpoint: a network failure or a missing chain fails the call; a trusted chain always succeeds; an untrusted chain fails with the key-store error, then the factory or missing-manager error of the factory built over the new store, in that order, and succeeds exactly when none occurs |
| `CertificateTruster.TrustExtendsIssuers` | cloudfoundry-client-spring/src/main/java/org/cloudfoundry/reactor/util/DefaultSslCertificateTruster.java:80-86 | the delegate is kept when the endpoint was decided or the chain was already trusted; otherwise the new accepted issuers are the untrusted chain followed by the snapshot's accepted issuers |
| `CertificateTruster.TrustNoRegression` | cloudfoundry-client-spring/src/main/java/org/cloudfoundry/reactor/util/DefaultSslCertificateTruster.java:80-101 | every chain the delegate accepted before a successful call is still accepted after it |
| `CertificateTruster.TrustAcceptsPresentedChain` | cloudfoundry-client-spring/src/main/java/org/cloudfoundry/reactor/util/DefaultSslCertificateTruster.java:80-88 | if the collector's flag is the snapshot's real verdict, a successful call on an undecided endpoint leaves a delegate that accepts the presented (non-empty) chain |
| `CertificateTruster.TrustAcceptsExactly` | cloudfoundry-client-spring/src/main/java/org/cloudfoundry/reactor/util/DefaultSslCertificateTruster.java:83-85 | when an untrusted chain is added, the new delegate accepts a chain exactly when the old one did or the chain shares a certificate with the added chain; an unrelated certificate stays rejected |
| `CertificateTruster.TrustTwoEndpoints` | cloudfoundry-client-spring/src/main/java/org/cloudfoundry/reactor/util/DefaultSslCertificateTruster.java:71-89 | two successful calls on distinct undecided endpoints, each with a faithful collector, record both endpoints and leave a delegate that accepts both presented chains and everything the first delegate accepted |
| `CertificateTruster.DefaultSslCertificateTruster.constructor` | cloudfoundry-client-spring/src/main/java/org/cloudfoundry/reactor/util/DefaultSslCertificateTruster.java:50-54 | a truster starts with the given delegate and no decided endpoint |
| `CertificateTruster.DefaultSslCertificateTruster.Create` | cloudfoundry-client-spring/src/main/java/org/cloudfoundry/reactor/util/DefaultSslCertificateTruster.java:50-54 | construction succeeds exactly when the factory over the default store can be created and lists an X.509 manager, which then accepts the default anchors; otherwise it fails with the factory error when the factory cannot be created, and with the missing-manager error when it lists no X.509 manager |
| `CertificateTruster.DefaultSslCertificateTruster.CheckClientTrusted` | cloudfoundry-client-spring/src/main/java/org/cloudfoundry/reactor/util/DefaultSslCertificateTruster.java:56-59 | a client chain passes exactly when the current delegate accepts it |
| `CertificateTruster.DefaultSslCertificateTruster.CheckServerTrusted` | cloudfoundry-client-spring/src/main/java/org/cloudfoundry/reactor/util/DefaultSslCertificateTruster.java:61-64 | a server chain passes exactly when the current delegate accepts it |
| `CertificateTruster.DefaultSslCertificateTruster.GetAcceptedIssuers` | cloudfoundry-client-spring/src/main/java/org/cloudfoundry/reactor/util/DefaultSslCertificateTruster.java:66-69 | the accepted issuers are those of the current delegate |
| `CertificateTruster.DefaultSslCertificateTruster.Trust` | cloudfoundry-client-spring/src/main/java/org/cloudfoundry/reactor/util/DefaultSslCertificateTruster.java:71-89 | the new state and outcome are those of `TrustStep` from the old state; on failure the delegate and the decided set are unchanged; after success the endpoint is decided; the decided set only grows |
| `ConnectionContext.Normalized` | cloudfoundry-client-spring/src/main/java/org/cloudfoundry/reactor/util/_DefaultConnectionContext.java:148-158 | the normal form always has scheme https and a defined port; it keeps the host; port -1 becomes 443 and every other port is kept; an already normal root is its own normal form, so normalising is idempotent |
| `ConnectionContext.Normalize` | cloudfoundry-client-spring/src/main/java/org/cloudfoundry/reactor/util/_DefaultConnectionContext.java:148-158 | the builder ends up holding, and the method returns, the normal form of what the builder held before |
| `ConnectionContext.GetClientId` | cloudfoundry-client-spring/src/main/java/org/cloudfoundry/reactor/util/_DefaultConnectionContext.java:46-49 | the client id is the configured one, or `"cf"` when unset |
| `ConnectionContext.GetClientSecret` | cloudfoundry-client-spring/src/main/java/org/cloudfoundry/reactor/util/_DefaultConnectionContext.java:51-54 | the client secret is the configured one, or `""` when unset |
| `ConnectionContext.TrustCertificates` | cloudfoundry-client-spring/src/main/java/org/cloudfoundry/reactor/util/_DefaultConnectionContext.java:138 | trusting is on exactly when the setting is present and true; an unset setting counts as false |
| `ConnectionContext.GetSslCertificateTruster` | cloudfoundry-client-spring/src/main/java/org/cloudfoundry/reactor/util/_DefaultConnectionContext.java:136-143 | there is no truster when trusting is off; when it is on there is a fresh truster over the default manager with nothing decided, or else the constructor's error: the factory error when the default factory cannot be created, the missing-manager error when it lists no X.509 manager |
| `ConnectionContext.Trust` | cloudfoundry-client-spring/src/main/java/org/cloudfoundry/reactor/util/_DefaultConnectionContext.java:160-162 | without a truster nothing happens; with one, its state and the outcome follow a trust step for the root's host and port with a 30-second timeout |
| `ConnectionContext.GetRoot` | cloudfoundry-client-spring/src/main/java/org/cloudfoundry/reactor/util/_DefaultConnectionContext.java:74-86 | the root is https to the configured host; the port is the configured one, or 443 when none is set; the root's normalised endpoint is trusted first when a truster exists, and a trust failure fails the call |

## Left out

- The TLS probe is not modelled: the TCP client, the proxy options, starting the connection and blocking for the duration. It becomes the `Prober` oracle. `CertificateCollectingTrustManager` and `StaticTrustManagerFactory` are not part of this model. The collector's "trusted" flag comes from the oracle; the lemmas that need it to be the snapshot's real verdict say so with `CollectedFaithfully`.
- `Certificates.Accepts`: X.509 path validation is abstracted. A chain is accepted when one of its certificates is an accepted issuer. Signatures, validity dates, the auth type and name checks are not modelled.
- `CertificateTruster.GetTrustManagerFactory`: the JDK's `KeyStore` and `TrustManagerFactory` are represented by `Platform`. Their checked exceptions become one key-store failure and one factory failure. Whether a factory can be initialised, and whether it lists an X.509 manager, are given per store. A manager built over a store is assumed to accept exactly the store's certificates, in entry order.
- `CertificateTruster.AddToTrustStore`: does not model rejection of an individual certificate when an entry is stored. Key-store failure is all or nothing.
- `CertificateTruster.AddToTrustStore`: the counter is unbounded, so the 32-bit `int` overflow of `count` (beyond 2^31 entries) is not modelled.
- Concurrency is not modelled. The `AtomicReference` delegate, the concurrent set and the check-then-act race in `trust` (two threads probing the same endpoint) are out of scope. `Trust` is sequential.
- The warning logged by `trust`, and the proxy context the truster is constructed with, are not modelled. The proxy context is only used by the probe.
- A `null` host is not modelled. Hosts are strings, and an absent host is the empty string.
- The `encode()` step of `normalize` and the `toUriString()` rendering of the root are not modelled. Spring's URI encoding is a library detail, so `GetRoot` returns the normalised components.
- `getRoot(key)`, `getInfo`, `getHttpClient`, `getObjectMapper` and `getProxyContext` are not modelled. They are HTTP requests, JSON decoding and client options.
- `getRoot` and `getSslCertificateTruster` are derived attributes, computed once per context. Here they are methods: `GetRoot` is given the truster the context derived, and a failure inside `trust` is returned rather than thrown.
- The duration given to `trust` only bounds the probe. It reaches the model as an argument of the `Prober` oracle.
- The client does not check that the port is between 1 and 65535 before probing, and neither does the model. The port is an unbounded integer.
- `DefaultDomains.java`, `DefaultBuildpacks.java` and `LdapConfigurationTest.java` are not part of this model. They are request mapping over the REST client and builder validation of a class whose source is not part of this model.
