/**
  Certificates, X.509 trust managers and trust stores as the certificate truster sees them.

  Certificates are opaque values. A trust manager is characterised by the issuers it
  accepts: it accepts a chain exactly when some certificate of the chain is one of its
  accepted issuers. A key store is the ordered list of its (alias, certificate) entries.
*/
module Certificates {
  import opened Wrappers

  /** An X.509 certificate, compared by its encoding and otherwise opaque. */
  datatype Certificate = Certificate(encoded: seq<bv8>)

  /** An X.509 trust manager, built over the trust anchors of one key store. */
  datatype X509Manager = X509Manager(acceptedIssuers: seq<Certificate>)

  /** One element of the list a trust-manager factory hands out. */
  datatype TrustManager = X509(manager: X509Manager) | NonX509(kind: string)

  /** A trusted-certificate entry of a key store. */
  datatype Entry = Entry(alias: string, certificate: Certificate)

  datatype KeyStore = KeyStore(entries: seq<Entry>)

  /** Why a network probe ended without a handshake. */
  datatype NetworkFailure = ConnectionFailure | Timeout

  /** The exceptions the truster lets escape. */
  datatype TrustError =
    | CertificateRejected                  // CertificateException from a trust manager
    | NoX509TrustManager                   // IllegalStateException: no X509TrustManager in the factory
    | NoCertificateChain                   // IllegalStateException: the probe collected no chain
    | ProbeFailed(cause: NetworkFailure)   // the TLS probe could not connect or timed out
    | KeyStoreFailure                      // key store could not be created or loaded
    | TrustManagerFactoryFailure           // trust-manager factory could not be created or initialised

  /** A trust manager accepts a chain when the chain reaches one of its accepted issuers. */
  predicate Accepts(m: X509Manager, chain: seq<Certificate>)
  {
    exists i :: 0 <= i < |chain| && chain[i] in m.acceptedIssuers
  }

  /** Validation of a chain by a trust manager: it throws exactly when it does not accept the chain. */
  function Check(m: X509Manager, chain: seq<Certificate>): (r: Outcome<TrustError>)
    ensures r.Pass? <==> Accepts(m, chain)
    ensures r.Fail? ==> r.error == CertificateRejected
  {
    if Accepts(m, chain) then Pass else Fail(CertificateRejected)
  }

  /** A manager whose issuers include another's accepts every chain the other accepts. */
  lemma AcceptsMonotone(m: X509Manager, m': X509Manager, chain: seq<Certificate>)
    requires forall c :: c in m.acceptedIssuers ==> c in m'.acceptedIssuers
    requires Accepts(m, chain)
    ensures Accepts(m', chain)
  {
  }

  function Digit(d: nat): (c: char)
    requires d < 10
  {
    (48 + d) as char
  }

  /**
    The decimal rendering of a count, as `String.valueOf` produces it: digits only, with no
    leading zero except for zero itself.
  */
  function Label(n: nat): (r: string)
    ensures 1 <= |r|
    ensures |r| == 1 <==> n < 10
    ensures forall k :: 0 <= k < |r| ==> '0' <= r[k] <= '9'
    ensures r[0] == '0' ==> n == 0
    decreases n
  {
    if n < 10 then [Digit(n)] else Label(n / 10) + [Digit(n % 10)]
  }

  /** The number a string of decimal digits denotes. */
  function DecimalValue(s: string): nat
    requires forall k :: 0 <= k < |s| ==> '0' <= s[k] <= '9'
  {
    if s == [] then 0 else 10 * DecimalValue(s[..|s| - 1]) + (s[|s| - 1] as int - 48)
  }

  /** Reading a label back as a decimal number gives the count it was made from. */
  lemma {:induction false} LabelRoundTrip(n: nat)
    ensures DecimalValue(Label(n)) == n
    decreases n
  {
    if n >= 10 {
      var prefix := Label(n / 10);
      assert Label(n)[..|Label(n)| - 1] == prefix;
      LabelRoundTrip(n / 10);
    }
  }

  /** Distinct counts render as distinct labels, so no two entries of one store share an alias. */
  lemma {:induction false} LabelInjective(a: nat, b: nat)
    requires Label(a) == Label(b)
    ensures a == b
    decreases a
  {
    if a < 10 {
      assert |Label(b)| == 1;
      assert Digit(a) == Label(a)[0] == Label(b)[0] == Digit(b);
    } else {
      assert b >= 10;
      var la, lb := Label(a / 10), Label(b / 10);
      assert Label(a) == la + [Digit(a % 10)];
      assert Label(b) == lb + [Digit(b % 10)];
      assert |la| == |lb|;
      assert la == Label(a)[..|la|];
      assert lb == Label(b)[..|lb|];
      LabelInjective(a / 10, b / 10);
      assert Digit(a % 10) == Label(a)[|la|] == Label(b)[|lb|] == Digit(b % 10);
    }
  }

  /** The entries of a store filled with `certs` in order, the k-th under the alias `Label(k)`. */
  function Labelled(certs: seq<Certificate>): seq<Entry>
  {
    seq(|certs|, k requires 0 <= k < |certs| => Entry(Label(k), certs[k]))
  }

  /** The trusted certificates of a store, in entry order. */
  function StoreCertificates(ks: KeyStore): seq<Certificate>
  {
    seq(|ks.entries|, k requires 0 <= k < |ks.entries| => ks.entries[k].certificate)
  }

  /** The labels of a freshly filled store are "0", "1", ... and pairwise distinct. */
  lemma LabelledAliasesDistinct(certs: seq<Certificate>)
    ensures |Labelled(certs)| == |certs|
    ensures forall k :: 0 <= k < |certs| ==> Labelled(certs)[k].alias == Label(k)
    ensures forall i, j :: 0 <= i < j < |certs| ==> Labelled(certs)[i].alias != Labelled(certs)[j].alias
  {
    forall i, j | 0 <= i < j < |certs|
      ensures Labelled(certs)[i].alias != Labelled(certs)[j].alias
    {
      if Label(i) == Label(j) {
        LabelInjective(i, j);
      }
    }
  }

  /** A store filled with `certs` holds exactly `certs`, in order. */
  lemma LabelledCertificates(certs: seq<Certificate>)
    ensures StoreCertificates(KeyStore(Labelled(certs))) == certs
  {
  }
}
