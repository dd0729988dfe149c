/**
  The trust-on-first-use certificate truster.

  The truster holds the active X.509 trust manager (its delegate) and the set of
  (host, port) endpoints already decided. `Trust` probes an undecided endpoint once,
  and when the probe reports the presented chain as untrusted it builds a new key store
  holding that chain followed by the old manager's accepted issuers, swaps in a manager
  over that store and records the endpoint.

  The TLS probe is an oracle (`Prober`); the key store and trust-manager factory of the
  platform are described by a `Platform` value.
*/
module CertificateTruster {
  import opened Wrappers
  import opened Certificates

  /** The (host, port) pair a trust decision is recorded under. */
  datatype Endpoint = Endpoint(host: string, port: int)

  datatype Duration = Duration(seconds: nat)

  /**
    What the certificate-collecting trust manager reports once the probe is over:
    the chain the server presented (if any) and whether the snapshot delegate accepted
    it; or the network failure that ended the probe.
  */
  datatype ProbeResult =
    | Completed(collected: Option<seq<Certificate>>, trusted: bool)
    | Failed(cause: NetworkFailure)

  /** The TLS probe against an endpoint, bounded by a duration, validating through a snapshot manager. */
  type Prober = (Endpoint, Duration, X509Manager) -> ProbeResult

  /**
    The platform's key store and trust-manager factory.
    `defaultIssuers` are the anchors of the default trust store; `keyStoreAvailable` says
    whether creating and loading a key store succeeds; `algorithmAvailable` whether a factory
    of the default algorithm can be obtained. Each factory is initialised with its own store
    (none for the default store): `initAccepts` says whether that initialisation succeeds,
    and a factory so initialised lists managers of the kinds `nonX509Kinds`, then, when
    `listsX509` holds of its store, one X.509 manager over that store.
  */
  datatype Platform = Platform(
    defaultIssuers: seq<Certificate>,
    keyStoreAvailable: bool,
    algorithmAvailable: bool,
    initAccepts: Option<KeyStore> -> bool,
    nonX509Kinds: seq<string>,
    listsX509: Option<KeyStore> -> bool)

  /** Whether a factory initialised with `store` can be created. */
  predicate FactoryAvailable(platform: Platform, store: Option<KeyStore>)
  {
    platform.algorithmAvailable && platform.initAccepts(store)
  }

  /** The collector's flag is the snapshot delegate's real verdict on the collected chain. */
  predicate CollectedFaithfully(p: ProbeResult, snapshot: X509Manager)
  {
    p.Completed? && p.collected.Some? ==> p.trusted == Accepts(snapshot, p.collected.value)
  }

  // ---------------------------------------------------------------------------
  // Trust-manager selection

  /** The first X.509 manager of a factory's list, if there is one. */
  function FirstX509(managers: seq<TrustManager>): Option<X509Manager>
  {
    if managers == [] then None
    else if managers[0].X509? then Some(managers[0].manager)
    else FirstX509(managers[1..])
  }

  /** `FirstX509` picks the manager at the first X.509 position and finds none only when there is none. */
  lemma {:induction false} FirstX509IsFirstMatch(managers: seq<TrustManager>)
    ensures FirstX509(managers).None? <==> forall i :: 0 <= i < |managers| ==> !managers[i].X509?
    ensures FirstX509(managers).Some? ==>
      exists i :: 0 <= i < |managers| && managers[i] == X509(FirstX509(managers).value)
        && forall j :: 0 <= j < i ==> !managers[j].X509?
  {
    if managers != [] && !managers[0].X509? {
      var rest := managers[1..];
      FirstX509IsFirstMatch(rest);
      assert forall i :: 0 <= i < |rest| ==> rest[i] == managers[i + 1];
      if FirstX509(rest).Some? {
        var i :| 0 <= i < |rest| && rest[i] == X509(FirstX509(rest).value)
          && forall j :: 0 <= j < i ==> !rest[j].X509?;
        assert managers[i + 1] == X509(FirstX509(managers).value);
        assert forall j :: 0 <= j < i + 1 ==> !managers[j].X509? by {
          forall j | 0 <= j < i + 1 ensures !managers[j].X509? {
            if j > 0 { assert managers[j] == rest[j - 1]; }
          }
        }
      } else {
        forall i | 0 <= i < |managers| ensures !managers[i].X509? {
          if i > 0 { assert managers[i] == rest[i - 1]; }
        }
      }
    }
  }

  /** Returns the first X.509 manager of the factory's list, failing when the list has none. */
  method GetTrustManager(managers: seq<TrustManager>) returns (r: Result<X509Manager, TrustError>)
    ensures r == (match FirstX509(managers)
                  case Some(m) => Success(m)
                  case None => Failure(NoX509TrustManager))
  {
    for i := 0 to |managers|
      invariant FirstX509(managers) == FirstX509(managers[i..])
    {
      if managers[i].X509? {
        return Success(managers[i].manager);
      }
      assert managers[i..][1..] == managers[i + 1..];
    }
    return Failure(NoX509TrustManager);
  }

  function NonX509Managers(kinds: seq<string>): seq<TrustManager>
  {
    seq(|kinds|, k requires 0 <= k < |kinds| => NonX509(kinds[k]))
  }

  lemma {:induction false} FirstX509SkipsNonX509(kinds: seq<string>, rest: seq<TrustManager>)
    ensures FirstX509(NonX509Managers(kinds) + rest) == FirstX509(rest)
  {
    if kinds == [] {
      assert NonX509Managers(kinds) + rest == rest;
    } else {
      FirstX509SkipsNonX509(kinds[1..], rest);
      assert (NonX509Managers(kinds) + rest)[1..] == NonX509Managers(kinds[1..]) + rest;
    }
  }

  /** The anchors a factory initialised with `store` uses: the platform default for no store. */
  function IssuersOf(store: Option<KeyStore>, platform: Platform): seq<Certificate>
  {
    match store
    case None => platform.defaultIssuers
    case Some(ks) => StoreCertificates(ks)
  }

  /**
    Creates a trust-manager factory initialised with `store` (the default trust store when
    absent). The platform's key-store and algorithm exceptions become a factory failure.
  */
  function GetTrustManagerFactory(store: Option<KeyStore>, platform: Platform): (r: Result<seq<TrustManager>, TrustError>)
    ensures r.Success? <==> FactoryAvailable(platform, store)
    ensures r.Failure? ==> r.error == TrustManagerFactoryFailure
    ensures r.Success? ==>
      FirstX509(r.value) == (if platform.listsX509(store) then Some(X509Manager(IssuersOf(store, platform))) else None)
  {
    if !FactoryAvailable(platform, store) then Failure(TrustManagerFactoryFailure)
    else
      var x509 := if platform.listsX509(store) then [X509(X509Manager(IssuersOf(store, platform)))] else [];
      FirstX509SkipsNonX509(platform.nonX509Kinds, x509);
      Success(NonX509Managers(platform.nonX509Kinds) + x509)
  }

  // ---------------------------------------------------------------------------
  // Probe and trust store

  /**
    Interprets the collector after the probe: no chain is an error, an already trusted
    chain yields nothing to add, otherwise the untrusted chain.
  */
  function GetUntrustedCertificates(probe: ProbeResult): (r: Result<Option<seq<Certificate>>, TrustError>)
    ensures probe.Failed? ==> r == Failure(ProbeFailed(probe.cause))
    ensures probe.Completed? && probe.collected.None? ==> r == Failure(NoCertificateChain)
    ensures r.Success? <==> probe.Completed? && probe.collected.Some?
    ensures r.Success? ==> (r.value.None? <==> probe.trusted)
    ensures r.Success? && r.value.Some? ==> r.value.value == probe.collected.value
  {
    match probe
    case Failed(cause) => Failure(ProbeFailed(cause))
    case Completed(collected, trusted) =>
      match collected
      case None => Failure(NoCertificateChain)
      case Some(chain) => if trusted then Success(None) else Success(Some(chain))
  }

  /** The store `AddToTrustStore` builds: the untrusted chain, then the manager's issuers, labelled from "0". */
  function TrustStoreFor(untrusted: seq<Certificate>, trustManager: X509Manager, platform: Platform): Result<KeyStore, TrustError>
  {
    if platform.keyStoreAvailable then Success(KeyStore(Labelled(untrusted + trustManager.acceptedIssuers)))
    else Failure(KeyStoreFailure)
  }

  /**
    Fills a fresh key store with the untrusted certificates and then the manager's
    accepted issuers, numbering the entries with one running counter.
  */
  method AddToTrustStore(untrusted: seq<Certificate>, trustManager: X509Manager, platform: Platform)
    returns (r: Result<KeyStore, TrustError>)
    ensures r == TrustStoreFor(untrusted, trustManager, platform)
    ensures r.Success? ==> StoreCertificates(r.value) == untrusted + trustManager.acceptedIssuers
    ensures r.Success? ==> |r.value.entries| == |untrusted| + |trustManager.acceptedIssuers|
    ensures r.Success? ==> forall k :: 0 <= k < |untrusted| ==>
      r.value.entries[k] == Entry(Label(k), untrusted[k])
    ensures r.Success? ==> forall k :: 0 <= k < |trustManager.acceptedIssuers| ==>
      r.value.entries[|untrusted| + k] == Entry(Label(|untrusted| + k), trustManager.acceptedIssuers[k])
  {
    if !platform.keyStoreAvailable {
      return Failure(KeyStoreFailure);
    }
    ghost var all := untrusted + trustManager.acceptedIssuers;
    var entries: seq<Entry> := [];
    var count := 0;
    for i := 0 to |untrusted|
      invariant count == i
      invariant entries == Labelled(all)[..count]
    {
      entries := entries + [Entry(Label(count), untrusted[i])];
      count := count + 1;
    }
    var issuers := trustManager.acceptedIssuers;
    for i := 0 to |issuers|
      invariant count == |untrusted| + i
      invariant entries == Labelled(all)[..count]
    {
      entries := entries + [Entry(Label(count), issuers[i])];
      count := count + 1;
    }
    assert Labelled(all)[..count] == Labelled(all);
    LabelledCertificates(all);
    return Success(KeyStore(entries));
  }

  // ---------------------------------------------------------------------------
  // The truster's state and one trust step

  datatype TrusterState = TrusterState(delegate: X509Manager, trustedHostsAndPorts: set<Endpoint>)

  /**
    One `trust(host, port, duration)` call on the truster state `s`: the new state, or the
    error it throws (the state is then unchanged).
  */
  function TrustStep(s: TrusterState, endpoint: Endpoint, duration: Duration, prober: Prober, platform: Platform)
    : (r: Result<TrusterState, TrustError>)
    ensures endpoint in s.trustedHostsAndPorts ==> r == Success(s)
    ensures r.Success? ==> r.value.trustedHostsAndPorts == s.trustedHostsAndPorts + {endpoint}
    ensures r.Failure? ==> endpoint !in s.trustedHostsAndPorts
  {
    if endpoint in s.trustedHostsAndPorts then Success(s)
    else
      var trustManager := s.delegate;
      match GetUntrustedCertificates(prober(endpoint, duration, trustManager))
      case Failure(e) => Failure(e)
      case Success(None) => Success(TrusterState(trustManager, s.trustedHostsAndPorts + {endpoint}))
      case Success(Some(untrusted)) =>
        match TrustStoreFor(untrusted, trustManager, platform)
        case Failure(e) => Failure(e)
        case Success(trustStore) =>
          match GetTrustManagerFactory(Some(trustStore), platform)
          case Failure(e) => Failure(e)
          case Success(managers) =>
            match FirstX509(managers)
            case None => Failure(NoX509TrustManager)
            case Some(m) => Success(TrusterState(m, s.trustedHostsAndPorts + {endpoint}))
  }

  /** How a method's outcome and new state follow a trust step taken from `before`. */
  predicate StepTaken(before: TrusterState, after: TrusterState, r: Outcome<TrustError>, step: Result<TrusterState, TrustError>)
  {
    match step
    case Success(t) => r == Pass && after == t
    case Failure(e) => r == Fail(e) && after == before
  }

  /** The probe result a trust step from `s` sees. */
  function ProbeOf(s: TrusterState, endpoint: Endpoint, duration: Duration, prober: Prober): ProbeResult
  {
    prober(endpoint, duration, s.delegate)
  }

  /** A second call for a decided endpoint changes nothing, whatever its probe would say. */
  lemma TrustIdempotent(s: TrusterState, endpoint: Endpoint, d1: Duration, d2: Duration,
                        p1: Prober, p2: Prober, platform: Platform)
    requires TrustStep(s, endpoint, d1, p1, platform).Success?
    ensures var t := TrustStep(s, endpoint, d1, p1, platform).value;
      TrustStep(t, endpoint, d2, p2, platform) == Success(t)
  {
  }

  /**
    The error paths of a trust step on an undecided endpoint, in the order the source
    meets them.
  */
  lemma TrustFailures(s: TrusterState, endpoint: Endpoint, duration: Duration, prober: Prober, platform: Platform)
    requires endpoint !in s.trustedHostsAndPorts
    ensures var p, r := ProbeOf(s, endpoint, duration, prober), TrustStep(s, endpoint, duration, prober, platform);
      && (p.Failed? ==> r == Failure(ProbeFailed(p.cause)))
      && (p.Completed? && p.collected.None? ==> r == Failure(NoCertificateChain))
      && (p.Completed? && p.collected.Some? && p.trusted ==> r.Success?)
      && (p.Completed? && p.collected.Some? && !p.trusted ==>
            var store := Some(KeyStore(Labelled(p.collected.value + s.delegate.acceptedIssuers)));
            && (!platform.keyStoreAvailable ==> r == Failure(KeyStoreFailure))
            && (platform.keyStoreAvailable && !FactoryAvailable(platform, store) ==> r == Failure(TrustManagerFactoryFailure))
            && (platform.keyStoreAvailable && FactoryAvailable(platform, store) && !platform.listsX509(store) ==>
                  r == Failure(NoX509TrustManager))
            && (r.Success? <==> platform.keyStoreAvailable && FactoryAvailable(platform, store) && platform.listsX509(store)))
  {
  }

  /**
    A successful step keeps the delegate when the endpoint was decided or the chain was
    already trusted; otherwise the new delegate accepts the untrusted chain followed by
    every issuer the snapshot accepted.
  */
  lemma TrustExtendsIssuers(s: TrusterState, endpoint: Endpoint, duration: Duration,
                            prober: Prober, platform: Platform)
    requires TrustStep(s, endpoint, duration, prober, platform).Success?
    ensures var t, p := TrustStep(s, endpoint, duration, prober, platform).value, ProbeOf(s, endpoint, duration, prober);
      if endpoint in s.trustedHostsAndPorts || p.trusted then t.delegate == s.delegate
      else t.delegate.acceptedIssuers == p.collected.value + s.delegate.acceptedIssuers
  {
  }

  /** A successful step never drops an issuer: everything accepted before stays accepted. */
  lemma TrustNoRegression(s: TrusterState, endpoint: Endpoint, duration: Duration,
                          prober: Prober, platform: Platform, chain: seq<Certificate>)
    requires TrustStep(s, endpoint, duration, prober, platform).Success?
    requires Accepts(s.delegate, chain)
    ensures Accepts(TrustStep(s, endpoint, duration, prober, platform).value.delegate, chain)
  {
    TrustExtendsIssuers(s, endpoint, duration, prober, platform);
    var t := TrustStep(s, endpoint, duration, prober, platform).value;
    AcceptsMonotone(s.delegate, t.delegate, chain);
  }

  /**
    With a faithful collector, after a successful step on an undecided endpoint the
    delegate accepts the chain the endpoint presented (when the chain is not empty).
  */
  lemma TrustAcceptsPresentedChain(s: TrusterState, endpoint: Endpoint, duration: Duration,
                                   prober: Prober, platform: Platform)
    requires endpoint !in s.trustedHostsAndPorts
    requires TrustStep(s, endpoint, duration, prober, platform).Success?
    requires CollectedFaithfully(ProbeOf(s, endpoint, duration, prober), s.delegate)
    ensures var chain := ProbeOf(s, endpoint, duration, prober).collected.value;
      |chain| > 0 ==> Accepts(TrustStep(s, endpoint, duration, prober, platform).value.delegate, chain)
  {
    TrustExtendsIssuers(s, endpoint, duration, prober, platform);
    var p := ProbeOf(s, endpoint, duration, prober);
    var t := TrustStep(s, endpoint, duration, prober, platform).value;
    var chain := p.collected.value;
    if |chain| > 0 && !p.trusted {
      assert chain[0] in t.delegate.acceptedIssuers;
    }
  }

  /**
    When a step adds an untrusted chain, the new delegate accepts exactly the chains the
    snapshot accepted and the chains sharing a certificate with the added one: nothing
    else becomes trusted.
  */
  lemma TrustAcceptsExactly(s: TrusterState, endpoint: Endpoint, duration: Duration,
                            prober: Prober, platform: Platform, chain: seq<Certificate>)
    requires endpoint !in s.trustedHostsAndPorts
    requires TrustStep(s, endpoint, duration, prober, platform).Success?
    requires !ProbeOf(s, endpoint, duration, prober).trusted
    ensures var added := ProbeOf(s, endpoint, duration, prober).collected.value;
      Accepts(TrustStep(s, endpoint, duration, prober, platform).value.delegate, chain) <==>
        Accepts(s.delegate, chain) || exists i :: 0 <= i < |chain| && chain[i] in added
  {
    TrustExtendsIssuers(s, endpoint, duration, prober, platform);
  }

  /**
    Trusting two endpoints in turn, each with a faithful collector, ends with a delegate
    that accepts both presented chains and every chain the starting delegate accepted.
  */
  lemma TrustTwoEndpoints(s: TrusterState, e1: Endpoint, e2: Endpoint, duration: Duration,
                          prober: Prober, platform: Platform, chain: seq<Certificate>)
    requires e1 !in s.trustedHostsAndPorts && e2 != e1 && e2 !in s.trustedHostsAndPorts
    requires TrustStep(s, e1, duration, prober, platform).Success?
    requires var s1 := TrustStep(s, e1, duration, prober, platform).value;
      TrustStep(s1, e2, duration, prober, platform).Success?
    requires CollectedFaithfully(ProbeOf(s, e1, duration, prober), s.delegate)
    requires var s1 := TrustStep(s, e1, duration, prober, platform).value;
      CollectedFaithfully(ProbeOf(s1, e2, duration, prober), s1.delegate)
    ensures var s1 := TrustStep(s, e1, duration, prober, platform).value;
      var s2 := TrustStep(s1, e2, duration, prober, platform).value;
      var c1, c2 := ProbeOf(s, e1, duration, prober).collected.value, ProbeOf(s1, e2, duration, prober).collected.value;
      && (|c1| > 0 ==> Accepts(s2.delegate, c1))
      && (|c2| > 0 ==> Accepts(s2.delegate, c2))
      && (Accepts(s.delegate, chain) ==> Accepts(s2.delegate, chain))
      && s2.trustedHostsAndPorts == s.trustedHostsAndPorts + {e1, e2}
  {
    var s1 := TrustStep(s, e1, duration, prober, platform).value;
    var c1 := ProbeOf(s, e1, duration, prober).collected.value;
    TrustAcceptsPresentedChain(s, e1, duration, prober, platform);
    TrustAcceptsPresentedChain(s1, e2, duration, prober, platform);
    if |c1| > 0 {
      TrustNoRegression(s1, e2, duration, prober, platform, c1);
    }
    if Accepts(s.delegate, chain) {
      TrustNoRegression(s, e1, duration, prober, platform, chain);
      TrustNoRegression(s1, e2, duration, prober, platform, chain);
    }
  }

  // ---------------------------------------------------------------------------
  // The truster object

  class DefaultSslCertificateTruster {
    /** The active trust manager. */
    var delegate: X509Manager
    /** The endpoints already decided. */
    var trustedHostsAndPorts: set<Endpoint>
    /** The key store and trust-manager factory the truster builds managers with. */
    const platform: Platform

    function State(): TrusterState
      reads this
    {
      TrusterState(delegate, trustedHostsAndPorts)
    }

    constructor (platform: Platform, initial: X509Manager)
      ensures this.platform == platform
      ensures State() == TrusterState(initial, {})
    {
      this.platform := platform;
      delegate := initial;
      trustedHostsAndPorts := {};
    }

    /**
      Creates a truster over the platform's default trust manager, with no endpoint decided.
      Fails as the source's constructor throws when no such manager can be obtained.
    */
    static method Create(platform: Platform) returns (r: Result<DefaultSslCertificateTruster, TrustError>)
      ensures r.Success? <==> FactoryAvailable(platform, None) && platform.listsX509(None)
      ensures !FactoryAvailable(platform, None) ==> r == Failure(TrustManagerFactoryFailure)
      ensures FactoryAvailable(platform, None) && !platform.listsX509(None) ==> r == Failure(NoX509TrustManager)
      ensures r.Success? ==> fresh(r.value) && r.value.platform == platform
      ensures r.Success? ==> r.value.State() == TrusterState(X509Manager(platform.defaultIssuers), {})
    {
      var factory := GetTrustManagerFactory(None, platform);
      if factory.Failure? {
        return Failure(factory.error);
      }
      var manager := GetTrustManager(factory.value);
      if manager.Failure? {
        return Failure(manager.error);
      }
      var truster := new DefaultSslCertificateTruster(platform, manager.value);
      return Success(truster);
    }

    /** Validates a client chain with the current delegate. */
    method CheckClientTrusted(chain: seq<Certificate>, authType: string) returns (r: Outcome<TrustError>)
      ensures r.Pass? <==> Accepts(delegate, chain)
      ensures r.Fail? ==> r.error == CertificateRejected
    {
      r := Check(delegate, chain);
    }

    /** Validates a server chain with the current delegate. */
    method CheckServerTrusted(chain: seq<Certificate>, authType: string) returns (r: Outcome<TrustError>)
      ensures r.Pass? <==> Accepts(delegate, chain)
      ensures r.Fail? ==> r.error == CertificateRejected
    {
      r := Check(delegate, chain);
    }

    /** The issuers the current delegate accepts. */
    method GetAcceptedIssuers() returns (r: seq<Certificate>)
      ensures r == delegate.acceptedIssuers
    {
      r := delegate.acceptedIssuers;
    }

    /**
      Trusts the certificate chain served at host:port. A decided endpoint returns at
      once; otherwise the endpoint is probed and, when its chain is not already trusted,
      a manager over the chain and the current issuers replaces the delegate. The endpoint
      is recorded only when nothing failed; on failure nothing changes.
    */
    method Trust(host: string, port: int, duration: Duration, prober: Prober) returns (r: Outcome<TrustError>)
      modifies this
      ensures StepTaken(old(State()), State(), r, TrustStep(old(State()), Endpoint(host, port), duration, prober, platform))
      ensures r.Pass? ==> Endpoint(host, port) in trustedHostsAndPorts
      ensures old(trustedHostsAndPorts) <= trustedHostsAndPorts
    {
      var hostAndPort := Endpoint(host, port);
      if hostAndPort in trustedHostsAndPorts {
        return Pass;
      }

      var trustManager := delegate;
      var untrustedCertificates := GetUntrustedCertificates(prober(hostAndPort, duration, trustManager));
      if untrustedCertificates.Failure? {
        return Fail(untrustedCertificates.error);
      }

      if untrustedCertificates.value.Some? {
        var trustStore := AddToTrustStore(untrustedCertificates.value.value, trustManager, platform);
        if trustStore.Failure? {
          return Fail(trustStore.error);
        }
        var factory := GetTrustManagerFactory(Some(trustStore.value), platform);
        if factory.Failure? {
          return Fail(factory.error);
        }
        var manager := GetTrustManager(factory.value);
        if manager.Failure? {
          return Fail(manager.error);
        }
        delegate := manager.value;
      }

      trustedHostsAndPorts := trustedHostsAndPorts + {hostAndPort};
      r := Pass;
    }
  }
}
