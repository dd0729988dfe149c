/**
  The connection root of a Cloud Foundry connection context.

  The configured host and optional port are put into a URI builder, the builder is
  normalised to the https scheme with port 443 standing in for an undefined port, and,
  when certificate trusting is enabled, the truster is asked to trust the normalised
  host and port with a 30-second probe timeout. The context also supplies the OAuth
  client id and secret, defaulting to "cf" and the empty string.
*/
module ConnectionContext {
  import opened Wrappers
  import opened Certificates
  import opened CertificateTruster

  /** The default port of the https scheme (section 4.2.2 of RFC 9110). */
  const DefaultPort: int := 443

  /** The port a URI reports when it has none. */
  const UndefinedPort: int := -1

  /** How long the truster may spend probing the root endpoint. */
  const TrustTimeout: Duration := Duration(30)

  const DefaultClientId: string := "cf"

  const DefaultClientSecret: string := ""

  /** The parts of a URI the connection root is made of; an absent host is the empty string. */
  datatype UriComponents = UriComponents(scheme: Option<string>, host: string, port: int)

  /** A mutable URI builder: each setter replaces one component. */
  class UriComponentsBuilder {
    var scheme: Option<string>
    var host: string
    var port: int

    constructor ()
      ensures scheme == None && host == "" && port == UndefinedPort
    {
      scheme, host, port := None, "", UndefinedPort;
    }

    method SetScheme(s: string)
      modifies this`scheme
      ensures scheme == Some(s)
    {
      scheme := Some(s);
    }

    method SetHost(h: string)
      modifies this`host
      ensures host == h
    {
      host := h;
    }

    method SetPort(p: int)
      modifies this`port
      ensures port == p
    {
      port := p;
    }

    function Build(): UriComponents
      reads this
    {
      UriComponents(scheme, host, port)
    }
  }

  /** A root is normalised when it uses https and has a defined port. */
  predicate IsNormalized(c: UriComponents)
  {
    c.scheme == Some("https") && c.port != UndefinedPort
  }

  /**
    The normal form of a root: https whatever the scheme was, the host kept, an undefined
    port replaced by 443 and any other port kept. Normal forms are fixed points, so
    normalising twice is normalising once.
  */
  function Normalized(c: UriComponents): (r: UriComponents)
    ensures IsNormalized(r)
    ensures r.host == c.host
    ensures c.port == UndefinedPort ==> r.port == DefaultPort
    ensures c.port != UndefinedPort ==> r.port == c.port
    ensures IsNormalized(c) ==> r == c
  {
    UriComponents(Some("https"), c.host, if c.port == UndefinedPort then DefaultPort else c.port)
  }

  /** Forces the builder's scheme to https and gives an undefined port the default. */
  method Normalize(builder: UriComponentsBuilder) returns (r: UriComponents)
    modifies builder
    ensures r == Normalized(old(builder.Build()))
    ensures builder.Build() == r
  {
    var components := builder.Build();
    builder.SetScheme("https");
    if UndefinedPort == components.port {
      builder.SetPort(DefaultPort);
    }
    r := builder.Build();
  }

  /** The configured values of a connection context; `None` is an unset or null value. */
  datatype DefaultConnectionContext = DefaultConnectionContext(
    host: string,
    port: Option<int>,
    trustCertificates: Option<bool>,
    clientId: Option<string>,
    clientSecret: Option<string>)

  /** The OAuth client id: the configured one, "cf" when unset. */
  function GetClientId(ctx: DefaultConnectionContext): (r: string)
    ensures ctx.clientId.None? ==> r == DefaultClientId
    ensures ctx.clientId.Some? ==> r == ctx.clientId.value
  {
    match ctx.clientId
    case Some(id) => id
    case None => DefaultClientId
  }

  /** The OAuth client secret: the configured one, empty when unset. */
  function GetClientSecret(ctx: DefaultConnectionContext): (r: string)
    ensures ctx.clientSecret.None? ==> r == DefaultClientSecret
    ensures ctx.clientSecret.Some? ==> r == ctx.clientSecret.value
  {
    match ctx.clientSecret
    case Some(secret) => secret
    case None => DefaultClientSecret
  }

  /** Whether certificates are trusted: only an explicit true enables it; null counts as false. */
  function TrustCertificates(ctx: DefaultConnectionContext): (r: bool)
    ensures r <==> ctx.trustCertificates == Some(true)
  {
    match ctx.trustCertificates
    case Some(b) => b
    case None => false
  }

  /**
    The context's truster: present exactly when trusting is enabled, created over the
    platform's default trust manager with no endpoint decided.
  */
  method GetSslCertificateTruster(ctx: DefaultConnectionContext, platform: Platform)
    returns (r: Result<Option<DefaultSslCertificateTruster>, TrustError>)
    ensures !TrustCertificates(ctx) ==> r == Success(None)
    ensures TrustCertificates(ctx) ==> (r.Success? <==> FactoryAvailable(platform, None) && platform.listsX509(None))
    ensures TrustCertificates(ctx) && !FactoryAvailable(platform, None) ==> r == Failure(TrustManagerFactoryFailure)
    ensures TrustCertificates(ctx) && FactoryAvailable(platform, None) && !platform.listsX509(None) ==>
      r == Failure(NoX509TrustManager)
    ensures TrustCertificates(ctx) && r.Success? ==>
      && r.value.Some?
      && fresh(r.value.value)
      && r.value.value.platform == platform
      && r.value.value.State() == TrusterState(X509Manager(platform.defaultIssuers), {})
  {
    if TrustCertificates(ctx) {
      var truster := DefaultSslCertificateTruster.Create(platform);
      if truster.Failure? {
        return Failure(truster.error);
      }
      return Success(Some(truster.value));
    }
    return Success(None);
  }

  /** The frame of an optional truster. */
  function TrusterFrame(truster: Option<DefaultSslCertificateTruster>): set<object>
  {
    if truster.Some? then {truster.value} else {}
  }

  /**
    Asks the truster, when there is one, to trust the root's host and port with the
    30-second timeout; without a truster nothing happens.
  */
  method Trust(components: UriComponents, truster: Option<DefaultSslCertificateTruster>, prober: Prober)
    returns (r: Outcome<TrustError>)
    modifies TrusterFrame(truster)
    ensures truster.None? ==> r == Pass
    ensures truster.Some? ==>
      var t := truster.value;
      StepTaken(old(t.State()), t.State(), r,
                TrustStep(old(t.State()), Endpoint(components.host, components.port), TrustTimeout, prober, t.platform))
  {
    if truster.Some? {
      r := truster.value.Trust(components.host, components.port, TrustTimeout, prober);
    } else {
      r := Pass;
    }
  }

  /**
    The connection root: https to the configured host, with the configured port when one
    is set and 443 otherwise; the root's endpoint is trusted first when trusting is on.
  */
  method GetRoot(ctx: DefaultConnectionContext, truster: Option<DefaultSslCertificateTruster>, prober: Prober)
    returns (r: Result<UriComponents, TrustError>)
    modifies TrusterFrame(truster)
    ensures var root := Normalized(UriComponents(Some("https"), ctx.host,
                                                 if ctx.port.Some? then ctx.port.value else UndefinedPort));
      && (truster.None? ==> r == Success(root))
      && (truster.Some? ==>
            var t := truster.value;
            var step := TrustStep(old(t.State()), Endpoint(root.host, root.port), TrustTimeout, prober, t.platform);
            && StepTaken(old(t.State()), t.State(), if r.Success? then Pass else Fail(r.error), step)
            && (r.Success? ==> r.value == root))
    ensures r.Success? ==> r.value.scheme == Some("https") && r.value.host == ctx.host
    ensures r.Success? && ctx.port.None? ==> r.value.port == DefaultPort
    ensures r.Success? && ctx.port.Some? && ctx.port.value != UndefinedPort ==> r.value.port == ctx.port.value
  {
    var builder := new UriComponentsBuilder();
    builder.SetScheme("https");
    builder.SetHost(ctx.host);
    if ctx.port.Some? {
      builder.SetPort(ctx.port.value);
    }

    var components := Normalize(builder);
    var trusted := Trust(components, truster, prober);
    if trusted.Fail? {
      return Failure(trusted.error);
    }
    return Success(components);
  }
}
