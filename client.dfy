/** The ONVIF client object: endpoint normalisation, functional options,
    credentials and the service endpoints discovered by `Initialize`. */
module OnvifClient {
  import opened Soap

  // ---------------------------------------------------------------------------
  // Endpoint normalisation
  // ---------------------------------------------------------------------------

  const HttpScheme := "http://"
  const HttpsScheme := "https://"
  /** The device service path added to an endpoint that has none. */
  const DeviceServicePath := "/onvif/device_service"

  /** The components of a parsed URL that normalisation looks at or keeps. */
  datatype Url = Url(scheme: string, userInfo: string, host: string, path: string, rawQuery: string, fragment: string)

  /** The URL library: parsing a string into a `Url` (or a parse error) and
      rendering a `Url` back to a string. Both are supplied by the caller. */
  datatype UrlCodec = UrlCodec(parse: string -> Result<Url, string>, render: Url -> string)

  datatype EndpointError =
    | UrlParseError(cause: string)    // the URL library's own error, returned unwrapped
    | MissingHost                     // a URL with a scheme but no host
    | InvalidHostname(cause: string)  // a bare host that does not form a URL
    | InvalidFormat                   // a bare host that forms a URL without a host
  {
    function Message(): string {
      match this
      case UrlParseError(cause) => cause
      case MissingHost => "URL missing host"
      case InvalidHostname(cause) => "invalid IP address or hostname: " + cause
      case InvalidFormat => "invalid endpoint format"
    }
  }

  /** An endpoint written as a full URL (the check is case-sensitive). */
  predicate HasScheme(endpoint: string) {
    HttpScheme <= endpoint || HttpsScheme <= endpoint
  }

  /** The URL built around a bare IP, IP:port, hostname or hostname:port. */
  function BareEndpointUrl(endpoint: string): string {
    HttpScheme + endpoint + DeviceServicePath
  }

  /** The bare host part of a URL built by `BareEndpointUrl`. */
  function BareHostOf(url: string): string
    requires |url| >= |HttpScheme| + |DeviceServicePath|
  {
    url[|HttpScheme|..|url| - |DeviceServicePath|]
  }

  /** A parsed URL with the device service path put in place of an empty or "/" path. */
  function WithDefaultPath(u: Url): (r: Url)
    ensures r.path != "" && r.path != "/"
    ensures u.path != "" && u.path != "/" ==> r == u
    ensures r == u.(path := r.path)
  {
    if u.path == "" || u.path == "/" then u.(path := DeviceServicePath) else u
  }

  /** Turns the endpoint a user gave into the device service URL. */
  function NormalizeEndpoint(codec: UrlCodec, endpoint: string): (r: Result<string, EndpointError>)
    ensures HasScheme(endpoint) ==>
      (r.Ok? <==> codec.parse(endpoint).Ok? && codec.parse(endpoint).value.host != "")
    ensures !HasScheme(endpoint) ==>
      (r.Ok? <==> codec.parse(BareEndpointUrl(endpoint)).Ok? && codec.parse(BareEndpointUrl(endpoint)).value.host != "")
    ensures !HasScheme(endpoint) && r.Ok? ==>
      HttpScheme <= r.value && |r.value| >= |HttpScheme| + |DeviceServicePath| &&
      r.value[|r.value| - |DeviceServicePath|..] == DeviceServicePath && BareHostOf(r.value) == endpoint
  {
    if HasScheme(endpoint) then
      match codec.parse(endpoint)
      case Err(e) => Err(UrlParseError(e))
      case Ok(u) =>
        if u.host == "" then Err(MissingHost)
        else Ok(codec.render(WithDefaultPath(u)))
    else
      var fullUrl := BareEndpointUrl(endpoint);
      match codec.parse(fullUrl)
      case Err(e) => Err(InvalidHostname(e))
      case Ok(u) =>
        if u.host == "" then Err(InvalidFormat)
        else Ok(fullUrl)
  }

  /** With a scheme the input is parsed as a URL; a host-less URL is rejected
      and an empty or "/" path is replaced by the device service path. */
  lemma NormalizeWithScheme(codec: UrlCodec, endpoint: string)
    requires HasScheme(endpoint)
    ensures var r := NormalizeEndpoint(codec, endpoint);
      match codec.parse(endpoint)
      case Err(e) => r == Err(UrlParseError(e))
      case Ok(u) =>
        && (u.host == "" <==> r == Err(MissingHost))
        && (u.host != "" && (u.path == "" || u.path == "/") ==> r == Ok(codec.render(u.(path := DeviceServicePath))))
        && (u.host != "" && u.path != "" && u.path != "/" ==> r == Ok(codec.render(u)))
  {
  }

  /** Without a scheme a successful result is exactly the bare URL; a bare
      URL that does not parse, or that has no host, is an error. */
  lemma NormalizeWithoutScheme(codec: UrlCodec, endpoint: string)
    requires !HasScheme(endpoint)
    ensures var r := NormalizeEndpoint(codec, endpoint);
      && (r.Ok? ==> r.value == BareEndpointUrl(endpoint))
      && (codec.parse(BareEndpointUrl(endpoint)).Err? ==>
            r == Err(InvalidHostname(codec.parse(BareEndpointUrl(endpoint)).error)))
      && (codec.parse(BareEndpointUrl(endpoint)).Ok? && codec.parse(BareEndpointUrl(endpoint)).value.host == "" ==>
            r == Err(InvalidFormat))
  {
  }

  // ---------------------------------------------------------------------------
  // Client state and functional options
  // ---------------------------------------------------------------------------

  /** Durations are in nanoseconds, as Go's time.Duration. */
  const Second := 1_000_000_000
  const DefaultTimeout := 30 * Second

  /** The HTTP connection settings of a client; `DefaultTransport` is Go's nil Transport. */
  datatype Transport =
    | DefaultTransport
    | PooledTransport(maxIdleConns: int, maxIdleConnsPerHost: int, idleConnTimeout: int)

  datatype HttpClient = HttpClient(timeout: int, transport: Transport)

  /** The HTTP client every new client starts with. */
  const DefaultHttpClient := HttpClient(DefaultTimeout, PooledTransport(10, 5, 90 * Second))

  /** The functional options `NewClient` accepts. */
  datatype ClientOption =
    | WithTimeout(timeout: int)
    | WithHttpClient(httpClient: HttpClient)
    | WithCredentials(username: string, password: string)

  /** The fields of a `Client`, as one value. */
  datatype ClientState = ClientState(
    endpoint: string,
    username: string,
    password: string,
    httpClient: HttpClient,
    mediaEndpoint: string,
    ptzEndpoint: string,
    imagingEndpoint: string,
    eventEndpoint: string)

  /** A freshly built client for a normalised endpoint, before any option. */
  function InitialState(endpoint: string): ClientState {
    ClientState(endpoint, "", "", DefaultHttpClient, "", "", "", "")
  }

  function ApplyOption(s: ClientState, opt: ClientOption): ClientState {
    match opt
    case WithTimeout(t) => s.(httpClient := s.httpClient.(timeout := t))
    case WithHttpClient(h) => s.(httpClient := h)
    case WithCredentials(u, p) => s.(username := u, password := p)
  }

  /** The options applied one after the other, first to last. */
  function ApplyOptions(s: ClientState, opts: seq<ClientOption>): ClientState
    decreases |opts|
  {
    if opts == [] then s else ApplyOption(ApplyOptions(s, opts[..|opts| - 1]), opts[|opts| - 1])
  }

  /** No option touches the device endpoint or the service endpoints. */
  lemma {:induction false} OptionsKeepEndpoints(s: ClientState, opts: seq<ClientOption>)
    ensures var t := ApplyOptions(s, opts);
      && t.endpoint == s.endpoint
      && t.mediaEndpoint == s.mediaEndpoint && t.ptzEndpoint == s.ptzEndpoint
      && t.imagingEndpoint == s.imagingEndpoint && t.eventEndpoint == s.eventEndpoint
    decreases |opts|
  {
    if opts != [] {
      OptionsKeepEndpoints(s, opts[..|opts| - 1]);
    }
  }

  /** The last credentials option wins over every earlier one. */
  lemma {:induction false} LastCredentialsWin(s: ClientState, opts: seq<ClientOption>, i: nat)
    requires i < |opts| && opts[i].WithCredentials?
    requires forall j :: i < j < |opts| ==> !opts[j].WithCredentials?
    ensures ApplyOptions(s, opts).username == opts[i].username
    ensures ApplyOptions(s, opts).password == opts[i].password
    decreases |opts|
  {
    if i < |opts| - 1 {
      LastCredentialsWin(s, opts[..|opts| - 1], i);
    }
  }

  /** Without a credentials option the credentials are those the client started with. */
  lemma {:induction false} CredentialsWithoutOption(s: ClientState, opts: seq<ClientOption>)
    requires forall j :: 0 <= j < |opts| ==> !opts[j].WithCredentials?
    ensures ApplyOptions(s, opts).username == s.username
    ensures ApplyOptions(s, opts).password == s.password
    decreases |opts|
  {
    if opts != [] {
      CredentialsWithoutOption(s, opts[..|opts| - 1]);
    }
  }

  /** The timeout is set by the last timeout option when no HTTP client option follows it. */
  lemma {:induction false} LastTimeoutWins(s: ClientState, opts: seq<ClientOption>, i: nat)
    requires i < |opts| && opts[i].WithTimeout?
    requires forall j :: i < j < |opts| ==> !opts[j].WithTimeout? && !opts[j].WithHttpClient?
    ensures ApplyOptions(s, opts).httpClient.timeout == opts[i].timeout
    decreases |opts|
  {
    if i < |opts| - 1 {
      LastTimeoutWins(s, opts[..|opts| - 1], i);
    }
  }

  /** The last HTTP client option decides the transport, whatever timeouts follow it. */
  lemma {:induction false} LastHttpClientWins(s: ClientState, opts: seq<ClientOption>, i: nat)
    requires i < |opts| && opts[i].WithHttpClient?
    requires forall j :: i < j < |opts| ==> !opts[j].WithHttpClient?
    ensures ApplyOptions(s, opts).httpClient.transport == opts[i].httpClient.transport
    decreases |opts|
  {
    if i < |opts| - 1 {
      LastHttpClientWins(s, opts[..|opts| - 1], i);
    }
  }

  // ---------------------------------------------------------------------------
  // Service endpoints
  // ---------------------------------------------------------------------------

  /** The service address a device reports for one capability. */
  datatype ServiceCapability = ServiceCapability(xAddr: string)

  /** The capabilities `Initialize` reads; a missing capability is `None`. */
  datatype Capabilities = Capabilities(
    media: Option<ServiceCapability>,
    ptz: Option<ServiceCapability>,
    imaging: Option<ServiceCapability>,
    events: Option<ServiceCapability>)

  /** A stored service endpoint after `Initialize`: replaced only by a present capability with a non-empty address. */
  function ServiceAddress(current: string, cap: Option<ServiceCapability>): string {
    if cap.Some? && cap.value.xAddr != "" then cap.value.xAddr else current
  }

  function InitializeState(s: ClientState, caps: Capabilities): ClientState {
    s.(mediaEndpoint := ServiceAddress(s.mediaEndpoint, caps.media),
       ptzEndpoint := ServiceAddress(s.ptzEndpoint, caps.ptz),
       imagingEndpoint := ServiceAddress(s.imagingEndpoint, caps.imaging),
       eventEndpoint := ServiceAddress(s.eventEndpoint, caps.events))
  }

  /** `Initialize` overwrites a service endpoint exactly when its capability
      carries a non-empty address, and nothing else. */
  lemma InitializeUpdates(s: ClientState, caps: Capabilities)
    ensures var t := InitializeState(s, caps);
      && t.endpoint == s.endpoint && t.username == s.username && t.password == s.password
      && t.httpClient == s.httpClient
      && (caps.media.Some? && caps.media.value.xAddr != "" ==> t.mediaEndpoint == caps.media.value.xAddr)
      && (caps.media.None? || caps.media.value.xAddr == "" ==> t.mediaEndpoint == s.mediaEndpoint)
      && (caps.ptz.Some? && caps.ptz.value.xAddr != "" ==> t.ptzEndpoint == caps.ptz.value.xAddr)
      && (caps.ptz.None? || caps.ptz.value.xAddr == "" ==> t.ptzEndpoint == s.ptzEndpoint)
      && (caps.imaging.Some? && caps.imaging.value.xAddr != "" ==> t.imagingEndpoint == caps.imaging.value.xAddr)
      && (caps.imaging.None? || caps.imaging.value.xAddr == "" ==> t.imagingEndpoint == s.imagingEndpoint)
      && (caps.events.Some? && caps.events.value.xAddr != "" ==> t.eventEndpoint == caps.events.value.xAddr)
      && (caps.events.None? || caps.events.value.xAddr == "" ==> t.eventEndpoint == s.eventEndpoint)
  {
  }

  /** Initialising twice with the same capabilities is the same as once. */
  lemma InitializeIdempotent(s: ClientState, caps: Capabilities)
    ensures InitializeState(InitializeState(s, caps), caps) == InitializeState(s, caps)
  {
  }

  /** The URL every media call is sent to: the media service endpoint when
      one is known, otherwise the device endpoint. */
  function MediaTarget(s: ClientState): (target: string)
    ensures target == s.mediaEndpoint || target == s.endpoint
    ensures s.mediaEndpoint != "" ==> target == s.mediaEndpoint
    ensures target == "" <==> s.mediaEndpoint == "" && s.endpoint == ""
  {
    if s.mediaEndpoint != "" then s.mediaEndpoint else s.endpoint
  }

  /** A new client sends media calls to its device endpoint, whatever its options. */
  lemma MediaTargetOfNewClient(endpoint: string, opts: seq<ClientOption>)
    ensures MediaTarget(ApplyOptions(InitialState(endpoint), opts)) == endpoint
  {
    OptionsKeepEndpoints(InitialState(endpoint), opts);
  }

  /** After `Initialize` media calls go to the reported media address when
      there is one, and to the same place as before otherwise. */
  lemma MediaTargetAfterInitialize(s: ClientState, caps: Capabilities)
    ensures caps.media.Some? && caps.media.value.xAddr != "" ==>
      MediaTarget(InitializeState(s, caps)) == caps.media.value.xAddr
    ensures caps.media.None? || caps.media.value.xAddr == "" ==>
      MediaTarget(InitializeState(s, caps)) == MediaTarget(s)
  {
  }

  // ---------------------------------------------------------------------------
  // The client object
  // ---------------------------------------------------------------------------

  datatype ClientError =
    | InvalidEndpoint(endpointError: EndpointError)   // "invalid endpoint: %w"
    | CapabilitiesFailed(opError: OpError)      // "failed to get capabilities: %w"

  class Client {
    var endpoint: string
    var username: string
    var password: string
    var httpClient: HttpClient
    var mediaEndpoint: string
    var ptzEndpoint: string
    var imagingEndpoint: string
    var eventEndpoint: string

    function State(): ClientState
      reads this
    {
      ClientState(endpoint, username, password, httpClient, mediaEndpoint, ptzEndpoint, imagingEndpoint, eventEndpoint)
    }

    /** The client literal `NewClient` builds around a normalised endpoint. */
    constructor (normalizedEndpoint: string)
      ensures State() == InitialState(normalizedEndpoint)
    {
      endpoint := normalizedEndpoint;
      username, password := "", "";
      httpClient := DefaultHttpClient;
      mediaEndpoint, ptzEndpoint, imagingEndpoint, eventEndpoint := "", "", "", "";
    }

    /** Runs one functional option against this client. */
    method Apply(opt: ClientOption)
      modifies this
      ensures State() == ApplyOption(old(State()), opt)
    {
      match opt
      case WithTimeout(t) => httpClient := httpClient.(timeout := t);
      case WithHttpClient(h) => httpClient := h;
      case WithCredentials(u, p) => username, password := u, p;
    }

    method SetCredentials(newUsername: string, newPassword: string)
      modifies this
      ensures State() == old(State()).(username := newUsername, password := newPassword)
    {
      username := newUsername;
      password := newPassword;
    }

    method GetCredentials() returns (currentUsername: string, currentPassword: string)
      ensures currentUsername == username && currentPassword == password
    {
      currentUsername, currentPassword := username, password;
    }

    /** The device endpoint, as normalised by `NewClient`. */
    method Endpoint() returns (e: string)
      ensures e == endpoint
    {
      e := endpoint;
    }

    /** Takes the service endpoints from the device's capabilities, which the
        caller fetched (the capability call is not part of this model). */
    method Initialize(capabilities: Result<Capabilities, OpError>) returns (err: Option<ClientError>)
      modifies this
      ensures err.Some? <==> capabilities.Err?
      ensures capabilities.Err? ==> err.value == CapabilitiesFailed(capabilities.error) && State() == old(State())
      ensures capabilities.Ok? ==> State() == InitializeState(old(State()), capabilities.value)
    {
      if capabilities.Err? {
        return Some(CapabilitiesFailed(capabilities.error));
      }
      var caps := capabilities.value;
      if caps.media.Some? && caps.media.value.xAddr != "" {
        mediaEndpoint := caps.media.value.xAddr;
      }
      if caps.ptz.Some? && caps.ptz.value.xAddr != "" {
        ptzEndpoint := caps.ptz.value.xAddr;
      }
      if caps.imaging.Some? && caps.imaging.value.xAddr != "" {
        imagingEndpoint := caps.imaging.value.xAddr;
      }
      if caps.events.Some? && caps.events.value.xAddr != "" {
        eventEndpoint := caps.events.value.xAddr;
      }
      err := None;
    }
  }

  /** Builds a client: the endpoint is normalised, then the options run in order. */
  method NewClient(codec: UrlCodec, endpoint: string, opts: seq<ClientOption>) returns (r: Result<Client, ClientError>)
    ensures r.Err? <==> NormalizeEndpoint(codec, endpoint).Err?
    ensures r.Err? ==> r.error == InvalidEndpoint(NormalizeEndpoint(codec, endpoint).error)
    ensures r.Ok? ==> fresh(r.value)
    ensures r.Ok? ==> r.value.State() == ApplyOptions(InitialState(NormalizeEndpoint(codec, endpoint).value), opts)
    ensures r.Ok? ==> r.value.endpoint == NormalizeEndpoint(codec, endpoint).value
    ensures r.Ok? ==> r.value.mediaEndpoint == "" && MediaTarget(r.value.State()) == r.value.endpoint
  {
    var normalized := NormalizeEndpoint(codec, endpoint);
    if normalized.Err? {
      return Err(InvalidEndpoint(normalized.error));
    }
    var client := new Client(normalized.value);
    for i := 0 to |opts|
      invariant client.State() == ApplyOptions(InitialState(normalized.value), opts[..i])
    {
      assert opts[..i + 1][..i] == opts[..i];
      client.Apply(opts[i]);
    }
    assert opts[..|opts|] == opts;
    OptionsKeepEndpoints(InitialState(normalized.value), opts);
    r := Ok(client);
  }
}
