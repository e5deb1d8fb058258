# go-onvif client core, modelled in Dafny

This project models the deterministic logic of the go-onvif client library. That is everything around the SOAP calls a `Client` makes to an ONVIF IP camera:

- **`OnvifClient`** (`client.dfy`) covers client.go:
  - `normalizeEndpoint`, which turns a bare IP, `IP:port`, hostname or full URL into the device-service URL;
  - the `Client` object with its credentials and per-service endpoints;
  - `NewClient`, which applies functional options in order;
  - `SetCredentials`, `GetCredentials` and `Endpoint`;
  - `Initialize`, which fills in the service endpoints reported by the device.
- **`DeviceSecurity`** (`device_security.dfy`) covers device_security.go:
  - the IP-address-filter request builder and response conversion;
  - the Get/Set/Add/Remove filter wrappers;
  - the optional remote user in `GetRemoteUser` and `SetRemoteUser`.
- **`Media`** (`media.dfy`) covers media.go:
  - the media endpoint fallback;
  - the response mapping of `GetProfiles`, `GetVideoSources`, `GetVideoSourceModes` and `GetVideoEncoderConfigurationOptions`;
  - the optional-field rules of `CreateProfile`, `CreateOSD`, `GetStreamURI`, `SetAudioEncoderConfiguration` and `GetAudioEncoderConfigurationOptions`;
  - `GetAudioEncoderConfiguration`, the read side of `SetAudioEncoderConfiguration`.
- **`Soap`** (`soap.dfy`) is the boundary to the SOAP transport. It defines the `Option`/`Result` types, the three SOAP error classes, the `"<operation> failed: %w"` error wrapper and the `omitempty` rules for strings, integers and booleans.

A SOAP call is a function the caller supplies, `soap: Exchange<Req> -> Result<Resp, SoapError>` (void operations return `Option<SoapError>`). Each wrapper builds one `Exchange` from the target URL, a snapshot of the credentials and the request value, and passes it to that function. A wrapper's contract states its result in terms of `soap` applied to the exact exchange it must send, built by `DeviceSecurity.DeviceExchange` or `Media.MediaExchange`. Because `soap` is arbitrary, that pins down both what is sent and how the outcome maps to the result.

Requests and responses are datatypes, not XML. An element tagged `omitempty`, and any field Go leaves nil when absent, is an `Option`: `None` means the element is left out.

`url.Parse` and `URL.String` come from Go's `net/url` package, which is not part of this model. They are a caller-supplied `UrlCodec` value.

The client is a `class` whose methods update its fields in place. Its `State()` value is specified by the functions `InitialState`, `ApplyOptions` and `InitializeState`, and the lemmas about those functions state what the client promises.

A doc comment at client.go:57 says an IP-only endpoint becomes `http://IP:80/onvif/device_service`. The code at client.go:106 adds no port, and the model follows the code.

## Model

| member | source | states |
|---|---|---|
| Soap.WrapVoid | device_security.go:132-136 | a void call fails exactly when the transport fails, and the error names the operation and wraps the transport's error |
| Soap.OmitEmpty | device_security.go:110 | a string element tagged omitempty is sent exactly when the string is non-empty, with that value |
| Soap.OmitZero | media.go:942-943 | an integer element tagged omitempty is sent exactly when it is non-zero, with that value |
| Soap.OmitFalse | media.go:944 | a boolean element tagged omitempty is sent exactly when it is true |
| OnvifClient.WithDefaultPath | client.go:97-100 | the resulting path is never empty or "/"; any other path is kept and no other URL component changes |
| OnvifClient.NormalizeEndpoint | client.go:86-117 | with an http:// or https:// prefix, success iff the input parses with a non-empty host; without one, success iff the bare URL parses with a non-empty host, and the result then starts with "http://", ends with the device service path and holds exactly the input between them |
| OnvifClient.NormalizeWithScheme | client.go:88-101 | with a scheme: a parse error is returned as is, an empty host gives "URL missing host" (and only then), an empty or "/" path becomes /onvif/device_service, any other path is kept |
| OnvifClient.NormalizeWithoutScheme | client.go:104-116 | without a scheme a success is exactly "http://" + endpoint + "/onvif/device_service"; a parse failure is "invalid IP address or hostname", an empty host is "invalid endpoint format" |
| OnvifClient.OptionsKeepEndpoints | client.go:31-51 | no option changes the device endpoint or any service endpoint |
| OnvifClient.LastCredentialsWin | client.go:78-80 | options apply in list order: the last credentials option decides username and password |
| OnvifClient.CredentialsWithoutOption | client.go:65-80 | without a credentials option the client keeps the credentials it was built with |
| OnvifClient.LastTimeoutWins | client.go:32-36 | the last timeout option decides the timeout unless an HTTP client option follows it |
| OnvifClient.LastHttpClientWins | client.go:39-43 | the last HTTP client option decides the transport, whatever timeout options follow |
| OnvifClient.InitializeUpdates | client.go:127-139 | a service endpoint is overwritten exactly when its capability is present with a non-empty address; the device endpoint, credentials and HTTP client are untouched |
| OnvifClient.InitializeIdempotent | client.go:127-139 | initialising twice with the same capabilities gives the same state as once |
| OnvifClient.MediaTarget | media.go:16-19 | media calls go to the media endpoint when it is non-empty and to the device endpoint otherwise; the target is empty only when both are |
| OnvifClient.MediaTargetOfNewClient | client.go:65-80 | a new client, whatever its options, sends media calls to its device endpoint |
| OnvifClient.MediaTargetAfterInitialize | client.go:128-130 | after Initialize media calls go to the reported media address when there is a non-empty one, and otherwise where they went before |
| OnvifClient.Client.constructor | client.go:65-75 | a new client holds the normalised endpoint, empty credentials and service endpoints, and a 30 s HTTP client with a pooled transport (10 idle, 5 per host, 90 s) |
| OnvifClient.Client.Apply | client.go:31-51 | one option changes only the timeout, the HTTP client or the credentials, as named |
| OnvifClient.Client.SetCredentials | client.go:150-155 | the credentials become the given pair and no other field changes |
| OnvifClient.Client.GetCredentials | client.go:158-162 | returns the stored username and password |
| OnvifClient.Client.Endpoint | client.go:145-147 | returns the stored device endpoint |
| OnvifClient.Client.Initialize | client.go:120-142 | fails exactly when fetching capabilities fails, wrapping that error and leaving the client unchanged; otherwise the state is updated as InitializeUpdates says |
| OnvifClient.NewClient | client.go:58-83 | fails exactly when normalisation fails, with that error wrapped; on success a fresh client stores the normalised endpoint, with the options applied first to last and no media endpoint |
| DeviceSecurity.FilterRequestShape | device_security.go:35-62 | the request keeps the filter type; an empty address list is left out; a non-empty one keeps its length, order, addresses and prefix lengths |
| DeviceSecurity.FilterFromXmlShape | device_security.go:169-194 | the response conversion keeps the type and the count, order and fields of both address lists |
| DeviceSecurity.FilterRoundTrip | device_security.go:35-62 | a filter sent and read back from a device that stores it is the same filter |
| DeviceSecurity.BuildIpAddressFilterRequest | device_security.go:35-62 | the element-by-element append loops build exactly the request form of the filter |
| DeviceSecurity.GetIpAddressFilter | device_security.go:140-195 | sends to the device endpoint with the current credentials; a call error is wrapped as "GetIPAddressFilter failed"; otherwise the result is the converted filter |
| DeviceSecurity.SetIpAddressFilter | device_security.go:198-215 | sends the filter's request form to the device endpoint; fails exactly when the call fails, wrapped as "SetIPAddressFilter failed" |
| DeviceSecurity.AddIpAddressFilter | device_security.go:218-235 | sends the same request form as Set, under the Add operation; fails exactly when the call fails |
| DeviceSecurity.RemoveIpAddressFilter | device_security.go:238-255 | sends the same request form as Set, under the Remove operation; fails exactly when the call fails |
| DeviceSecurity.RemoteUserRoundTrip | device_security.go:107-137 | a remote user (or none) set and read back from a device that stores it is the same; leaving out an empty password loses nothing |
| DeviceSecurity.GetRemoteUser | device_security.go:71-104 | a call error is wrapped; a response without a remote user gives no user and no error; otherwise all three fields are copied |
| DeviceSecurity.RemoteUserRequest | device_security.go:120-130 | the request holds a remote user element iff the argument is present, with username and derived-password flag copied and the password iff non-empty |
| DeviceSecurity.SetRemoteUser | device_security.go:107-137 | sends the request form of the (possibly absent) remote user to the device endpoint with the current credentials; fails exactly when the call fails, wrapped as "SetRemoteUser failed" |
| Media.ProfileFromXmlShape | media.go:81-138 | a profile keeps token and name; each configuration, and the bounds, resolution and rate control inside one, is present exactly when the response had it, with every field copied |
| Media.ProfileFromXmlInjective | media.go:81-138 | the profile conversion loses nothing: equal profiles come from equal response entries |
| Media.ConvertProfile | media.go:82-135 | building a profile field by field, each optional part only when present, gives the converted profile |
| Media.GetProfiles | media.go:15-141 | sends to the media target; a call error is wrapped as "GetProfiles failed"; otherwise exactly one profile per response entry, at the same index, converted |
| Media.GetStreamUri | media.go:144-195 | requests an RTP-Unicast stream over RTSP for the given profile token at the media target; the result copies the URI and both invalidation flags |
| Media.GetVideoSources | media.go:315-364 | one source per response entry at the same index, with token and frame rate copied and the resolution always present |
| Media.GetVideoSourceModes | media.go:1162-1213 | sends the video source token; one mode per response entry at the same index, with token and enabled flag copied and the resolution always present |
| Media.CreateProfile | media.go:453-495 | sends the name, and a Token element iff the token argument is non-empty; the result holds only the returned token and name |
| Media.EncoderOptionsShape | media.go:745-803 | the quality range, JPEG and H264 options and every range inside them are present exactly when the response had them; available resolutions keep count, order and sizes; H264 profiles are copied |
| Media.ConvertResolutions | media.go:766-771 | the append loop keeps the count, order, widths and heights of the resolutions |
| Media.ConvertJpegOptions | media.go:752-773 | the JPEG options built step by step equal their conversion |
| Media.ConvertH264Options | media.go:775-803 | the H264 options built step by step equal their conversion |
| Media.GetVideoEncoderConfigurationOptions | media.go:670-806 | sends the configuration token iff non-empty and never a profile token; a call error is wrapped; otherwise the result is the converted options |
| Media.AudioEncoderRequestRules | media.go:923-960 | token, name, use count and encoding are copied; bitrate and sample rate are sent iff positive; multicast iff given, and its address iff given; no session timeout |
| Media.AudioEncoderRoundTrip | media.go:886-971 | a configuration set and read back from a device that stores it is the same except that a negative bitrate or sample rate reads back as 0; it is identical iff both are non-negative |
| Media.SetAudioEncoderConfiguration | media.go:886-971 | sends the request form of the configuration with the persistence flag to the media target; fails exactly when the call fails |
| Media.GetAudioEncoderConfiguration | media.go:809-883 | a call error is wrapped; otherwise the result is the converted configuration, with multicast and its address present exactly when the response had them |
| Media.GetAudioEncoderConfigurationOptions | media.go:1945-1991 | sends each token iff non-empty; the three option lists are returned as received |
| Media.OsdToken | media.go:1419-1421 | the OSD token is carried iff an OSD is given and its token is non-empty, and then it is that token |
| Media.CreateOsd | media.go:1391-1435 | sends the video source configuration token and the OSD token rule's result to the media target; a call error is wrapped as "CreateOSD failed"; the result holds the returned token |

## Left out

- The SOAP transport behind `soap.NewClient(...).Call`: the HTTP POST, XML marshalling, namespaces, WS-Security UsernameToken and fault parsing. It is a caller-supplied function. Decoding a response that does not match is one of its error outcomes.
- `context.Context` cancellation and the `sync.RWMutex` around the credentials. The model is sequential.
- `url.Parse` and `URL.String`: a caller-supplied codec. Nothing is claimed about the rendered string beyond what the parser returns.
- The `http.Client` is a value holding a timeout and a transport description:
  - Go's `WithTimeout` writes through a shared `*http.Client`, so it also changes a client passed to `WithHTTPClient`. That aliasing is not modelled.
  - A nil HTTP client passed to `WithHTTPClient` and followed by `WithTimeout` panics in Go. That is not modelled either.
- Options are the three option constructors client.go defines. A caller-written `ClientOption` closure is not modelled.
- `GetCapabilities`, which `Initialize` calls, is not part of this model. `Initialize` takes its outcome as an argument.
- Floating-point values (frame rates, quality and the float ranges) are opaque bits that are only copied.
- Nil and empty slices are one value (`seq`).
- A nil `*IPAddressFilter` or `*AudioEncoderConfiguration` argument is not modelled. Go dereferences it and panics. Those arguments are values here, while a nil `*RemoteUser` or `*OSDConfiguration` argument is an `Option`.
- IPv4 and IPv6 prefixed addresses share one datatype, because their Go types have the same fields.
- The remaining wrappers in device_security.go and media.go have no model. They copy fields one-for-one or send a fixed request:
  - device_security.go: ZeroConfiguration, DynamicDNS (the TTL is dropped on read), PasswordComplexity, PasswordHistory and AuthFailureWarning.
  - media.go: GetSnapshotURI, the video encoder, metadata, OSD and audio output get/set calls, the Add/Remove configuration calls, and the other option queries.
- The `Timeout` of a stream URI response is not kept: the source drops it too.
