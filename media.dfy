/** Media service operations. Every call goes to the media service endpoint
    when the client knows one and to the device endpoint otherwise. */
module Media {
  import opened Soap
  import opened OnvifClient

  /** The stream setup every stream URI request asks for. */
  const StreamType := "RTP-Unicast"
  const StreamProtocol := "RTSP"

  /** A float64 value, only ever copied: its bits stand for it. */
  datatype Float64 = Float64(bits: bv64)

  /** The exchange a media call sends: the media target, the current
      credentials and the request. */
  function MediaExchange<Req>(c: Client, request: Req): Exchange<Req>
    reads c
  {
    Exchange(MediaTarget(c.State()), c.username, c.password, request)
  }

  // ---------------------------------------------------------------------------
  // Records of the media service
  // ---------------------------------------------------------------------------

  datatype IntRectangle = IntRectangle(x: int, y: int, width: int, height: int)
  datatype VideoResolution = VideoResolution(width: int, height: int)
  datatype VideoRateControl = VideoRateControl(frameRateLimit: int, encodingInterval: int, bitrateLimit: int)

  datatype VideoSourceConfiguration = VideoSourceConfiguration(
    token: string, name: string, useCount: int, sourceToken: string, bounds: Option<IntRectangle>)

  datatype VideoEncoderConfiguration = VideoEncoderConfiguration(
    token: string, name: string, useCount: int, encoding: string,
    resolution: Option<VideoResolution>, quality: Float64, rateControl: Option<VideoRateControl>)

  datatype PTZConfiguration = PTZConfiguration(token: string, name: string, useCount: int, nodeToken: string)

  datatype Profile = Profile(
    token: string,
    name: string,
    videoSourceConfiguration: Option<VideoSourceConfiguration>,
    videoEncoderConfiguration: Option<VideoEncoderConfiguration>,
    ptzConfiguration: Option<PTZConfiguration>)

  // ---------------------------------------------------------------------------
  // GetProfiles
  // ---------------------------------------------------------------------------

  datatype IntRectangleXml = IntRectangleXml(x: int, y: int, width: int, height: int)
  datatype VideoResolutionXml = VideoResolutionXml(width: int, height: int)
  datatype VideoRateControlXml = VideoRateControlXml(frameRateLimit: int, encodingInterval: int, bitrateLimit: int)

  datatype VideoSourceConfigurationXml = VideoSourceConfigurationXml(
    token: string, name: string, useCount: int, sourceToken: string, bounds: Option<IntRectangleXml>)

  datatype VideoEncoderConfigurationXml = VideoEncoderConfigurationXml(
    token: string, name: string, useCount: int, encoding: string,
    resolution: Option<VideoResolutionXml>, quality: Float64, rateControl: Option<VideoRateControlXml>)

  datatype PTZConfigurationXml = PTZConfigurationXml(token: string, name: string, useCount: int, nodeToken: string)

  datatype ProfileXml = ProfileXml(
    token: string,
    name: string,
    videoSourceConfiguration: Option<VideoSourceConfigurationXml>,
    videoEncoderConfiguration: Option<VideoEncoderConfigurationXml>,
    ptzConfiguration: Option<PTZConfigurationXml>)

  datatype GetProfilesRequest = GetProfilesRequest
  datatype GetProfilesResponse = GetProfilesResponse(profiles: seq<ProfileXml>)

  function ResolutionFromXml(x: VideoResolutionXml): VideoResolution {
    VideoResolution(x.width, x.height)
  }

  function VideoSourceConfigurationFromXml(x: VideoSourceConfigurationXml): VideoSourceConfiguration {
    VideoSourceConfiguration(
      x.token, x.name, x.useCount, x.sourceToken,
      match x.bounds
      case None => None
      case Some(b) => Some(IntRectangle(b.x, b.y, b.width, b.height)))
  }

  function VideoEncoderConfigurationFromXml(x: VideoEncoderConfigurationXml): VideoEncoderConfiguration {
    VideoEncoderConfiguration(
      x.token, x.name, x.useCount, x.encoding,
      match x.resolution
      case None => None
      case Some(res) => Some(ResolutionFromXml(res)),
      x.quality,
      match x.rateControl
      case None => None
      case Some(rc) => Some(VideoRateControl(rc.frameRateLimit, rc.encodingInterval, rc.bitrateLimit)))
  }

  function ProfileFromXml(p: ProfileXml): Profile {
    Profile(
      p.token, p.name,
      match p.videoSourceConfiguration
      case None => None
      case Some(vsc) => Some(VideoSourceConfigurationFromXml(vsc)),
      match p.videoEncoderConfiguration
      case None => None
      case Some(vec) => Some(VideoEncoderConfigurationFromXml(vec)),
      match p.ptzConfiguration
      case None => None
      case Some(ptz) => Some(PTZConfiguration(ptz.token, ptz.name, ptz.useCount, ptz.nodeToken)))
  }

  /** A profile keeps token and name, and each optional configuration (and
      the bounds, resolution and rate control inside one) is present exactly
      when the response had it, with its fields copied. */
  lemma ProfileFromXmlShape(p: ProfileXml)
    ensures var q := ProfileFromXml(p);
      && q.token == p.token && q.name == p.name
      && (q.videoSourceConfiguration.Some? <==> p.videoSourceConfiguration.Some?)
      && (q.videoEncoderConfiguration.Some? <==> p.videoEncoderConfiguration.Some?)
      && (q.ptzConfiguration.Some? <==> p.ptzConfiguration.Some?)
      && (p.videoSourceConfiguration.Some? ==>
            var x, y := p.videoSourceConfiguration.value, q.videoSourceConfiguration.value;
            && y.token == x.token && y.name == x.name && y.useCount == x.useCount && y.sourceToken == x.sourceToken
            && (y.bounds.Some? <==> x.bounds.Some?)
            && (x.bounds.Some? ==>
                  y.bounds.value.x == x.bounds.value.x && y.bounds.value.y == x.bounds.value.y &&
                  y.bounds.value.width == x.bounds.value.width && y.bounds.value.height == x.bounds.value.height))
      && (p.videoEncoderConfiguration.Some? ==>
            var x, y := p.videoEncoderConfiguration.value, q.videoEncoderConfiguration.value;
            && y.token == x.token && y.name == x.name && y.useCount == x.useCount && y.encoding == x.encoding
            && y.quality == x.quality
            && (y.resolution.Some? <==> x.resolution.Some?)
            && (x.resolution.Some? ==>
                  y.resolution.value.width == x.resolution.value.width &&
                  y.resolution.value.height == x.resolution.value.height)
            && (y.rateControl.Some? <==> x.rateControl.Some?)
            && (x.rateControl.Some? ==>
                  y.rateControl.value.frameRateLimit == x.rateControl.value.frameRateLimit &&
                  y.rateControl.value.encodingInterval == x.rateControl.value.encodingInterval &&
                  y.rateControl.value.bitrateLimit == x.rateControl.value.bitrateLimit))
      && (p.ptzConfiguration.Some? ==>
            var x, y := p.ptzConfiguration.value, q.ptzConfiguration.value;
            y.token == x.token && y.name == x.name && y.useCount == x.useCount && y.nodeToken == x.nodeToken)
  {
  }

  /** The conversion loses nothing: two responses that give the same profile are the same. */
  lemma ProfileFromXmlInjective(p: ProfileXml, p': ProfileXml)
    requires ProfileFromXml(p) == ProfileFromXml(p')
    ensures p == p'
  {
    ProfileFromXmlShape(p);
    ProfileFromXmlShape(p');
  }

  /** One profile, built field by field: each optional configuration, and
      each optional part inside one, only when the response had it. */
  method ConvertProfile(p: ProfileXml) returns (profile: Profile)
    ensures profile == ProfileFromXml(p)
  {
    profile := Profile(p.token, p.name, None, None, None);
    if p.videoSourceConfiguration.Some? {
      var x := p.videoSourceConfiguration.value;
      var vsc := VideoSourceConfiguration(x.token, x.name, x.useCount, x.sourceToken, None);
      if x.bounds.Some? {
        vsc := vsc.(bounds := Some(IntRectangle(x.bounds.value.x, x.bounds.value.y, x.bounds.value.width, x.bounds.value.height)));
      }
      profile := profile.(videoSourceConfiguration := Some(vsc));
    }
    if p.videoEncoderConfiguration.Some? {
      var x := p.videoEncoderConfiguration.value;
      var vec := VideoEncoderConfiguration(x.token, x.name, x.useCount, x.encoding, None, x.quality, None);
      if x.resolution.Some? {
        vec := vec.(resolution := Some(VideoResolution(x.resolution.value.width, x.resolution.value.height)));
      }
      if x.rateControl.Some? {
        var rc := x.rateControl.value;
        vec := vec.(rateControl := Some(VideoRateControl(rc.frameRateLimit, rc.encodingInterval, rc.bitrateLimit)));
      }
      profile := profile.(videoEncoderConfiguration := Some(vec));
    }
    if p.ptzConfiguration.Some? {
      var x := p.ptzConfiguration.value;
      profile := profile.(ptzConfiguration := Some(PTZConfiguration(x.token, x.name, x.useCount, x.nodeToken)));
    }
  }

  method GetProfiles(
    c: Client,
    soap: Exchange<GetProfilesRequest> -> Result<GetProfilesResponse, SoapError>)
    returns (r: Result<seq<Profile>, OpError>)
    ensures var reply := soap(MediaExchange(c, GetProfilesRequest));
      reply.Err? ==> r == Err(OperationFailed("GetProfiles", reply.error))
    ensures var reply := soap(MediaExchange(c, GetProfilesRequest));
      reply.Ok? ==> r.Ok? && |r.value| == |reply.value.profiles|
    ensures var reply := soap(MediaExchange(c, GetProfilesRequest));
      reply.Ok? ==> forall i :: 0 <= i < |r.value| ==> r.value[i] == ProfileFromXml(reply.value.profiles[i])
  {
    var endpoint := c.mediaEndpoint;
    if endpoint == "" {
      endpoint := c.endpoint;
    }
    var username, password := c.GetCredentials();
    var exchange := Exchange(endpoint, username, password, GetProfilesRequest);
    var reply := soap(exchange);
    if reply.Err? {
      return Err(OperationFailed("GetProfiles", reply.error));
    }
    var xs := reply.value.profiles;
    var profiles := new Profile[|xs|];
    for i := 0 to |xs|
      invariant forall k :: 0 <= k < i ==> profiles[k] == ProfileFromXml(xs[k])
    {
      profiles[i] := ConvertProfile(xs[i]);
    }
    r := Ok(profiles[..]);
  }

  // ---------------------------------------------------------------------------
  // GetStreamURI
  // ---------------------------------------------------------------------------

  datatype GetStreamUriRequest = GetStreamUriRequest(stream: string, protocol: string, profileToken: string)

  datatype MediaUriXml = MediaUriXml(uri: string, invalidAfterConnect: bool, invalidAfterReboot: bool, timeout: string)
  datatype GetStreamUriResponse = GetStreamUriResponse(mediaUri: MediaUriXml)

  datatype MediaUri = MediaUri(uri: string, invalidAfterConnect: bool, invalidAfterReboot: bool)

  /** Asks for an RTP-unicast stream over RTSP; the profile token is sent even when empty. */
  method GetStreamUri(
    c: Client,
    profileToken: string,
    soap: Exchange<GetStreamUriRequest> -> Result<GetStreamUriResponse, SoapError>)
    returns (r: Result<MediaUri, OpError>)
    ensures var reply := soap(MediaExchange(c, GetStreamUriRequest(StreamType, StreamProtocol, profileToken)));
      reply.Err? ==> r == Err(OperationFailed("GetStreamUri", reply.error))
    ensures var reply := soap(MediaExchange(c, GetStreamUriRequest(StreamType, StreamProtocol, profileToken)));
      reply.Ok? ==>
        var m := reply.value.mediaUri;
        r.Ok? && r.value.uri == m.uri &&
        r.value.invalidAfterConnect == m.invalidAfterConnect && r.value.invalidAfterReboot == m.invalidAfterReboot
  {
    var endpoint := c.mediaEndpoint;
    if endpoint == "" {
      endpoint := c.endpoint;
    }
    var req := GetStreamUriRequest("", "", profileToken);
    req := req.(stream := StreamType);
    req := req.(protocol := StreamProtocol);
    var username, password := c.GetCredentials();
    var exchange := Exchange(endpoint, username, password, req);
    var reply := soap(exchange);
    if reply.Err? {
      return Err(OperationFailed("GetStreamUri", reply.error));
    }
    var m := reply.value.mediaUri;
    r := Ok(MediaUri(m.uri, m.invalidAfterConnect, m.invalidAfterReboot));
  }

  // ---------------------------------------------------------------------------
  // GetVideoSources and GetVideoSourceModes
  // ---------------------------------------------------------------------------

  datatype VideoSource = VideoSource(token: string, framerate: Float64, resolution: Option<VideoResolution>)
  datatype VideoSourceXml = VideoSourceXml(token: string, framerate: Float64, resolution: VideoResolutionXml)

  datatype GetVideoSourcesRequest = GetVideoSourcesRequest
  datatype GetVideoSourcesResponse = GetVideoSourcesResponse(videoSources: seq<VideoSourceXml>)

  /** One video source per response entry, at the same index, always with its resolution. */
  method GetVideoSources(
    c: Client,
    soap: Exchange<GetVideoSourcesRequest> -> Result<GetVideoSourcesResponse, SoapError>)
    returns (r: Result<seq<VideoSource>, OpError>)
    ensures var reply := soap(MediaExchange(c, GetVideoSourcesRequest));
      reply.Err? ==> r == Err(OperationFailed("GetVideoSources", reply.error))
    ensures var reply := soap(MediaExchange(c, GetVideoSourcesRequest));
      reply.Ok? ==> r.Ok? && |r.value| == |reply.value.videoSources|
    ensures var reply := soap(MediaExchange(c, GetVideoSourcesRequest));
      reply.Ok? ==>
        forall i :: 0 <= i < |r.value| ==>
          var x := reply.value.videoSources[i];
          && r.value[i].token == x.token && r.value[i].framerate == x.framerate
          && r.value[i].resolution == Some(VideoResolution(x.resolution.width, x.resolution.height))
  {
    var endpoint := c.mediaEndpoint;
    if endpoint == "" {
      endpoint := c.endpoint;
    }
    var username, password := c.GetCredentials();
    var exchange := Exchange(endpoint, username, password, GetVideoSourcesRequest);
    var reply := soap(exchange);
    if reply.Err? {
      return Err(OperationFailed("GetVideoSources", reply.error));
    }
    var xs := reply.value.videoSources;
    var sources := new VideoSource[|xs|];
    for i := 0 to |xs|
      invariant forall k :: 0 <= k < i ==>
        sources[k] == VideoSource(xs[k].token, xs[k].framerate, Some(ResolutionFromXml(xs[k].resolution)))
    {
      sources[i] := VideoSource(xs[i].token, xs[i].framerate, Some(VideoResolution(xs[i].resolution.width, xs[i].resolution.height)));
    }
    r := Ok(sources[..]);
  }

  datatype VideoSourceMode = VideoSourceMode(token: string, enabled: bool, resolution: Option<VideoResolution>)
  datatype VideoSourceModeXml = VideoSourceModeXml(token: string, enabled: bool, resolution: VideoResolutionXml)

  datatype GetVideoSourceModesRequest = GetVideoSourceModesRequest(videoSourceToken: string)
  datatype GetVideoSourceModesResponse = GetVideoSourceModesResponse(videoSourceModes: seq<VideoSourceModeXml>)

  /** One mode per response entry, at the same index, always with its resolution. */
  method GetVideoSourceModes(
    c: Client,
    videoSourceToken: string,
    soap: Exchange<GetVideoSourceModesRequest> -> Result<GetVideoSourceModesResponse, SoapError>)
    returns (r: Result<seq<VideoSourceMode>, OpError>)
    ensures var reply := soap(MediaExchange(c, GetVideoSourceModesRequest(videoSourceToken)));
      reply.Err? ==> r == Err(OperationFailed("GetVideoSourceModes", reply.error))
    ensures var reply := soap(MediaExchange(c, GetVideoSourceModesRequest(videoSourceToken)));
      reply.Ok? ==> r.Ok? && |r.value| == |reply.value.videoSourceModes|
    ensures var reply := soap(MediaExchange(c, GetVideoSourceModesRequest(videoSourceToken)));
      reply.Ok? ==>
        forall i :: 0 <= i < |r.value| ==>
          var x := reply.value.videoSourceModes[i];
          && r.value[i].token == x.token && r.value[i].enabled == x.enabled
          && r.value[i].resolution == Some(VideoResolution(x.resolution.width, x.resolution.height))
  {
    var endpoint := c.mediaEndpoint;
    if endpoint == "" {
      endpoint := c.endpoint;
    }
    var username, password := c.GetCredentials();
    var exchange := Exchange(endpoint, username, password, GetVideoSourceModesRequest(videoSourceToken));
    var reply := soap(exchange);
    if reply.Err? {
      return Err(OperationFailed("GetVideoSourceModes", reply.error));
    }
    var xs := reply.value.videoSourceModes;
    var modes := new VideoSourceMode[|xs|];
    for i := 0 to |xs|
      invariant forall k :: 0 <= k < i ==>
        modes[k] == VideoSourceMode(xs[k].token, xs[k].enabled, Some(ResolutionFromXml(xs[k].resolution)))
    {
      modes[i] := VideoSourceMode(xs[i].token, xs[i].enabled, Some(VideoResolution(xs[i].resolution.width, xs[i].resolution.height)));
    }
    r := Ok(modes[..]);
  }

  // ---------------------------------------------------------------------------
  // CreateProfile
  // ---------------------------------------------------------------------------

  /** A `None` token leaves the Token element out. */
  datatype CreateProfileRequest = CreateProfileRequest(name: string, token: Option<string>)
  datatype CreatedProfileXml = CreatedProfileXml(token: string, name: string)
  datatype CreateProfileResponse = CreateProfileResponse(profile: CreatedProfileXml)

  /** Sends a Token only for a non-empty token; the new profile carries only
      the token and name the device answered with. */
  method CreateProfile(
    c: Client,
    name: string,
    token: string,
    soap: Exchange<CreateProfileRequest> -> Result<CreateProfileResponse, SoapError>)
    returns (r: Result<Profile, OpError>)
    ensures var reply := soap(MediaExchange(c, CreateProfileRequest(name, OmitEmpty(token))));
      reply.Err? ==> r == Err(OperationFailed("CreateProfile", reply.error))
    ensures var reply := soap(MediaExchange(c, CreateProfileRequest(name, OmitEmpty(token))));
      reply.Ok? ==> r == Ok(Profile(reply.value.profile.token, reply.value.profile.name, None, None, None))
  {
    var endpoint := c.mediaEndpoint;
    if endpoint == "" {
      endpoint := c.endpoint;
    }
    var req := CreateProfileRequest(name, None);
    if token != "" {
      req := req.(token := Some(token));
    }
    var username, password := c.GetCredentials();
    var exchange := Exchange(endpoint, username, password, req);
    var reply := soap(exchange);
    if reply.Err? {
      return Err(OperationFailed("CreateProfile", reply.error));
    }
    r := Ok(Profile(reply.value.profile.token, reply.value.profile.name, None, None, None));
  }

  // ---------------------------------------------------------------------------
  // GetVideoEncoderConfigurationOptions
  // ---------------------------------------------------------------------------

  datatype FloatRange = FloatRange(min: Float64, max: Float64)
  datatype IntRange = IntRange(min: int, max: int)

  datatype JpegOptions = JpegOptions(
    resolutionsAvailable: seq<VideoResolution>,
    frameRateRange: Option<FloatRange>,
    encodingIntervalRange: Option<IntRange>)

  datatype H264Options = H264Options(
    resolutionsAvailable: seq<VideoResolution>,
    govLengthRange: Option<IntRange>,
    frameRateRange: Option<FloatRange>,
    encodingIntervalRange: Option<IntRange>,
    h264ProfilesSupported: seq<string>)

  datatype VideoEncoderConfigurationOptions = VideoEncoderConfigurationOptions(
    qualityRange: Option<FloatRange>,
    jpeg: Option<JpegOptions>,
    h264: Option<H264Options>)

  datatype FloatRangeXml = FloatRangeXml(min: Float64, max: Float64)
  datatype IntRangeXml = IntRangeXml(min: int, max: int)

  datatype JpegOptionsXml = JpegOptionsXml(
    resolutionsAvailable: seq<VideoResolutionXml>,
    frameRateRange: Option<FloatRangeXml>,
    encodingIntervalRange: Option<IntRangeXml>)

  datatype H264OptionsXml = H264OptionsXml(
    resolutionsAvailable: seq<VideoResolutionXml>,
    govLengthRange: Option<IntRangeXml>,
    frameRateRange: Option<FloatRangeXml>,
    encodingIntervalRange: Option<IntRangeXml>,
    h264ProfilesSupported: seq<string>)

  datatype VideoEncoderOptionsXml = VideoEncoderOptionsXml(
    qualityRange: Option<FloatRangeXml>,
    jpeg: Option<JpegOptionsXml>,
    h264: Option<H264OptionsXml>)

  /** `None` tokens are left out of the request. */
  datatype GetVideoEncoderConfigurationOptionsRequest = GetVideoEncoderConfigurationOptionsRequest(
    configurationToken: Option<string>, profileToken: Option<string>)
  datatype GetVideoEncoderConfigurationOptionsResponse = GetVideoEncoderConfigurationOptionsResponse(
    options: VideoEncoderOptionsXml)

  function FloatRangeFromXml(x: Option<FloatRangeXml>): Option<FloatRange> {
    match x
    case None => None
    case Some(r) => Some(FloatRange(r.min, r.max))
  }

  function IntRangeFromXml(x: Option<IntRangeXml>): Option<IntRange> {
    match x
    case None => None
    case Some(r) => Some(IntRange(r.min, r.max))
  }

  function ResolutionsFromXml(xs: seq<VideoResolutionXml>): seq<VideoResolution> {
    seq(|xs|, i requires 0 <= i < |xs| => ResolutionFromXml(xs[i]))
  }

  function JpegOptionsFromXml(j: JpegOptionsXml): JpegOptions {
    JpegOptions(ResolutionsFromXml(j.resolutionsAvailable), FloatRangeFromXml(j.frameRateRange),
                IntRangeFromXml(j.encodingIntervalRange))
  }

  function H264OptionsFromXml(h: H264OptionsXml): H264Options {
    H264Options(ResolutionsFromXml(h.resolutionsAvailable), IntRangeFromXml(h.govLengthRange),
                FloatRangeFromXml(h.frameRateRange), IntRangeFromXml(h.encodingIntervalRange),
                h.h264ProfilesSupported)
  }

  function EncoderOptionsFromXml(x: VideoEncoderOptionsXml): VideoEncoderConfigurationOptions {
    VideoEncoderConfigurationOptions(
      FloatRangeFromXml(x.qualityRange),
      match x.jpeg
      case None => None
      case Some(j) => Some(JpegOptionsFromXml(j)),
      match x.h264
      case None => None
      case Some(h) => Some(H264OptionsFromXml(h)))
  }

  /** The quality range, JPEG and H264 options are present exactly when the
      response had them, each range inside them likewise, and the available
      resolutions keep their count, order and sizes. */
  lemma EncoderOptionsShape(x: VideoEncoderOptionsXml)
    ensures var o := EncoderOptionsFromXml(x);
      && (o.qualityRange.Some? <==> x.qualityRange.Some?)
      && (o.jpeg.Some? <==> x.jpeg.Some?)
      && (o.h264.Some? <==> x.h264.Some?)
      && (x.jpeg.Some? ==>
            var j, k := x.jpeg.value, o.jpeg.value;
            && |k.resolutionsAvailable| == |j.resolutionsAvailable|
            && (forall i :: 0 <= i < |j.resolutionsAvailable| ==>
                  k.resolutionsAvailable[i].width == j.resolutionsAvailable[i].width &&
                  k.resolutionsAvailable[i].height == j.resolutionsAvailable[i].height)
            && (k.frameRateRange.Some? <==> j.frameRateRange.Some?)
            && (k.encodingIntervalRange.Some? <==> j.encodingIntervalRange.Some?))
      && (x.h264.Some? ==>
            var h, k := x.h264.value, o.h264.value;
            && |k.resolutionsAvailable| == |h.resolutionsAvailable|
            && (forall i :: 0 <= i < |h.resolutionsAvailable| ==>
                  k.resolutionsAvailable[i].width == h.resolutionsAvailable[i].width &&
                  k.resolutionsAvailable[i].height == h.resolutionsAvailable[i].height)
            && (k.govLengthRange.Some? <==> h.govLengthRange.Some?)
            && (k.frameRateRange.Some? <==> h.frameRateRange.Some?)
            && (k.encodingIntervalRange.Some? <==> h.encodingIntervalRange.Some?)
            && k.h264ProfilesSupported == h.h264ProfilesSupported)
  {
  }

  /** The available resolutions, appended one by one in response order. */
  method ConvertResolutions(xs: seq<VideoResolutionXml>) returns (rs: seq<VideoResolution>)
    ensures |rs| == |xs|
    ensures forall i :: 0 <= i < |xs| ==> rs[i].width == xs[i].width && rs[i].height == xs[i].height
  {
    rs := [];
    for i := 0 to |xs|
      invariant |rs| == i
      invariant forall k :: 0 <= k < i ==> rs[k] == ResolutionFromXml(xs[k])
    {
      rs := rs + [VideoResolution(xs[i].width, xs[i].height)];
    }
  }

  /** The JPEG options: each range only when present, the resolutions in order. */
  method ConvertJpegOptions(j: JpegOptionsXml) returns (o: JpegOptions)
    ensures o == JpegOptionsFromXml(j)
  {
    o := JpegOptions([], None, None);
    if j.frameRateRange.Some? {
      o := o.(frameRateRange := Some(FloatRange(j.frameRateRange.value.min, j.frameRateRange.value.max)));
    }
    if j.encodingIntervalRange.Some? {
      o := o.(encodingIntervalRange := Some(IntRange(j.encodingIntervalRange.value.min, j.encodingIntervalRange.value.max)));
    }
    var resolutions := ConvertResolutions(j.resolutionsAvailable);
    assert resolutions == ResolutionsFromXml(j.resolutionsAvailable);
    o := o.(resolutionsAvailable := resolutions);
  }

  /** The H264 options: each range only when present, the resolutions in
      order, the supported profiles copied. */
  method ConvertH264Options(h: H264OptionsXml) returns (o: H264Options)
    ensures o == H264OptionsFromXml(h)
  {
    o := H264Options([], None, None, None, []);
    if h.frameRateRange.Some? {
      o := o.(frameRateRange := Some(FloatRange(h.frameRateRange.value.min, h.frameRateRange.value.max)));
    }
    if h.govLengthRange.Some? {
      o := o.(govLengthRange := Some(IntRange(h.govLengthRange.value.min, h.govLengthRange.value.max)));
    }
    if h.encodingIntervalRange.Some? {
      o := o.(encodingIntervalRange := Some(IntRange(h.encodingIntervalRange.value.min, h.encodingIntervalRange.value.max)));
    }
    var resolutions := ConvertResolutions(h.resolutionsAvailable);
    assert resolutions == ResolutionsFromXml(h.resolutionsAvailable);
    o := o.(resolutionsAvailable := resolutions);
    o := o.(h264ProfilesSupported := h.h264ProfilesSupported);
  }

  /** Sends the configuration token only when it is non-empty and never a profile token. */
  method GetVideoEncoderConfigurationOptions(
    c: Client,
    configurationToken: string,
    soap: Exchange<GetVideoEncoderConfigurationOptionsRequest> -> Result<GetVideoEncoderConfigurationOptionsResponse, SoapError>)
    returns (r: Result<VideoEncoderConfigurationOptions, OpError>)
    ensures var reply := soap(MediaExchange(c, GetVideoEncoderConfigurationOptionsRequest(OmitEmpty(configurationToken), None)));
      reply.Err? ==> r == Err(OperationFailed("GetVideoEncoderConfigurationOptions", reply.error))
    ensures var reply := soap(MediaExchange(c, GetVideoEncoderConfigurationOptionsRequest(OmitEmpty(configurationToken), None)));
      reply.Ok? ==> r == Ok(EncoderOptionsFromXml(reply.value.options))
  {
    var endpoint := c.mediaEndpoint;
    if endpoint == "" {
      endpoint := c.endpoint;
    }
    var req := GetVideoEncoderConfigurationOptionsRequest(None, None);
    if configurationToken != "" {
      req := req.(configurationToken := Some(configurationToken));
    }
    var username, password := c.GetCredentials();
    var exchange := Exchange(endpoint, username, password, req);
    var reply := soap(exchange);
    if reply.Err? {
      return Err(OperationFailed("GetVideoEncoderConfigurationOptions", reply.error));
    }
    var x := reply.value.options;
    var options := VideoEncoderConfigurationOptions(None, None, None);

    if x.qualityRange.Some? {
      options := options.(qualityRange := Some(FloatRange(x.qualityRange.value.min, x.qualityRange.value.max)));
    }

    if x.jpeg.Some? {
      var jpegOpts := ConvertJpegOptions(x.jpeg.value);
      options := options.(jpeg := Some(jpegOpts));
    }

    if x.h264.Some? {
      var h264Opts := ConvertH264Options(x.h264.value);
      options := options.(h264 := Some(h264Opts));
    }

    r := Ok(options);
  }

  // ---------------------------------------------------------------------------
  // Audio encoder configuration
  // ---------------------------------------------------------------------------

  datatype IpAddress = IpAddress(addressType: string, ipv4Address: string, ipv6Address: string)

  datatype MulticastConfiguration = MulticastConfiguration(
    address: Option<IpAddress>, port: int, ttl: int, autoStart: bool)

  datatype AudioEncoderConfiguration = AudioEncoderConfiguration(
    token: string, name: string, useCount: int, encoding: string,
    bitrate: int, sampleRate: int, multicast: Option<MulticastConfiguration>)

  /** Request elements; every `None` is left out of the message. */
  datatype IpAddressXml = IpAddressXml(addressType: string, ipv4Address: Option<string>, ipv6Address: Option<string>)

  datatype MulticastXml = MulticastXml(
    address: Option<IpAddressXml>, port: Option<int>, ttl: Option<int>, autoStart: Option<bool>)

  datatype AudioEncoderConfigurationXml = AudioEncoderConfigurationXml(
    token: string, name: string, useCount: int, encoding: string,
    bitrate: Option<int>, sampleRate: Option<int>, multicast: Option<MulticastXml>, sessionTimeout: Option<string>)

  datatype SetAudioEncoderConfigurationRequest = SetAudioEncoderConfigurationRequest(
    configuration: AudioEncoderConfigurationXml, forcePersistence: bool)

  /** Response elements of GetAudioEncoderConfiguration; an absent element reads as its zero value. */
  datatype IpAddressReplyXml = IpAddressReplyXml(addressType: string, ipv4Address: string, ipv6Address: string)

  datatype MulticastReplyXml = MulticastReplyXml(
    address: Option<IpAddressReplyXml>, port: int, ttl: int, autoStart: bool)

  datatype AudioEncoderConfigurationReplyXml = AudioEncoderConfigurationReplyXml(
    token: string, name: string, useCount: int, encoding: string,
    bitrate: int, sampleRate: int, multicast: Option<MulticastReplyXml>, sessionTimeout: string)

  datatype GetAudioEncoderConfigurationRequest = GetAudioEncoderConfigurationRequest(configurationToken: string)
  datatype GetAudioEncoderConfigurationResponse = GetAudioEncoderConfigurationResponse(
    configuration: AudioEncoderConfigurationReplyXml)

  /** The configuration element SetAudioEncoderConfiguration sends. */
  function AudioEncoderConfigurationToXml(config: AudioEncoderConfiguration): AudioEncoderConfigurationXml {
    AudioEncoderConfigurationXml(
      config.token, config.name, config.useCount, config.encoding,
      if config.bitrate > 0 then Some(config.bitrate) else None,
      if config.sampleRate > 0 then Some(config.sampleRate) else None,
      match config.multicast
      case None => None
      case Some(m) =>
        Some(MulticastXml(
          match m.address
          case None => None
          case Some(a) => Some(IpAddressXml(a.addressType, OmitEmpty(a.ipv4Address), OmitEmpty(a.ipv6Address))),
          OmitZero(m.port), OmitZero(m.ttl), OmitFalse(m.autoStart))),
      None)
  }

  /** The configuration GetAudioEncoderConfiguration returns for a response. */
  function AudioEncoderConfigurationFromXml(x: AudioEncoderConfigurationReplyXml): AudioEncoderConfiguration {
    AudioEncoderConfiguration(
      x.token, x.name, x.useCount, x.encoding, x.bitrate, x.sampleRate,
      match x.multicast
      case None => None
      case Some(m) =>
        Some(MulticastConfiguration(
          match m.address
          case None => None
          case Some(a) => Some(IpAddress(a.addressType, a.ipv4Address, a.ipv6Address)),
          m.port, m.ttl, m.autoStart)))
  }

  /** Bitrate and sample rate are sent only when positive; multicast, and
      its address, only when given; the session timeout never. */
  lemma AudioEncoderRequestRules(config: AudioEncoderConfiguration)
    ensures var x := AudioEncoderConfigurationToXml(config);
      && x.token == config.token && x.name == config.name
      && x.useCount == config.useCount && x.encoding == config.encoding
      && (x.bitrate.Some? <==> config.bitrate > 0) && (x.bitrate.Some? ==> x.bitrate.value == config.bitrate)
      && (x.sampleRate.Some? <==> config.sampleRate > 0) && (x.sampleRate.Some? ==> x.sampleRate.value == config.sampleRate)
      && (x.multicast.Some? <==> config.multicast.Some?)
      && (config.multicast.Some? ==>
            (x.multicast.value.address.Some? <==> config.multicast.value.address.Some?))
      && x.sessionTimeout.None?
  {
  }

  /** What a device that stored a SetAudioEncoderConfiguration request
      reports back: an omitted element is its zero value. */
  function StoredAudioEncoderConfiguration(x: AudioEncoderConfigurationXml): AudioEncoderConfigurationReplyXml {
    AudioEncoderConfigurationReplyXml(
      x.token, x.name, x.useCount, x.encoding,
      if x.bitrate.Some? then x.bitrate.value else 0,
      if x.sampleRate.Some? then x.sampleRate.value else 0,
      match x.multicast
      case None => None
      case Some(m) =>
        Some(MulticastReplyXml(
          match m.address
          case None => None
          case Some(a) =>
            Some(IpAddressReplyXml(
              a.addressType,
              if a.ipv4Address.Some? then a.ipv4Address.value else "",
              if a.ipv6Address.Some? then a.ipv6Address.value else "")),
          if m.port.Some? then m.port.value else 0,
          if m.ttl.Some? then m.ttl.value else 0,
          m.autoStart.Some?)),
      "")
  }

  /** Setting a configuration and reading it back gives the same
      configuration, except that a negative bitrate or sample rate reads back as 0. */
  lemma AudioEncoderRoundTrip(config: AudioEncoderConfiguration)
    ensures AudioEncoderConfigurationFromXml(StoredAudioEncoderConfiguration(AudioEncoderConfigurationToXml(config))) ==
      config.(bitrate := if config.bitrate > 0 then config.bitrate else 0,
              sampleRate := if config.sampleRate > 0 then config.sampleRate else 0)
    ensures AudioEncoderConfigurationFromXml(StoredAudioEncoderConfiguration(AudioEncoderConfigurationToXml(config))) == config
      <==> config.bitrate >= 0 && config.sampleRate >= 0
  {
  }

  method SetAudioEncoderConfiguration(
    c: Client,
    config: AudioEncoderConfiguration,
    forcePersistence: bool,
    soap: Exchange<SetAudioEncoderConfigurationRequest> -> Option<SoapError>)
    returns (err: Option<OpError>)
    ensures err == WrapVoid("SetAudioEncoderConfiguration",
      soap(MediaExchange(c, SetAudioEncoderConfigurationRequest(AudioEncoderConfigurationToXml(config), forcePersistence))))
  {
    var endpoint := c.mediaEndpoint;
    if endpoint == "" {
      endpoint := c.endpoint;
    }
    var cfg := AudioEncoderConfigurationXml(config.token, config.name, config.useCount, config.encoding, None, None, None, None);
    if config.bitrate > 0 {
      cfg := cfg.(bitrate := Some(config.bitrate));
    }
    if config.sampleRate > 0 {
      cfg := cfg.(sampleRate := Some(config.sampleRate));
    }
    if config.multicast.Some? {
      var m := config.multicast.value;
      var multicast := MulticastXml(None, OmitZero(m.port), OmitZero(m.ttl), OmitFalse(m.autoStart));
      if m.address.Some? {
        var a := m.address.value;
        multicast := multicast.(address := Some(IpAddressXml(a.addressType, OmitEmpty(a.ipv4Address), OmitEmpty(a.ipv6Address))));
      }
      cfg := cfg.(multicast := Some(multicast));
    }
    var username, password := c.GetCredentials();
    var exchange := Exchange(endpoint, username, password, SetAudioEncoderConfigurationRequest(cfg, forcePersistence));
    var outcome := soap(exchange);
    if outcome.Some? {
      return Some(OperationFailed("SetAudioEncoderConfiguration", outcome.value));
    }
    err := None;
  }

  method GetAudioEncoderConfiguration(
    c: Client,
    configurationToken: string,
    soap: Exchange<GetAudioEncoderConfigurationRequest> -> Result<GetAudioEncoderConfigurationResponse, SoapError>)
    returns (r: Result<AudioEncoderConfiguration, OpError>)
    ensures var reply := soap(MediaExchange(c, GetAudioEncoderConfigurationRequest(configurationToken)));
      reply.Err? ==> r == Err(OperationFailed("GetAudioEncoderConfiguration", reply.error))
    ensures var reply := soap(MediaExchange(c, GetAudioEncoderConfigurationRequest(configurationToken)));
      reply.Ok? ==> r == Ok(AudioEncoderConfigurationFromXml(reply.value.configuration))
  {
    var endpoint := c.mediaEndpoint;
    if endpoint == "" {
      endpoint := c.endpoint;
    }
    var username, password := c.GetCredentials();
    var exchange := Exchange(endpoint, username, password, GetAudioEncoderConfigurationRequest(configurationToken));
    var reply := soap(exchange);
    if reply.Err? {
      return Err(OperationFailed("GetAudioEncoderConfiguration", reply.error));
    }
    var x := reply.value.configuration;
    var config := AudioEncoderConfiguration(x.token, x.name, x.useCount, x.encoding, x.bitrate, x.sampleRate, None);
    if x.multicast.Some? {
      var m := x.multicast.value;
      var multicast := MulticastConfiguration(None, m.port, m.ttl, m.autoStart);
      if m.address.Some? {
        var a := m.address.value;
        multicast := multicast.(address := Some(IpAddress(a.addressType, a.ipv4Address, a.ipv6Address)));
      }
      config := config.(multicast := Some(multicast));
    }
    r := Ok(config);
  }

  datatype AudioEncoderConfigurationOptions = AudioEncoderConfigurationOptions(
    encodingOptions: seq<string>, bitrateList: seq<int>, sampleRateList: seq<int>)

  /** `None` tokens are left out of the request. */
  datatype GetAudioEncoderConfigurationOptionsRequest = GetAudioEncoderConfigurationOptionsRequest(
    configurationToken: Option<string>, profileToken: Option<string>)
  datatype GetAudioEncoderConfigurationOptionsResponse = GetAudioEncoderConfigurationOptionsResponse(
    options: AudioEncoderConfigurationOptions)

  /** Each token is sent only when non-empty; the option lists are returned as received. */
  method GetAudioEncoderConfigurationOptions(
    c: Client,
    configurationToken: string,
    profileToken: string,
    soap: Exchange<GetAudioEncoderConfigurationOptionsRequest> -> Result<GetAudioEncoderConfigurationOptionsResponse, SoapError>)
    returns (r: Result<AudioEncoderConfigurationOptions, OpError>)
    ensures var reply := soap(MediaExchange(c, GetAudioEncoderConfigurationOptionsRequest(OmitEmpty(configurationToken), OmitEmpty(profileToken))));
      reply.Err? ==> r == Err(OperationFailed("GetAudioEncoderConfigurationOptions", reply.error))
    ensures var reply := soap(MediaExchange(c, GetAudioEncoderConfigurationOptionsRequest(OmitEmpty(configurationToken), OmitEmpty(profileToken))));
      reply.Ok? ==>
        var o := reply.value.options;
        r.Ok? && r.value.encodingOptions == o.encodingOptions &&
        r.value.bitrateList == o.bitrateList && r.value.sampleRateList == o.sampleRateList
  {
    var endpoint := c.mediaEndpoint;
    if endpoint == "" {
      endpoint := c.endpoint;
    }
    var req := GetAudioEncoderConfigurationOptionsRequest(None, None);
    if configurationToken != "" {
      req := req.(configurationToken := Some(configurationToken));
    }
    if profileToken != "" {
      req := req.(profileToken := Some(profileToken));
    }
    var username, password := c.GetCredentials();
    var exchange := Exchange(endpoint, username, password, req);
    var reply := soap(exchange);
    if reply.Err? {
      return Err(OperationFailed("GetAudioEncoderConfigurationOptions", reply.error));
    }
    var o := reply.value.options;
    r := Ok(AudioEncoderConfigurationOptions(o.encodingOptions, o.bitrateList, o.sampleRateList));
  }

  // ---------------------------------------------------------------------------
  // CreateOSD
  // ---------------------------------------------------------------------------

  datatype OsdConfiguration = OsdConfiguration(token: string)

  /** A `None` OSD token leaves the token attribute out. */
  datatype CreateOsdRequest = CreateOsdRequest(videoSourceConfigurationToken: string, osdToken: Option<string>)
  datatype OsdXml = OsdXml(token: string)
  datatype CreateOsdResponse = CreateOsdResponse(osd: OsdXml)

  /** The OSD token a CreateOSD request carries: only that of a given OSD, and only when non-empty. */
  function OsdToken(osd: Option<OsdConfiguration>): (token: Option<string>)
    ensures token.Some? <==> osd.Some? && osd.value.token != ""
    ensures token.Some? ==> token.value == osd.value.token
  {
    if osd.Some? && osd.value.token != "" then Some(osd.value.token) else None
  }

  /** Sends the OSD token only for a given OSD with a non-empty token. */
  method CreateOsd(
    c: Client,
    videoSourceConfigurationToken: string,
    osd: Option<OsdConfiguration>,
    soap: Exchange<CreateOsdRequest> -> Result<CreateOsdResponse, SoapError>)
    returns (r: Result<OsdConfiguration, OpError>)
    ensures var reply := soap(MediaExchange(c, CreateOsdRequest(videoSourceConfigurationToken, OsdToken(osd))));
      reply.Err? ==> r == Err(OperationFailed("CreateOSD", reply.error))
    ensures var reply := soap(MediaExchange(c, CreateOsdRequest(videoSourceConfigurationToken, OsdToken(osd))));
      reply.Ok? ==> r == Ok(OsdConfiguration(reply.value.osd.token))
  {
    var endpoint := c.mediaEndpoint;
    if endpoint == "" {
      endpoint := c.endpoint;
    }
    var req := CreateOsdRequest(videoSourceConfigurationToken, None);
    if osd.Some? && osd.value.token != "" {
      req := req.(osdToken := Some(osd.value.token));
    }
    var username, password := c.GetCredentials();
    var exchange := Exchange(endpoint, username, password, req);
    var reply := soap(exchange);
    if reply.Err? {
      return Err(OperationFailed("CreateOSD", reply.error));
    }
    r := Ok(OsdConfiguration(reply.value.osd.token));
  }
}
