/** Device security operations: the IP address filter and the remote user.
    Every call goes to the device endpoint. */
module DeviceSecurity {
  import opened Soap
  import opened OnvifClient

  // ---------------------------------------------------------------------------
  // IP address filter
  // ---------------------------------------------------------------------------

  /** An IPv4 or IPv6 address with its prefix length (the two Go types have
      the same fields). */
  datatype PrefixedAddress = PrefixedAddress(address: string, prefixLength: int)

  datatype IpAddressFilter = IpAddressFilter(
    filterType: string,
    ipv4Address: seq<PrefixedAddress>,
    ipv6Address: seq<PrefixedAddress>)

  /** A prefixed address element, in a request or in a response. */
  datatype PrefixedAddressXml = PrefixedAddressXml(address: string, prefixLength: int)

  /** The filter element of a Set, Add or Remove request; an address list
      that is `None` is left out of the message. */
  datatype IpAddressFilterRequest = IpAddressFilterRequest(
    filterType: string,
    ipv4Address: Option<seq<PrefixedAddressXml>>,
    ipv6Address: Option<seq<PrefixedAddressXml>>)

  /** The three requests that carry a filter. */
  datatype IpAddressFilterCall =
    | SetIPAddressFilter(payload: IpAddressFilterRequest)
    | AddIPAddressFilter(payload: IpAddressFilterRequest)
    | RemoveIPAddressFilter(payload: IpAddressFilterRequest)

  datatype GetIPAddressFilterRequest = GetIPAddressFilterRequest

  /** The filter element of a GetIPAddressFilter response; an absent list
      reads as empty. */
  datatype IpAddressFilterXml = IpAddressFilterXml(
    filterType: string,
    ipv4Address: seq<PrefixedAddressXml>,
    ipv6Address: seq<PrefixedAddressXml>)

  datatype GetIPAddressFilterResponse = GetIPAddressFilterResponse(ipAddressFilter: IpAddressFilterXml)

  /** The exchange a device call sends: the device endpoint, the current
      credentials and the request. */
  function DeviceExchange<Req>(c: Client, request: Req): Exchange<Req>
    reads c
  {
    Exchange(c.endpoint, c.username, c.password, request)
  }

  function AddressToXml(a: PrefixedAddress): PrefixedAddressXml {
    PrefixedAddressXml(a.address, a.prefixLength)
  }

  function AddressFromXml(x: PrefixedAddressXml): PrefixedAddress {
    PrefixedAddress(x.address, x.prefixLength)
  }

  /** An address list as sent: left out when empty, copied element by element otherwise. */
  function AddressesToXml(s: seq<PrefixedAddress>): Option<seq<PrefixedAddressXml>> {
    if |s| == 0 then None else Some(seq(|s|, i requires 0 <= i < |s| => AddressToXml(s[i])))
  }

  function AddressesFromXml(s: seq<PrefixedAddressXml>): seq<PrefixedAddress> {
    seq(|s|, i requires 0 <= i < |s| => AddressFromXml(s[i]))
  }

  /** The request form of a filter. */
  function FilterRequest(f: IpAddressFilter): IpAddressFilterRequest {
    IpAddressFilterRequest(f.filterType, AddressesToXml(f.ipv4Address), AddressesToXml(f.ipv6Address))
  }

  /** The filter a GetIPAddressFilter response describes. */
  function FilterFromXml(x: IpAddressFilterXml): IpAddressFilter {
    IpAddressFilter(x.filterType, AddressesFromXml(x.ipv4Address), AddressesFromXml(x.ipv6Address))
  }

  /** The request keeps the filter type, leaves an empty list out and keeps
      the length, order and fields of a non-empty one. */
  lemma FilterRequestShape(f: IpAddressFilter)
    ensures var req := FilterRequest(f);
      && req.filterType == f.filterType
      && (req.ipv4Address.None? <==> |f.ipv4Address| == 0)
      && (req.ipv4Address.Some? ==>
            |req.ipv4Address.value| == |f.ipv4Address| &&
            forall i :: 0 <= i < |f.ipv4Address| ==>
              req.ipv4Address.value[i].address == f.ipv4Address[i].address &&
              req.ipv4Address.value[i].prefixLength == f.ipv4Address[i].prefixLength)
      && (req.ipv6Address.None? <==> |f.ipv6Address| == 0)
      && (req.ipv6Address.Some? ==>
            |req.ipv6Address.value| == |f.ipv6Address| &&
            forall i :: 0 <= i < |f.ipv6Address| ==>
              req.ipv6Address.value[i].address == f.ipv6Address[i].address &&
              req.ipv6Address.value[i].prefixLength == f.ipv6Address[i].prefixLength)
  {
  }

  /** The response conversion keeps the type, and the count, order and
      fields of both address lists. */
  lemma FilterFromXmlShape(x: IpAddressFilterXml)
    ensures var f := FilterFromXml(x);
      && f.filterType == x.filterType
      && |f.ipv4Address| == |x.ipv4Address| && |f.ipv6Address| == |x.ipv6Address|
      && (forall i :: 0 <= i < |x.ipv4Address| ==>
            f.ipv4Address[i].address == x.ipv4Address[i].address &&
            f.ipv4Address[i].prefixLength == x.ipv4Address[i].prefixLength)
      && (forall i :: 0 <= i < |x.ipv6Address| ==>
            f.ipv6Address[i].address == x.ipv6Address[i].address &&
            f.ipv6Address[i].prefixLength == x.ipv6Address[i].prefixLength)
  {
  }

  /** What a device that stored a filter request reports back: an omitted
      list is empty. */
  function StoredFilter(req: IpAddressFilterRequest): IpAddressFilterXml {
    IpAddressFilterXml(
      req.filterType,
      if req.ipv4Address.Some? then req.ipv4Address.value else [],
      if req.ipv6Address.Some? then req.ipv6Address.value else [])
  }

  /** Reading back a filter that was sent gives the same filter: the
      request and response conversions lose nothing. */
  lemma FilterRoundTrip(f: IpAddressFilter)
    ensures FilterFromXml(StoredFilter(FilterRequest(f))) == f
  {
  }

  /** The request form of a filter, built list by list. */
  method BuildIpAddressFilterRequest(filter: IpAddressFilter) returns (req: IpAddressFilterRequest)
    ensures req == FilterRequest(filter)
  {
    req := IpAddressFilterRequest(filter.filterType, None, None);

    if |filter.ipv4Address| > 0 {
      var ipv4: seq<PrefixedAddressXml> := [];
      for i := 0 to |filter.ipv4Address|
        invariant |ipv4| == i
        invariant forall k :: 0 <= k < i ==> ipv4[k] == AddressToXml(filter.ipv4Address[k])
      {
        ipv4 := ipv4 + [PrefixedAddressXml(filter.ipv4Address[i].address, filter.ipv4Address[i].prefixLength)];
      }
      assert ipv4 == AddressesToXml(filter.ipv4Address).value;
      req := req.(ipv4Address := Some(ipv4));
    }

    if |filter.ipv6Address| > 0 {
      var ipv6: seq<PrefixedAddressXml> := [];
      for i := 0 to |filter.ipv6Address|
        invariant |ipv6| == i
        invariant forall k :: 0 <= k < i ==> ipv6[k] == AddressToXml(filter.ipv6Address[k])
      {
        ipv6 := ipv6 + [PrefixedAddressXml(filter.ipv6Address[i].address, filter.ipv6Address[i].prefixLength)];
      }
      assert ipv6 == AddressesToXml(filter.ipv6Address).value;
      req := req.(ipv6Address := Some(ipv6));
    }
  }

  /** Fetches the device's IP address filter. */
  method GetIpAddressFilter(
    c: Client,
    soap: Exchange<GetIPAddressFilterRequest> -> Result<GetIPAddressFilterResponse, SoapError>)
    returns (r: Result<IpAddressFilter, OpError>)
    ensures var reply := soap(DeviceExchange(c, GetIPAddressFilterRequest));
      reply.Err? ==> r == Err(OperationFailed("GetIPAddressFilter", reply.error))
    ensures var reply := soap(DeviceExchange(c, GetIPAddressFilterRequest));
      reply.Ok? ==> r == Ok(FilterFromXml(reply.value.ipAddressFilter))
  {
    var username, password := c.GetCredentials();
    var exchange := Exchange(c.endpoint, username, password, GetIPAddressFilterRequest);
    var reply := soap(exchange);
    if reply.Err? {
      return Err(OperationFailed("GetIPAddressFilter", reply.error));
    }
    var x := reply.value.ipAddressFilter;
    var filter := IpAddressFilter(x.filterType, [], []);

    if |x.ipv4Address| > 0 {
      var ipv4: seq<PrefixedAddress> := [];
      for i := 0 to |x.ipv4Address|
        invariant |ipv4| == i
        invariant forall k :: 0 <= k < i ==> ipv4[k] == AddressFromXml(x.ipv4Address[k])
      {
        ipv4 := ipv4 + [PrefixedAddress(x.ipv4Address[i].address, x.ipv4Address[i].prefixLength)];
      }
      assert ipv4 == AddressesFromXml(x.ipv4Address);
      filter := filter.(ipv4Address := ipv4);
    }

    if |x.ipv6Address| > 0 {
      var ipv6: seq<PrefixedAddress> := [];
      for i := 0 to |x.ipv6Address|
        invariant |ipv6| == i
        invariant forall k :: 0 <= k < i ==> ipv6[k] == AddressFromXml(x.ipv6Address[k])
      {
        ipv6 := ipv6 + [PrefixedAddress(x.ipv6Address[i].address, x.ipv6Address[i].prefixLength)];
      }
      assert ipv6 == AddressesFromXml(x.ipv6Address);
      filter := filter.(ipv6Address := ipv6);
    }

    assert filter.ipv4Address == AddressesFromXml(x.ipv4Address);
    assert filter.ipv6Address == AddressesFromXml(x.ipv6Address);
    r := Ok(filter);
  }

  method SetIpAddressFilter(
    c: Client,
    filter: IpAddressFilter,
    soap: Exchange<IpAddressFilterCall> -> Option<SoapError>)
    returns (err: Option<OpError>)
    ensures err == WrapVoid("SetIPAddressFilter", soap(DeviceExchange(c, SetIPAddressFilter(FilterRequest(filter)))))
  {
    var payload := BuildIpAddressFilterRequest(filter);
    var username, password := c.GetCredentials();
    var exchange := Exchange(c.endpoint, username, password, SetIPAddressFilter(payload));
    var outcome := soap(exchange);
    if outcome.Some? {
      return Some(OperationFailed("SetIPAddressFilter", outcome.value));
    }
    err := None;
  }

  method AddIpAddressFilter(
    c: Client,
    filter: IpAddressFilter,
    soap: Exchange<IpAddressFilterCall> -> Option<SoapError>)
    returns (err: Option<OpError>)
    ensures err == WrapVoid("AddIPAddressFilter", soap(DeviceExchange(c, AddIPAddressFilter(FilterRequest(filter)))))
  {
    var payload := BuildIpAddressFilterRequest(filter);
    var username, password := c.GetCredentials();
    var exchange := Exchange(c.endpoint, username, password, AddIPAddressFilter(payload));
    var outcome := soap(exchange);
    if outcome.Some? {
      return Some(OperationFailed("AddIPAddressFilter", outcome.value));
    }
    err := None;
  }

  method RemoveIpAddressFilter(
    c: Client,
    filter: IpAddressFilter,
    soap: Exchange<IpAddressFilterCall> -> Option<SoapError>)
    returns (err: Option<OpError>)
    ensures err == WrapVoid("RemoveIPAddressFilter", soap(DeviceExchange(c, RemoveIPAddressFilter(FilterRequest(filter)))))
  {
    var payload := BuildIpAddressFilterRequest(filter);
    var username, password := c.GetCredentials();
    var exchange := Exchange(c.endpoint, username, password, RemoveIPAddressFilter(payload));
    var outcome := soap(exchange);
    if outcome.Some? {
      return Some(OperationFailed("RemoveIPAddressFilter", outcome.value));
    }
    err := None;
  }

  // ---------------------------------------------------------------------------
  // Remote user
  // ---------------------------------------------------------------------------

  datatype RemoteUser = RemoteUser(username: string, password: string, useDerivedPassword: bool)

  /** The remote user element of a SetRemoteUser request; an empty password is left out. */
  datatype RemoteUserXml = RemoteUserXml(username: string, password: Option<string>, useDerivedPassword: bool)

  /** The remote user element of a GetRemoteUser response. */
  datatype RemoteUserReplyXml = RemoteUserReplyXml(username: string, password: string, useDerivedPassword: bool)

  datatype GetRemoteUserRequest = GetRemoteUserRequest
  datatype GetRemoteUserResponse = GetRemoteUserResponse(remoteUser: Option<RemoteUserReplyXml>)
  /** `None` leaves the RemoteUser element out. */
  datatype SetRemoteUserRequest = SetRemoteUserRequest(remoteUser: Option<RemoteUserXml>)

  function RemoteUserToXml(u: RemoteUser): RemoteUserXml {
    RemoteUserXml(u.username, OmitEmpty(u.password), u.useDerivedPassword)
  }

  function RemoteUserFromXml(x: RemoteUserReplyXml): RemoteUser {
    RemoteUser(x.username, x.password, x.useDerivedPassword)
  }

  /** The request SetRemoteUser sends for its (possibly nil) argument. */
  function RemoteUserRequest(remoteUser: Option<RemoteUser>): (req: SetRemoteUserRequest)
    ensures req.remoteUser.Some? <==> remoteUser.Some?
    ensures remoteUser.Some? ==>
      var x := req.remoteUser.value;
      && x.username == remoteUser.value.username
      && x.useDerivedPassword == remoteUser.value.useDerivedPassword
      && (x.password.Some? <==> remoteUser.value.password != "")
      && (x.password.Some? ==> x.password.value == remoteUser.value.password)
  {
    match remoteUser
    case None => SetRemoteUserRequest(None)
    case Some(u) => SetRemoteUserRequest(Some(RemoteUserToXml(u)))
  }

  /** The response GetRemoteUser reads, as a nil or non-nil user. */
  function RemoteUserReply(resp: GetRemoteUserResponse): Option<RemoteUser> {
    match resp.remoteUser
    case None => None
    case Some(x) => Some(RemoteUserFromXml(x))
  }

  /** What a device that stored a SetRemoteUser request reports back: an
      omitted password reads as "". */
  function StoredRemoteUser(req: SetRemoteUserRequest): GetRemoteUserResponse {
    match req.remoteUser
    case None => GetRemoteUserResponse(None)
    case Some(x) =>
      GetRemoteUserResponse(Some(RemoteUserReplyXml(x.username, if x.password.Some? then x.password.value else "", x.useDerivedPassword)))
  }

  /** Reading back the remote user that was set gives the same user (or
      none): leaving out an empty password loses nothing. */
  lemma RemoteUserRoundTrip(remoteUser: Option<RemoteUser>)
    ensures RemoteUserReply(StoredRemoteUser(RemoteUserRequest(remoteUser))) == remoteUser
  {
  }

  method GetRemoteUser(
    c: Client,
    soap: Exchange<GetRemoteUserRequest> -> Result<GetRemoteUserResponse, SoapError>)
    returns (r: Result<Option<RemoteUser>, OpError>)
    ensures var reply := soap(DeviceExchange(c, GetRemoteUserRequest));
      reply.Err? ==> r == Err(OperationFailed("GetRemoteUser", reply.error))
    ensures var reply := soap(DeviceExchange(c, GetRemoteUserRequest));
      reply.Ok? ==> r.Ok? && (r.value.None? <==> reply.value.remoteUser.None?)
    ensures var reply := soap(DeviceExchange(c, GetRemoteUserRequest));
      reply.Ok? && reply.value.remoteUser.Some? ==>
        var x := reply.value.remoteUser.value;
        r.value == Some(RemoteUser(x.username, x.password, x.useDerivedPassword))
  {
    var username, password := c.GetCredentials();
    var exchange := Exchange(c.endpoint, username, password, GetRemoteUserRequest);
    var reply := soap(exchange);
    if reply.Err? {
      return Err(OperationFailed("GetRemoteUser", reply.error));
    }
    if reply.value.remoteUser.None? {
      return Ok(None);
    }
    var x := reply.value.remoteUser.value;
    r := Ok(Some(RemoteUser(x.username, x.password, x.useDerivedPassword)));
  }

  method SetRemoteUser(
    c: Client,
    remoteUser: Option<RemoteUser>,
    soap: Exchange<SetRemoteUserRequest> -> Option<SoapError>)
    returns (err: Option<OpError>)
    ensures err == WrapVoid("SetRemoteUser", soap(DeviceExchange(c, RemoteUserRequest(remoteUser))))
  {
    var req := SetRemoteUserRequest(None);
    if remoteUser.Some? {
      req := req.(remoteUser := Some(RemoteUserXml(remoteUser.value.username, OmitEmpty(remoteUser.value.password), remoteUser.value.useDerivedPassword)));
    }
    var username, password := c.GetCredentials();
    var exchange := Exchange(c.endpoint, username, password, req);
    var outcome := soap(exchange);
    if outcome.Some? {
      return Some(OperationFailed("SetRemoteUser", outcome.value));
    }
    err := None;
  }
}
