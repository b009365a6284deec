/**
 * The routing engine of the node: caller authentication, LOCAL/REMOTE classification of the
 * receiver, preparation of the outbound request (a local call with the party's credentials, or a
 * signed envelope for a peer node) and the proxy store that hides downstream page links behind
 * node-issued ids.
 *
 * The lookups are functions of a snapshot of the tables (`Store`); the operations that save to or
 * delete from the proxy table are methods of `RoutingService`, which owns the tables.
 */
module Routing {
  import opened Wrappers
  import opened Tables
  import opened Text
  import opened Ocpi
  import opened Entities

  /** Where a receiver is reachable. */
  datatype Receiver = Local | Remote

  datatype RoutingError =
    | Unauthorized           // unknown token, or the sender role is not one of the caller's platform
    | UnknownReceiver        // role neither in the local role table nor in the registry
    | UnsupportedModule      // the receiver's platform has no endpoint for the module and interface
    | ProxyResourceNotFound  // missing, non-numeric or unknown proxy id
    | PlatformNotFound       // the receiver's role names a platform row that does not exist
    | MissingTokenB          // the receiver's platform has given the node no credentials

  /**
   * The collaborators of the engine that are not modelled: the node's public URL, the on-chain
   * registry (`""` for a party it does not know), JSON serialisation and the node's signing key.
   */
  datatype NodeConfig = NodeConfig(
    url: string,
    registry: BasicRole -> string,
    serialize: OcnMessageRequestBody -> string,
    sign: string -> string)

  /** The tables the engine reads, in table order; proxy resources by primary key. */
  datatype Store = Store(
    platforms: seq<PlatformEntity>,
    roles: seq<RoleEntity>,
    endpoints: seq<EndpointEntity>,
    proxyResources: map<int, ProxyResourceEntity>)

  // ---------------------------------------------------------------------------------------------
  // Roles

  /** The role row names the party, comparing country code and party id case-insensitively. */
  predicate RoleMatches(row: RoleEntity, role: BasicRole) {
    EqualsIgnoreCase(row.countryCode, role.country) && EqualsIgnoreCase(row.partyID, role.id)
  }

  /** `isRoleKnown`: the search of the role table for the party finds a row. */
  function IsRoleKnown(roles: seq<RoleEntity>, role: BasicRole): (known: bool)
    ensures known <==> exists j :: 0 <= j < |roles| && RoleMatches(roles[j], role)
  {
    FindFirst(roles, (row: RoleEntity) => RoleMatches(row, role)).Some?
  }

  /** `isRoleKnownOnNetwork`: the registry has a node URL for the party. */
  function IsRoleKnownOnNetwork(cfg: NodeConfig, role: BasicRole): (known: bool)
    ensures known <==> GetRemoteClientUrl(cfg, role).Ok?
  {
    cfg.registry(role) != ""
  }

  /** The role row names the party and belongs to the platform. */
  predicate OwnsRole(platformID: Option<int>, row: RoleEntity, role: BasicRole) {
    platformID == Some(row.platformID) && RoleMatches(row, role)
  }

  /** `getPlatformID`: the platform of the first role row naming the party. */
  function GetPlatformID(roles: seq<RoleEntity>, role: BasicRole): (r: Result<int, RoutingError>)
    ensures r.Ok? <==> IsRoleKnown(roles, role)
    ensures r.Ok? ==> exists j :: 0 <= j < |roles| && RoleMatches(roles[j], role) && roles[j].platformID == r.value
    ensures r.Err? ==> r.error == UnknownReceiver
  {
    match FindFirst(roles, (row: RoleEntity) => RoleMatches(row, role))
    case None => Err(UnknownReceiver)
    case Some(row) => Ok(row.platformID)
  }

  /** `getRemoteClientUrl`: the peer node the registry names for the party. */
  function GetRemoteClientUrl(cfg: NodeConfig, role: BasicRole): (r: Result<string, RoutingError>)
    ensures r.Ok? <==> cfg.registry(role) != ""
    ensures r.Ok? ==> r.value == cfg.registry(role)
    ensures r.Err? ==> r.error == UnknownReceiver
  {
    var url := cfg.registry(role);
    if url == "" then Err(UnknownReceiver) else Ok(url)
  }

  // ---------------------------------------------------------------------------------------------
  // Authentication and classification

  predicate HasTokenC(platform: PlatformEntity, token: string) {
    platform.auth.tokenC == Some(token)
  }

  /** The position of the first platform whose tokenC is `token`. */
  function TokenOwner(platforms: seq<PlatformEntity>, token: string): (r: Option<nat>)
    ensures r.Some? ==> r.value < |platforms| && HasTokenC(platforms[r.value], token)
    ensures r.None? <==> forall i :: 0 <= i < |platforms| ==> !HasTokenC(platforms[i], token)
  {
    FindIndex(platforms, (p: PlatformEntity) => HasTokenC(p, token))
  }

  /** The platform may speak for `sender`: no role is claimed, or one of its role rows names it. */
  predicate MayActAs(roles: seq<RoleEntity>, platform: PlatformEntity, sender: Option<BasicRole>) {
    sender.None? || exists j :: 0 <= j < |roles| && OwnsRole(platform.id, roles[j], sender.value)
  }

  /**
   * Authentication by token: the token must be some platform's tokenC and, when a sender role is
   * given, a role row of that platform must name it. The platform's connection status is not
   * looked at.
   */
  function Authenticate(s: Store, token: string, sender: Option<BasicRole>): (r: Outcome<RoutingError>)
    ensures r.Fail? ==> r.error == Unauthorized
    ensures r.Pass? ==>
      exists i :: 0 <= i < |s.platforms| && HasTokenC(s.platforms[i], token) && MayActAs(s.roles, s.platforms[i], sender)
    ensures (forall i :: 0 <= i < |s.platforms| ==> !HasTokenC(s.platforms[i], token)) ==> r.Fail?
  {
    match TokenOwner(s.platforms, token)
    case None => Fail(Unauthorized)
    case Some(i) => if MayActAs(s.roles, s.platforms[i], sender) then Pass else Fail(Unauthorized)
  }

  /** `validateSender`: authenticate the token carried by the `Authorization` header. */
  function ValidateSender(s: Store, authorization: string, sender: Option<BasicRole>): (r: Outcome<RoutingError>)
    ensures r.Fail? ==> r.error == Unauthorized
    ensures r.Pass? ==>
      exists i :: 0 <= i < |s.platforms| && HasTokenC(s.platforms[i], ExtractToken(authorization)) &&
        MayActAs(s.roles, s.platforms[i], sender)
    ensures (forall i :: 0 <= i < |s.platforms| ==> !HasTokenC(s.platforms[i], ExtractToken(authorization))) ==> r.Fail?
  {
    Authenticate(s, ExtractToken(authorization), sender)
  }

  /** tokenC identifies at most one platform (a uniqueness constraint of the platform table). */
  predicate TokenCUnique(platforms: seq<PlatformEntity>) {
    forall i, j :: 0 <= i < j < |platforms| && platforms[i].auth.tokenC.Some? ==>
      platforms[i].auth.tokenC != platforms[j].auth.tokenC
  }

  /**
   * With unique tokenCs, authentication succeeds exactly for the tokenC of a platform that may
   * speak for the claimed sender role.
   */
  lemma AuthenticateComplete(s: Store, token: string, sender: Option<BasicRole>)
    requires TokenCUnique(s.platforms)
    ensures Authenticate(s, token, sender).Pass? <==>
      exists i :: 0 <= i < |s.platforms| && HasTokenC(s.platforms[i], token) && MayActAs(s.roles, s.platforms[i], sender)
  {
    if i :| 0 <= i < |s.platforms| && HasTokenC(s.platforms[i], token) && MayActAs(s.roles, s.platforms[i], sender) {
      var k := TokenOwner(s.platforms, token).value;
      if k < i {
        assert s.platforms[k].auth.tokenC == s.platforms[i].auth.tokenC;
      } else if i < k {
        assert s.platforms[i].auth.tokenC == s.platforms[k].auth.tokenC;
      }
    }
  }

  /** Rows with the same tokenCs have the same token owner. */
  lemma TokenOwnerAgrees(ps: seq<PlatformEntity>, ps': seq<PlatformEntity>, token: string)
    requires |ps| == |ps'|
    requires forall i :: 0 <= i < |ps| ==> ps[i].auth.tokenC == ps'[i].auth.tokenC
    ensures TokenOwner(ps, token) == TokenOwner(ps', token)
  {
    FindIndexAgrees(ps, (p: PlatformEntity) => HasTokenC(p, token), ps', (p: PlatformEntity) => HasTokenC(p, token));
  }

  /** Authentication reads only the tokenCs and ids of the platforms, and the role table. */
  lemma AuthenticateAgrees(s: Store, s': Store, token: string, sender: Option<BasicRole>)
    requires s'.roles == s.roles && |s'.platforms| == |s.platforms|
    requires forall i :: 0 <= i < |s.platforms| ==>
      s'.platforms[i].auth.tokenC == s.platforms[i].auth.tokenC && s'.platforms[i].id == s.platforms[i].id
    ensures Authenticate(s', token, sender) == Authenticate(s, token, sender)
  {
    TokenOwnerAgrees(s'.platforms, s.platforms, token);
  }

  /** The connection status of a platform plays no part in authentication. */
  lemma AuthenticateIgnoresStatus(s: Store, i: nat, status: ConnectionStatus, token: string, sender: Option<BasicRole>)
    requires i < |s.platforms|
    ensures Authenticate(s.(platforms := s.platforms[i := s.platforms[i].(status := status)]), token, sender)
         == Authenticate(s, token, sender)
  {
    AuthenticateAgrees(s, s.(platforms := s.platforms[i := s.platforms[i].(status := status)]), token, sender);
  }

  /** The `Token` scheme word is stripped: the header `Token <value>` authenticates `<value>`. */
  lemma ValidateSenderOfTokenHeader(s: Store, value: string, sender: Option<BasicRole>)
    requires ' ' !in value
    ensures ValidateSender(s, "Token " + value, sender) == Authenticate(s, value, sender)
  {
    ExtractTokenOfScheme(value);
  }

  /** Appending a platform without tokenC leaves the token owner unchanged. */
  lemma TokenOwnerAppend(ps: seq<PlatformEntity>, p: PlatformEntity, token: string)
    requires p.auth.tokenC.None?
    ensures TokenOwner(ps + [p], token) == TokenOwner(ps, token)
  {
    var a := TokenOwner(ps + [p], token);
    var b := TokenOwner(ps, token);
    if a.Some? {
      assert (ps + [p])[a.value] == ps[a.value];
    }
    if b.Some? {
      assert (ps + [p])[b.value] == ps[b.value];
      FindIndexAgrees((ps + [p])[..b.value], (q: PlatformEntity) => HasTokenC(q, token),
                      ps[..b.value], (q: PlatformEntity) => HasTokenC(q, token));
    }
  }

  /**
   * A platform that has only been created (no tokenC yet) cannot authenticate anyone: adding it
   * to the table changes no authentication outcome.
   */
  lemma NewPlatformAuthenticatesNobody(s: Store, timestamp: string, tokenA: Uuid, token: string,
                                       sender: Option<BasicRole>)
    ensures Authenticate(s.(platforms := s.platforms + [NewPlatform(timestamp, tokenA)]), token, sender)
         == Authenticate(s, token, sender)
  {
    var s' := s.(platforms := s.platforms + [NewPlatform(timestamp, tokenA)]);
    TokenOwnerAppend(s.platforms, NewPlatform(timestamp, tokenA), token);
    var found := TokenOwner(s.platforms, token);
    if found.Some? {
      assert s'.platforms[found.value] == s.platforms[found.value];
    }
  }

  /**
   * `validateReceiver`: LOCAL when a local role row names the party, otherwise REMOTE when the
   * registry knows it, otherwise the party is unknown.
   */
  function ValidateReceiver(s: Store, cfg: NodeConfig, receiver: BasicRole): (r: Result<Receiver, RoutingError>)
    ensures r == Ok(Local) <==> IsRoleKnown(s.roles, receiver)
    ensures r == Ok(Remote) <==> !IsRoleKnown(s.roles, receiver) && IsRoleKnownOnNetwork(cfg, receiver)
    ensures r.Err? <==> !IsRoleKnown(s.roles, receiver) && !IsRoleKnownOnNetwork(cfg, receiver)
    ensures r.Err? ==> r.error == UnknownReceiver
  {
    if IsRoleKnown(s.roles, receiver) then Ok(Local)
    else if IsRoleKnownOnNetwork(cfg, receiver) then Ok(Remote)
    else Err(UnknownReceiver)
  }

  // ---------------------------------------------------------------------------------------------
  // Endpoints and proxy resources

  predicate IsEndpointFor(e: EndpointEntity, platformID: int, moduleID: ModuleID, interfaceRole: InterfaceRole) {
    e.platformID == platformID && e.identifier == moduleID.Id() && e.role == interfaceRole
  }

  /** `getPlatformEndpoint`: the endpoint a platform registered for a module and interface role. */
  function GetPlatformEndpoint(endpoints: seq<EndpointEntity>, platformID: int, moduleID: ModuleID,
                               interfaceRole: InterfaceRole): (r: Result<EndpointEntity, RoutingError>)
    ensures r.Ok? ==> r.value in endpoints && IsEndpointFor(r.value, platformID, moduleID, interfaceRole)
    ensures r.Err? <==> forall j :: 0 <= j < |endpoints| ==> !IsEndpointFor(endpoints[j], platformID, moduleID, interfaceRole)
    ensures r.Err? ==> r.error == UnsupportedModule
  {
    match FindFirst(endpoints, (e: EndpointEntity) => IsEndpointFor(e, platformID, moduleID, interfaceRole))
    case None => Err(UnsupportedModule)
    case Some(e) => Ok(e)
  }

  /**
   * `getProxyResource`: the resource saved under the numeric id written in `id`. Only the id
   * selects the record; the sender and receiver are not compared.
   */
  function GetProxyResource(proxies: map<int, ProxyResourceEntity>, id: Option<string>,
                            sender: BasicRole, receiver: BasicRole): (r: Result<string, RoutingError>)
    ensures r.Ok? <==> id.Some? && ParseLong(id.value).Some? && ParseLong(id.value).value in proxies
    ensures r.Ok? ==> r.value == proxies[ParseLong(id.value).value].resource
    ensures r.Err? ==> r.error == ProxyResourceNotFound
  {
    if id.None? then Err(ProxyResourceNotFound)
    else match ParseLong(id.value)
      case None => Err(ProxyResourceNotFound)
      case Some(key) => if key in proxies then Ok(proxies[key].resource) else Err(ProxyResourceNotFound)
  }

  /** A record saved under `key` is found again through the decimal rendering of `key`. */
  lemma {:induction false} ProxyIdRoundTrip(proxies: map<int, ProxyResourceEntity>, key: nat,
                                            sender: BasicRole, receiver: BasicRole)
    requires key <= MaxLong && key in proxies
    ensures GetProxyResource(proxies, Some(NatToString(key)), sender, receiver) == Ok(proxies[key].resource)
  {
    ParseLongOfNatToString(key);
  }

  // ---------------------------------------------------------------------------------------------
  // Local requests

  datatype LocalRequest = LocalRequest(url: string, headers: OcpiRequestHeaders)

  /** The endpoint URL followed by the path variables; query parameters are not appended. */
  function LocalUrl(endpointUrl: string, urlPathVariables: Option<string>): (url: string)
    ensures urlPathVariables.None? ==> url == endpointUrl
    ensures urlPathVariables.Some? ==> |url| == |endpointUrl| + 1 + |urlPathVariables.value|
    ensures urlPathVariables.Some? ==> url[..|endpointUrl|] == endpointUrl && url[|endpointUrl|..] == "/" + urlPathVariables.value
  {
    if urlPathVariables.Some? then endpointUrl + "/" + urlPathVariables.value else endpointUrl
  }

  /** `findById` on the platform table. */
  function FindPlatform(platforms: seq<PlatformEntity>, id: int): (r: Option<PlatformEntity>)
    ensures r.Some? ==> r.value in platforms && r.value.id == Some(id)
    ensures r.None? <==> forall i :: 0 <= i < |platforms| ==> platforms[i].id != Some(id)
  {
    FindFirst(platforms, (p: PlatformEntity) => p.id == Some(id))
  }

  /** The request id is new and the correlation id and both parties are passed on unchanged. */
  predicate ForwardsRouting(h: OcpiRequestHeaders, req: OcpiRequestVariables, requestID: Uuid) {
    && h.requestID == requestID
    && h.correlationID == req.correlationID
    && h.ocpiFromCountryCode == req.sender.country
    && h.ocpiFromPartyID == req.sender.id
    && h.ocpiToCountryCode == req.receiver.country
    && h.ocpiToPartyID == req.receiver.id
  }

  /**
   * The URL of a local call can be found for the receiver's platform: the proxy record named by
   * the path variables (`proxied`), or the platform's endpoint for the module and interface.
   */
  predicate LocalUrlResolves(s: Store, req: OcpiRequestVariables, proxied: bool, platformID: int) {
    if proxied then GetProxyResource(s.proxyResources, req.urlPathVariables, req.sender, req.receiver).Ok?
    else GetPlatformEndpoint(s.endpoints, platformID, req.moduleID, req.interfaceRole).Ok?
  }

  /**
   * `prepareLocalPlatformRequest`: resolve the receiver's platform through its role, take the
   * URL from the proxy table (`proxied`) or from the platform's endpoint, and authorise with the
   * platform's tokenB. `requestID` is the freshly generated request id.
   */
  function PrepareLocalPlatformRequest(s: Store, req: OcpiRequestVariables, proxied: bool, requestID: Uuid)
    : (r: Result<LocalRequest, RoutingError>)
    ensures r.Ok? <==>
      (IsRoleKnown(s.roles, req.receiver) &&
       var platformID := GetPlatformID(s.roles, req.receiver).value;
       && LocalUrlResolves(s, req, proxied, platformID)
       && FindPlatform(s.platforms, platformID).Some?
       && FindPlatform(s.platforms, platformID).value.auth.tokenB.Some?)
    ensures !IsRoleKnown(s.roles, req.receiver) ==> r == Err(UnknownReceiver)
    ensures r == Err(UnsupportedModule) <==>
      (IsRoleKnown(s.roles, req.receiver) && !proxied &&
       GetPlatformEndpoint(s.endpoints, GetPlatformID(s.roles, req.receiver).value, req.moduleID, req.interfaceRole).Err?)
    ensures r == Err(PlatformNotFound) <==>
      (IsRoleKnown(s.roles, req.receiver) &&
       var platformID := GetPlatformID(s.roles, req.receiver).value;
       LocalUrlResolves(s, req, proxied, platformID) && FindPlatform(s.platforms, platformID).None?)
    ensures r == Err(MissingTokenB) <==>
      (IsRoleKnown(s.roles, req.receiver) &&
       var platformID := GetPlatformID(s.roles, req.receiver).value;
       && LocalUrlResolves(s, req, proxied, platformID)
       && FindPlatform(s.platforms, platformID).Some?
       && FindPlatform(s.platforms, platformID).value.auth.tokenB.None?)
    ensures proxied && IsRoleKnown(s.roles, req.receiver) &&
            GetProxyResource(s.proxyResources, req.urlPathVariables, req.sender, req.receiver).Err? ==>
              r == Err(ProxyResourceNotFound)
    ensures r.Ok? ==> IsRoleKnown(s.roles, req.receiver)
    ensures r == Err(ProxyResourceNotFound) ==>
      proxied && GetProxyResource(s.proxyResources, req.urlPathVariables, req.sender, req.receiver).Err?
    ensures r.Ok? && proxied ==>
      GetProxyResource(s.proxyResources, req.urlPathVariables, req.sender, req.receiver) == Ok(r.value.url)
    ensures r.Ok? && !proxied ==>
      exists e :: e in s.endpoints &&
        IsEndpointFor(e, GetPlatformID(s.roles, req.receiver).value, req.moduleID, req.interfaceRole) &&
        r.value.url == LocalUrl(e.url, req.urlPathVariables)
    ensures r.Ok? ==>
      exists p :: p in s.platforms && p.id == Some(GetPlatformID(s.roles, req.receiver).value) &&
        p.auth.tokenB.Some? && r.value.headers.authorization == Some("Token " + p.auth.tokenB.value)
    ensures r.Ok? ==> ForwardsRouting(r.value.headers, req, requestID) && |r.value.headers.requestID| == 36
  {
    match GetPlatformID(s.roles, req.receiver)
    case Err(e) => Err(e)
    case Ok(platformID) =>
      var url :=
        if proxied then GetProxyResource(s.proxyResources, req.urlPathVariables, req.sender, req.receiver)
        else match GetPlatformEndpoint(s.endpoints, platformID, req.moduleID, req.interfaceRole)
          case Err(e) => Err(e)
          case Ok(endpoint) => Ok(LocalUrl(endpoint.url, req.urlPathVariables));
      if url.Err? then Err(url.error)
      else match FindPlatform(s.platforms, platformID)
        case None => Err(PlatformNotFound)
        case Some(platform) =>
          if platform.auth.tokenB.None? then Err(MissingTokenB)
          else Ok(LocalRequest(url.value, OcpiRequestHeaders(
            Some("Token " + platform.auth.tokenB.value),
            requestID,
            req.correlationID,
            req.sender.country,
            req.sender.id,
            req.receiver.country,
            req.receiver.id)))
  }

  /** Query parameters never reach the local URL or headers: the transport gets them from the request. */
  lemma LocalRequestIgnoresParameters(s: Store, req: OcpiRequestVariables, proxied: bool, requestID: Uuid,
                                      params: Option<OcpiRequestParameters>)
    ensures PrepareLocalPlatformRequest(s, req.(urlEncodedParams := params), proxied, requestID)
         == PrepareLocalPlatformRequest(s, req, proxied, requestID)
  {
  }

  /**
   * A platform that has not given the node its tokenB cannot be called locally: when no row of
   * the receiver's platform holds a tokenB, preparation fails, and once the URL and platform are
   * found it fails for the missing token.
   */
  lemma LocalRequestNeedsTokenB(s: Store, req: OcpiRequestVariables, proxied: bool, requestID: Uuid)
    requires IsRoleKnown(s.roles, req.receiver)
    requires forall i :: 0 <= i < |s.platforms| && s.platforms[i].id == Some(GetPlatformID(s.roles, req.receiver).value) ==>
      s.platforms[i].auth.tokenB.None?
    ensures PrepareLocalPlatformRequest(s, req, proxied, requestID).Err?
    ensures LocalUrlResolves(s, req, proxied, GetPlatformID(s.roles, req.receiver).value) &&
            FindPlatform(s.platforms, GetPlatformID(s.roles, req.receiver).value).Some? ==>
      PrepareLocalPlatformRequest(s, req, proxied, requestID) == Err(MissingTokenB)
  {
    var found := FindPlatform(s.platforms, GetPlatformID(s.roles, req.receiver).value);
    if found.Some? {
      var i :| 0 <= i < |s.platforms| && s.platforms[i] == found.value;
    }
  }

  // ---------------------------------------------------------------------------------------------
  // Remote requests

  datatype RemoteRequest = RemoteRequest(url: string, headers: OcnMessageHeaders, body: OcnMessageRequestBody)

  /** The envelope carries the request as received: inbound request and correlation ids, both parties. */
  predicate IsEnvelopeOf(body: OcnMessageRequestBody, req: OcpiRequestVariables) {
    && body.httpMethod == req.httpMethod
    && body.interfaceRole == req.interfaceRole
    && body.moduleID == req.moduleID
    && body.headers == OcpiRequestHeaders(None, req.requestID, req.correlationID,
                                          req.sender.country, req.sender.id, req.receiver.country, req.receiver.id)
    && body.urlPathVariables == req.urlPathVariables
    && body.urlEncodedParameters == req.urlEncodedParams
    && body.body == req.body
    && body.expectedResponseType == req.expectedResponseType
  }

  /**
   * `prepareRemotePlatformRequest`: address the peer node the registry names for the receiver,
   * wrap the request in an envelope (with the proxied resource when `proxied`) and sign the
   * envelope's serialisation. `requestID` is the freshly generated request id.
   */
  function PrepareRemotePlatformRequest(s: Store, cfg: NodeConfig, req: OcpiRequestVariables, proxied: bool,
                                        requestID: Uuid): (r: Result<RemoteRequest, RoutingError>)
    ensures r.Ok? <==> (IsRoleKnownOnNetwork(cfg, req.receiver) &&
      (proxied ==> GetProxyResource(s.proxyResources, req.urlPathVariables, req.sender, req.receiver).Ok?))
    ensures !IsRoleKnownOnNetwork(cfg, req.receiver) ==> r == Err(UnknownReceiver)
    ensures r.Err? && IsRoleKnownOnNetwork(cfg, req.receiver) ==> r.error == ProxyResourceNotFound
    ensures r.Ok? ==> r.value.url == cfg.registry(req.receiver)
    ensures r.Ok? ==> r.value.headers.requestID == requestID && |r.value.headers.requestID| == 36
    ensures r.Ok? ==> r.value.headers.signature == cfg.sign(cfg.serialize(r.value.body))
    ensures r.Ok? ==> IsEnvelopeOf(r.value.body, req)
    ensures r.Ok? ==> (r.value.body.proxyResource ==
      (if proxied then Some(GetProxyResource(s.proxyResources, req.urlPathVariables, req.sender, req.receiver).value)
       else None))
  {
    match GetRemoteClientUrl(cfg, req.receiver)
    case Err(e) => Err(e)
    case Ok(url) =>
      var proxyResource :=
        if proxied then GetProxyResource(s.proxyResources, req.urlPathVariables, req.sender, req.receiver)
        else Ok("");
      if proxyResource.Err? then Err(proxyResource.error)
      else
        var body := OcnMessageRequestBody(
          req.httpMethod,
          req.interfaceRole,
          req.moduleID,
          OcpiRequestHeaders(None, req.requestID, req.correlationID,
                             req.sender.country, req.sender.id, req.receiver.country, req.receiver.id),
          req.urlPathVariables,
          req.urlEncodedParams,
          if proxied then Some(proxyResource.value) else None,
          req.body,
          req.expectedResponseType);
        Ok(RemoteRequest(url, OcnMessageHeaders(requestID, cfg.sign(cfg.serialize(body))), body))
  }

  // ---------------------------------------------------------------------------------------------
  // Pagination

  /** This node's page route for a module, up to the page id. */
  function PageRoute(nodeUrl: string, moduleID: ModuleID): string {
    nodeUrl + "/ocpi/sender/2.2/" + moduleID.Id() + "/page/"
  }

  const NextRel: string := "; rel=\"next\""

  /** This node's page route for a module and proxy id, as an RFC 8288 `rel="next"` link. */
  function PageLink(nodeUrl: string, moduleID: ModuleID, id: nat): (link: string)
    ensures |link| > |nodeUrl| + 17 && link[..|nodeUrl|] == nodeUrl
    ensures link[|nodeUrl|..|nodeUrl| + 17] == "/ocpi/sender/2.2/"
    ensures PageIdOf(nodeUrl, moduleID, link) == Some(NatToString(id))
  {
    var route := PageRoute(nodeUrl, moduleID);
    var link := route + NatToString(id) + NextRel;
    assert link[..|route|] == route && link[|link| - |NextRel|..] == NextRel;
    assert link[|route|..|link| - |NextRel|] == NatToString(id);
    assert link[..|nodeUrl|] == nodeUrl;
    link
  }

  /**
   * The page id a caller following `link` sends back: the text between the module's page route
   * and `; rel="next"`, or nothing when the link is not one of this node's page links.
   */
  function PageIdOf(nodeUrl: string, moduleID: ModuleID, link: string): (uid: Option<string>)
    ensures uid.Some? ==> link == PageRoute(nodeUrl, moduleID) + uid.value + NextRel
    ensures uid.None? ==> forall u :: link != PageRoute(nodeUrl, moduleID) + u + NextRel
  {
    var route := PageRoute(nodeUrl, moduleID);
    if |link| >= |route| + |NextRel| && link[..|route|] == route && link[|link| - |NextRel|..] == NextRel then
      var uid := link[|route|..|link| - |NextRel|];
      assert link == link[..|route|] + uid + link[|link| - |NextRel|..];
      Some(uid)
    else
      assert forall u :: ((route + u + NextRel)[..|route|] == route &&
                          (route + u + NextRel)[|route + u + NextRel| - |NextRel|..] == NextRel);
      None
  }

  /**
   * The headers returned to the caller of a list request whose response had a `Link` header:
   * the link rewritten to this node's page route for the new proxy id, and `X-Limit` and
   * `X-Total-Count` copied when present.
   */
  function ProxiedPageHeaders(nodeUrl: string, moduleID: ModuleID, responseHeaders: map<string, string>, id: nat)
    : (h: map<string, string>)
    ensures h.Keys <= {"Link", "X-Limit", "X-Total-Count"}
    ensures "Link" in h && h["Link"] == PageLink(nodeUrl, moduleID, id)
    ensures "X-Limit" in h <==> "X-Limit" in responseHeaders
    ensures "X-Limit" in h ==> h["X-Limit"] == responseHeaders["X-Limit"]
    ensures "X-Total-Count" in h <==> "X-Total-Count" in responseHeaders
    ensures "X-Total-Count" in h ==> h["X-Total-Count"] == responseHeaders["X-Total-Count"]
  {
    var h := map["Link" := PageLink(nodeUrl, moduleID, id)];
    var h := if "X-Limit" in responseHeaders then h["X-Limit" := responseHeaders["X-Limit"]] else h;
    if "X-Total-Count" in responseHeaders then h["X-Total-Count" := responseHeaders["X-Total-Count"]] else h
  }

  // ---------------------------------------------------------------------------------------------
  // The tables and the proxy store

  class RoutingService {
    const config: NodeConfig
    var platforms: seq<PlatformEntity>
    var roles: seq<RoleEntity>
    var endpoints: seq<EndpointEntity>
    var proxyResources: map<int, ProxyResourceEntity>
    /** The next id the proxy table's id generator hands out. */
    var nextProxyID: nat

    /** Every proxy record sits under the id it was given, and ids are issued in increasing order. */
    ghost predicate Valid()
      reads this
    {
      && 1 <= nextProxyID
      && forall k :: k in proxyResources ==> 1 <= k < nextProxyID && proxyResources[k].id == Some(k)
    }

    function Snapshot(): (s: Store)
      reads this
      ensures s.platforms == platforms && s.roles == roles && s.endpoints == endpoints
      ensures s.proxyResources == proxyResources
    {
      Store(platforms, roles, endpoints, proxyResources)
    }

    constructor (config: NodeConfig, platforms: seq<PlatformEntity>, roles: seq<RoleEntity>,
                 endpoints: seq<EndpointEntity>)
      ensures Valid()
      ensures this.config == config
      ensures this.platforms == platforms && this.roles == roles && this.endpoints == endpoints
      ensures proxyResources == map[]
    {
      this.config := config;
      this.platforms := platforms;
      this.roles := roles;
      this.endpoints := endpoints;
      proxyResources := map[];
      nextProxyID := 1;
    }

    /** `setProxyResource`: save a new record and return the id the table assigned to it. */
    method SetProxyResource(resource: string, sender: BasicRole, receiver: BasicRole) returns (id: nat)
      requires Valid()
      modifies this`proxyResources, this`nextProxyID
      ensures Valid()
      ensures id == old(nextProxyID) && id !in old(proxyResources)
      ensures proxyResources == old(proxyResources)[id := ProxyResourceEntity(resource, sender, receiver, Some(id))]
      ensures nextProxyID > id
    {
      id := nextProxyID;
      proxyResources := proxyResources[id := ProxyResourceEntity(resource, sender, receiver, Some(id))];
      nextProxyID := nextProxyID + 1;
    }

    /**
     * `deleteProxyResource`: remove the record whose id is written in `resourceID`; nothing
     * happens when there is none, so deleting twice is harmless.
     */
    method DeleteProxyResource(resourceID: string)
      requires Valid()
      modifies this`proxyResources
      ensures Valid()
      ensures ParseLong(resourceID).Some? ==> proxyResources == old(proxyResources) - {ParseLong(resourceID).value}
      ensures ParseLong(resourceID).None? ==> proxyResources == old(proxyResources)
    {
      match ParseLong(resourceID) {
        case Some(key) => proxyResources := proxyResources - {key};
        case None =>
      }
    }

    /**
     * `proxyPaginationHeaders`: when the response carries a `Link` header, save it as a new proxy
     * record of the request's sender and receiver and return the rewritten headers; otherwise
     * return no headers and save nothing.
     */
    method ProxyPaginationHeaders(request: OcpiRequestVariables, responseHeaders: map<string, string>)
      returns (headers: map<string, string>)
      requires Valid()
      modifies this`proxyResources, this`nextProxyID
      ensures Valid()
      ensures "Link" !in responseHeaders ==>
        headers == map[] && proxyResources == old(proxyResources) && nextProxyID == old(nextProxyID)
      ensures "Link" in responseHeaders ==>
        && old(nextProxyID) !in old(proxyResources)
        && proxyResources == old(proxyResources)[old(nextProxyID) :=
             ProxyResourceEntity(responseHeaders["Link"], request.sender, request.receiver, Some(old(nextProxyID)))]
        && headers == ProxiedPageHeaders(config.url, request.moduleID, responseHeaders, old(nextProxyID))
    {
      if "Link" in responseHeaders {
        var id := SetProxyResource(responseHeaders["Link"], request.sender, request.receiver);
        headers := ProxiedPageHeaders(config.url, request.moduleID, responseHeaders, id);
      } else {
        headers := map[];
      }
    }
  }

  /**
   * The rewritten link leads back to the downstream link: the page id a caller reads from the
   * link issued for `id` finds the saved resource (while the id is within the range of a Long).
   */
  lemma PageLinkRoundTrip(proxies: map<int, ProxyResourceEntity>, nodeUrl: string, moduleID: ModuleID, id: nat,
                          resource: string, sender: BasicRole, receiver: BasicRole, caller: BasicRole,
                          callee: BasicRole)
    requires id <= MaxLong
    ensures GetProxyResource(proxies[id := ProxyResourceEntity(resource, sender, receiver, Some(id))],
                             PageIdOf(nodeUrl, moduleID, PageLink(nodeUrl, moduleID, id)), caller, callee)
         == Ok(resource)
  {
    ProxyIdRoundTrip(proxies[id := ProxyResourceEntity(resource, sender, receiver, Some(id))], id, caller, callee);
  }
}
