/**
 * The OCPI 2.2 tokens module of the node: the sender interface (token lists and their pages,
 * real-time authorisation) and the receiver interface (one client-owned token, read, replaced or
 * patched at its owner), each forwarded through the routing engine.
 */
module TokensController {
  import opened Wrappers
  import opened Text
  import opened Ocpi
  import opened Entities
  import opened Routing
  import opened Dispatch

  /** The `type` query parameter, `RFID` when the caller gives none. */
  function TypeParameter(tokenType: Option<TokenType>): (p: OcpiRequestParameters)
    ensures p.tokenType.Some?
    ensures tokenType.Some? ==> p.tokenType == tokenType
    ensures tokenType.None? ==> p.tokenType == Some(Rfid)
    ensures p.dateFrom.None? && p.dateTo.None? && p.offset.None? && p.limit.None?
  {
    OcpiRequestParameters(Some(if tokenType.Some? then tokenType.value else Rfid), None, None, None, None)
  }

  function ListRequest(h: InboundHeaders, params: OcpiRequestParameters): OcpiRequestVariables {
    OcpiRequestVariables(Tokens, Sender, Get, h.requestID, h.correlationID, h.Sender(), h.Receiver(),
                         None, Some(params), None, TokenArray)
  }

  /** The page request as the page handler builds it: the page id is not passed on. */
  function PageRequestAsWritten(h: InboundHeaders): OcpiRequestVariables {
    OcpiRequestVariables(Tokens, Sender, Get, h.requestID, h.correlationID, h.Sender(), h.Receiver(),
                         None, None, None, TokenArray)
  }

  /** The page request with the page id as its path, as the tariffs page handler builds it. */
  function PageRequest(h: InboundHeaders, uid: string): OcpiRequestVariables {
    OcpiRequestVariables(Tokens, Sender, Get, h.requestID, h.correlationID, h.Sender(), h.Receiver(),
                         Some(uid), None, None, TokenArray)
  }

  /** The path of a real-time authorisation: `{token_uid}/authorize`, without a leading slash. */
  function AuthorizePath(tokenUID: string): string {
    tokenUID + "/authorize"
  }

  function AuthorizeRequest(h: InboundHeaders, tokenUID: string, tokenType: Option<TokenType>,
                            body: Option<Payload>): OcpiRequestVariables
  {
    OcpiRequestVariables(Tokens, Sender, Post, h.requestID, h.correlationID, h.Sender(), h.Receiver(),
                         Some(AuthorizePath(tokenUID)), Some(TypeParameter(tokenType)), body, AuthorizationInfo)
  }

  function ObjectRequest(h: InboundHeaders, httpMethod: HttpMethod, countryCode: string, partyID: string,
                         tokenUID: string, tokenType: Option<TokenType>, body: Option<Payload>,
                         expected: ResponseDataType): OcpiRequestVariables
  {
    OcpiRequestVariables(Tokens, Receiver, httpMethod, h.requestID, h.correlationID, h.Sender(), h.Receiver(),
                         Some(ObjectPath(countryCode, partyID, tokenUID)), Some(TypeParameter(tokenType)), body,
                         expected)
  }

  // ---------------------------------------------------------------------------------------------
  // Sender interface

  /**
   * `GET /ocpi/sender/2.2/tokens`: forward the list request; a `Link` in the reply is replaced by
   * this node's page route for a new proxy record of the caller and the data owner.
   */
  method GetTokensFromDataOwner(svc: RoutingService, h: InboundHeaders, dateFrom: Option<string>,
                                dateTo: Option<string>, offset: Option<int>, limit: Option<int>,
                                requestID: Uuid, send: Outbound -> HttpResponse)
    returns (r: Result<Reply, RoutingError>)
    requires svc.Valid()
    modifies svc`proxyResources, svc`nextProxyID
    ensures svc.Valid()
    ensures ValidateSender(old(svc.Snapshot()), h.authorization, Some(h.Sender())).Fail? ==>
      r == Err(Unauthorized) && svc.proxyResources == old(svc.proxyResources)
    ensures r.Ok? ==> AnsweredBy(r.value, Descriptor(Tokens, Sender, Get, h.Sender(), h.Receiver(), None,
                                                     Some(ListParameters(dateFrom, dateTo, offset, limit)), None,
                                                     TokenArray), send)
    ensures ListOutcome(svc, h.authorization, ListRequest(h, ListParameters(dateFrom, dateTo, offset, limit)),
                        requestID, send, r)
    ensures r.Ok? && "Link" in r.value.headers ==>
      && r.value.headers["Link"] == PageLink(svc.config.url, Tokens, old(svc.nextProxyID))
      && old(svc.nextProxyID) in svc.proxyResources
      && svc.proxyResources[old(svc.nextProxyID)].sender == h.Sender()
      && svc.proxyResources[old(svc.nextProxyID)].receiver == h.Receiver()
  {
    r := ForwardList(svc, h.authorization, ListRequest(h, ListParameters(dateFrom, dateTo, offset, limit)),
                     requestID, send);
  }

  /**
   * The page request as written never reaches the data owner: without path variables the proxy
   * lookup has no id, so an authenticated request for a known receiver always fails with
   * "proxy resource not found".
   */
  lemma PageFetchAsWrittenNeverForwards(s: Store, cfg: NodeConfig, h: InboundHeaders, requestID: Uuid,
                                        send: Outbound -> HttpResponse)
    ensures Forward(s, cfg, h.authorization, PageRequestAsWritten(h), true, requestID, send).Err?
    ensures ValidateSender(s, h.authorization, Some(h.Sender())).Pass? && ValidateReceiver(s, cfg, h.Receiver()).Ok? ==>
      Forward(s, cfg, h.authorization, PageRequestAsWritten(h), true, requestID, send) == Err(ProxyResourceNotFound)
  {
    ProxiedForwardNeedsPathVariables(s, cfg, h.authorization, PageRequestAsWritten(h), requestID, send);
  }

  /**
   * With the page id passed on, a stored page is found: the request does not fail for want of a
   * proxy resource, and the local call goes to the stored URL while a peer node receives it as
   * the envelope's proxy resource.
   */
  lemma PageFetchUsesStoredPage(s: Store, cfg: NodeConfig, h: InboundHeaders, uid: string, requestID: Uuid,
                                send: Outbound -> HttpResponse)
    requires ParseLong(uid).Some? && ParseLong(uid).value in s.proxyResources
    ensures Forward(s, cfg, h.authorization, PageRequest(h, uid), true, requestID, send) != Err(ProxyResourceNotFound)
    ensures Forward(s, cfg, h.authorization, PageRequest(h, uid), true, requestID, send).Ok? ==>
      var sent := Forward(s, cfg, h.authorization, PageRequest(h, uid), true, requestID, send).value.sent;
      && (sent.LocalCall? ==> sent.url == s.proxyResources[ParseLong(uid).value].resource)
      && (sent.RemoteCall? ==> sent.body.proxyResource == Some(s.proxyResources[ParseLong(uid).value].resource))
  {
    var req := PageRequest(h, uid);
    assert GetProxyResource(s.proxyResources, req.urlPathVariables, req.sender, req.receiver).Ok?;
    if ValidateReceiver(s, cfg, req.receiver).Ok? {
      ProxiedRoute(s, cfg, req, requestID);
    }
  }

  /**
   * `GET /ocpi/sender/2.2/tokens/page/{uid}`, with the page id passed on as the request's path
   * (see `PageRequestAsWritten` for the request as the handler builds it); a page that was
   * served successfully cannot be fetched a second time.
   */
  method GetTokensPageFromDataOwner(svc: RoutingService, h: InboundHeaders, uid: string, requestID: Uuid,
                                    send: Outbound -> HttpResponse)
    returns (r: Result<Reply, RoutingError>)
    requires svc.Valid()
    modifies svc`proxyResources, svc`nextProxyID
    ensures svc.Valid()
    ensures ValidateSender(old(svc.Snapshot()), h.authorization, Some(h.Sender())).Fail? ==>
      r == Err(Unauthorized) && svc.proxyResources == old(svc.proxyResources)
    ensures r.Ok? ==> AnsweredBy(r.value, Descriptor(Tokens, Sender, Get, h.Sender(), h.Receiver(), Some(uid), None,
                                                     None, TokenArray), send)
    ensures r.Ok? ==> ParseLong(uid).Some? && ParseLong(uid).value in old(svc.proxyResources)
    ensures PageOutcome(svc, h.authorization, PageRequest(h, uid), uid, requestID, send, r)
    ensures r.Ok? && Forward(old(svc.Snapshot()), svc.config, h.authorization, PageRequest(h, uid), true,
                             requestID, send).value.response.ocpiSuccess ==>
      ParseLong(uid).value !in svc.proxyResources
  {
    r := ForwardPage(svc, h.authorization, PageRequest(h, uid), uid, requestID, send);
  }

  /** `POST /ocpi/sender/2.2/tokens/{token_uid}/authorize`: real-time authorisation of a token. */
  function PostRealTimeTokenAuthorization(s: Store, cfg: NodeConfig, h: InboundHeaders, tokenUID: string,
                                          tokenType: Option<TokenType>, body: Option<Payload>, requestID: Uuid,
                                          send: Outbound -> HttpResponse)
    : (r: Result<Reply, RoutingError>)
    ensures ValidateSender(s, h.authorization, Some(h.Sender())).Fail? ==> r == Err(Unauthorized)
    ensures ValidateSender(s, h.authorization, Some(h.Sender())).Pass? && ValidateReceiver(s, cfg, h.Receiver()).Err? ==>
      r == Err(UnknownReceiver)
    ensures r.Ok? ==> r.value.headers == map[]
    ensures r.Ok? ==>
      AnsweredBy(r.value, Descriptor(Tokens, Sender, Post, h.Sender(), h.Receiver(), Some(tokenUID + "/authorize"),
                                     Some(TypeParameter(tokenType)), body, AuthorizationInfo), send)
    ensures SingleOutcome(s, cfg, h.authorization,
                          AuthorizeRequest(h, tokenUID, tokenType, body),
                          requestID, send, r)
  {
    ForwardSingle(s, cfg, h.authorization, AuthorizeRequest(h, tokenUID, tokenType, body), requestID, send)
  }

  // ---------------------------------------------------------------------------------------------
  // Receiver interface

  /** `GET /ocpi/receiver/2.2/tokens/{country_code}/{party_id}/{token_uid}`. */
  function GetClientOwnedToken(s: Store, cfg: NodeConfig, h: InboundHeaders, countryCode: string, partyID: string,
                               tokenUID: string, tokenType: Option<TokenType>, requestID: Uuid,
                               send: Outbound -> HttpResponse)
    : (r: Result<Reply, RoutingError>)
    ensures ValidateSender(s, h.authorization, Some(h.Sender())).Fail? ==> r == Err(Unauthorized)
    ensures ValidateSender(s, h.authorization, Some(h.Sender())).Pass? && ValidateReceiver(s, cfg, h.Receiver()).Err? ==>
      r == Err(UnknownReceiver)
    ensures r.Ok? ==> r.value.headers == map[]
    ensures r.Ok? ==>
      AnsweredBy(r.value, Descriptor(Tokens, Receiver, Get, h.Sender(), h.Receiver(),
                                     Some(ObjectPath(countryCode, partyID, tokenUID)), Some(TypeParameter(tokenType)),
                                     None, TokenObject), send)
    ensures SingleOutcome(s, cfg, h.authorization,
                          ObjectRequest(h, Get, countryCode, partyID, tokenUID, tokenType, None, TokenObject),
                          requestID, send, r)
  {
    ForwardSingle(s, cfg, h.authorization,
                  ObjectRequest(h, Get, countryCode, partyID, tokenUID, tokenType, None, TokenObject), requestID, send)
  }

  /** `PUT /ocpi/receiver/2.2/tokens/{country_code}/{party_id}/{token_uid}`: the token travels as the body. */
  function PutClientOwnedToken(s: Store, cfg: NodeConfig, h: InboundHeaders, countryCode: string, partyID: string,
                               tokenUID: string, tokenType: Option<TokenType>, body: Payload, requestID: Uuid,
                               send: Outbound -> HttpResponse)
    : (r: Result<Reply, RoutingError>)
    ensures ValidateSender(s, h.authorization, Some(h.Sender())).Fail? ==> r == Err(Unauthorized)
    ensures ValidateSender(s, h.authorization, Some(h.Sender())).Pass? && ValidateReceiver(s, cfg, h.Receiver()).Err? ==>
      r == Err(UnknownReceiver)
    ensures r.Ok? ==> r.value.headers == map[]
    ensures r.Ok? ==>
      AnsweredBy(r.value, Descriptor(Tokens, Receiver, Put, h.Sender(), h.Receiver(),
                                     Some(ObjectPath(countryCode, partyID, tokenUID)), Some(TypeParameter(tokenType)),
                                     Some(body), Nothing), send)
    ensures SingleOutcome(s, cfg, h.authorization,
                          ObjectRequest(h, Put, countryCode, partyID, tokenUID, tokenType, Some(body), Nothing),
                          requestID, send, r)
  {
    ForwardSingle(s, cfg, h.authorization,
                  ObjectRequest(h, Put, countryCode, partyID, tokenUID, tokenType, Some(body), Nothing), requestID, send)
  }

  /** `PATCH /ocpi/receiver/2.2/tokens/{country_code}/{party_id}/{token_uid}`: the changed fields travel as the body. */
  function PatchClientOwnedToken(s: Store, cfg: NodeConfig, h: InboundHeaders, countryCode: string, partyID: string,
                                 tokenUID: string, tokenType: Option<TokenType>, body: Payload, requestID: Uuid,
                                 send: Outbound -> HttpResponse)
    : (r: Result<Reply, RoutingError>)
    ensures ValidateSender(s, h.authorization, Some(h.Sender())).Fail? ==> r == Err(Unauthorized)
    ensures ValidateSender(s, h.authorization, Some(h.Sender())).Pass? && ValidateReceiver(s, cfg, h.Receiver()).Err? ==>
      r == Err(UnknownReceiver)
    ensures r.Ok? ==> r.value.headers == map[]
    ensures r.Ok? ==>
      AnsweredBy(r.value, Descriptor(Tokens, Receiver, Patch, h.Sender(), h.Receiver(),
                                     Some(ObjectPath(countryCode, partyID, tokenUID)), Some(TypeParameter(tokenType)),
                                     Some(body), Nothing), send)
    ensures SingleOutcome(s, cfg, h.authorization,
                          ObjectRequest(h, Patch, countryCode, partyID, tokenUID, tokenType, Some(body), Nothing),
                          requestID, send, r)
  {
    ForwardSingle(s, cfg, h.authorization,
                  ObjectRequest(h, Patch, countryCode, partyID, tokenUID, tokenType, Some(body), Nothing), requestID, send)
  }
}
