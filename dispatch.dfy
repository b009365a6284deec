/**
 * The flow every module handler follows: authenticate the caller, classify the receiver, prepare
 * the local or remote request, hand it to the outbound transport and, for list and page
 * requests, rewrite the pagination headers of the reply.
 *
 * The outbound transport is the function `send`: what the downstream party or peer node answers
 * to a prepared request.
 */
module Dispatch {
  import opened Wrappers
  import opened Text
  import opened Ocpi
  import opened Entities
  import opened Routing

  /** The headers every handler reads from the inbound request. */
  datatype InboundHeaders = InboundHeaders(
    authorization: string,
    requestID: string,
    correlationID: string,
    fromCountryCode: string,
    fromPartyID: string,
    toCountryCode: string,
    toPartyID: string)
  {
    function Sender(): BasicRole { BasicRole(fromPartyID, fromCountryCode) }
    function Receiver(): BasicRole { BasicRole(toPartyID, toCountryCode) }
  }

  /** The query parameters of a list request (`date_from`, `date_to`, `offset`, `limit`). */
  function ListParameters(dateFrom: Option<string>, dateTo: Option<string>, offset: Option<int>, limit: Option<int>)
    : OcpiRequestParameters
  {
    OcpiRequestParameters(None, dateFrom, dateTo, offset, limit)
  }

  /** The path of a client-owned object: `/{country_code}/{party_id}/{id}`. */
  function ObjectPath(countryCode: string, partyID: string, id: string): (path: string)
    ensures |path| == |countryCode| + |partyID| + |id| + 3
    ensures path[0] == '/' && path[|countryCode| + 1] == '/' && path[|countryCode| + |partyID| + 2] == '/'
    ensures path[1..|countryCode| + 1] == countryCode
    ensures path[|countryCode| + 2..|countryCode| + |partyID| + 2] == partyID
    ensures path[|countryCode| + |partyID| + 3..] == id
  {
    "/" + countryCode + "/" + partyID + "/" + id
  }

  /** A request the outbound transport sends. */
  datatype Outbound =
    | LocalCall(url: string, headers: OcpiRequestHeaders, request: OcpiRequestVariables)
    | RemoteCall(url: string, envelopeHeaders: OcnMessageHeaders, body: OcnMessageRequestBody)

  /** The request that was sent and what came back. */
  datatype Exchange = Exchange(sent: Outbound, response: HttpResponse)

  /** What a handler returns to its caller. */
  datatype Reply = Reply(statusCode: int, headers: map<string, string>, body: Option<Payload>)

  /** What a forwarded request asks of the downstream party, independent of how it travels. */
  datatype Descriptor = Descriptor(
    moduleID: ModuleID,
    interfaceRole: InterfaceRole,
    httpMethod: HttpMethod,
    sender: BasicRole,
    receiver: BasicRole,
    urlPathVariables: Option<string>,
    urlEncodedParams: Option<OcpiRequestParameters>,
    body: Option<Payload>,
    expectedResponseType: ResponseDataType)

  function DescriptorOf(req: OcpiRequestVariables): Descriptor {
    Descriptor(req.moduleID, req.interfaceRole, req.httpMethod, req.sender, req.receiver,
               req.urlPathVariables, req.urlEncodedParams, req.body, req.expectedResponseType)
  }

  /**
   * The descriptor a sent request conveys: a local call is made from the request itself, a
   * remote call conveys what its envelope holds.
   */
  function Describe(out: Outbound): Descriptor {
    match out
    case LocalCall(_, headers, request) =>
      DescriptorOf(request).(sender := BasicRole(headers.ocpiFromPartyID, headers.ocpiFromCountryCode),
                             receiver := BasicRole(headers.ocpiToPartyID, headers.ocpiToCountryCode))
    case RemoteCall(_, _, body) =>
      Descriptor(body.moduleID, body.interfaceRole, body.httpMethod,
                 BasicRole(body.headers.ocpiFromPartyID, body.headers.ocpiFromCountryCode),
                 BasicRole(body.headers.ocpiToPartyID, body.headers.ocpiToCountryCode),
                 body.urlPathVariables, body.urlEncodedParameters, body.body, body.expectedResponseType)
  }

  /** The request prepared for the receiver's location (the `when (validateReceiver(...))` block). */
  function Route(s: Store, cfg: NodeConfig, req: OcpiRequestVariables, proxied: bool, requestID: Uuid)
    : (r: Result<Outbound, RoutingError>)
    ensures ValidateReceiver(s, cfg, req.receiver).Err? ==> r == Err(UnknownReceiver)
    ensures r.Ok? && r.value.LocalCall? <==>
      ValidateReceiver(s, cfg, req.receiver) == Ok(Local) && PrepareLocalPlatformRequest(s, req, proxied, requestID).Ok?
    ensures r.Ok? && r.value.RemoteCall? <==>
      ValidateReceiver(s, cfg, req.receiver) == Ok(Remote) &&
      PrepareRemotePlatformRequest(s, cfg, req, proxied, requestID).Ok?
    ensures r.Ok? && r.value.LocalCall? ==>
      PrepareLocalPlatformRequest(s, req, proxied, requestID) == Ok(LocalRequest(r.value.url, r.value.headers)) &&
      r.value.request == req
    ensures r.Ok? && r.value.RemoteCall? ==>
      PrepareRemotePlatformRequest(s, cfg, req, proxied, requestID) ==
        Ok(RemoteRequest(r.value.url, r.value.envelopeHeaders, r.value.body))
    ensures ValidateReceiver(s, cfg, req.receiver) == Ok(Local) && r.Err? ==>
      r.error == PrepareLocalPlatformRequest(s, req, proxied, requestID).error
    ensures ValidateReceiver(s, cfg, req.receiver) == Ok(Remote) && r.Err? ==>
      r.error == PrepareRemotePlatformRequest(s, cfg, req, proxied, requestID).error
    ensures r.Ok? ==> Describe(r.value) == DescriptorOf(req)
  {
    match ValidateReceiver(s, cfg, req.receiver)
    case Err(e) => Err(e)
    case Ok(Local) =>
      (match PrepareLocalPlatformRequest(s, req, proxied, requestID)
       case Err(e) => Err(e)
       case Ok(local) => Ok(LocalCall(local.url, local.headers, req)))
    case Ok(Remote) =>
      (match PrepareRemotePlatformRequest(s, cfg, req, proxied, requestID)
       case Err(e) => Err(e)
       case Ok(remote) => Ok(RemoteCall(remote.url, remote.headers, remote.body)))
  }

  /**
   * Authenticate the caller as the request's sender, then route the request and send it.
   * `requestID` is the request id the node generates for the outbound call.
   */
  function Forward(s: Store, cfg: NodeConfig, authorization: string, req: OcpiRequestVariables, proxied: bool,
                   requestID: Uuid, send: Outbound -> HttpResponse): (r: Result<Exchange, RoutingError>)
    ensures ValidateSender(s, authorization, Some(req.sender)).Fail? ==> r == Err(Unauthorized)
    ensures ValidateSender(s, authorization, Some(req.sender)).Pass? ==>
      (r.Ok? <==> Route(s, cfg, req, proxied, requestID).Ok?)
    ensures r.Ok? ==> ValidateSender(s, authorization, Some(req.sender)).Pass?
    ensures r.Ok? ==> Route(s, cfg, req, proxied, requestID) == Ok(r.value.sent) && r.value.response == send(r.value.sent)
    ensures r.Err? && ValidateSender(s, authorization, Some(req.sender)).Pass? ==>
      Route(s, cfg, req, proxied, requestID) == Err(r.error)
    ensures r.Ok? ==> Describe(r.value.sent) == DescriptorOf(req)
  {
    match ValidateSender(s, authorization, Some(req.sender))
    case Fail(e) => Err(e)
    case Pass =>
      match Route(s, cfg, req, proxied, requestID)
      case Err(e) => Err(e)
      case Ok(out) => Ok(Exchange(out, send(out)))
  }

  /** A forwarded request that was proxied found its proxy resource. */
  lemma ProxiedForwardFoundResource(s: Store, cfg: NodeConfig, authorization: string, req: OcpiRequestVariables,
                                    requestID: Uuid, send: Outbound -> HttpResponse)
    requires Forward(s, cfg, authorization, req, true, requestID, send).Ok?
    ensures GetProxyResource(s.proxyResources, req.urlPathVariables, req.sender, req.receiver).Ok?
  {
  }

  /**
   * A proxied request is routed to its proxy resource exactly when the resource is found: the
   * local call goes to the stored URL and a peer node receives it as the envelope's proxy
   * resource; otherwise a request for a known receiver fails with "proxy resource not found".
   */
  lemma ProxiedRoute(s: Store, cfg: NodeConfig, req: OcpiRequestVariables, requestID: Uuid)
    requires ValidateReceiver(s, cfg, req.receiver).Ok?
    ensures GetProxyResource(s.proxyResources, req.urlPathVariables, req.sender, req.receiver).Err? ==>
      Route(s, cfg, req, true, requestID) == Err(ProxyResourceNotFound)
    ensures Route(s, cfg, req, true, requestID) != Err(ProxyResourceNotFound) <==>
      GetProxyResource(s.proxyResources, req.urlPathVariables, req.sender, req.receiver).Ok?
    ensures Route(s, cfg, req, true, requestID).Ok? && Route(s, cfg, req, true, requestID).value.LocalCall? ==>
      Route(s, cfg, req, true, requestID).value.url ==
        GetProxyResource(s.proxyResources, req.urlPathVariables, req.sender, req.receiver).value
    ensures Route(s, cfg, req, true, requestID).Ok? && Route(s, cfg, req, true, requestID).value.RemoteCall? ==>
      Route(s, cfg, req, true, requestID).value.body.proxyResource ==
        Some(GetProxyResource(s.proxyResources, req.urlPathVariables, req.sender, req.receiver).value)
  {
  }

  /** A request without path variables can never be forwarded as a proxied request. */
  lemma {:induction false} ProxiedForwardNeedsPathVariables(s: Store, cfg: NodeConfig, authorization: string,
                                                            req: OcpiRequestVariables, requestID: Uuid,
                                                            send: Outbound -> HttpResponse)
    requires req.urlPathVariables.None?
    ensures Forward(s, cfg, authorization, req, true, requestID, send).Err?
    ensures ValidateSender(s, authorization, Some(req.sender)).Pass? && ValidateReceiver(s, cfg, req.receiver).Ok? ==>
      Forward(s, cfg, authorization, req, true, requestID, send) == Err(ProxyResourceNotFound)
  {
    if ValidateSender(s, authorization, Some(req.sender)).Pass? && ValidateReceiver(s, cfg, req.receiver).Ok? {
      ProxiedRoute(s, cfg, req, requestID);
    }
  }

  /** The reply carries the status and body the downstream party gave to a request conveying `d`. */
  ghost predicate AnsweredBy(reply: Reply, d: Descriptor, send: Outbound -> HttpResponse) {
    exists out: Outbound :: Describe(out) == d && reply.statusCode == send(out).statusCode && reply.body == send(out).body
  }

  /**
   * The outcome of a one-object handler: it succeeds exactly when the request is forwarded,
   * passes a refusal on as it is, and replies with the downstream status and body and no headers.
   */
  predicate SingleOutcome(s: Store, cfg: NodeConfig, authorization: string, req: OcpiRequestVariables,
                          requestID: Uuid, send: Outbound -> HttpResponse, r: Result<Reply, RoutingError>)
  {
    var forwarded := Forward(s, cfg, authorization, req, false, requestID, send);
    && (r.Ok? <==> forwarded.Ok?)
    && (forwarded.Err? ==> r == Err(forwarded.error))
    && (forwarded.Ok? ==> r == Ok(Reply(forwarded.value.response.statusCode, map[], forwarded.value.response.body)))
  }

  /** A handler for one object: the reply has the response's status and body and no headers. */
  function ForwardSingle(s: Store, cfg: NodeConfig, authorization: string, req: OcpiRequestVariables,
                         requestID: Uuid, send: Outbound -> HttpResponse): (r: Result<Reply, RoutingError>)
    ensures SingleOutcome(s, cfg, authorization, req, requestID, send, r)
    ensures r.Ok? ==> AnsweredBy(r.value, DescriptorOf(req), send)
  {
    match Forward(s, cfg, authorization, req, false, requestID, send)
    case Err(e) => Err(e)
    case Ok(exchange) =>
      var reply := Reply(exchange.response.statusCode, map[], exchange.response.body);
      assert Describe(exchange.sent) == DescriptorOf(req);
      Ok(reply)
  }

  /**
   * A list handler: forward the request and, whatever the outcome of the downstream call,
   * rewrite its pagination headers (a `Link` header becomes a new proxy record).
   */
  method ForwardList(svc: RoutingService, authorization: string, req: OcpiRequestVariables, requestID: Uuid,
                     send: Outbound -> HttpResponse) returns (r: Result<Reply, RoutingError>)
    requires svc.Valid()
    modifies svc`proxyResources, svc`nextProxyID
    ensures svc.Valid()
    ensures ListOutcome(svc, authorization, req, requestID, send, r)
    ensures r.Ok? ==> AnsweredBy(r.value, DescriptorOf(req), send)
  {
    var forwarded := Forward(svc.Snapshot(), svc.config, authorization, req, false, requestID, send);
    if forwarded.Err? {
      r := Err(forwarded.error);
    } else {
      var response := forwarded.value.response;
      var headers := svc.ProxyPaginationHeaders(req, response.headers);
      r := Ok(Reply(response.statusCode, headers, response.body));
      assert Describe(forwarded.value.sent) == DescriptorOf(req);
    }
  }

  /**
   * The outcome of a list handler: a request that is not forwarded changes nothing and passes its
   * refusal on; a forwarded one replies with the downstream status and body, and its pagination
   * headers are saved and rewritten (`ListHeadersSaved`).
   */
  twostate predicate ListOutcome(svc: RoutingService, authorization: string, req: OcpiRequestVariables,
                                 requestID: Uuid, send: Outbound -> HttpResponse, new r: Result<Reply, RoutingError>)
    reads svc
  {
    var forwarded := Forward(old(svc.Snapshot()), svc.config, authorization, req, false, requestID, send);
    if forwarded.Err? then
      && r == Err(forwarded.error)
      && svc.proxyResources == old(svc.proxyResources) && svc.nextProxyID == old(svc.nextProxyID)
    else
      var response := forwarded.value.response;
      && r.Ok? && r.value.statusCode == response.statusCode && r.value.body == response.body
      && ListHeadersSaved(svc, req, response.headers, r.value.headers)
  }

  /**
   * The outcome of `proxyPaginationHeaders` on the response headers: with a `Link` header the
   * link is saved under the next id and the rewritten headers are returned; without one nothing
   * is saved and no headers are returned.
   */
  twostate predicate ListHeadersSaved(svc: RoutingService, req: OcpiRequestVariables,
                                      responseHeaders: map<string, string>, headers: map<string, string>)
    reads svc
  {
    if "Link" in responseHeaders then
      && old(svc.nextProxyID) !in old(svc.proxyResources)
      && svc.proxyResources == old(svc.proxyResources)[old(svc.nextProxyID) :=
           ProxyResourceEntity(responseHeaders["Link"], req.sender, req.receiver, Some(old(svc.nextProxyID)))]
      && headers == ProxiedPageHeaders(svc.config.url, req.moduleID, responseHeaders, old(svc.nextProxyID))
    else
      && headers == map[]
      && svc.proxyResources == old(svc.proxyResources) && svc.nextProxyID == old(svc.nextProxyID)
  }

  /**
   * A page handler: forward the proxied request for page `uid`; on an OCPI success the page's
   * proxy record is deleted and the reply's pagination headers rewritten, otherwise the record
   * stays (the page can be fetched again) and the reply has no headers.
   */
  method ForwardPage(svc: RoutingService, authorization: string, req: OcpiRequestVariables, uid: string,
                     requestID: Uuid, send: Outbound -> HttpResponse) returns (r: Result<Reply, RoutingError>)
    requires svc.Valid()
    modifies svc`proxyResources, svc`nextProxyID
    ensures svc.Valid()
    ensures PageOutcome(svc, authorization, req, uid, requestID, send, r)
    ensures r.Ok? && req.urlPathVariables == Some(uid) ==> ParseLong(uid).Some? && ParseLong(uid).value in old(svc.proxyResources)
    ensures r.Ok? && req.urlPathVariables == Some(uid) &&
            Forward(old(svc.Snapshot()), svc.config, authorization, req, true, requestID, send).value.response.ocpiSuccess ==>
      ParseLong(uid).value !in svc.proxyResources
    ensures r.Ok? ==> AnsweredBy(r.value, DescriptorOf(req), send)
  {
    var forwarded := Forward(svc.Snapshot(), svc.config, authorization, req, true, requestID, send);
    if forwarded.Err? {
      r := Err(forwarded.error);
    } else {
      ProxiedForwardFoundResource(svc.Snapshot(), svc.config, authorization, req, requestID, send);
      var response := forwarded.value.response;
      var headers := map[];
      if response.ocpiSuccess {
        headers := ConsumePage(svc, req, uid, response.headers);
      }
      r := Ok(Reply(response.statusCode, headers, response.body));
      assert Describe(forwarded.value.sent) == DescriptorOf(req);
    }
  }

  /**
   * The outcome of a page fetch: a request that is not forwarded changes nothing; a forwarded one
   * replies with the downstream status and body and, on an OCPI success, consumes the page
   * (`PageConsumed`); otherwise the proxy table is unchanged and the reply has no headers.
   */
  twostate predicate PageOutcome(svc: RoutingService, authorization: string, req: OcpiRequestVariables, uid: string,
                                 requestID: Uuid, send: Outbound -> HttpResponse, new r: Result<Reply, RoutingError>)
    reads svc
  {
    var forwarded := Forward(old(svc.Snapshot()), svc.config, authorization, req, true, requestID, send);
    if forwarded.Err? then
      && r == Err(forwarded.error)
      && svc.proxyResources == old(svc.proxyResources) && svc.nextProxyID == old(svc.nextProxyID)
    else
      var response := forwarded.value.response;
      && r.Ok? && r.value.statusCode == response.statusCode && r.value.body == response.body
      && if response.ocpiSuccess then PageConsumed(svc, req, uid, response.headers, r.value.headers)
         else
           && r.value.headers == map[]
           && svc.proxyResources == old(svc.proxyResources) && svc.nextProxyID == old(svc.nextProxyID)
  }

  /**
   * After a successful page fetch: delete the page's proxy record, then rewrite the pagination
   * headers of the response. A record that existed is gone afterwards, even when the response
   * links to a further page.
   */
  method ConsumePage(svc: RoutingService, req: OcpiRequestVariables, uid: string, responseHeaders: map<string, string>)
    returns (headers: map<string, string>)
    requires svc.Valid()
    modifies svc`proxyResources, svc`nextProxyID
    ensures svc.Valid()
    ensures PageConsumed(svc, req, uid, responseHeaders, headers)
    ensures ParseLong(uid).Some? && ParseLong(uid).value in old(svc.proxyResources) ==>
      ParseLong(uid).value !in svc.proxyResources
  {
    svc.DeleteProxyResource(uid);
    headers := svc.ProxyPaginationHeaders(req, responseHeaders);
  }

  /**
   * The outcome of a successful page fetch: the record named by `uid` is gone, and a new `Link`
   * header is saved as in `ListHeadersSaved`.
   */
  twostate predicate PageConsumed(svc: RoutingService, req: OcpiRequestVariables, uid: string,
                                  responseHeaders: map<string, string>, headers: map<string, string>)
    reads svc
  {
    var remaining := if ParseLong(uid).Some? then old(svc.proxyResources) - {ParseLong(uid).value}
                     else old(svc.proxyResources);
    if "Link" in responseHeaders then
      && old(svc.nextProxyID) !in remaining
      && svc.proxyResources == remaining[old(svc.nextProxyID) :=
           ProxyResourceEntity(responseHeaders["Link"], req.sender, req.receiver, Some(old(svc.nextProxyID)))]
      && headers == ProxiedPageHeaders(svc.config.url, req.moduleID, responseHeaders, old(svc.nextProxyID))
    else
      && headers == map[]
      && svc.proxyResources == remaining && svc.nextProxyID == old(svc.nextProxyID)
  }
}
