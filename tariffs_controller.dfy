/**
 * The OCPI 2.2 tariffs module of the node: the sender interface (tariff lists and their pages,
 * served by the data owner) and the receiver interface (one client-owned tariff, read, replaced
 * or deleted at its owner), each forwarded through the routing engine.
 */
module TariffsController {
  import opened Wrappers
  import opened Text
  import opened Ocpi
  import opened Entities
  import opened Routing
  import opened Dispatch

  function ListRequest(h: InboundHeaders, params: OcpiRequestParameters): OcpiRequestVariables {
    OcpiRequestVariables(Tariffs, Sender, Get, h.requestID, h.correlationID, h.Sender(), h.Receiver(),
                         None, Some(params), None, TariffArray)
  }

  function PageRequest(h: InboundHeaders, uid: string): OcpiRequestVariables {
    OcpiRequestVariables(Tariffs, Sender, Get, h.requestID, h.correlationID, h.Sender(), h.Receiver(),
                         Some(uid), None, None, TariffArray)
  }

  function ObjectRequest(h: InboundHeaders, httpMethod: HttpMethod, countryCode: string, partyID: string,
                         tariffID: string, body: Option<Payload>, expected: ResponseDataType): OcpiRequestVariables
  {
    OcpiRequestVariables(Tariffs, Receiver, httpMethod, h.requestID, h.correlationID, h.Sender(), h.Receiver(),
                         Some(ObjectPath(countryCode, partyID, tariffID)), None, body, expected)
  }

  // ---------------------------------------------------------------------------------------------
  // Sender interface

  /**
   * `GET /ocpi/sender/2.2/tariffs`: forward the list request; a `Link` in the reply is replaced
   * by this node's page route for a new proxy record of the caller and the data owner.
   */
  method GetTariffsFromDataOwner(svc: RoutingService, h: InboundHeaders, dateFrom: Option<string>,
                                 dateTo: Option<string>, offset: Option<int>, limit: Option<int>,
                                 requestID: Uuid, send: Outbound -> HttpResponse)
    returns (r: Result<Reply, RoutingError>)
    requires svc.Valid()
    modifies svc`proxyResources, svc`nextProxyID
    ensures svc.Valid()
    ensures ValidateSender(old(svc.Snapshot()), h.authorization, Some(h.Sender())).Fail? ==>
      r == Err(Unauthorized) && svc.proxyResources == old(svc.proxyResources)
    ensures r.Ok? ==> AnsweredBy(r.value, Descriptor(Tariffs, Sender, Get, h.Sender(), h.Receiver(), None,
                                                     Some(ListParameters(dateFrom, dateTo, offset, limit)), None,
                                                     TariffArray), send)
    ensures ListOutcome(svc, h.authorization, ListRequest(h, ListParameters(dateFrom, dateTo, offset, limit)),
                        requestID, send, r)
    ensures r.Ok? && "Link" in r.value.headers ==>
      && r.value.headers["Link"] == PageLink(svc.config.url, Tariffs, old(svc.nextProxyID))
      && old(svc.nextProxyID) in svc.proxyResources
      && svc.proxyResources[old(svc.nextProxyID)].sender == h.Sender()
      && svc.proxyResources[old(svc.nextProxyID)].receiver == h.Receiver()
  {
    r := ForwardList(svc, h.authorization, ListRequest(h, ListParameters(dateFrom, dateTo, offset, limit)),
                     requestID, send);
  }

  /**
   * `GET /ocpi/sender/2.2/tariffs/page/{uid}`: forward the request for the page saved under
   * `uid`; a page that was served successfully cannot be fetched a second time.
   */
  method GetTariffsPageFromDataOwner(svc: RoutingService, h: InboundHeaders, uid: string, requestID: Uuid,
                                     send: Outbound -> HttpResponse)
    returns (r: Result<Reply, RoutingError>)
    requires svc.Valid()
    modifies svc`proxyResources, svc`nextProxyID
    ensures svc.Valid()
    ensures ValidateSender(old(svc.Snapshot()), h.authorization, Some(h.Sender())).Fail? ==>
      r == Err(Unauthorized) && svc.proxyResources == old(svc.proxyResources)
    ensures r.Ok? ==> AnsweredBy(r.value, Descriptor(Tariffs, Sender, Get, h.Sender(), h.Receiver(), Some(uid), None,
                                                     None, TariffArray), send)
    ensures r.Ok? ==> ParseLong(uid).Some? && ParseLong(uid).value in old(svc.proxyResources)
    ensures PageOutcome(svc, h.authorization, PageRequest(h, uid), uid, requestID, send, r)
    ensures r.Ok? && Forward(old(svc.Snapshot()), svc.config, h.authorization, PageRequest(h, uid), true,
                             requestID, send).value.response.ocpiSuccess ==>
      ParseLong(uid).value !in svc.proxyResources
  {
    r := ForwardPage(svc, h.authorization, PageRequest(h, uid), uid, requestID, send);
  }

  // ---------------------------------------------------------------------------------------------
  // Receiver interface

  /** `GET /ocpi/receiver/2.2/tariffs/{country_code}/{party_id}/{tariff_id}`. */
  function GetClientOwnedTariff(s: Store, cfg: NodeConfig, h: InboundHeaders, countryCode: string, partyID: string,
                                tariffID: string, requestID: Uuid, send: Outbound -> HttpResponse)
    : (r: Result<Reply, RoutingError>)
    ensures ValidateSender(s, h.authorization, Some(h.Sender())).Fail? ==> r == Err(Unauthorized)
    ensures ValidateSender(s, h.authorization, Some(h.Sender())).Pass? && ValidateReceiver(s, cfg, h.Receiver()).Err? ==>
      r == Err(UnknownReceiver)
    ensures r.Ok? ==> r.value.headers == map[]
    ensures r.Ok? ==>
      AnsweredBy(r.value, Descriptor(Tariffs, Receiver, Get, h.Sender(), h.Receiver(),
                                     Some(ObjectPath(countryCode, partyID, tariffID)), None, None, TariffObject), send)
    ensures SingleOutcome(s, cfg, h.authorization,
                          ObjectRequest(h, Get, countryCode, partyID, tariffID, None, TariffObject),
                          requestID, send, r)
  {
    ForwardSingle(s, cfg, h.authorization, ObjectRequest(h, Get, countryCode, partyID, tariffID, None, TariffObject),
                  requestID, send)
  }

  /** `PUT /ocpi/receiver/2.2/tariffs/{country_code}/{party_id}/{tariff_id}`: the tariff travels as the body. */
  function PutClientOwnedTariff(s: Store, cfg: NodeConfig, h: InboundHeaders, countryCode: string, partyID: string,
                                tariffID: string, body: Payload, requestID: Uuid, send: Outbound -> HttpResponse)
    : (r: Result<Reply, RoutingError>)
    ensures ValidateSender(s, h.authorization, Some(h.Sender())).Fail? ==> r == Err(Unauthorized)
    ensures ValidateSender(s, h.authorization, Some(h.Sender())).Pass? && ValidateReceiver(s, cfg, h.Receiver()).Err? ==>
      r == Err(UnknownReceiver)
    ensures r.Ok? ==> r.value.headers == map[]
    ensures r.Ok? ==>
      AnsweredBy(r.value, Descriptor(Tariffs, Receiver, Put, h.Sender(), h.Receiver(),
                                     Some(ObjectPath(countryCode, partyID, tariffID)), None, Some(body), Nothing), send)
    ensures SingleOutcome(s, cfg, h.authorization,
                          ObjectRequest(h, Put, countryCode, partyID, tariffID, Some(body), Nothing),
                          requestID, send, r)
  {
    ForwardSingle(s, cfg, h.authorization, ObjectRequest(h, Put, countryCode, partyID, tariffID, Some(body), Nothing),
                  requestID, send)
  }

  /** `DELETE /ocpi/receiver/2.2/tariffs/{country_code}/{party_id}/{tariff_id}`. */
  function DeleteClientOwnedTariff(s: Store, cfg: NodeConfig, h: InboundHeaders, countryCode: string, partyID: string,
                                   tariffID: string, requestID: Uuid, send: Outbound -> HttpResponse)
    : (r: Result<Reply, RoutingError>)
    ensures ValidateSender(s, h.authorization, Some(h.Sender())).Fail? ==> r == Err(Unauthorized)
    ensures ValidateSender(s, h.authorization, Some(h.Sender())).Pass? && ValidateReceiver(s, cfg, h.Receiver()).Err? ==>
      r == Err(UnknownReceiver)
    ensures r.Ok? ==> r.value.headers == map[]
    ensures r.Ok? ==>
      AnsweredBy(r.value, Descriptor(Tariffs, Receiver, Delete, h.Sender(), h.Receiver(),
                                     Some(ObjectPath(countryCode, partyID, tariffID)), None, None, Nothing), send)
    ensures SingleOutcome(s, cfg, h.authorization,
                          ObjectRequest(h, Delete, countryCode, partyID, tariffID, None, Nothing),
                          requestID, send, r)
  {
    ForwardSingle(s, cfg, h.authorization, ObjectRequest(h, Delete, countryCode, partyID, tariffID, None, Nothing),
                  requestID, send)
  }
}
