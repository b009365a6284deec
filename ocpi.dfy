/**
 * OCPI 2.2 value types the router handles: parties, modules, interface roles, the request
 * descriptor built by the handlers, the outbound header records and the signed envelope sent to
 * peer nodes. Module payloads (tariffs, tokens, location references, patches) are opaque JSON.
 */
module Ocpi {
  import opened Wrappers

  /** A party on the network: OCPI party id and ISO country code. */
  datatype BasicRole = BasicRole(id: string, country: string)

  datatype ModuleID = Cdrs | Sessions | Tariffs | Tokens {
    /** The module identifier used in endpoint records and in URL paths. */
    function Id(): string {
      match this
      case Cdrs => "cdrs"
      case Sessions => "sessions"
      case Tariffs => "tariffs"
      case Tokens => "tokens"
    }
  }

  datatype InterfaceRole = Sender | Receiver

  datatype HttpMethod = Get | Post | Put | Patch | Delete

  datatype ConnectionStatus = Connected | Offline | Planned | Suspended

  /** OCPI 2.2 business roles of a party. */
  datatype Role = Cpo | Emsp | Hub | Nap | Nsp | OtherRole | Scsp

  datatype TokenType = AdHocUser | AppUser | OtherToken | Rfid

  datatype CommandType = CancelReservation | ReserveNow | StartSession | StopSession | UnlockConnector

  datatype BusinessDetails = BusinessDetails(name: string, website: Option<string>)

  /** How the reply to a forwarded request is to be deserialised. */
  datatype ResponseDataType =
    | Nothing | TariffObject | TariffArray | TokenObject | TokenArray
    | AuthorizationInfo | CdrArray | SessionArray

  /** An OCPI module object, carried unread by the router. */
  datatype Payload = Payload(json: string)

  /** Query parameters a handler forwards (`type`, `date_from`, `date_to`, `offset`, `limit`). */
  datatype OcpiRequestParameters = OcpiRequestParameters(
    tokenType: Option<TokenType>,
    dateFrom: Option<string>,
    dateTo: Option<string>,
    offset: Option<int>,
    limit: Option<int>)

  /** What a handler asks the routing service to forward. */
  datatype OcpiRequestVariables = OcpiRequestVariables(
    moduleID: ModuleID,
    interfaceRole: InterfaceRole,
    httpMethod: HttpMethod,
    requestID: string,
    correlationID: string,
    sender: BasicRole,
    receiver: BasicRole,
    urlPathVariables: Option<string>,
    urlEncodedParams: Option<OcpiRequestParameters>,
    body: Option<Payload>,
    expectedResponseType: ResponseDataType)

  /** OCPI transport headers: `Authorization`, `X-Request-ID`, `X-Correlation-ID`, `OCPI-from/to-*`. */
  datatype OcpiRequestHeaders = OcpiRequestHeaders(
    authorization: Option<string>,
    requestID: string,
    correlationID: string,
    ocpiFromCountryCode: string,
    ocpiFromPartyID: string,
    ocpiToCountryCode: string,
    ocpiToPartyID: string)

  /** Transport headers of a message to a peer node. */
  datatype OcnMessageHeaders = OcnMessageHeaders(requestID: string, signature: string)

  /** The envelope a peer node receives; its serialisation is what the signature covers. */
  datatype OcnMessageRequestBody = OcnMessageRequestBody(
    httpMethod: HttpMethod,
    interfaceRole: InterfaceRole,
    moduleID: ModuleID,
    headers: OcpiRequestHeaders,
    urlPathVariables: Option<string>,
    urlEncodedParameters: Option<OcpiRequestParameters>,
    proxyResource: Option<string>,
    body: Option<Payload>,
    expectedResponseType: ResponseDataType)

  /** What the outbound transport returns; `ocpiSuccess` is the verdict of `isOcpiSuccess`. */
  datatype HttpResponse = HttpResponse(
    statusCode: int,
    headers: map<string, string>,
    body: Option<Payload>,
    ocpiSuccess: bool)
}
