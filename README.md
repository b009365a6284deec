# OCPI routing node — a Dafny model

This project models the routing core of an Open Charging Network node, a message router between
OCPI 2.2 parties (charge point operators, e-mobility service providers and others). A party calls
the node with its credentials token (tokenC) and names the sender and receiver roles in the
`OCPI-from-*` and `OCPI-to-*` headers. The node then does four things:

- It authenticates the caller.
- It classifies the receiver as LOCAL (a party connected to this node) or REMOTE (a party the
  on-chain registry places on a peer node).
- It forwards the request. A local call carries the receiver's own credentials (tokenB) and goes
  to the endpoint URL the receiver registered. A remote call is a signed envelope sent to the peer
  node.
- It hides downstream pagination links behind ids of its own ("proxy resources").

The model covers:

- the routing service's contract (`wrappers.dfy`, `tables.dfy`, `text.dfy`, `routing.dfy`);
- the persisted records and their defaults (`ocpi.dfy`, `entities.dfy`);
- the hub's list of local parties (`hub_client_info.dfy`);
- the shared handler flow (`dispatch.dfy`);
- the tariffs and tokens modules (`tariffs_controller.dfy`, `tokens_controller.dfy`);
- the routing service's worked examples, as lemmas over concrete tables (`scenarios.dfy`).

Lookups are functions over a snapshot of the tables (`Routing.Store`). The tables are sequences
in table order. The proxy table maps primary keys to records. `Routing.RoutingService` is a class
that owns the tables. It changes the proxy table in place (save, delete, rewrite pagination
headers) and keeps the invariant that each record sits under the id it was given. The list and
page handlers are module-level methods that take the service object and may change its proxy
table. The one-object handlers are functions of a snapshot.

Some collaborators are parameters rather than code:

- the registry lookup, JSON serialisation and signing (`Routing.NodeConfig`);
- the outbound HTTP transport (a function `send` from the prepared request to the response);
- fresh request ids and timestamps.

## Model

| member | source | states |
|---|---|---|
| Entities.NewWallet | src/main/kotlin/snc/openchargingnetwork/client/models/entities/Entities.kt:31-32 | the wallet row always has primary key 1 and keeps the given private key |
| Entities.NewAuth | src/main/kotlin/snc/openchargingnetwork/client/models/entities/Entities.kt:42-49 | new credentials hold only a 36-character tokenA; tokenB and tokenC are absent |
| Entities.NewPlatform | src/main/kotlin/snc/openchargingnetwork/client/models/entities/Entities.kt:36-40 | a new platform is PLANNED, stamped with the given time, has no versions URL, no id, and only a tokenA |
| Entities.NewCommandResponseUrl | src/main/kotlin/snc/openchargingnetwork/client/models/entities/Entities.kt:80-87 | a command's response URL is stored with the command type, uid and both parties, without an id |
| Text.ParseLong | src/test/kotlin/snc/openchargingnetwork/client/services/RoutingServiceTest.kt:262-270 | accepts exactly an optional sign followed by one or more digits whose value is within the range of a Long, and returns that signed value; a non-digit after the first character, or a first character that is neither digit nor sign, gives nothing |
| Text.NatToString | src/test/kotlin/snc/openchargingnetwork/client/services/RoutingServiceTest.kt:253-256 | an id is printed as a non-empty string of decimal digits |
| Text.DigitsValueOfNatToString | src/test/kotlin/snc/openchargingnetwork/client/services/RoutingServiceTest.kt:253-256 | reading back the printed digits gives the id |
| Text.ParseLongOfNatToString | src/test/kotlin/snc/openchargingnetwork/client/services/RoutingServiceTest.kt:253-270 | parsing a printed id (up to the largest Long) gives the id back: the page link's id can be looked up |
| Text.TokenStart | src/test/kotlin/snc/openchargingnetwork/client/services/RoutingServiceTest.kt:333-348 | the position after the header's last space; no space follows it |
| Text.ExtractToken | src/test/kotlin/snc/openchargingnetwork/client/services/RoutingServiceTest.kt:333-348 | the token is the header's longest space-free suffix |
| Text.ExtractTokenOfScheme | src/test/kotlin/snc/openchargingnetwork/client/services/RoutingServiceTest.kt:336-337 | the header `Token <value>` yields `<value>` |
| Routing.IsRoleKnown | src/test/kotlin/snc/openchargingnetwork/client/services/RoutingServiceTest.kt:287-292 | true exactly when some local role row names the party, comparing case-insensitively |
| Routing.IsRoleKnownOnNetwork | src/test/kotlin/snc/openchargingnetwork/client/services/RoutingServiceTest.kt:295-300 | true exactly when the registry lookup of the party's node URL would succeed; an empty URL means unknown |
| Routing.GetPlatformID | src/test/kotlin/snc/openchargingnetwork/client/services/RoutingServiceTest.kt:303-308 | succeeds exactly when a role row names the party (case-insensitively), and returns that row's platform; otherwise the receiver is unknown |
| Routing.GetRemoteClientUrl | src/test/kotlin/snc/openchargingnetwork/client/services/RoutingServiceTest.kt:325-330 | succeeds exactly when the registry has a non-empty URL for the party, and returns that URL |
| Routing.TokenOwner | src/test/kotlin/snc/openchargingnetwork/client/services/RoutingServiceTest.kt:333-338 | finds a platform whose tokenC is the token, and finds none exactly when no platform has it |
| Routing.Authenticate | src/test/kotlin/snc/openchargingnetwork/client/services/RoutingServiceTest.kt:333-348 | fails with Unauthorized unless some platform holds the token as tokenC and owns the claimed sender role; fails whenever no platform holds the token |
| Routing.ValidateSender | src/test/kotlin/snc/openchargingnetwork/client/services/RoutingServiceTest.kt:333-348 | the token after the header's last space must be some platform's tokenC, and that platform must own the claimed sender role; otherwise Unauthorized |
| Routing.AuthenticateComplete | src/test/kotlin/snc/openchargingnetwork/client/services/RoutingServiceTest.kt:341-348 | with unique tokenCs, passes exactly when a platform holding the token owns the sender role |
| Routing.AuthenticateAgrees | src/test/kotlin/snc/openchargingnetwork/client/services/RoutingServiceTest.kt:333-348 | authentication depends only on the platforms' tokenCs and ids and on the role table |
| Routing.AuthenticateIgnoresStatus | src/test/kotlin/snc/openchargingnetwork/client/services/RoutingServiceTest.kt:333-338 | changing a platform's connection status never changes an authentication outcome |
| Routing.NewPlatformAuthenticatesNobody | src/main/kotlin/snc/openchargingnetwork/client/models/entities/Entities.kt:36-49 | adding a freshly created platform (no tokenC) changes no authentication outcome |
| Routing.ValidateSenderOfTokenHeader | src/test/kotlin/snc/openchargingnetwork/client/services/RoutingServiceTest.kt:333-348 | the `Authorization` header `Token <value>` authenticates `<value>` |
| Routing.ValidateReceiver | src/test/kotlin/snc/openchargingnetwork/client/services/RoutingServiceTest.kt:351-365 | LOCAL exactly when the party is in the local role table; REMOTE exactly when it is not but the registry knows it; otherwise unknown receiver |
| Routing.GetPlatformEndpoint | src/test/kotlin/snc/openchargingnetwork/client/services/RoutingServiceTest.kt:311-322 | returns an endpoint of the platform for the module id and interface role; fails exactly when there is none |
| Routing.GetProxyResource | src/test/kotlin/snc/openchargingnetwork/client/services/RoutingServiceTest.kt:262-270 | succeeds exactly when the id parses to a stored key, and returns that record's resource |
| Routing.ProxyIdRoundTrip | src/test/kotlin/snc/openchargingnetwork/client/services/RoutingServiceTest.kt:262-270 | a record is found again through the decimal form of its key |
| Routing.LocalUrl | src/test/kotlin/snc/openchargingnetwork/client/services/RoutingServiceTest.kt:73-75 | the endpoint URL is followed by "/" and the path variables, or stands alone when there are none |
| Routing.FindPlatform | src/test/kotlin/snc/openchargingnetwork/client/services/RoutingServiceTest.kt:69-71 | returns a platform row with the given id; absent exactly when no row has it |
| Routing.PrepareLocalPlatformRequest | src/test/kotlin/snc/openchargingnetwork/client/services/RoutingServiceTest.kt:44-120 | succeeds exactly when the receiver's role is known, its URL resolves (the proxy record when proxied, else the platform's endpoint), its platform row exists and holds a tokenB; each failure (unknown receiver, unsupported module, proxy resource not found, platform not found, missing tokenB) is reported exactly in its case; a proxied URL is the stored resource verbatim, otherwise the endpoint plus path; `Token <tokenB>`; fresh request id; correlation id and both parties copied |
| Routing.LocalRequestIgnoresParameters | src/test/kotlin/snc/openchargingnetwork/client/services/RoutingServiceTest.kt:54-75 | query parameters never change the local URL or headers |
| Routing.LocalRequestNeedsTokenB | src/test/kotlin/snc/openchargingnetwork/client/services/RoutingServiceTest.kt:69-76 | when no row of the receiver's platform holds a tokenB, local preparation fails, and fails with "missing tokenB" once the URL and platform are found |
| Routing.PrepareRemotePlatformRequest | src/test/kotlin/snc/openchargingnetwork/client/services/RoutingServiceTest.kt:123-223 | succeeds exactly when the registry knows the receiver and a proxied lookup succeeds; addressed to the registry URL; fresh request id; signature over the envelope's serialisation; envelope carries the inbound ids, parties, path, parameters, body, expected type, and the proxy resource when proxied |
| Routing.PageLink | src/test/kotlin/snc/openchargingnetwork/client/services/RoutingServiceTest.kt:253-256 | the rewritten link starts with this node's URL and `/ocpi/sender/2.2/`, and the page id a caller reads back from it is the decimal form of the saved id |
| Routing.PageIdOf | src/test/kotlin/snc/openchargingnetwork/client/services/RoutingServiceTest.kt:253-256 | the page id is the text between the module's page route and `; rel="next"`; a link not of that form has none |
| Routing.ProxiedPageHeaders | src/test/kotlin/snc/openchargingnetwork/client/services/RoutingServiceTest.kt:239-258 | holds only Link, X-Limit and X-Total-Count; Link is this node's page link for the id; the two counts are copied exactly when present |
| Routing.RoutingService.constructor | src/test/kotlin/snc/openchargingnetwork/client/services/RoutingServiceTest.kt:30-42 | the service starts over the given tables with an empty proxy table and its invariant established |
| Routing.RoutingService.SetProxyResource | src/test/kotlin/snc/openchargingnetwork/client/services/RoutingServiceTest.kt:273-284 | saves one new record of the pair under a previously unused id, returns that id, changes nothing else, keeps the invariant |
| Routing.RoutingService.DeleteProxyResource | src/main/kotlin/snc/openchargingnetwork/node/controllers/ocpi/v2_2/TariffsController.kt:151-153 | removes exactly the record the id names; an id naming none leaves the table as it was (idempotent) |
| Routing.RoutingService.ProxyPaginationHeaders | src/test/kotlin/snc/openchargingnetwork/client/services/RoutingServiceTest.kt:226-259 | with a Link header: saves the whole link for the request's pair under the next id and returns the rewritten headers for that id; without one: saves nothing, returns no headers |
| Routing.PageLinkRoundTrip | src/test/kotlin/snc/openchargingnetwork/client/services/RoutingServiceTest.kt:246-270 | the page id read back from the link issued for a saved id finds exactly the saved downstream link |
| HubClientInfo.FindAllByPlatformID | src/main/kotlin/snc/openchargingnetwork/client/services/HubClientInfoService.kt:37 | returns only role rows of the platform, and every such row, never more rows than the table has; a platform without an id owns none |
| HubClientInfo.FindAllByPlatformIDAppend | src/main/kotlin/snc/openchargingnetwork/client/services/HubClientInfoService.kt:37 | the query keeps table order: a row added at the end comes last among the platform's rows, and only if it belongs to the platform |
| HubClientInfo.FindAllByPlatformIDLength | src/main/kotlin/snc/openchargingnetwork/client/services/HubClientInfoService.kt:37 | the query returns as many rows as the platform owns: no row is repeated or dropped |
| HubClientInfo.GetLocalList | src/main/kotlin/snc/openchargingnetwork/client/services/HubClientInfoService.kt:34-47 | the nested loop builds the list platform by platform, role by role (`LocalList`) |
| HubClientInfo.LocalListSound | src/main/kotlin/snc/openchargingnetwork/client/services/HubClientInfoService.kt:36-44 | every entry is the entry of a stored platform for one of its own role rows |
| HubClientInfo.LocalListComplete | src/main/kotlin/snc/openchargingnetwork/client/services/HubClientInfoService.kt:36-44 | every role row of every stored platform has its entry in the list |
| HubClientInfo.LocalListLength | src/main/kotlin/snc/openchargingnetwork/client/services/HubClientInfoService.kt:34-47 | the list has exactly one entry per (platform, owned role row) pair |
| HubClientInfo.LocalListStatusOfPlatform | src/main/kotlin/snc/openchargingnetwork/client/services/HubClientInfoService.kt:38-43 | every entry reports the status and last update of a stored platform with an id |
| Dispatch.ObjectPath | src/main/kotlin/snc/openchargingnetwork/node/controllers/ocpi/v2_2/TariffsController.kt:198 | the path is `/country/party/id`, and each part can be read back from it |
| Dispatch.Route | src/main/kotlin/snc/openchargingnetwork/node/controllers/ocpi/v2_2/TariffsController.kt:74-90 | unknown receiver fails; a local call exactly for a LOCAL receiver and a remote call exactly for a REMOTE one, each the prepared request; preparation errors pass through; the sent request conveys the handler's request |
| Dispatch.Forward | src/main/kotlin/snc/openchargingnetwork/node/controllers/ocpi/v2_2/TariffsController.kt:54-90 | a failed authentication stops the request with Unauthorized; otherwise the routed request is sent and its response kept, or the routing error returned |
| Dispatch.ProxiedForwardFoundResource | src/main/kotlin/snc/openchargingnetwork/node/controllers/ocpi/v2_2/TariffsController.kt:129-147 | a proxied request that was forwarded found its proxy resource |
| Dispatch.ProxiedRoute | src/main/kotlin/snc/openchargingnetwork/node/controllers/ocpi/v2_2/TariffsController.kt:129-147 | for a known receiver, a proxied request fails with "proxy resource not found" exactly when the lookup fails; otherwise the local URL or the envelope's proxy resource is the stored resource |
| Dispatch.ProxiedForwardNeedsPathVariables | src/main/kotlin/snc/openchargingnetwork/client/controllers/ocpi/v2_2/TokensController.kt:118-146 | a proxied request without path variables is never forwarded; if authenticated and for a known receiver, it fails with "proxy resource not found" |
| Dispatch.ForwardSingle | src/main/kotlin/snc/openchargingnetwork/node/controllers/ocpi/v2_2/TariffsController.kt:200-220 | succeeds exactly when the request is forwarded; a refusal is passed on as it is; the reply has the downstream status and body and no headers, and answers a request conveying the handler's request |
| Dispatch.ForwardList | src/main/kotlin/snc/openchargingnetwork/node/controllers/ocpi/v2_2/TariffsController.kt:74-99 | a refused request changes no proxy record and passes its error on; a forwarded list replies with the downstream status and body, and its Link header becomes exactly one new proxy record with the rewritten headers, every other record unchanged |
| Dispatch.ForwardPage | src/main/kotlin/snc/openchargingnetwork/node/controllers/ocpi/v2_2/TariffsController.kt:129-164 | a page is served only for a stored id; on OCPI success its record is deleted (single use) and new pagination headers issued; on failure nothing changes and no headers are returned |
| Dispatch.ConsumePage | src/main/kotlin/snc/openchargingnetwork/node/controllers/ocpi/v2_2/TariffsController.kt:151-158 | deletes the page's record and then rewrites the headers; a record that existed is gone afterwards |
| TariffsController.GetTariffsFromDataOwner | src/main/kotlin/snc/openchargingnetwork/node/controllers/ocpi/v2_2/TariffsController.kt:41-100 | an unauthenticated caller gets Unauthorized and nothing is saved; the reply answers a GET of the tariffs sender interface with the caller's date and paging parameters; a returned Link is this node's tariffs page link for a new record of the caller and receiver; a refused request changes nothing; a forwarded one replies with the downstream status and body, saves exactly one new proxy record for a returned Link (the downstream Link, every other record unchanged) and nothing otherwise |
| TariffsController.GetTariffsPageFromDataOwner | src/main/kotlin/snc/openchargingnetwork/node/controllers/ocpi/v2_2/TariffsController.kt:103-165 | answers a proxied GET with the page id as path; served only for a stored id; on an OCPI success the record is deleted and pagination headers rewritten, otherwise the proxy table is unchanged and the reply has no headers; a refused request changes nothing |
| TariffsController.GetClientOwnedTariff | src/main/kotlin/snc/openchargingnetwork/node/controllers/ocpi/v2_2/TariffsController.kt:172-221 | authentication and receiver failures are reported; the reply answers a receiver-interface GET of `/country/party/tariff_id` expecting one tariff, without headers. It succeeds exactly when the authenticated, routable request is forwarded, passes any refusal on unchanged, and replies with the downstream status and body. |
| TariffsController.PutClientOwnedTariff | src/main/kotlin/snc/openchargingnetwork/node/controllers/ocpi/v2_2/TariffsController.kt:224-275 | as above for a PUT carrying the tariff as body and expecting no data. It succeeds exactly when the authenticated, routable request is forwarded, passes any refusal on unchanged, and replies with the downstream status and body. |
| TariffsController.DeleteClientOwnedTariff | src/main/kotlin/snc/openchargingnetwork/node/controllers/ocpi/v2_2/TariffsController.kt:278-327 | as above for a DELETE without body, expecting no data. It succeeds exactly when the authenticated, routable request is forwarded, passes any refusal on unchanged, and replies with the downstream status and body. |
| TokensController.TypeParameter | src/main/kotlin/snc/openchargingnetwork/client/controllers/ocpi/v2_2/TokensController.kt:195-196 | the `type` parameter is always present: the caller's value, else RFID; no other parameter is set |
| TokensController.GetTokensFromDataOwner | src/main/kotlin/snc/openchargingnetwork/client/controllers/ocpi/v2_2/TokensController.kt:41-100 | as the tariffs list, for the tokens sender interface and tokens page links; a refused request changes nothing; a forwarded one replies with the downstream status and body, saves exactly one new proxy record for a returned Link (the downstream Link, every other record unchanged) and nothing otherwise |
| TokensController.PageFetchAsWrittenNeverForwards | src/main/kotlin/snc/openchargingnetwork/client/controllers/ocpi/v2_2/TokensController.kt:118-132 | the page request as built is never forwarded: an authenticated fetch for a known receiver always fails with "proxy resource not found" |
| TokensController.PageFetchUsesStoredPage | src/main/kotlin/snc/openchargingnetwork/client/controllers/ocpi/v2_2/TokensController.kt:103-146 | with the page id as path, a stored page never fails for want of a proxy resource, and the stored URL is what is called or enveloped |
| TokensController.GetTokensPageFromDataOwner | src/main/kotlin/snc/openchargingnetwork/client/controllers/ocpi/v2_2/TokensController.kt:103-164 | as the tariffs page handler, with the page id passed as path: on an OCPI success the record is deleted and pagination headers rewritten, otherwise the table is unchanged and the reply has no headers |
| TokensController.PostRealTimeTokenAuthorization | src/main/kotlin/snc/openchargingnetwork/client/controllers/ocpi/v2_2/TokensController.kt:167-220 | the reply answers a sender-interface POST of `token_uid/authorize` with the type parameter defaulting to RFID, the optional location references as body, expecting authorization info. It succeeds exactly when the authenticated, routable request is forwarded, passes any refusal on unchanged, and replies with the downstream status and body. |
| TokensController.GetClientOwnedToken | src/main/kotlin/snc/openchargingnetwork/client/controllers/ocpi/v2_2/TokensController.kt:227-279 | the reply answers a receiver-interface GET of `/country/party/token_uid` with the type defaulting to RFID, expecting one token. It succeeds exactly when the authenticated, routable request is forwarded, passes any refusal on unchanged, and replies with the downstream status and body. |
| TokensController.PutClientOwnedToken | src/main/kotlin/snc/openchargingnetwork/client/controllers/ocpi/v2_2/TokensController.kt:282-336 | as above for a PUT carrying the token, expecting no data. It succeeds exactly when the authenticated, routable request is forwarded, passes any refusal on unchanged, and replies with the downstream status and body. |
| TokensController.PatchClientOwnedToken | src/main/kotlin/snc/openchargingnetwork/client/controllers/ocpi/v2_2/TokensController.kt:339-393 | as above for a PATCH carrying the changed fields, expecting no data. It succeeds exactly when the authenticated, routable request is forwarded, passes any refusal on unchanged, and replies with the downstream status and body. |
| Scenarios.LocalRequestWithoutProxy | src/test/kotlin/snc/openchargingnetwork/client/services/RoutingServiceTest.kt:44-83 | the tokens request for `DE/SNC/abc123` goes to the tokens endpoint plus that path, with `Token 1234567890` and the copied routing headers |
| Scenarios.LocalRequestWithProxy | src/test/kotlin/snc/openchargingnetwork/client/services/RoutingServiceTest.kt:86-120 | the proxied request for id 67 goes to the stored CDR URL verbatim with `Token 0102030405` |
| Scenarios.TariffsPaginationHeaders | src/test/kotlin/snc/openchargingnetwork/client/services/RoutingServiceTest.kt:226-259 | a Link saved under id 74 becomes this node's `/ocpi/sender/2.2/tariffs/page/74` link; X-Limit 25 and X-Total-Count 148 pass through |
| Scenarios.SenderWithAuthAndRole | src/test/kotlin/snc/openchargingnetwork/client/services/RoutingServiceTest.kt:333-348 | `Token 0102030405` authenticates the still PLANNED platform 3 with or without its role; another token, or a role the platform does not own, fails |

## Left out

- HTTP transport, the registry call (a blocking call to a remote chain), JSON serialisation and signing are function parameters. Timeouts, transient registry errors and retries are not modelled.
- UUID generation, timestamps and private-key generation are parameters. The model does not prove that the fresh request id differs from the inbound one.
- Concurrency, JPA transactions and the database's uniqueness constraints are not modelled. Where a proof needs tokenC uniqueness, it is a precondition (`Routing.TokenCUnique`).
- Exceptions are modelled as `Err` values (`Routing.RoutingError`). Mapping them to OCPI status codes and HTTP statuses is not part of this model.
- Routing.GetProxyResource: looks up the record by id only and does not compare the stored sender and receiver with those of the request, as in the routing service's example, which mocks the lookup by id alone. So a caller holding another pair's page id is served that page; a lookup that also matched sender and receiver would refuse it, and the model does not promise that.
- Routing.Authenticate: does not check that the platform is CONNECTED. The routing service's example authenticates a platform with the default PLANNED status.
- Routing.PrepareLocalPlatformRequest: does not check the receiver platform's connection status either.
- Routing.RoutingService.SetProxyResource: ids come from an unbounded counter starting at 1. The 64-bit range of the database's Long ids is not modelled, and neither are ids skipped by a database sequence.
- Routing.RoutingService.DeleteProxyResource: deleting an id that names no record does nothing. The repository's `deleteById`, which may throw for a missing row, is not part of this model.
- Text.EqualsIgnoreCase and Text.ParseLong: case folding and digits are ASCII only. The database collation's case rules and Unicode digits are not modelled.
- Routing.LocalUrl: receiver-interface paths begin with "/", so the model's URL has "//" after the endpoint. The URL-joining helper of the routing service is not part of this model.
- Routing.RoutingService.ProxyPaginationHeaders: the whole `Link` header value, `; rel="next"` included, is saved as the proxy resource, as in the routing service's example (RoutingServiceTest.kt:239-250), and a proxied local call later uses that whole value as its URL. The value is not parsed down to its URL part, so the model does not promise that a proxied call goes to a well-formed URL.
- The expected response type of each handler's request (`TariffArray`, `TokenObject`, `AuthorizationInfo` and so on) is this model's own choice, read from what each endpoint returns. The source passes response classes that are not part of this model.
- The `isOcpiSuccess` verdict on a response is a boolean field of `Ocpi.HttpResponse`.
- The CDR and command-response-URL records are data only. No operation in the modelled files reads or writes them.
- The credentials handshake, which creates platforms and fills in tokens, is not part of this model.

## Findings

| source | as written | input that shows it | evidently intended | confidence | as-written member | corrected member |
|---|---|---|---|---|---|---|
| src/main/kotlin/snc/openchargingnetwork/client/controllers/ocpi/v2_2/TokensController.kt:118-126 | the tokens page request is built without path variables, so the proxied lookup has no id; `uid` is used only to delete the record afterwards | an authenticated fetch of `/ocpi/sender/2.2/tokens/page/1` for a known receiver, with record 1 stored, fails with "proxy resource not found" | pass `uid` as the path variables, as the tariffs page handler does (TariffsController.kt:127) | medium, not executed | TokensController.PageFetchAsWrittenNeverForwards | TokensController.PageFetchUsesStoredPage |
