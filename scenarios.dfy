/**
 * The routing service's documented examples, stated as lemmas over concrete tables: a local
 * tokens request, a proxied local request, header rewriting for a tariffs list, proxy
 * resources, and sender authentication.
 */
module Scenarios {
  import opened Wrappers
  import opened Text
  import opened Ocpi
  import opened Entities
  import opened Routing

  const Snc := BasicRole("SNC", "DE")
  const Abc := BasicRole("ABC", "CH")

  function CpoPlatform(id: int, tokenB: string, tokenC: string): PlatformEntity {
    PlatformEntity(Connected, "2019-01-01T00:00:00Z", None, Auth(None, Some(tokenB), Some(tokenC)), Some(id))
  }

  function AbcRole(platformID: int): RoleEntity {
    RoleEntity(platformID, Cpo, BusinessDetails("ABC Co", None), "ABC", "CH", Some(1))
  }

  function TokensRequest(requestID: string, correlationID: string, urlPathVariables: string, proxied: bool)
    : OcpiRequestVariables
  {
    OcpiRequestVariables(if proxied then Cdrs else Tokens, if proxied then Sender else Receiver, Get,
                         requestID, correlationID, Snc, Abc, Some(urlPathVariables),
                         if proxied then None else Some(OcpiRequestParameters(Some(AppUser), None, None, None, None)),
                         None, if proxied then CdrArray else TokenObject)
  }

  /**
   * A local tokens request for `DE/SNC/abc123` goes to the receiver's tokens endpoint followed by
   * the path, with the receiver platform's tokenB as credentials.
   */
  lemma LocalRequestWithoutProxy(requestID: Uuid, correlationID: string, tokenC: string)
    ensures
      var s := Store([CpoPlatform(6, "1234567890", tokenC)], [AbcRole(6)],
                     [EndpointEntity(6, "tokens", Receiver, "https://ocpi.cpo.com/2.2/tokens", Some(2))], map[]);
      var r := PrepareLocalPlatformRequest(s, TokensRequest("in", correlationID, "DE/SNC/abc123", false), false, requestID);
      && r.Ok?
      && r.value.url == "https://ocpi.cpo.com/2.2/tokens" + "/" + "DE/SNC/abc123"
      && r.value.headers == OcpiRequestHeaders(Some("Token " + "1234567890"), requestID, correlationID, "DE", "SNC", "CH", "ABC")
  {
    var s := Store([CpoPlatform(6, "1234567890", tokenC)], [AbcRole(6)],
                   [EndpointEntity(6, "tokens", Receiver, "https://ocpi.cpo.com/2.2/tokens", Some(2))], map[]);
    var req := TokensRequest("in", correlationID, "DE/SNC/abc123", false);
    assert RoleMatches(s.roles[0], Abc);
    assert GetPlatformID(s.roles, Abc) == Ok(6);
    assert IsEndpointFor(s.endpoints[0], 6, Tokens, Receiver);
    assert GetPlatformEndpoint(s.endpoints, 6, Tokens, Receiver) == Ok(s.endpoints[0]);
    assert FindPlatform(s.platforms, 6) == Some(s.platforms[0]);
  }

  /** A proxied request for id `67` goes to the URL saved under 67, verbatim. */
  lemma LocalRequestWithProxy(requestID: Uuid, correlationID: string, tokenC: string)
    ensures
      var s := Store([CpoPlatform(126, "0102030405", tokenC)], [AbcRole(126)], [],
                     map[67 := ProxyResourceEntity("https://cpo.com/cdrs?limit=20", Snc, Abc, Some(67))]);
      var r := PrepareLocalPlatformRequest(s, TokensRequest("in", correlationID, "67", true), true, requestID);
      && r.Ok?
      && r.value.url == "https://cpo.com/cdrs?limit=20"
      && r.value.headers.authorization == Some("Token " + "0102030405")
  {
    var s := Store([CpoPlatform(126, "0102030405", tokenC)], [AbcRole(126)], [],
                   map[67 := ProxyResourceEntity("https://cpo.com/cdrs?limit=20", Snc, Abc, Some(67))]);
    assert RoleMatches(s.roles[0], Abc);
    assert GetPlatformID(s.roles, Abc) == Ok(126);
    assert ParseLong("67") == Some(67) by {
      assert NatToString(67) == "67";
      ParseLongOfNatToString(67);
    }
    assert FindPlatform(s.platforms, 126) == Some(s.platforms[0]);
  }

  /**
   * A tariffs list reply whose `Link` was saved under id 74 gets this node's page route for 74,
   * with `X-Limit` and `X-Total-Count` passed through.
   */
  lemma TariffsPaginationHeaders()
    ensures
      var responseHeaders := map["Link" := "https://some.link.com/ocpi/tariffs?limit=25&offset=25; rel=\"next\"",
                                 "X-Limit" := "25", "X-Total-Count" := "148"];
      var h := ProxiedPageHeaders("https://some.client.ocn", Tariffs, responseHeaders, 74);
      && h["Link"] == "https://some.client.ocn" + "/ocpi/sender/2.2/" + "tariffs" + "/page/" + "74" + "; rel=\"next\""
      && h["X-Limit"] == "25" && h["X-Total-Count"] == "148"
  {
    assert NatToString(74) == "74";
    assert Tariffs.Id() == "tariffs";
  }

  /**
   * A platform as the handshake leaves it before connecting (status PLANNED), with id 3 and
   * tokenC `0102030405`.
   */
  function PlannedPlatform(timestamp: string, tokenA: Uuid): PlatformEntity {
    var p := NewPlatform(timestamp, tokenA);
    p.(id := Some(3), auth := p.auth.(tokenC := Some("0102030405")))
  }

  /**
   * The header `Token 0102030405` authenticates platform 3, which is still PLANNED, with or
   * without a role of that platform.
   */
  lemma SenderWithAuthAndRole(timestamp: string, tokenA: Uuid)
    ensures
      var s := Store([PlannedPlatform(timestamp, tokenA)],
                     [RoleEntity(3, Cpo, BusinessDetails("YUT Co", None), "YUT", "BE", Some(9))], [], map[]);
      && s.platforms[0].status == Planned
      && ValidateSender(s, "Token 0102030405", Some(BasicRole("YUT", "BE"))).Pass?
      && ValidateSender(s, "Token 0102030405", None).Pass?
      && ValidateSender(s, "Token 0102030406", None).Fail?
      && ValidateSender(s, "Token 0102030405", Some(BasicRole("YUT", "FR"))).Fail?
  {
    var s := Store([PlannedPlatform(timestamp, tokenA)],
                   [RoleEntity(3, Cpo, BusinessDetails("YUT Co", None), "YUT", "BE", Some(9))], [], map[]);
    ExtractTokenOfScheme("0102030405");
    ExtractTokenOfScheme("0102030406");
    assert OwnsRole(Some(3), s.roles[0], BasicRole("YUT", "BE"));
    assert !RoleMatches(s.roles[0], BasicRole("YUT", "FR")) by {
      assert Lower("BE")[1] != Lower("FR")[1];
    }
  }
}
