/**
 * The persistent records of the node and the values a freshly constructed record starts with.
 * Every field of these records is mutable in the source; here a record is a value and the store
 * that holds it (see Routing.RoutingService) replaces it. An absent `id` is a row the store has not
 * assigned an id to yet.
 */
module Entities {
  import opened Wrappers
  import opened Text
  import opened Ocpi

  /** The node's wallet: a single row holding the signing key. */
  datatype WalletEntity = WalletEntity(privateKey: string, id: Option<int>)

  function NewWallet(privateKey: string): (w: WalletEntity)
    ensures w.privateKey == privateKey && w.id == Some(1)
  {
    WalletEntity(privateKey, Some(1))
  }

  /**
   * Credentials of one connection. tokenA: issued by the node's admin, used to register;
   * tokenB: issued by the party, the node presents it on the party's server;
   * tokenC: issued by the node, the party presents it on the node's server.
   */
  datatype Auth = Auth(tokenA: Option<string>, tokenB: Option<string>, tokenC: Option<string>)

  function NewAuth(tokenA: Uuid): (a: Auth)
    ensures a.tokenA == Some(tokenA) && |a.tokenA.value| == 36
    ensures a.tokenB.None? && a.tokenC.None?
  {
    Auth(Some(tokenA), None, None)
  }

  /** A locally registered connection. */
  datatype PlatformEntity = PlatformEntity(
    status: ConnectionStatus,
    lastUpdated: string,
    versionsUrl: Option<string>,
    auth: Auth,
    id: Option<int>)

  /** A platform as first created: planned, no versions URL, fresh credentials, no id yet. */
  function NewPlatform(timestamp: string, tokenA: Uuid): (p: PlatformEntity)
    ensures p.status == Planned && p.lastUpdated == timestamp && p.versionsUrl.None?
    ensures p.auth.tokenA == Some(tokenA) && p.auth.tokenB.None? && p.auth.tokenC.None?
    ensures p.id.None?
  {
    PlatformEntity(Planned, timestamp, None, NewAuth(tokenA), None)
  }

  /** A business role played by exactly one platform (the one whose id is `platformID`). */
  datatype RoleEntity = RoleEntity(
    platformID: int,
    role: Role,
    businessDetails: BusinessDetails,
    partyID: string,
    countryCode: string,
    id: Option<int>)

  /** An endpoint of a platform for one module and interface role. */
  datatype EndpointEntity = EndpointEntity(
    platformID: int,
    identifier: string,
    role: InterfaceRole,
    url: string,
    id: Option<int>)

  /** Where a CDR is stored, with the party that owns it and the party that created it. */
  datatype CdrEntity = CdrEntity(
    cdrID: string,
    ownerID: string,
    ownerCountry: string,
    creatorID: string,
    creatorCountry: string,
    location: string,
    id: Option<int>)

  /** The response URL of an asynchronous command, bound to the command and its two parties. */
  datatype CommandResponseUrlEntity = CommandResponseUrlEntity(
    url: string,
    commandType: CommandType,
    uid: string,
    senderID: string,
    senderCountry: string,
    receiverID: string,
    receiverCountry: string,
    id: Option<int>)

  function NewCommandResponseUrl(url: string, commandType: CommandType, uid: string,
                                 sender: BasicRole, receiver: BasicRole): (e: CommandResponseUrlEntity)
    ensures e.url == url && e.commandType == commandType && e.uid == uid
    ensures BasicRole(e.senderID, e.senderCountry) == sender
    ensures BasicRole(e.receiverID, e.receiverCountry) == receiver
    ensures e.id.None?
  {
    CommandResponseUrlEntity(url, commandType, uid, sender.id, sender.country, receiver.id, receiver.country, None)
  }

  /** A downstream resource (a page link) hidden behind a node-issued id. */
  datatype ProxyResourceEntity = ProxyResourceEntity(
    resource: string,
    sender: BasicRole,
    receiver: BasicRole,
    id: Option<int>)
}
