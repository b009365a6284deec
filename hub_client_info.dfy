/**
 * The hub's list of the parties of this node: one entry per role of every stored platform,
 * whatever its status, carrying the role's identity and the platform's connection status.
 */
module HubClientInfo {
  import opened Wrappers
  import opened Tables
  import opened Ocpi
  import opened Entities

  /** An entry of the list. */
  datatype ClientInfo = ClientInfo(
    partyID: string,
    countryCode: string,
    role: Role,
    status: ConnectionStatus,
    lastUpdated: string)

  /**
   * `findAllByPlatformID`: the role rows of a platform, in table order. A platform that has no id
   * yet owns no rows.
   */
  function FindAllByPlatformID(roles: seq<RoleEntity>, platformID: Option<int>): (r: seq<RoleEntity>)
    ensures forall k :: 0 <= k < |r| ==> r[k] in roles && platformID == Some(r[k].platformID)
    ensures forall j :: 0 <= j < |roles| && platformID == Some(roles[j].platformID) ==> roles[j] in r
    ensures |r| <= |roles|
  {
    Filter(roles, Owner(platformID))
  }

  /** The test of `findAllByPlatformID`: the row belongs to the platform. */
  function Owner(platformID: Option<int>): RoleEntity -> bool {
    (row: RoleEntity) => platformID == Some(row.platformID)
  }

  /**
   * The query keeps table order: a role row added at the end of the table comes last among the
   * platform's rows, and only when it belongs to the platform.
   */
  lemma FindAllByPlatformIDAppend(roles: seq<RoleEntity>, row: RoleEntity, platformID: Option<int>)
    ensures FindAllByPlatformID(roles + [row], platformID)
         == FindAllByPlatformID(roles, platformID) + (if platformID == Some(row.platformID) then [row] else [])
  {
    FilterAppend(roles, row, Owner(platformID));
  }

  /** The number of role rows of a platform, counted row by row. */
  function OwnedRows(roles: seq<RoleEntity>, platformID: Option<int>): nat
    decreases |roles|
  {
    if roles == [] then 0
    else OwnedRows(roles[..|roles| - 1], platformID) + (if platformID == Some(roles[|roles| - 1].platformID) then 1 else 0)
  }

  /** The query returns each of the platform's rows once: as many rows as the platform owns. */
  lemma {:induction false} FindAllByPlatformIDLength(roles: seq<RoleEntity>, platformID: Option<int>)
    ensures |FindAllByPlatformID(roles, platformID)| == OwnedRows(roles, platformID)
    decreases |roles|
  {
    if roles != [] {
      var n := |roles| - 1;
      assert roles == roles[..n] + [roles[n]];
      FindAllByPlatformIDAppend(roles[..n], roles[n], platformID);
      FindAllByPlatformIDLength(roles[..n], platformID);
    }
  }

  /** The number of (platform, role row) pairs in which the row belongs to the platform. */
  function OwnedPairs(platforms: seq<PlatformEntity>, roles: seq<RoleEntity>): nat
    decreases |platforms|
  {
    if platforms == [] then 0
    else OwnedPairs(platforms[..|platforms| - 1], roles) + OwnedRows(roles, platforms[|platforms| - 1].id)
  }

  /** The entry for one role of a platform. */
  function ClientInfoOf(platform: PlatformEntity, row: RoleEntity): ClientInfo {
    ClientInfo(row.partyID, row.countryCode, row.role, platform.status, platform.lastUpdated)
  }

  /** The entries of one platform, one per role row it owns. */
  function Entries(platform: PlatformEntity, roles: seq<RoleEntity>): seq<ClientInfo> {
    var owned := FindAllByPlatformID(roles, platform.id);
    seq(|owned|, k requires 0 <= k < |owned| => ClientInfoOf(platform, owned[k]))
  }

  /** The list, platform by platform in table order. */
  function LocalList(platforms: seq<PlatformEntity>, roles: seq<RoleEntity>): seq<ClientInfo>
    decreases |platforms|
  {
    if platforms == [] then []
    else LocalList(platforms[..|platforms| - 1], roles) + Entries(platforms[|platforms| - 1], roles)
  }

  /** `getLocalList`: the nested loop over platforms and their roles. */
  method GetLocalList(platforms: seq<PlatformEntity>, roles: seq<RoleEntity>) returns (all: seq<ClientInfo>)
    ensures all == LocalList(platforms, roles)
  {
    all := [];
    var i := 0;
    while i < |platforms|
      invariant 0 <= i <= |platforms|
      invariant all == LocalList(platforms[..i], roles)
    {
      var platform := platforms[i];
      var owned := FindAllByPlatformID(roles, platform.id);
      ghost var before := all;
      var j := 0;
      while j < |owned|
        invariant 0 <= j <= |owned|
        invariant all == before + seq(j, k requires 0 <= k < j => ClientInfoOf(platform, owned[k]))
      {
        all := all + [ClientInfoOf(platform, owned[j])];
        j := j + 1;
      }
      assert platforms[..i + 1][..i] == platforms[..i];
      i := i + 1;
    }
    assert platforms[..i] == platforms;
  }

  /** Every entry is the entry of some platform for one of its own role rows. */
  lemma {:induction false} LocalListSound(platforms: seq<PlatformEntity>, roles: seq<RoleEntity>, e: nat)
    requires e < |LocalList(platforms, roles)|
    ensures exists i, j ::
              && 0 <= i < |platforms| && 0 <= j < |roles|
              && platforms[i].id == Some(roles[j].platformID)
              && LocalList(platforms, roles)[e] == ClientInfoOf(platforms[i], roles[j])
    decreases |platforms|
  {
    var n := |platforms| - 1;
    var prefix := LocalList(platforms[..n], roles);
    if e < |prefix| {
      LocalListSound(platforms[..n], roles, e);
      var i, j :| 0 <= i < n && 0 <= j < |roles| &&
        platforms[..n][i].id == Some(roles[j].platformID) && prefix[e] == ClientInfoOf(platforms[..n][i], roles[j]);
      assert platforms[..n][i] == platforms[i];
    } else {
      var owned := FindAllByPlatformID(roles, platforms[n].id);
      var k := e - |prefix|;
      assert LocalList(platforms, roles)[e] == ClientInfoOf(platforms[n], owned[k]);
      var j :| 0 <= j < |roles| && roles[j] == owned[k];
    }
  }

  /** Every role row of every platform has its entry in the list. */
  lemma {:induction false} LocalListComplete(platforms: seq<PlatformEntity>, roles: seq<RoleEntity>, i: nat, j: nat)
    requires i < |platforms| && j < |roles| && platforms[i].id == Some(roles[j].platformID)
    ensures ClientInfoOf(platforms[i], roles[j]) in LocalList(platforms, roles)
    decreases |platforms|
  {
    var n := |platforms| - 1;
    if i < n {
      LocalListComplete(platforms[..n], roles, i, j);
      assert platforms[..n][i] == platforms[i];
    } else {
      var owned := FindAllByPlatformID(roles, platforms[n].id);
      var k :| 0 <= k < |owned| && owned[k] == roles[j];
      assert Entries(platforms[n], roles)[k] == ClientInfoOf(platforms[i], roles[j]);
    }
  }

  /** The list has one entry per (platform, owned role row) pair: no entry is repeated or dropped. */
  lemma {:induction false} LocalListLength(platforms: seq<PlatformEntity>, roles: seq<RoleEntity>)
    ensures |LocalList(platforms, roles)| == OwnedPairs(platforms, roles)
    decreases |platforms|
  {
    if platforms != [] {
      var n := |platforms| - 1;
      LocalListLength(platforms[..n], roles);
      FindAllByPlatformIDLength(roles, platforms[n].id);
    }
  }

  /** Every entry reports the status and last update of a stored platform. */
  lemma {:induction false} LocalListStatusOfPlatform(platforms: seq<PlatformEntity>, roles: seq<RoleEntity>, e: nat)
    requires e < |LocalList(platforms, roles)|
    ensures exists i ::
              && 0 <= i < |platforms| && platforms[i].id.Some?
              && LocalList(platforms, roles)[e].status == platforms[i].status
              && LocalList(platforms, roles)[e].lastUpdated == platforms[i].lastUpdated
  {
    LocalListSound(platforms, roles, e);
  }
}
