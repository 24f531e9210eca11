/** The device grants service: rows of grants, links and devices that every operation updates in one transaction. */
module DeviceGrants {
  import opened Money
  import opened DeviceGrantSpec
  import opened DeviceGrantSafety

  class DeviceGrantsService {
    var clock: int
    var requireGroup: bool
    var grants: map<nat, Grant>
    var links: map<nat, Link>
    var devices: map<nat, Device>

    ghost function Abs(): State
      reads this
    {
      State(clock, requireGroup, grants, links, devices)
    }

    ghost predicate Valid()
      reads this
    {
      Inv(Abs())
    }

    constructor (clock: int)
      ensures Valid() && Abs() == Empty(clock)
    {
      this.clock, requireGroup, grants, links, devices := clock, false, map[], map[], map[];
    }

    /** One link more for a grant. */
    method CreateLink(token: nat, grantId: nat, expiry: Expiry)
      modifies this`links
      ensures links == old(links)[token := Link(grantId, LinkExpiry(expiry, clock), None, None)]
    {
      links := links[token := Link(grantId, LinkExpiry(expiry, clock), None, None)];
    }

    method Create(c: Command) returns (outcome: Outcome)
      requires Valid() && c.Create? && Fresh(Abs(), c)
      modifies this
      ensures Valid() && Reply(Abs(), outcome) == CreateStep(old(Abs()), c)
    {
      CreateKeepsInv(Abs(), c);
      hide Inv;
      if !InFuture(c.expiresAt, clock) { return Rejected(BadRequest); }
      if c.groupId.Some? && !c.projectOk { return Rejected(BadRequest); }
      if !GroupOk(c.groupId, requireGroup, c.member) { return Rejected(Forbidden); }
      if !c.eligible { return Rejected(Inactive); }
      if !InFuture(c.linkExpiresAt, clock) { return Rejected(BadRequest); }
      grants := grants[c.grantId := NewGrant(c.accountId, c.groupId, GrantExpiry(c.expiresAt))];
      CreateLink(c.link, c.grantId, c.linkExpiresAt);
      outcome := Done;
    }

    method Regenerate(grantId: nat, token: nat, expiry: Expiry) returns (outcome: Outcome)
      requires Valid() && token !in links
      modifies this
      ensures Valid() && Reply(Abs(), outcome) == RegenerateStep(old(Abs()), grantId, token, expiry)
    {
      RegenerateKeepsInv(Abs(), grantId, token, expiry);
      hide Inv;
      if grantId !in grants { return Rejected(NotFound); }
      match GrantStatusAt(grants[grantId], clock) {
        case DELETED => return Rejected(GrantDeleted);
        case DISABLED => return Rejected(GrantDisabled);
        case EXPIRED => return Rejected(GrantExpired);
        case BOUND => return Rejected(GrantBound);
        case AVAILABLE =>
      }
      if !InFuture(expiry, clock) { return Rejected(BadRequest); }
      links := RevokeLive(links, grantId, clock);
      CreateLink(token, grantId, expiry);
      outcome := Done;
    }

    /** A new device for the grant, and the link used up. */
    method Bind(c: Command, link: Link, grant: Grant)
      requires c.Redeem?
      modifies this
      ensures Abs() == Bound(old(Abs()), c, link, grant)
    {
      devices := devices[c.deviceId := Device(grant.accountId, c.installationId, None)];
      grants := grants[link.grantId := grant.(deviceId := Some(c.deviceId), boundAt := Some(clock),
                                              redeemRetryUntil := Some(clock + RETRY_WINDOW))];
      links := links[c.link := link.(consumedAt := Some(clock))];
    }

    /** The bound device, if it is this installation's and still within the time to ask again. */
    method RetryingDevice(grant: Grant, installationId: nat) returns (deviceId: Option<nat>)
      ensures deviceId == if MayRetry(Abs(), grant, installationId) then grant.deviceId else None
      ensures deviceId.Some? || !MayRetry(Abs(), grant, installationId)
    {
      if grant.deviceId.None? || grant.deviceId.value !in devices { return None; }
      var device := devices[grant.deviceId.value];
      if device.installationId != installationId || device.revokedAt.Some?
         || grant.redeemRetryUntil.None? || grant.redeemRetryUntil.value <= clock {
        return None;
      }
      deviceId := grant.deviceId;
    }

    method Redeem(c: Command) returns (outcome: Outcome)
      requires Valid() && c.Redeem? && Fresh(Abs(), c)
      modifies this
      ensures Valid() && Reply(Abs(), outcome) == RedeemStep(old(Abs()), c)
    {
      RedeemKeepsInv(Abs(), c);
      hide Inv, LinkFailure, GrantFailure, GroupOk, InstallationInUse, MayRetry, Bound;
      if c.link !in links || links[c.link].grantId !in grants { return Rejected(InvalidLink); }
      var link := links[c.link];
      var grant := grants[link.grantId];
      if !GroupOk(grant.groupId, requireGroup, c.member) { return Rejected(Forbidden); }
      var linkFailure := LinkFailure(link, clock);
      if linkFailure.Some? && linkFailure.value != LinkConsumed { return Rejected(linkFailure.value); }
      var grantFailure := GrantFailure(grant, clock);
      if linkFailure.Some? {
        var device := RetryingDevice(grant, c.installationId);
        if device.None? { return Rejected(LinkConsumed); }
        if grantFailure.Some? { return Rejected(grantFailure.value); }
        if !c.eligible { return Rejected(Inactive); }
        return Redeemed(device.value);
      }
      if grantFailure.Some? { return Rejected(grantFailure.value); }
      if !c.eligible { return Rejected(Inactive); }
      if grant.deviceId.Some? { return Rejected(LinkConsumed); }
      if InstallationInUse(devices, c.installationId) { return Rejected(InvalidDevice); }
      Bind(c, link, grant);
      outcome := Redeemed(c.deviceId);
    }

    /** The lifecycle changes that need the grant's group to be in order. */
    method UpdateExpiration(grantId: nat, expiry: Expiry, member: bool) returns (outcome: Outcome)
      requires Valid()
      modifies this
      ensures Valid() && Reply(Abs(), outcome) == UpdateExpirationStep(old(Abs()), grantId, expiry, member)
    {
      AmendmentsKeepInv(Abs(), Command.UpdateExpiration(grantId, expiry, member));
      hide Inv;
      if expiry.Unspecified? || !InFuture(expiry, clock) { return Rejected(BadRequest); }
      if grantId !in grants || grants[grantId].deletedAt.Some? { return Rejected(NotFound); }
      if !GroupOk(grants[grantId].groupId, requireGroup, member) { return Rejected(Forbidden); }
      grants := grants[grantId := grants[grantId].(expiresAt := GrantExpiry(expiry))];
      outcome := Done;
    }

    method Enable(grantId: nat, member: bool) returns (outcome: Outcome)
      requires Valid()
      modifies this
      ensures Valid() && Reply(Abs(), outcome) == EnableStep(old(Abs()), grantId, member)
    {
      AmendmentsKeepInv(Abs(), Command.Enable(grantId, member));
      hide Inv;
      if grantId !in grants || grants[grantId].deletedAt.Some? { return Rejected(NotFound); }
      if !GroupOk(grants[grantId].groupId, requireGroup, member) { return Rejected(Forbidden); }
      grants := grants[grantId := grants[grantId].(disabledAt := None)];
      outcome := Done;
    }

    method Disable(grantId: nat) returns (outcome: Outcome)
      requires Valid()
      modifies this
      ensures Valid() && Reply(Abs(), outcome) == DisableStep(old(Abs()), grantId)
    {
      DisableKeepsInv(Abs(), grantId);
      hide Inv;
      if grantId !in grants || grants[grantId].deletedAt.Some? { return Rejected(NotFound); }
      grants := grants[grantId := grants[grantId].(disabledAt := Some(clock))];
      links := RevokeLive(links, grantId, clock);
      outcome := Done;
    }

    method Delete(grantId: nat) returns (outcome: Outcome)
      requires Valid()
      modifies this
      ensures Valid() && Reply(Abs(), outcome) == DeleteStep(old(Abs()), grantId)
    {
      RemovalKeepsInv(Abs(), grantId);
      hide Inv;
      if grantId !in grants || grants[grantId].deletedAt.Some? { return Rejected(NotFound); }
      var grant := grants[grantId];
      grants := grants[grantId := grant.(deletedAt := Some(clock))];
      links := RevokeLive(links, grantId, clock);
      if grant.deviceId.Some? && grant.deviceId.value in devices {
        devices := devices[grant.deviceId.value := devices[grant.deviceId.value].(revokedAt := Some(clock))];
      }
      outcome := Done;
    }

    method SetGroupRequirement(required: bool) returns (outcome: Outcome)
      requires Valid()
      modifies this
      ensures Valid() && Reply(Abs(), outcome) == SetGroupRequirementStep(old(Abs()), required)
    {
      PolicyAndTimeKeepInv(Abs(), Command.SetGroupRequirement(required));
      hide Inv;
      if required && exists id :: id in grants && grants[id].groupId.None? && Effective(grants[id], clock) {
        return Rejected(Conflict);
      }
      requireGroup := required;
      outcome := Done;
    }

    /** All mappings take effect or none does; a dry run assigns none and answers the same. */
    method AssignGroups(mappings: seq<Mapping>, dryRun: bool) returns (outcome: Outcome)
      requires Valid()
      modifies this
      ensures Valid() && Reply(Abs(), outcome) == AssignGroupsStep(old(Abs()), mappings, dryRun)
    {
      var sorted := SortMappings(mappings);
      AssignKeepsInv(Abs(), sorted, dryRun);
      hide Inv, MappingFailure, SortMappings, DistinctGrants;
      if mappings == [] || |mappings| > 1000 || !DistinctGrants(mappings) { return Rejected(BadRequest); }
      if exists m :: m in mappings && !m.groupExists { return Rejected(NotFound); }
      var rows: map<nat, Grant> := grants;
      ghost var before := Abs();
      var i := 0;
      while i < |sorted|
        invariant 0 <= i <= |sorted| && Abs() == before
        invariant AssignAll(before.(grants := rows), sorted[i..], dryRun) == AssignAll(before, sorted, dryRun)
      {
        var m := sorted[i];
        var failure := MappingFailure(State(clock, requireGroup, rows, links, devices), m);
        assert sorted[i..][1..] == sorted[i + 1..];
        if failure.Some? { return Rejected(failure.value); }
        if !dryRun && m.grantId in rows { rows := rows[m.grantId := rows[m.grantId].(groupId := Some(m.groupId))]; }
        i := i + 1;
      }
      grants := rows;
      outcome := Done;
    }
  }
}
