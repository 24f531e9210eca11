/** What holds of grants, links and devices in every reachable state, and between any two of them. */
module DeviceGrantSafety {
  import opened Money
  import opened DeviceGrantSpec

  type Grants = map<nat, Grant>
  type Links = map<nat, Link>
  type Devices = map<nat, Device>

  /** Nothing may be redeemed on the grant any more, at least for now. */
  predicate Settled(g: Grant) {
    g.deviceId.Some? || g.disabledAt.Some? || g.deletedAt.Some?
  }

  /** A link belongs to a grant; a consumed one has bound it, and a live one belongs to an open grant. */
  predicate LinkOk(l: Link, grants: Grants) {
    && l.grantId in grants
    && (l.consumedAt.Some? ==> grants[l.grantId].deviceId.Some?)
    && (Live(l) ==> !Settled(grants[l.grantId]))
  }

  predicate LinksOk(links: Links, grants: Grants) {
    forall k :: k in links ==> LinkOk(links[k], grants)
  }

  /** At most one live link and at most one consumed link per grant. */
  predicate OneEach(links: Links) {
    forall a, b | a in links && b in links && links[a].grantId == links[b].grantId ::
      && (Live(links[a]) && Live(links[b]) ==> a == b)
      && (links[a].consumedAt.Some? && links[b].consumedAt.Some? ==> a == b)
  }

  /** A bound grant's device exists, and is revoked once the grant is deleted. */
  predicate DeviceOk(g: Grant, devices: Devices) {
    g.deviceId.Some? ==>
      g.deviceId.value in devices && (g.deletedAt.Some? ==> devices[g.deviceId.value].revokedAt.Some?)
  }

  predicate GrantsOk(grants: Grants, devices: Devices) {
    forall id :: id in grants ==> DeviceOk(grants[id], devices)
  }

  predicate OwnDevices(grants: Grants) {
    forall a, b :: a in grants && b in grants && grants[a].deviceId.Some? && grants[a].deviceId == grants[b].deviceId ==> a == b
  }

  /** At most one unrevoked device per installation. */
  predicate OneActive(devices: Devices) {
    forall a, b | a in devices && b in devices && devices[a].revokedAt.None? && devices[b].revokedAt.None? ::
      devices[a].installationId == devices[b].installationId ==> a == b
  }

  /** While groups are required, an ungrouped grant is deleted, disabled or expired. */
  predicate GroupsOk(requireGroup: bool, clock: int, grants: Grants) {
    requireGroup ==> forall id :: id in grants && grants[id].groupId.None? ==> !Effective(grants[id], clock)
  }

  predicate Inv(s: State) {
    && LinksOk(s.links, s.grants) && OneEach(s.links)
    && GrantsOk(s.grants, s.devices) && OwnDevices(s.grants) && OneActive(s.devices)
    && GroupsOk(s.requireGroup, s.clock, s.grants)
  }

  function Empty(clock: int): State {
    State(clock, false, map[], map[], map[])
  }

  // ----- revoking links

  /** Some links may have been revoked, and none of the grant is live any more. */
  predicate Quieted(links: Links, after: Links, grantId: nat) {
    && after.Keys == links.Keys
    && forall k :: k in links ==>
         after[k].grantId == links[k].grantId && after[k].consumedAt == links[k].consumedAt
         && (Live(after[k]) ==> Live(links[k]) && links[k].grantId != grantId)
  }

  lemma RevokingQuiets(links: Links, grantId: nat, now: int)
    ensures Quieted(links, RevokeLive(links, grantId, now), grantId)
    ensures Quieted(links, RevokeAll(links, grantId, now), grantId)
  {
  }

  lemma QuietedOneEach(links: Links, after: Links, grantId: nat)
    requires OneEach(links) && Quieted(links, after, grantId)
    ensures OneEach(after)
  {
  }

  /** With its links quieted a grant may change in any way that keeps its device. */
  lemma QuietedLinksOk(links: Links, after: Links, grants: Grants, grantId: nat, g: Grant)
    requires LinksOk(links, grants) && Quieted(links, after, grantId) && grantId in grants
    requires g.deviceId == grants[grantId].deviceId
    ensures LinksOk(after, grants[grantId := g])
  {
    forall k | k in after ensures LinkOk(after[k], grants[grantId := g]) { assert LinkOk(links[k], grants); }
  }

  /** A change that settles nothing leaves the links in order. */
  lemma SameLinksOk(links: Links, grants: Grants, grantId: nat, g: Grant)
    requires LinksOk(links, grants) && grantId in grants
    requires g.deviceId == grants[grantId].deviceId && (Settled(g) ==> Settled(grants[grantId]))
    ensures LinksOk(links, grants[grantId := g])
  {
    forall k | k in links ensures LinkOk(links[k], grants[grantId := g]) { assert LinkOk(links[k], grants); }
  }

  lemma IssueOneEach(links: Links, k: nat, l: Link)
    requires OneEach(links) && k !in links && l.consumedAt.None?
    requires forall j :: j in links && links[j].grantId == l.grantId ==> !Live(links[j])
    ensures OneEach(links[k := l])
  {
  }

  lemma IssueLinksOk(links: Links, grants: Grants, k: nat, l: Link)
    requires LinksOk(links, grants) && k !in links && LinkOk(l, grants)
    ensures LinksOk(links[k := l], grants)
  {
  }

  // ----- changing a grant

  lemma SameDevice(grants: Grants, devices: Devices, grantId: nat, g: Grant)
    requires GrantsOk(grants, devices) && OwnDevices(grants) && grantId in grants
    requires g.deviceId == grants[grantId].deviceId && (g.deletedAt.Some? ==> grants[grantId].deletedAt.Some?)
    ensures GrantsOk(grants[grantId := g], devices) && OwnDevices(grants[grantId := g])
  {
    assert DeviceOk(grants[grantId], devices);
  }

  lemma DeletedDevice(grants: Grants, devices: Devices, grantId: nat, g: Grant, now: int)
    requires GrantsOk(grants, devices) && OwnDevices(grants) && OneActive(devices) && grantId in grants
    requires g.deviceId == grants[grantId].deviceId
    ensures var after := RevokeDevice(devices, g.deviceId, now);
            GrantsOk(grants[grantId := g], after) && OwnDevices(grants[grantId := g]) && OneActive(after)
  {
    var after := RevokeDevice(devices, g.deviceId, now);
    forall id | id in grants ensures DeviceOk(grants[grantId := g][id], after) {
      assert DeviceOk(grants[id], devices);
    }
  }

  lemma RegroupedOk(requireGroup: bool, clock: int, grants: Grants, grantId: nat, g: Grant)
    requires GroupsOk(requireGroup, clock, grants)
    requires requireGroup && g.groupId.None? ==> !Effective(g, clock)
    ensures GroupsOk(requireGroup, clock, grants[grantId := g])
  {
    hide Effective;
  }

  // ----- every operation keeps the invariant

  lemma UngroupedIsOver(s: State, grantId: nat)
    requires Inv(s) && grantId in s.grants && s.requireGroup && s.grants[grantId].groupId.None?
    ensures !Effective(s.grants[grantId], s.clock)
  {
    hide LinksOk, OneEach, GrantsOk, OwnDevices, OneActive, Effective;
  }

  lemma CreateKeepsInv(s: State, c: Command)
    requires Inv(s) && c.Create? && Fresh(s, c)
    ensures Inv(CreateStep(s, c).state)
  {
    var after := CreateStep(s, c).state;
    if after != s {
      var grant, link := after.grants[c.grantId], after.links[c.link];
      forall k | k in s.links ensures LinkOk(s.links[k], after.grants) && s.links[k].grantId != c.grantId {
        assert LinkOk(s.links[k], s.grants);
      }
      hide LinkOk, Live;
      assert LinksOk(s.links, after.grants);
      assert LinkOk(link, after.grants) by { NewLinkOk(after.grants, link); }
      hide LinksOk, OneEach, OneActive, GroupsOk;
      IssueLinksOk(s.links, after.grants, c.link, link);
      IssueOneEach(s.links, c.link, link);
      RegroupedOk(s.requireGroup, s.clock, s.grants, c.grantId, grant);
    }
  }

  lemma NewLinkOk(grants: Grants, l: Link)
    requires l.grantId in grants && !Settled(grants[l.grantId]) && l.consumedAt.None?
    ensures LinkOk(l, grants)
  {
  }

  lemma RegenerateKeepsInv(s: State, grantId: nat, link: nat, expiry: Expiry)
    requires Inv(s) && link !in s.links
    ensures Inv(RegenerateStep(s, grantId, link, expiry).state)
  {
    var after := RegenerateStep(s, grantId, link, expiry).state;
    if after != s {
      var quieted := RevokeLive(s.links, grantId, s.clock);
      RevokingQuiets(s.links, grantId, s.clock);
      assert s.grants[grantId := s.grants[grantId]] == s.grants;
      NewLinkOk(s.grants, after.links[link]);
      hide LinksOk, OneEach, GrantsOk, OwnDevices, OneActive, GroupsOk, RevokeLive, RevokeAll;
      QuietedOneEach(s.links, quieted, grantId);
      QuietedLinksOk(s.links, quieted, s.grants, grantId, s.grants[grantId]);
      IssueOneEach(quieted, link, after.links[link]);
      IssueLinksOk(quieted, s.grants, link, after.links[link]);
    }
  }

  /** Binding settles the grant: its one live link is the one that is used up. */
  lemma BoundLinksOk(links: Links, grants: Grants, k: nat, l: Link, g: Grant)
    requires LinksOk(links, grants) && OneEach(links) && k in links && Live(links[k]) && links[k].grantId in grants
    requires l.grantId == links[k].grantId && l.consumedAt.Some? && g.deviceId.Some? && grants[l.grantId].deviceId.None?
    ensures LinksOk(links[k := l], grants[l.grantId := g]) && OneEach(links[k := l])
  {
    forall j | j in links && j != k ensures LinkOk(links[j], grants[l.grantId := g]) { assert LinkOk(links[j], grants); }
  }

  lemma BoundDevicesOk(grants: Grants, devices: Devices, grantId: nat, g: Grant, deviceId: nat, d: Device)
    requires GrantsOk(grants, devices) && OwnDevices(grants) && OneActive(devices)
    requires deviceId !in devices && g.deviceId == Some(deviceId) && g.deletedAt.None?
    requires !InstallationInUse(devices, d.installationId)
    ensures var after := devices[deviceId := d];
            GrantsOk(grants[grantId := g], after) && OwnDevices(grants[grantId := g]) && OneActive(after)
  {
    forall id | id in grants && grants[id].deviceId.Some? ensures grants[id].deviceId.value in devices {
      assert DeviceOk(grants[id], devices);
    }
  }

  lemma RedeemKeepsInv(s: State, c: Command)
    requires Inv(s) && c.Redeem? && Fresh(s, c)
    ensures Inv(RedeemStep(s, c).state)
  {
    var after := RedeemStep(s, c).state;
    if after != s {
      var link := s.links[c.link];
      var grant := after.grants[link.grantId];
      assert Live(link) && s.grants[link.grantId].deviceId.None?;
      if s.requireGroup && grant.groupId.None? { UngroupedIsOver(s, link.grantId); }
      hide LinksOk, OneEach, GrantsOk, OwnDevices, OneActive, GroupsOk, InstallationInUse;
      BoundLinksOk(s.links, s.grants, c.link, after.links[c.link], grant);
      BoundDevicesOk(s.grants, s.devices, link.grantId, grant, c.deviceId, after.devices[c.deviceId]);
      RegroupedOk(s.requireGroup, s.clock, s.grants, link.grantId, grant);
    }
  }

  /** Changes that leave device, deletion and group alone and do not settle the grant. */
  lemma AmendKeepsInv(s: State, grantId: nat, g: Grant)
    requires Inv(s) && grantId in s.grants
    requires var was := s.grants[grantId];
             g.deviceId == was.deviceId && g.deletedAt == was.deletedAt && (g.disabledAt.Some? ==> was.disabledAt.Some?)
    requires s.requireGroup && g.groupId.None? ==> !Effective(g, s.clock)
    ensures Inv(WithGrant(s, grantId, g))
  {
    hide LinksOk, OneEach, GrantsOk, OwnDevices, OneActive, GroupsOk;
    SameLinksOk(s.links, s.grants, grantId, g);
    SameDevice(s.grants, s.devices, grantId, g);
    RegroupedOk(s.requireGroup, s.clock, s.grants, grantId, g);
  }

  lemma DisableKeepsInv(s: State, grantId: nat)
    requires Inv(s)
    ensures Inv(DisableStep(s, grantId).state)
  {
    var after := DisableStep(s, grantId).state;
    if after != s {
      RevokingQuiets(s.links, grantId, s.clock);
      hide LinksOk, OneEach, GrantsOk, OwnDevices, OneActive, GroupsOk, RevokeLive, RevokeAll;
      QuietedOneEach(s.links, after.links, grantId);
      QuietedLinksOk(s.links, after.links, s.grants, grantId, after.grants[grantId]);
      SameDevice(s.grants, s.devices, grantId, after.grants[grantId]);
      RegroupedOk(s.requireGroup, s.clock, s.grants, grantId, after.grants[grantId]);
    }
  }

  /** Deleting a grant, with its links quieted and its device revoked. */
  lemma DeletedKeepsInv(s: State, grantId: nat, links: Links)
    requires Inv(s) && Exists(s, grantId) && Quieted(s.links, links, grantId)
    ensures var g := s.grants[grantId];
            Inv(WithGrant(s, grantId, g.(deletedAt := Some(s.clock))).(
                  links := links, devices := RevokeDevice(s.devices, g.deviceId, s.clock)))
  {
    var g := s.grants[grantId].(deletedAt := Some(s.clock));
    hide LinksOk, OneEach, GrantsOk, OwnDevices, OneActive, GroupsOk, RevokeDevice, Quieted;
    QuietedOneEach(s.links, links, grantId);
    QuietedLinksOk(s.links, links, s.grants, grantId, g);
    DeletedDevice(s.grants, s.devices, grantId, g, s.clock);
    RegroupedOk(s.requireGroup, s.clock, s.grants, grantId, g);
  }

  lemma RemovalKeepsInv(s: State, grantId: nat)
    requires Inv(s)
    ensures Inv(DeleteStep(s, grantId).state) && Inv(RevokeCredentialStep(s, grantId).state)
  {
    if Exists(s, grantId) {
      RevokingQuiets(s.links, grantId, s.clock);
      hide Inv, RevokeDevice, Quieted;
      DeletedKeepsInv(s, grantId, RevokeLive(s.links, grantId, s.clock));
      DeletedKeepsInv(s, grantId, RevokeAll(s.links, grantId, s.clock));
    }
  }

  lemma AmendmentsKeepInv(s: State, c: Command)
    requires Inv(s) && (c.Enable? || c.UpdateExpiration?)
    ensures Inv(Step(s, c).state)
  {
    if Step(s, c).state != s {
      var g := Step(s, c).state.grants[c.grantId];
      hide Inv;
      AmendKeepsInv(s, c.grantId, g);
    }
  }

  lemma {:induction false} AssignKeepsInv(s: State, mappings: seq<Mapping>, dryRun: bool)
    requires Inv(s)
    ensures Inv(AssignAll(s, mappings, dryRun).state)
    decreases mappings
  {
    hide Inv;
    if mappings != [] {
      var m := mappings[0];
      if MappingFailure(s, m).None? {
        var g := s.grants[m.grantId].(groupId := Some(m.groupId));
        if !dryRun {
          AmendKeepsInv(s, m.grantId, g);
          AssignKeepsInv(WithGrant(s, m.grantId, g), mappings[1..], dryRun);
        } else {
          AssignKeepsInv(s, mappings[1..], dryRun);
        }
      }
    }
  }

  lemma PolicyAndTimeKeepInv(s: State, c: Command)
    requires Inv(s) && (c.SetGroupRequirement? || c.Tick?)
    ensures Inv(Step(s, c).state)
  {
    hide LinksOk, OneEach, GrantsOk, OwnDevices, OneActive;
  }

  lemma StepKeepsInv(s: State, c: Command)
    requires Inv(s) && Fresh(s, c)
    ensures Inv(Step(s, c).state)
  {
    hide Inv, CreateStep, RegenerateStep, RedeemStep, DisableStep, DeleteStep, RevokeCredentialStep, AssignAll, EnableStep,
         UpdateExpirationStep, SetGroupRequirementStep;
    match c
    case Create(_, _, _, _, _, _, _, _, _) => CreateKeepsInv(s, c);
    case Regenerate(grantId, link, expiry) => RegenerateKeepsInv(s, grantId, link, expiry);
    case Redeem(_, _, _, _, _) => RedeemKeepsInv(s, c);
    case UpdateExpiration(_, _, _) => AmendmentsKeepInv(s, c);
    case Enable(_, _) => AmendmentsKeepInv(s, c);
    case Disable(grantId) => DisableKeepsInv(s, grantId);
    case Delete(grantId) => RemovalKeepsInv(s, grantId);
    case RevokeCredential(grantId) => RemovalKeepsInv(s, grantId);
    case SetGroupRequirement(_) => PolicyAndTimeKeepInv(s, c);
    case AssignGroups(mappings, dryRun) => AssignKeepsInv(s, SortMappings(mappings), dryRun);
    case Tick(_) => PolicyAndTimeKeepInv(s, c);
  }

  lemma {:induction false} RunKeepsInv(s: State, commands: seq<Command>)
    requires Inv(s) && AllFresh(s, commands)
    ensures Inv(Run(s, commands))
    decreases commands
  {
    if commands != [] {
      StepKeepsInv(s, commands[0]);
      hide Inv, Step, Fresh;
      RunKeepsInv(Step(s, commands[0]).state, commands[1..]);
    }
  }

  // ----- what never changes back

  predicate GrantContinues(g: Grant, after: Grant) {
    && after.accountId == g.accountId
    && (g.deviceId.Some? ==> after.deviceId == g.deviceId)
    && (g.groupId.Some? ==> after.groupId == g.groupId)
    && (g.deletedAt.Some? ==> after.deletedAt == g.deletedAt)
  }

  predicate LinkContinues(l: Link, after: Link) {
    && after.grantId == l.grantId
    && (l.consumedAt.Some? ==> after.consumedAt == l.consumedAt)
    && (l.revokedAt.Some? ==> after.revokedAt == l.revokedAt)
  }

  predicate DeviceContinues(d: Device, after: Device) {
    after.accountId == d.accountId && after.installationId == d.installationId && (d.revokedAt.Some? ==> after.revokedAt.Some?)
  }

  /** Bindings, groups, deletions and consumed or revoked links are for good. */
  predicate Continues(s: State, after: State) {
    && s.clock <= after.clock
    && (forall id :: id in s.grants ==> id in after.grants && GrantContinues(s.grants[id], after.grants[id]))
    && (forall k :: k in s.links ==> k in after.links && LinkContinues(s.links[k], after.links[k]))
    && (forall d :: d in s.devices ==> d in after.devices && DeviceContinues(s.devices[d], after.devices[d]))
  }

  lemma {:induction false} AssignContinues(s: State, mappings: seq<Mapping>, dryRun: bool)
    ensures Continues(s, AssignAll(s, mappings, dryRun).state)
    decreases mappings
  {
    if mappings != [] {
      var m := mappings[0];
      if MappingFailure(s, m).None? {
        var next := if dryRun || m.grantId !in s.grants then s
                    else WithGrant(s, m.grantId, s.grants[m.grantId].(groupId := Some(m.groupId)));
        AssignContinues(next, mappings[1..], dryRun);
      }
    }
  }

  lemma LinkingContinues(s: State, c: Command)
    requires Fresh(s, c) && (c.Create? || c.Regenerate?)
    ensures Continues(s, Step(s, c).state)
  {
  }

  lemma RedeemingContinues(s: State, c: Command)
    requires Fresh(s, c) && c.Redeem?
    ensures Continues(s, Step(s, c).state)
  {
    hide InstallationInUse, GrantFailure, GroupOk;
  }

  lemma DisablingContinues(s: State, c: Command)
    requires c.Disable?
    ensures Continues(s, Step(s, c).state)
  {
  }

  lemma DeletingContinues(s: State, c: Command)
    requires c.Delete? || c.RevokeCredential?
    ensures Continues(s, Step(s, c).state)
  {
  }

  lemma AmendingContinues(s: State, c: Command)
    requires c.Enable? || c.UpdateExpiration? || c.SetGroupRequirement? || c.Tick?
    ensures Continues(s, Step(s, c).state)
  {
    hide GroupOk, InFuture, AnyUngrouped;
  }

  lemma AssigningContinues(s: State, mappings: seq<Mapping>, dryRun: bool)
    ensures Continues(s, AssignGroupsStep(s, mappings, dryRun).state)
  {
    AssignContinues(s, SortMappings(mappings), dryRun);
    AssignContinues(s, [], dryRun);
    hide AssignAll, SortMappings, DistinctGrants;
  }

  lemma StepContinues(s: State, c: Command)
    requires Fresh(s, c)
    ensures Continues(s, Step(s, c).state)
  {
    hide Continues, CreateStep, RegenerateStep, RedeemStep, UpdateExpirationStep, EnableStep, DisableStep, DeleteStep,
         RevokeCredentialStep, SetGroupRequirementStep, AssignGroupsStep;
    if c.AssignGroups? {
      AssigningContinues(s, c.mappings, c.dryRun);
    } else if c.Create? || c.Regenerate? {
      LinkingContinues(s, c);
    } else if c.Redeem? {
      RedeemingContinues(s, c);
    } else if c.Disable? {
      DisablingContinues(s, c);
    } else if c.Delete? || c.RevokeCredential? {
      DeletingContinues(s, c);
    } else {
      AmendingContinues(s, c);
    }
  }

  lemma {:induction false} RunContinues(s: State, commands: seq<Command>)
    requires AllFresh(s, commands)
    ensures Continues(s, Run(s, commands))
    decreases commands
  {
    if commands != [] {
      StepContinues(s, commands[0]);
      hide Step, Fresh;
      RunContinues(Step(s, commands[0]).state, commands[1..]);
    }
  }

  // ----- the promises

  /** After a successful redemption the grant is bound to the returned device, of the redeeming installation, by that link. */
  lemma RedeemedIsBound(s: State, c: Command)
    requires Inv(s) && Fresh(s, c) && c.Redeem? && RedeemStep(s, c).outcome.Redeemed?
    ensures var t := RedeemStep(s, c).state;
            var device := RedeemStep(s, c).outcome.deviceId;
            c.link in t.links && t.links[c.link].grantId in t.grants && t.links[c.link].consumedAt.Some?
            && t.grants[t.links[c.link].grantId].deviceId == Some(device)
            && device in t.devices && t.devices[device].installationId == c.installationId
    ensures s.grants[s.links[c.link].grantId].deviceId.Some? ==> RedeemStep(s, c).state == s && s.links[c.link].consumedAt.Some?
  {
    assert LinkOk(s.links[c.link], s.grants);
    hide OneEach, GrantsOk, OwnDevices, OneActive, GroupsOk, LinksOk;
  }

  /**
   * A grant binds once: whatever happens in between, a later successful redemption of the same grant comes from the
   * same installation, uses the same link, is answered with the same device and changes nothing.
   */
  lemma RedeemedOnce(s: State, first: Command, since: seq<Command>, second: Command)
    requires Inv(s) && first.Redeem? && second.Redeem? && Fresh(s, first)
    requires RedeemStep(s, first).outcome.Redeemed? && AllFresh(RedeemStep(s, first).state, since)
    requires var t := Run(RedeemStep(s, first).state, since);
             Fresh(t, second) && RedeemStep(t, second).outcome.Redeemed?
             && first.link in t.links && t.links[second.link].grantId == t.links[first.link].grantId
    ensures var t := Run(RedeemStep(s, first).state, since);
            second.installationId == first.installationId && second.link == first.link
            && RedeemStep(t, second) == Reply(t, RedeemStep(s, first).outcome)
  {
    var bound := RedeemStep(s, first).state;
    var t := Run(bound, since);
    hide Inv, Run, AllFresh, Fresh, RedeemStep, Step;
    assert bound == Step(s, first).state by { StepOfRedeem(s, first); }
    RedeemedIsBound(s, first);
    StepKeepsInv(s, first);
    RunKeepsInv(bound, since);
    RunContinues(bound, since);
    RedeemedIsBound(t, second);
    BoundOnce(t, first.link, second.link);
  }

  lemma StepOfRedeem(s: State, c: Command)
    requires c.Redeem?
    ensures Step(s, c) == RedeemStep(s, c)
  {
  }

  lemma BoundOnce(s: State, a: nat, b: nat)
    requires Inv(s) && a in s.links && b in s.links && s.links[a].grantId == s.links[b].grantId
    requires s.links[a].consumedAt.Some? && s.links[b].consumedAt.Some?
    ensures a == b
  {
    hide LinksOk, GrantsOk, OwnDevices, OneActive, GroupsOk;
  }

  /** In every reachable state a grant has at most one link left to redeem, and none once it is bound, disabled or deleted. */
  lemma OneLinkLeft(clock: int, commands: seq<Command>, a: nat, b: nat)
    requires AllFresh(Empty(clock), commands)
    ensures var s := Run(Empty(clock), commands);
            a in s.links && b in s.links && Live(s.links[a]) && Live(s.links[b]) && s.links[a].grantId == s.links[b].grantId ==> a == b
    ensures var s := Run(Empty(clock), commands);
            a in s.links && Live(s.links[a]) ==>
              s.links[a].grantId in s.grants && !Settled(s.grants[s.links[a].grantId])
  {
    hide Run, AllFresh;
    RunKeepsInv(Empty(clock), commands);
    var s := Run(Empty(clock), commands);
    if a in s.links { assert LinkOk(s.links[a], s.grants); }
  }

  /** In every reachable state an installation has at most one unrevoked device, and the device of a deleted grant is revoked. */
  lemma OneDevicePerInstallation(clock: int, commands: seq<Command>, a: nat, b: nat)
    requires AllFresh(Empty(clock), commands)
    ensures var s := Run(Empty(clock), commands);
            a in s.devices && b in s.devices && s.devices[a].revokedAt.None? && s.devices[b].revokedAt.None? ==>
              s.devices[a].installationId == s.devices[b].installationId ==> a == b
  {
    hide Run, AllFresh;
    RunKeepsInv(Empty(clock), commands);
  }

  /** In every reachable state, and as time passes: while groups are required no ungrouped grant gives access. */
  lemma RequiredGroupsAreGiven(clock: int, commands: seq<Command>, id: nat)
    requires AllFresh(Empty(clock), commands)
    ensures var s := Run(Empty(clock), commands);
            s.requireGroup && id in s.grants && s.grants[id].groupId.None? ==>
              GrantStatusAt(s.grants[id], s.clock) in {DELETED, DISABLED, EXPIRED}
  {
    hide Run, AllFresh;
    RunKeepsInv(Empty(clock), commands);
    var s := Run(Empty(clock), commands);
    if s.requireGroup && id in s.grants && s.grants[id].groupId.None? { UngroupedIsOver(s, id); }
  }

  // ----- the order of an assignment

  predicate SortedMappings(s: seq<Mapping>) {
    forall i, j :: 0 <= i < j < |s| ==> s[i].grantId <= s[j].grantId
  }

  lemma {:induction false} InsertedMapping(m: Mapping, s: seq<Mapping>)
    ensures multiset(InsertMapping(m, s)) == multiset(s) + multiset{m}
    decreases s
  {
    if s != [] && m.grantId > s[0].grantId {
      InsertedMapping(m, s[1..]);
      assert s == [s[0]] + s[1..];
    }
  }

  lemma {:induction false} InsertedInOrder(m: Mapping, s: seq<Mapping>)
    requires SortedMappings(s)
    ensures SortedMappings(InsertMapping(m, s))
    decreases s
  {
    if s != [] && m.grantId > s[0].grantId {
      var rest := InsertMapping(m, s[1..]);
      InsertedInOrder(m, s[1..]);
      InsertedMapping(m, s[1..]);
      hide InsertMapping;
      forall j | 0 <= j < |rest| ensures s[0].grantId <= rest[j].grantId {
        assert rest[j] in multiset(rest);
        assert rest[j] == m || rest[j] in s[1..];
      }
      assert InsertMapping(m, s) == [s[0]] + rest by { InsertBehind(m, s); }
    }
  }

  lemma InsertBehind(m: Mapping, s: seq<Mapping>)
    requires s != [] && m.grantId > s[0].grantId
    ensures InsertMapping(m, s) == [s[0]] + InsertMapping(m, s[1..])
  {
  }

  lemma {:induction false} MappingsSorted(mappings: seq<Mapping>)
    ensures SortedMappings(SortMappings(mappings)) && multiset(SortMappings(mappings)) == multiset(mappings)
    decreases mappings
  {
    if mappings != [] {
      MappingsSorted(mappings[1..]);
      InsertedMapping(mappings[0], SortMappings(mappings[1..]));
      InsertedInOrder(mappings[0], SortMappings(mappings[1..]));
      assert mappings == [mappings[0]] + mappings[1..];
    }
  }

  /** There is one way to put mappings of different grants in order. */
  lemma {:induction false} OneOrder(a: seq<Mapping>, b: seq<Mapping>)
    requires SortedMappings(a) && SortedMappings(b) && multiset(a) == multiset(b)
    requires forall m, n :: m in a && n in a && m.grantId == n.grantId ==> m == n
    ensures a == b
    decreases a
  {
    assert |multiset(a)| == |a| && |multiset(b)| == |b|;
    if a != [] {
      SameFirst(a, b);
      SameRest(a, b);
      OneOrder(a[1..], b[1..]);
    }
  }

  lemma SameFirst(a: seq<Mapping>, b: seq<Mapping>)
    requires SortedMappings(a) && SortedMappings(b) && multiset(a) == multiset(b) && a != [] && b != []
    requires forall m, n :: m in a && n in a && m.grantId == n.grantId ==> m == n
    ensures a[0] == b[0]
  {
    assert a[0] in multiset(b) && b[0] in multiset(a);
    assert a[0] in b && b[0] in a;
  }

  lemma SameRest(a: seq<Mapping>, b: seq<Mapping>)
    requires multiset(a) == multiset(b) && a != [] && b != [] && a[0] == b[0]
    ensures multiset(a[1..]) == multiset(b[1..])
  {
    assert a == [a[0]] + a[1..] && b == [b[0]] + b[1..];
    assert multiset(a[1..]) == multiset(a) - multiset{a[0]};
    assert multiset(b[1..]) == multiset(b) - multiset{b[0]};
  }

  function GrantsIn(mappings: seq<Mapping>): set<nat> {
    set m | m in mappings :: m.grantId
  }

  lemma OneMoreGrant(front: seq<Mapping>, last: Mapping)
    requires last.grantId !in GrantsIn(front)
    ensures DistinctGrants(front + [last]) <==> DistinctGrants(front)
  {
    var all := front + [last];
    assert forall i :: 0 <= i < |front| ==> front[i] in front && front[i].grantId in GrantsIn(front) && all[i] == front[i];
    if DistinctGrants(all) {
      forall i, j | 0 <= i < j < |front| ensures front[i].grantId != front[j].grantId {
        assert all[i].grantId != all[j].grantId;
      }
    }
  }

  lemma {:induction false} CountGrants(mappings: seq<Mapping>)
    ensures |GrantsIn(mappings)| <= |mappings|
    ensures DistinctGrants(mappings) <==> |GrantsIn(mappings)| == |mappings|
    decreases mappings
  {
    if mappings != [] {
      var front, last := mappings[..|mappings| - 1], mappings[|mappings| - 1];
      CountGrants(front);
      assert mappings == front + [last];
      assert GrantsIn(mappings) == GrantsIn(front) + {last.grantId};
      if last.grantId in GrantsIn(front) {
        assert GrantsIn(mappings) == GrantsIn(front);
        var i :| 0 <= i < |front| && front[i].grantId == last.grantId;
        assert mappings[i].grantId == mappings[|mappings| - 1].grantId;
      } else {
        assert |GrantsIn(mappings)| == |GrantsIn(front)| + 1;
        OneMoreGrant(front, last);
      }
    }
  }

  lemma GrantsOfOneMapping(mappings: seq<Mapping>, m: Mapping, n: Mapping)
    requires DistinctGrants(mappings) && m in mappings && n in mappings && m.grantId == n.grantId
    ensures m == n
  {
    var i :| 0 <= i < |mappings| && mappings[i] == m;
    var j :| 0 <= j < |mappings| && mappings[j] == n;
  }

  /** How the mappings are listed makes no difference, neither to what is assigned nor to which failure is reported. */
  lemma AssignmentIgnoresOrder(s: State, a: seq<Mapping>, b: seq<Mapping>, dryRun: bool)
    requires multiset(a) == multiset(b)
    ensures AssignGroupsStep(s, a, dryRun) == AssignGroupsStep(s, b, dryRun)
  {
    MappingsSorted(a);
    MappingsSorted(b);
    CountGrants(a);
    CountGrants(b);
    hide SortMappings, AssignAll, DistinctGrants;
    assert |multiset(a)| == |a| && |multiset(b)| == |b|;
    forall m ensures m in a <==> m in b {
      assert m in a <==> m in multiset(a);
      assert m in b <==> m in multiset(b);
    }
    assert GrantsIn(a) == GrantsIn(b);
    if DistinctGrants(a) {
      var sorted := SortMappings(a);
      forall m, n | m in sorted && n in sorted && m.grantId == n.grantId ensures m == n {
        assert m in multiset(sorted) && n in multiset(sorted);
        assert m in multiset(a) && n in multiset(a);
        GrantsOfOneMapping(a, m, n);
      }
      OneOrder(sorted, SortMappings(b));
    }
  }
}
