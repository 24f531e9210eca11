/** Who may do what with a device grant, and what is left behind, in terms of the stored fields and the clock. */
module DeviceGrantOperations {
  import opened Money
  import opened DeviceGrantSpec
  import opened DeviceGrantSafety

  predicate Granted(r: Reply) {
    !r.outcome.Rejected?
  }

  /** The grant belongs to a group whose member the account is, or no group is required. */
  predicate InOrder(g: Grant, requireGroup: bool, member: bool) {
    if g.groupId.Some? then member else !requireGroup
  }

  /** Neither deleted, disabled nor expired. */
  predicate InForce(g: Grant, now: int) {
    g.deletedAt.None? && g.disabledAt.None? && (g.expiresAt.None? || now < g.expiresAt.value)
  }

  // ----- redeeming

  /** A link still good for a first redemption, on a grant nobody redeemed, by an installation that has no device. */
  predicate FirstTime(s: State, link: Link, g: Grant, installationId: nat) {
    && link.consumedAt.None? && link.revokedAt.None? && (link.expiresAt.None? || s.clock < link.expiresAt.value)
    && g.deviceId.None?
    && forall d :: d in s.devices && s.devices[d].revokedAt.None? ==> s.devices[d].installationId != installationId
  }

  /** The consumed link once more, by the same installation, whose device is still good, within the time to retry. */
  predicate Again(s: State, link: Link, g: Grant, installationId: nat) {
    && link.consumedAt.Some? && g.deviceId.Some? && g.deviceId.value in s.devices
    && s.devices[g.deviceId.value].installationId == installationId && s.devices[g.deviceId.value].revokedAt.None?
    && g.redeemRetryUntil.Some? && s.clock < g.redeemRetryUntil.value
  }

  lemma RedeemedExactly(s: State, c: Command)
    requires c.Redeem?
    ensures RedeemStep(s, c).outcome.Redeemed? <==>
              && c.link in s.links && s.links[c.link].grantId in s.grants
              && var link, g := s.links[c.link], s.grants[s.links[c.link].grantId];
                 && c.eligible && InOrder(g, s.requireGroup, c.member) && InForce(g, s.clock)
                 && (FirstTime(s, link, g, c.installationId) || Again(s, link, g, c.installationId))
    ensures !RedeemStep(s, c).outcome.Redeemed? ==> RedeemStep(s, c).state == s && RedeemStep(s, c).outcome.Rejected?
  {
  }

  /** A first redemption makes the device, binds the grant to it, allows ten minutes to retry and uses up the link. */
  lemma FirstRedemption(s: State, c: Command)
    requires c.Redeem? && RedeemStep(s, c).outcome.Redeemed? && s.links[c.link].consumedAt.None?
    ensures var id, t := s.links[c.link].grantId, RedeemStep(s, c).state;
            && RedeemStep(s, c).outcome.deviceId == c.deviceId
            && t.devices == s.devices[c.deviceId := Device(s.grants[id].accountId, c.installationId, None)]
            && t.grants == s.grants[id := t.grants[id]]
            && t.grants[id] == s.grants[id].(deviceId := Some(c.deviceId), boundAt := Some(s.clock),
                                             redeemRetryUntil := t.grants[id].redeemRetryUntil)
            && t.grants[id].redeemRetryUntil == Some(s.clock + 600_000)
            && t.links == s.links[c.link := s.links[c.link].(consumedAt := Some(s.clock))]
            && t.clock == s.clock && t.requireGroup == s.requireGroup
  {
  }

  lemma LaterRedemption(s: State, c: Command)
    requires c.Redeem? && RedeemStep(s, c).outcome.Redeemed? && s.links[c.link].consumedAt.Some?
    ensures RedeemStep(s, c) == Reply(s, Redeemed(s.grants[s.links[c.link].grantId].deviceId.value))
  {
  }

  /** What the error of a refused redemption tells about link, grant, account and installation. */
  lemma RefusalMeans(s: State, c: Command)
    requires c.Redeem? && RedeemStep(s, c).outcome.Rejected?
    ensures var error := RedeemStep(s, c).outcome.error;
            if c.link !in s.links || s.links[c.link].grantId !in s.grants then error == InvalidLink
            else
              var link, g := s.links[c.link], s.grants[s.links[c.link].grantId];
              match error
              case Forbidden => !InOrder(g, s.requireGroup, c.member)
              case LinkRevoked => link.revokedAt.Some? && link.consumedAt.None?
              case LinkExpired => link.expiresAt.Some? && link.expiresAt.value <= s.clock && link.consumedAt.None?
              case LinkConsumed =>
                if link.consumedAt.Some? then !Again(s, link, g, c.installationId) else g.deviceId.Some?
              case GrantDeleted => g.deletedAt.Some?
              case GrantDisabled => g.disabledAt.Some?
              case GrantExpired => g.expiresAt.Some? && g.expiresAt.value <= s.clock
              case Inactive => !c.eligible
              case InvalidDevice =>
                exists d :: d in s.devices && s.devices[d].revokedAt.None? && s.devices[d].installationId == c.installationId
              case _ => false
  {
  }

  // ----- issuing

  /** When an expiry as given lies ahead, or there is none. */
  predicate Ahead(expiry: Expiry, now: int) {
    match expiry
    case At(at) => now < at
    case _ => true
  }

  lemma CreatedExactly(s: State, c: Command)
    requires c.Create?
    ensures Granted(CreateStep(s, c)) <==>
              && Ahead(c.expiresAt, s.clock) && Ahead(c.linkExpiresAt, s.clock) && c.eligible
              && (if c.groupId.Some? then c.projectOk && c.member else !s.requireGroup)
    ensures !Granted(CreateStep(s, c)) ==> CreateStep(s, c).state == s
    ensures var t := CreateStep(s, c).state;
            Granted(CreateStep(s, c)) ==>
              && c.grantId in t.grants && c.link in t.links && t.devices == s.devices
              && t.grants == s.grants[c.grantId := t.grants[c.grantId]] && t.links == s.links[c.link := t.links[c.link]]
              && var g, link := t.grants[c.grantId], t.links[c.link];
                 && g.accountId == c.accountId && g.groupId == c.groupId && g.deviceId.None? && g.boundAt.None?
                 && g.disabledAt.None? && g.deletedAt.None? && g.redeemRetryUntil.None?
                 && g.expiresAt == (match c.expiresAt case At(at) => Some(at) case _ => None)
                 && IsLink(link, c.grantId, c.linkExpiresAt, s.clock)
  {
  }

  /** A fresh link; without an expiry given it lasts a week. */
  predicate IsLink(link: Link, grantId: nat, expiry: Expiry, now: int) {
    && link.grantId == grantId && link.revokedAt.None? && link.consumedAt.None?
    && link.expiresAt == match expiry
                         case Unspecified => Some(now + 604_800_000)
                         case Unlimited => None
                         case At(at) => Some(at)
  }

  lemma RegeneratedExactly(s: State, grantId: nat, link: nat, expiry: Expiry)
    ensures Granted(RegenerateStep(s, grantId, link, expiry)) <==>
              grantId in s.grants && InForce(s.grants[grantId], s.clock) && s.grants[grantId].deviceId.None? && Ahead(expiry, s.clock)
    ensures !Granted(RegenerateStep(s, grantId, link, expiry)) ==> RegenerateStep(s, grantId, link, expiry).state == s
    ensures var t := RegenerateStep(s, grantId, link, expiry).state;
            Granted(RegenerateStep(s, grantId, link, expiry)) ==>
              && link in t.links && IsLink(t.links[link], grantId, expiry, s.clock)
              && t.grants == s.grants && t.devices == s.devices && t.links.Keys == s.links.Keys + {link}
              && Revokes(s, t, grantId, {link}, false)
  {
  }

  /**
   * Every link of the grant that can still be redeemed is revoked now, and any other link is as it was; where consumed
   * links are revoked too, every link of the grant not revoked before is.
   */
  predicate Revokes(s: State, t: State, grantId: nat, except: set<nat>, consumedToo: bool) {
    forall k :: k in s.links && k !in except ==>
      && k in t.links
      && var hit := s.links[k].grantId == grantId && s.links[k].revokedAt.None? && (consumedToo || s.links[k].consumedAt.None?);
         t.links[k] == if hit then s.links[k].(revokedAt := Some(s.clock)) else s.links[k]
  }

  // ----- amending

  /** Only one grant may have changed. */
  predicate OnlyGrant(s: State, t: State, id: nat) {
    id in t.grants && t.grants == s.grants[id := t.grants[id]] && t.clock == s.clock && t.requireGroup == s.requireGroup
  }

  lemma ExpirationExactly(s: State, grantId: nat, expiry: Expiry, member: bool)
    ensures var r := UpdateExpirationStep(s, grantId, expiry, member);
            && (Granted(r) <==>
                  && !expiry.Unspecified? && Ahead(expiry, s.clock) && grantId in s.grants && s.grants[grantId].deletedAt.None?
                  && InOrder(s.grants[grantId], s.requireGroup, member))
            && (!Granted(r) ==> r.state == s)
            && (Granted(r) ==>
                  && OnlyGrant(s, r.state, grantId) && r.state.links == s.links && r.state.devices == s.devices
                  && r.state.grants[grantId]
                     == s.grants[grantId].(expiresAt := if expiry.At? then Some(expiry.at) else None))
  {
  }

  lemma EnabledExactly(s: State, grantId: nat, member: bool)
    ensures var r := EnableStep(s, grantId, member);
            && (Granted(r) <==>
                  grantId in s.grants && s.grants[grantId].deletedAt.None? && InOrder(s.grants[grantId], s.requireGroup, member))
            && (!Granted(r) ==> r.state == s)
            && (Granted(r) ==>
                  && OnlyGrant(s, r.state, grantId) && r.state.links == s.links && r.state.devices == s.devices
                  && r.state.grants[grantId] == s.grants[grantId].(disabledAt := None))
  {
  }

  lemma DisabledExactly(s: State, grantId: nat)
    ensures var r := DisableStep(s, grantId);
            && (Granted(r) <==> grantId in s.grants && s.grants[grantId].deletedAt.None?)
            && (!Granted(r) ==> r.state == s)
            && (Granted(r) ==>
                  && OnlyGrant(s, r.state, grantId) && r.state.devices == s.devices && r.state.links.Keys == s.links.Keys
                  && r.state.grants[grantId] == s.grants[grantId].(disabledAt := Some(s.clock))
                  && Revokes(s, r.state, grantId, {}, false))
  {
  }

  /** The device of a grant, if it has one, is revoked, and no other. */
  predicate RevokesDevice(s: State, t: State, g: Grant) {
    && t.devices.Keys == s.devices.Keys
    && forall d :: d in s.devices ==>
         t.devices[d] == if g.deviceId == Some(d) then s.devices[d].(revokedAt := Some(s.clock)) else s.devices[d]
  }

  lemma DeletedExactly(s: State, grantId: nat)
    ensures var r := DeleteStep(s, grantId);
            && (Granted(r) <==> grantId in s.grants && s.grants[grantId].deletedAt.None?)
            && (!Granted(r) ==> r.state == s)
            && (Granted(r) ==>
                  && OnlyGrant(s, r.state, grantId) && r.state.links.Keys == s.links.Keys
                  && r.state.grants[grantId] == s.grants[grantId].(deletedAt := Some(s.clock))
                  && Revokes(s, r.state, grantId, {}, false) && RevokesDevice(s, r.state, s.grants[grantId]))
  {
  }

  lemma CredentialRevokedExactly(s: State, grantId: nat)
    ensures var r := RevokeCredentialStep(s, grantId);
            && (Granted(r) <==> grantId in s.grants && s.grants[grantId].deletedAt.None?)
            && (!Granted(r) ==> r.state == s)
            && (Granted(r) ==>
                  && OnlyGrant(s, r.state, grantId) && r.state.links.Keys == s.links.Keys
                  && r.state.grants[grantId] == s.grants[grantId].(deletedAt := Some(s.clock))
                  && Revokes(s, r.state, grantId, {}, true) && RevokesDevice(s, r.state, s.grants[grantId]))
  {
  }

  /** Time passes, and nothing but the clock moves. */
  lemma TimePasses(s: State, elapsed: nat)
    ensures Step(s, Tick(elapsed)).state.clock == s.clock + elapsed
    ensures Step(s, Tick(elapsed)).state == s.(clock := Step(s, Tick(elapsed)).state.clock)
  {
  }

  // ----- groups

  lemma RequirementExactly(s: State, required: bool)
    ensures var r := SetGroupRequirementStep(s, required);
            && (Granted(r) <==> required ==> forall id :: id in s.grants && s.grants[id].groupId.None? ==> !InForce(s.grants[id], s.clock))
            && r.state == if Granted(r) then s.(requireGroup := required) else s
  {
  }

  /** What a mapping asks of the grant it names. */
  predicate Fitting(s: State, m: Mapping) {
    && m.grantId in s.grants && s.grants[m.grantId].deletedAt.None? && s.grants[m.grantId].accountId == m.accountId
    && s.grants[m.grantId].groupId.None? && m.member && m.project.Fits?
  }

  /** Every grant named gets its group, and nothing else changes. */
  ghost predicate Assigns(s: State, t: State, mappings: seq<Mapping>) {
    && t == s.(grants := t.grants) && t.grants.Keys == s.grants.Keys
    && (forall m :: m in mappings ==>
          m.grantId in s.grants && t.grants[m.grantId] == s.grants[m.grantId].(groupId := Some(m.groupId)))
    && (forall id :: id in s.grants && (forall m :: m in mappings ==> m.grantId != id) ==> t.grants[id] == s.grants[id])
  }

  lemma {:induction false} AllAssigned(s: State, mappings: seq<Mapping>, dryRun: bool)
    requires DistinctGrants(mappings)
    ensures var r := AssignAll(s, mappings, dryRun);
            && (r.outcome == Done || r.outcome.Rejected?)
            && (Granted(r) <==> forall m :: m in mappings ==> Fitting(s, m))
            && (Granted(r) && dryRun ==> r.state == s)
            && (Granted(r) && !dryRun ==> Assigns(s, r.state, mappings))
    decreases mappings
  {
    if mappings != [] {
      var m, rest := mappings[0], mappings[1..];
      assert mappings == [m] + rest;
      FirstThenRest(s, mappings, dryRun);
      OthersFit(s, mappings);
      hide Fitting, DistinctGrants, Assigns, WithGrant, AssignAll;
      if Fitting(s, m) {
        var next := if dryRun then s else WithGrant(s, m.grantId, s.grants[m.grantId].(groupId := Some(m.groupId)));
        AllAssigned(next, rest, dryRun);
        AssignsOneMore(s, AssignAll(next, rest, dryRun).state, mappings);
      }
    } else {
      assert Assigns(s, s, []);
    }
  }

  lemma FirstThenRest(s: State, mappings: seq<Mapping>, dryRun: bool)
    requires mappings != []
    ensures var m := mappings[0];
            Fitting(s, m) ==>
              m.grantId in s.grants
              && AssignAll(s, mappings, dryRun)
                 == AssignAll(if dryRun then s else WithGrant(s, m.grantId, s.grants[m.grantId].(groupId := Some(m.groupId))),
                              mappings[1..], dryRun)
    ensures !Fitting(s, mappings[0]) ==> AssignAll(s, mappings, dryRun).outcome.Rejected?
  {
    FirstFits(s, mappings[0]);
    hide Fitting, MappingFailure;
  }

  lemma AssignsOneMore(s: State, t: State, mappings: seq<Mapping>)
    requires mappings != [] && mappings[0].grantId in s.grants && forall n :: n in mappings[1..] ==> n.grantId != mappings[0].grantId
    ensures var m := mappings[0];
            Assigns(WithGrant(s, m.grantId, s.grants[m.grantId].(groupId := Some(m.groupId))), t, mappings[1..]) ==>
              Assigns(s, t, mappings)
  {
    assert mappings == [mappings[0]] + mappings[1..];
  }

  lemma FirstFits(s: State, m: Mapping)
    ensures MappingFailure(s, m).None? <==> Fitting(s, m)
    ensures Fitting(s, m) ==> m.grantId in s.grants
  {
  }

  /** Assigning one grant leaves it open whether the others fit. */
  lemma OthersFit(s: State, mappings: seq<Mapping>)
    requires DistinctGrants(mappings) && mappings != []
    ensures DistinctGrants(mappings[1..])
    ensures forall n :: n in mappings[1..] ==> n.grantId != mappings[0].grantId
    ensures mappings[0].grantId in s.grants ==>
              var m := mappings[0];
              forall n :: n in mappings[1..] ==>
                (Fitting(WithGrant(s, m.grantId, s.grants[m.grantId].(groupId := Some(m.groupId))), n) <==> Fitting(s, n))
  {
    forall n | n in mappings[1..] ensures n.grantId != mappings[0].grantId {
      var j :| 1 <= j < |mappings| && mappings[j] == n;
    }
  }

  /** Between one and a thousand different grants, all of them fitting: then each gets its group, and otherwise none does. */
  lemma AssignedExactly(s: State, mappings: seq<Mapping>, dryRun: bool)
    ensures var r := AssignGroupsStep(s, mappings, dryRun);
            && (Granted(r) <==>
                  && 1 <= |mappings| <= 1000 && (forall i, j :: 0 <= i < j < |mappings| ==> mappings[i].grantId != mappings[j].grantId)
                  && forall m :: m in mappings ==> m.groupExists && Fitting(s, m))
            && (!Granted(r) || dryRun ==> r.state == s)
            && (Granted(r) && !dryRun ==> Assigns(s, r.state, mappings))
  {
    hide Fitting, AssignAll, SortMappings, Assigns;
    SortedMembers(mappings);
    if DistinctGrants(mappings) {
      SortedStayDistinct(mappings);
      AllAssigned(s, SortMappings(mappings), dryRun);
      SameAssignment(s, AssignAll(s, SortMappings(mappings), dryRun).state, mappings, SortMappings(mappings));
    }
  }

  lemma SortedMembers(mappings: seq<Mapping>)
    ensures forall m :: m in mappings <==> m in SortMappings(mappings)
  {
    MappingsSorted(mappings);
    hide SortMappings;
    forall m ensures m in mappings <==> m in SortMappings(mappings) {
      assert m in mappings <==> m in multiset(mappings);
      assert m in SortMappings(mappings) <==> m in multiset(SortMappings(mappings));
    }
  }

  lemma SameAssignment(s: State, t: State, a: seq<Mapping>, b: seq<Mapping>)
    requires forall m :: m in a <==> m in b
    ensures Assigns(s, t, a) <==> Assigns(s, t, b)
  {
  }

  lemma SortedStayDistinct(mappings: seq<Mapping>)
    requires DistinctGrants(mappings)
    ensures DistinctGrants(SortMappings(mappings))
  {
    MappingsSorted(mappings);
    var sorted := SortMappings(mappings);
    assert |multiset(mappings)| == |mappings| && |multiset(sorted)| == |sorted|;
    SortedMembers(mappings);
    assert GrantsIn(mappings) == GrantsIn(sorted);
    hide SortMappings, DistinctGrants;
    CountGrants(mappings);
    CountGrants(sorted);
  }
}
