/**
 * Device grants of one organization: a grant is handed out by one-time links, bound to one device by redeeming one of
 * them, and may be disabled, deleted, extended, grouped. Links are known by their secret tokens.
 */
module DeviceGrantSpec {
  import opened Money

  const RETRY_WINDOW: int := 600_000
  const LINK_LIFETIME: int := 604_800_000

  datatype Grant = Grant(
    accountId: nat, groupId: Option<nat>, expiresAt: Option<int>, disabledAt: Option<int>, deletedAt: Option<int>,
    deviceId: Option<nat>, boundAt: Option<int>, redeemRetryUntil: Option<int>)

  datatype Link = Link(grantId: nat, expiresAt: Option<int>, revokedAt: Option<int>, consumedAt: Option<int>)

  datatype Device = Device(accountId: nat, installationId: nat, revokedAt: Option<int>)

  datatype State = State(
    clock: int, requireGroup: bool, grants: map<nat, Grant>, links: map<nat, Link>, devices: map<nat, Device>)

  /** An expiry as given: absent, explicitly none, or a moment. */
  datatype Expiry = Unspecified | Unlimited | At(at: int)

  /** Whether the project named with a group is one it can have: missing or unknown, or given or left out against its kind. */
  datatype ProjectCheck = Fits | Missing | Misplaced

  datatype Mapping = Mapping(grantId: nat, accountId: nat, groupId: nat, groupExists: bool, member: bool, project: ProjectCheck)

  /** member and eligible stand for the lookups of group membership and of account, organization and membership status. */
  datatype Command =
    | Create(grantId: nat, link: nat, accountId: nat, groupId: Option<nat>, projectOk: bool, expiresAt: Expiry, linkExpiresAt: Expiry,
             member: bool, eligible: bool)
    | Regenerate(grantId: nat, link: nat, linkExpiresAt: Expiry)
    | Redeem(link: nat, installationId: nat, deviceId: nat, member: bool, eligible: bool)
    | UpdateExpiration(grantId: nat, expiresAt: Expiry, member: bool)
    | Enable(grantId: nat, member: bool)
    | Disable(grantId: nat)
    | Delete(grantId: nat)
    | RevokeCredential(grantId: nat)
    | SetGroupRequirement(required: bool)
    | AssignGroups(mappings: seq<Mapping>, dryRun: bool)
    | Tick(elapsed: nat)

  datatype Error =
    | BadRequest | NotFound | Forbidden | Inactive | Conflict | InvalidLink | InvalidDevice
    | LinkConsumed | LinkRevoked | LinkExpired | GrantDeleted | GrantDisabled | GrantExpired | GrantBound

  datatype Outcome = Done | Redeemed(deviceId: nat) | Rejected(error: Error)

  datatype Reply = Reply(state: State, outcome: Outcome)

  // ----- statuses

  datatype GrantStatus = DELETED | DISABLED | EXPIRED | BOUND | AVAILABLE

  predicate Past(moment: Option<int>, now: int) {
    moment.Some? && moment.value <= now
  }

  function GrantStatusAt(g: Grant, now: int): GrantStatus {
    if g.deletedAt.Some? then DELETED
    else if g.disabledAt.Some? then DISABLED
    else if Past(g.expiresAt, now) then EXPIRED
    else if g.deviceId.Some? then BOUND
    else AVAILABLE
  }

  function GrantFailure(g: Grant, now: int): Option<Error> {
    match GrantStatusAt(g, now)
    case DELETED => Some(GrantDeleted)
    case DISABLED => Some(GrantDisabled)
    case EXPIRED => Some(GrantExpired)
    case _ => None
  }

  function LinkFailure(l: Link, now: int): Option<Error> {
    if l.consumedAt.Some? then Some(LinkConsumed)
    else if l.revokedAt.Some? then Some(LinkRevoked)
    else if Past(l.expiresAt, now) then Some(LinkExpired)
    else None
  }

  /** A link still to be redeemed or revoked, whether or not it has expired. */
  predicate Live(l: Link) {
    l.revokedAt.None? && l.consumedAt.None?
  }

  /** A grant that still gives or may give access. */
  predicate Effective(g: Grant, now: int) {
    g.deletedAt.None? && g.disabledAt.None? && !Past(g.expiresAt, now)
  }

  predicate GroupOk(groupId: Option<nat>, requireGroup: bool, member: bool) {
    if groupId.Some? then member else !requireGroup
  }

  // ----- expiries

  predicate InFuture(expiry: Expiry, now: int) {
    expiry.At? ==> expiry.at > now
  }

  function GrantExpiry(expiry: Expiry): Option<int> {
    if expiry.At? then Some(expiry.at) else None
  }

  function LinkExpiry(expiry: Expiry, now: int): Option<int> {
    match expiry
    case Unspecified => Some(now + LINK_LIFETIME)
    case Unlimited => None
    case At(at) => Some(at)
  }

  // ----- the operations

  function Reject(s: State, error: Error): Reply {
    Reply(s, Rejected(error))
  }

  function WithGrant(s: State, id: nat, g: Grant): State {
    s.(grants := s.grants[id := g])
  }

  predicate Exists(s: State, id: nat) {
    id in s.grants && s.grants[id].deletedAt.None?
  }

  function RevokeLive(links: map<nat, Link>, grantId: nat, now: int): map<nat, Link> {
    map k | k in links :: if links[k].grantId == grantId && Live(links[k]) then links[k].(revokedAt := Some(now)) else links[k]
  }

  function RevokeAll(links: map<nat, Link>, grantId: nat, now: int): map<nat, Link> {
    map k | k in links ::
      if links[k].grantId == grantId && links[k].revokedAt.None? then links[k].(revokedAt := Some(now)) else links[k]
  }

  function RevokeDevice(devices: map<nat, Device>, id: Option<nat>, now: int): map<nat, Device> {
    if id.Some? && id.value in devices then devices[id.value := devices[id.value].(revokedAt := Some(now))] else devices
  }

  function NewGrant(accountId: nat, groupId: Option<nat>, expiresAt: Option<int>): Grant {
    Grant(accountId, groupId, expiresAt, None, None, None, None, None)
  }

  function CreateStep(s: State, c: Command): Reply
    requires c.Create?
  {
    if !InFuture(c.expiresAt, s.clock) then Reject(s, BadRequest)
    else if c.groupId.Some? && !c.projectOk then Reject(s, BadRequest)
    else if !GroupOk(c.groupId, s.requireGroup, c.member) then Reject(s, Forbidden)
    else if !c.eligible then Reject(s, Inactive)
    else if !InFuture(c.linkExpiresAt, s.clock) then Reject(s, BadRequest)
    else
      var grant := NewGrant(c.accountId, c.groupId, GrantExpiry(c.expiresAt));
      var link := Link(c.grantId, LinkExpiry(c.linkExpiresAt, s.clock), None, None);
      Reply(s.(grants := s.grants[c.grantId := grant], links := s.links[c.link := link]), Done)
  }

  function RegenerateStep(s: State, grantId: nat, link: nat, expiry: Expiry): Reply {
    if grantId !in s.grants then Reject(s, NotFound)
    else
      match GrantStatusAt(s.grants[grantId], s.clock)
      case DELETED => Reject(s, GrantDeleted)
      case DISABLED => Reject(s, GrantDisabled)
      case EXPIRED => Reject(s, GrantExpired)
      case BOUND => Reject(s, GrantBound)
      case AVAILABLE =>
        if !InFuture(expiry, s.clock) then Reject(s, BadRequest)
        else
          var issued := Link(grantId, LinkExpiry(expiry, s.clock), None, None);
          Reply(s.(links := RevokeLive(s.links, grantId, s.clock)[link := issued]), Done)
  }

  predicate InstallationInUse(devices: map<nat, Device>, installationId: nat) {
    exists d :: d in devices && devices[d].installationId == installationId && devices[d].revokedAt.None?
  }

  /** The device that redeemed may repeat the redemption for a while, to get its credentials again. */
  predicate MayRetry(s: State, g: Grant, installationId: nat) {
    && g.deviceId.Some? && g.deviceId.value in s.devices
    && var d := s.devices[g.deviceId.value];
       d.installationId == installationId && d.revokedAt.None?
       && g.redeemRetryUntil.Some? && g.redeemRetryUntil.value > s.clock
  }

  function RedeemStep(s: State, c: Command): Reply
    requires c.Redeem?
  {
    if c.link !in s.links || s.links[c.link].grantId !in s.grants then Reject(s, InvalidLink)
    else
      var link := s.links[c.link];
      var grant := s.grants[link.grantId];
      var linkFailure := LinkFailure(link, s.clock);
      var grantFailure := GrantFailure(grant, s.clock);
      if !GroupOk(grant.groupId, s.requireGroup, c.member) then Reject(s, Forbidden)
      else if linkFailure.Some? && linkFailure.value != LinkConsumed then Reject(s, linkFailure.value)
      else if linkFailure.Some? && !MayRetry(s, grant, c.installationId) then Reject(s, LinkConsumed)
      else if grantFailure.Some? then Reject(s, grantFailure.value)
      else if !c.eligible then Reject(s, Inactive)
      else if linkFailure.Some? then Reply(s, if grant.deviceId.Some? then Redeemed(grant.deviceId.value) else Rejected(LinkConsumed))
      else if grant.deviceId.Some? then Reject(s, LinkConsumed)
      else if InstallationInUse(s.devices, c.installationId) then Reject(s, InvalidDevice)
      else Reply(Bound(s, c, link, grant), Redeemed(c.deviceId))
  }

  /** The first redemption: a new device, bound to the grant, and the link used up. */
  function Bound(s: State, c: Command, link: Link, grant: Grant): State
    requires c.Redeem?
  {
    s.(devices := s.devices[c.deviceId := Device(grant.accountId, c.installationId, None)],
       grants := s.grants[link.grantId := grant.(deviceId := Some(c.deviceId), boundAt := Some(s.clock),
                                                 redeemRetryUntil := Some(s.clock + RETRY_WINDOW))],
       links := s.links[c.link := link.(consumedAt := Some(s.clock))])
  }

  function UpdateExpirationStep(s: State, grantId: nat, expiry: Expiry, member: bool): Reply {
    if expiry.Unspecified? || !InFuture(expiry, s.clock) then Reject(s, BadRequest)
    else if !Exists(s, grantId) then Reject(s, NotFound)
    else if !GroupOk(s.grants[grantId].groupId, s.requireGroup, member) then Reject(s, Forbidden)
    else Reply(WithGrant(s, grantId, s.grants[grantId].(expiresAt := GrantExpiry(expiry))), Done)
  }

  function EnableStep(s: State, grantId: nat, member: bool): Reply {
    if !Exists(s, grantId) then Reject(s, NotFound)
    else if !GroupOk(s.grants[grantId].groupId, s.requireGroup, member) then Reject(s, Forbidden)
    else Reply(WithGrant(s, grantId, s.grants[grantId].(disabledAt := None)), Done)
  }

  function DisableStep(s: State, grantId: nat): Reply {
    if !Exists(s, grantId) then Reject(s, NotFound)
    else
      Reply(WithGrant(s, grantId, s.grants[grantId].(disabledAt := Some(s.clock))).(links := RevokeLive(s.links, grantId, s.clock)),
            Done)
  }

  function DeleteStep(s: State, grantId: nat): Reply {
    if !Exists(s, grantId) then Reject(s, NotFound)
    else
      var g := s.grants[grantId];
      Reply(WithGrant(s, grantId, g.(deletedAt := Some(s.clock))).(
              links := RevokeLive(s.links, grantId, s.clock), devices := RevokeDevice(s.devices, g.deviceId, s.clock)),
            Done)
  }

  /** What losing a group does to each grant in it: even consumed links are revoked. */
  function RevokeCredentialStep(s: State, grantId: nat): Reply {
    if !Exists(s, grantId) then Reject(s, NotFound)
    else
      var g := s.grants[grantId];
      Reply(WithGrant(s, grantId, g.(deletedAt := Some(s.clock))).(
              links := RevokeAll(s.links, grantId, s.clock), devices := RevokeDevice(s.devices, g.deviceId, s.clock)),
            Done)
  }

  predicate AnyUngrouped(s: State) {
    exists id :: id in s.grants && s.grants[id].groupId.None? && Effective(s.grants[id], s.clock)
  }

  function SetGroupRequirementStep(s: State, required: bool): Reply {
    if required && AnyUngrouped(s) then Reject(s, Conflict) else Reply(s.(requireGroup := required), Done)
  }

  predicate DistinctGrants(mappings: seq<Mapping>) {
    forall i, j :: 0 <= i < j < |mappings| ==> mappings[i].grantId != mappings[j].grantId
  }

  /** The failure of one mapping, if any. */
  function MappingFailure(s: State, m: Mapping): Option<Error> {
    if !Exists(s, m.grantId) || s.grants[m.grantId].accountId != m.accountId then Some(NotFound)
    else if s.grants[m.grantId].groupId.Some? then Some(Conflict)
    else if !m.member then Some(Forbidden)
    else match m.project
      case Fits => None
      case Missing => Some(NotFound)
      case Misplaced => Some(BadRequest)
  }

  function InsertMapping(m: Mapping, sorted: seq<Mapping>): seq<Mapping> {
    if sorted == [] || m.grantId <= sorted[0].grantId then [m] + sorted
    else [sorted[0]] + InsertMapping(m, sorted[1..])
  }

  function SortMappings(mappings: seq<Mapping>): seq<Mapping> {
    if mappings == [] then [] else InsertMapping(mappings[0], SortMappings(mappings[1..]))
  }

  /** The mappings in the order given to it: the first that fails decides, and then nothing is assigned at all. */
  function AssignAll(s: State, mappings: seq<Mapping>, dryRun: bool): Reply
    decreases mappings
  {
    if mappings == [] then Reply(s, Done)
    else
      var m := mappings[0];
      var failure := MappingFailure(s, m);
      if failure.Some? then Reject(s, failure.value)
      else
        AssignAll(if dryRun || m.grantId !in s.grants then s
                  else WithGrant(s, m.grantId, s.grants[m.grantId].(groupId := Some(m.groupId))), mappings[1..], dryRun)
  }

  function AssignGroupsStep(s: State, mappings: seq<Mapping>, dryRun: bool): Reply {
    if mappings == [] || |mappings| > 1000 || !DistinctGrants(mappings) then Reject(s, BadRequest)
    else if exists m :: m in mappings && !m.groupExists then Reject(s, NotFound)
    else
      var r := AssignAll(s, SortMappings(mappings), dryRun);
      if r.outcome.Rejected? then Reply(s, r.outcome) else r
  }

  function Step(s: State, c: Command): Reply {
    match c
    case Create(_, _, _, _, _, _, _, _, _) => CreateStep(s, c)
    case Regenerate(grantId, link, expiry) => RegenerateStep(s, grantId, link, expiry)
    case Redeem(_, _, _, _, _) => RedeemStep(s, c)
    case UpdateExpiration(grantId, expiry, member) => UpdateExpirationStep(s, grantId, expiry, member)
    case Enable(grantId, member) => EnableStep(s, grantId, member)
    case Disable(grantId) => DisableStep(s, grantId)
    case Delete(grantId) => DeleteStep(s, grantId)
    case RevokeCredential(grantId) => RevokeCredentialStep(s, grantId)
    case SetGroupRequirement(required) => SetGroupRequirementStep(s, required)
    case AssignGroups(mappings, dryRun) => AssignGroupsStep(s, mappings, dryRun)
    case Tick(elapsed) => Reply(s.(clock := s.clock + elapsed), Done)
  }

  /** Identifiers and secrets are freshly generated. */
  predicate Fresh(s: State, c: Command) {
    && (c.Create? ==> c.grantId !in s.grants && c.link !in s.links)
    && (c.Regenerate? ==> c.link !in s.links)
    && (c.Redeem? ==> c.deviceId !in s.devices)
  }

  function Run(s: State, commands: seq<Command>): State
    decreases commands
  {
    if commands == [] then s else Run(Step(s, commands[0]).state, commands[1..])
  }

  predicate AllFresh(s: State, commands: seq<Command>)
    decreases commands
  {
    commands == [] || (Fresh(s, commands[0]) && AllFresh(Step(s, commands[0]).state, commands[1..]))
  }
}
