/**
 * The durable budget ledger: request entries, usage logs, administrative operations and period terms, and what
 * each operation does to them in its one transaction.
 *
 * A period has no running totals here: what it has spent and reserved is the sum over its requests (Spent,
 * Reserved). The class GroupLedger keeps the two columns by increments and is proved to agree with this description.
 */
module LedgerSpec {
  import opened Money
  import opened Sums
  import Q = QuotaSpec

  // ----- rows

  type RequestId = nat
  type OperationId = nat

  datatype PeriodId = PeriodId(groupId: nat, key: nat)

  datatype Owner = Owner(organizationId: nat, accountId: nat, groupId: nat, credential: nat)

  datatype Group = Group(defaultLimit: Cny, unlimited: bool, archived: bool)

  datatype Terms = Terms(limit: Cny, unlimited: bool, alerted: nat)

  /** The log a request would get if it is reconciled before any usage was recorded. */
  datatype UsageTemplate = UsageTemplate(requestId: RequestId, owner: Owner)

  datatype RequestSnapshot = RequestSnapshot(usage: Option<UsageTemplate>, redis: seq<Q.Reservation>)

  datatype ReserveInput = ReserveInput(requestId: RequestId, owner: Owner, startedAt: int, estimate: int, snapshot: RequestSnapshot)

  /** A usage log to be written; each route is one attempt with its known cost, if any. */
  datatype UsageInput = UsageInput(
    requestId: RequestId, owner: Owner, cost: int, inputTokens: nat, outputTokens: nat, routes: Option<seq<Option<Cny>>>)

  datatype HoldInput = HoldInput(actual: int, unresolved: int, usage: UsageInput)

  datatype Extension = Extension(amount: Cny, attempt: AttemptSnapshot)

  datatype AttemptSnapshot = AttemptSnapshot(attemptId: nat, detail: nat)

  type Correction = Q.Correction

  datatype Status = RESERVED | RECONCILIATION_REQUIRED | SETTLED | RELEASED

  datatype Snapshot = Snapshot(
    reservation: ReserveInput, extensions: map<nat, Extension>,
    hold: Option<HoldInput>, settlement: Option<UsageInput>, exceeded: bool, manualFinal: bool,
    redisActual: Option<Q.Amounts>, redisCorrection: Option<Correction>, redisSynced: bool)

  datatype Entry = Entry(
    periodId: PeriodId, owner: Owner, status: Status, reserved: Cny, settled: Cny,
    dispatched: bool, leaseUntil: Option<int>, snapshot: Snapshot)

  datatype Log = Log(owner: Owner, cost: Cny, inputTokens: nat, outputTokens: nat, routes: map<nat, Option<Cny>>)

  datatype Action = SETTLE | RELEASE

  datatype RouteCost = RouteCost(id: nat, cost: int)

  datatype ReconcileInput = ReconcileInput(
    operationId: OperationId, actual: int, action: Action, routes: Option<seq<RouteCost>>)

  datatype Scope = CURRENT(period: Option<nat>) | DEFAULT

  datatype AdjustInput = AdjustInput(operationId: OperationId, scope: Scope, limit: int, unlimited: bool)

  /** An administrative operation, remembered with everything its fingerprint covers. */
  datatype Operation =
    | Adjusted(groupId: nat, actor: nat, input: AdjustInput)
    | Reconciled(groupId: nat, actor: nat, requestId: RequestId, reconciliation: ReconcileInput)

  datatype State = State(
    groups: map<nat, Group>, terms: map<PeriodId, Terms>, entries: map<RequestId, Entry>,
    logs: map<RequestId, Log>, operations: map<OperationId, Operation>)

  // ----- calls and replies

  datatype Ref = Ref(requestId: RequestId, periodId: PeriodId)

  datatype Command =
    | Reserve(input: ReserveInput, periodKey: nat, now: int, authorized: bool)
    | Extend(ref: Ref, additional: int, attempt: AttemptSnapshot)
    | MarkDispatched(ref: Ref, leaseUntil: int)
    | Hold(ref: Ref, hold: HoldInput)
    | Settle(ref: Ref, actual: int, usage: UsageInput)
    | Release(ref: Ref)
    | MarkUncertain(ref: Ref)
    | RecoverExpired(ref: Ref, now: int)
    | Reconcile(groupId: nat, actor: nat, requestId: RequestId, reconciliation: ReconcileInput, authorized: bool)
    | Adjust(groupId: nat, actor: nat, adjustment: AdjustInput, currentKey: nat, authorized: bool)
    | FinishSync(ref: Ref, seen: Option<Correction>)

  datatype Error = BadRequest | NotFound | Forbidden | Conflict | BudgetExceeded | DuplicateLog

  datatype Outcome =
    | Held(reserved: Cny)
    | Settlement(exceeded: bool)
    | Recovered(status: Status)
    | Unchanged
    | Done
    | Rejected(error: Error)

  datatype Reply = Reply(state: State, outcome: Outcome)

  function Reject(s: State, error: Error): Reply {
    Reply(s, Rejected(error))
  }

  // ----- period totals

  predicate IsOpen(status: Status) {
    status.RESERVED? || status.RECONCILIATION_REQUIRED?
  }

  function ReservedBy(p: PeriodId, e: Entry): int {
    if e.periodId == p && IsOpen(e.status) then e.reserved else 0
  }

  function SettledBy(p: PeriodId, e: Entry): int {
    if e.periodId == p then e.settled else 0
  }

  function ReservedIn(p: PeriodId): Entry -> int {
    e => ReservedBy(p, e)
  }

  function SettledIn(p: PeriodId): Entry -> int {
    e => SettledBy(p, e)
  }

  ghost function Reserved(s: State, p: PeriodId): int {
    SumOver(s.entries, ReservedIn(p))
  }

  ghost function Spent(s: State, p: PeriodId): int {
    SumOver(s.entries, SettledIn(p))
  }

  ghost function Used(s: State, p: PeriodId): int {
    Spent(s, p) + Reserved(s, p)
  }

  predicate CanAfford(terms: Terms, used: int, amount: nat) {
    terms.unlimited || (terms.limit > 0 && terms.limit - used >= amount)
  }

  function Threshold(terms: Terms, used: int): nat {
    if terms.unlimited then 0
    else if used >= terms.limit then 100
    else if used * 10 >= terms.limit * 8 then 80
    else 0
  }

  function Raised(terms: Terms, used: int): Terms {
    if Threshold(terms, used) > terms.alerted then terms.(alerted := Threshold(terms, used)) else terms
  }

  /** The threshold alert that closes most transactions: the period's mark only ever rises. */
  ghost function Alerted(s: State, p: PeriodId): State {
    if p in s.terms then s.(terms := s.terms[p := Raised(s.terms[p], Used(s, p))]) else s
  }

  // ----- how a row is rewritten

  predicate Known(s: State, ref: Ref) {
    ref.requestId in s.entries && s.entries[ref.requestId].periodId == ref.periodId && ref.periodId in s.terms
  }

  function WithEntry(s: State, id: RequestId, e: Entry): State {
    s.(entries := s.entries[id := e])
  }

  function WithLog(s: State, id: RequestId, log: Log): State {
    s.(logs := s.logs[id := log])
  }

  function NewEntry(input: ReserveInput, p: PeriodId, amount: Cny, now: int): Entry {
    Entry(p, input.owner, RESERVED, amount, 0, false, Some(now + 60_000),
          Snapshot(input, map[], None, None, false, false, None, None, false))
  }

  function ExtendedEntry(e: Entry, amount: Cny, attempt: AttemptSnapshot): Entry {
    e.(reserved := e.reserved + amount,
       snapshot := e.snapshot.(extensions := e.snapshot.extensions[attempt.attemptId := Extension(amount, attempt)]))
  }

  function HeldEntry(e: Entry, hold: HoldInput, actual: Cny, unresolved: Cny): Entry {
    e.(status := RECONCILIATION_REQUIRED, settled := actual, reserved := unresolved, leaseUntil := None,
       snapshot := e.snapshot.(hold := Some(hold)))
  }

  function SettledEntry(e: Entry, usage: UsageInput, amount: Cny, exceeded: bool): Entry {
    e.(status := SETTLED, settled := amount, leaseUntil := None,
       snapshot := e.snapshot.(settlement := Some(usage), exceeded := exceeded,
                               redisActual := Some(ActualAmounts(usage.inputTokens, usage.outputTokens, amount)),
                               redisSynced := false))
  }

  function ReleasedEntry(e: Entry): Entry {
    e.(status := RELEASED, leaseUntil := None, snapshot := e.snapshot.(redisSynced := false))
  }

  function CorrectionAfter(e: Entry, operationId: OperationId, amount: Cny): Correction {
    var version := if e.snapshot.redisCorrection.Some? then e.snapshot.redisCorrection.value.version else 0;
    Q.Correction(operationId, Micro(amount), version + 1)
  }

  function ReconciledEntry(e: Entry, input: ReconcileInput, amount: Cny, log: Option<Log>): Entry {
    var actual :=
      if e.snapshot.redisActual.Some? then e.snapshot.redisActual
      else if log.Some? then Some(ActualAmounts(log.value.inputTokens, log.value.outputTokens, amount))
      else Some(Q.Amounts(0, Micro(amount)));
    e.(status := if input.action.RELEASE? then RELEASED else SETTLED, settled := amount, leaseUntil := None,
       snapshot := e.snapshot.(manualFinal := true, redisActual := actual, redisSynced := false,
                               redisCorrection := Some(CorrectionAfter(e, input.operationId, amount))))
  }

  function ActualAmounts(inputTokens: nat, outputTokens: nat, amount: Cny): Q.Amounts {
    Q.Amounts(inputTokens + outputTokens, Micro(amount))
  }

  // ----- usage logs and their routes

  function RouteRows(routes: seq<Option<Cny>>): map<nat, Option<Cny>> {
    map i: nat | i < |routes| :: routes[i]
  }

  function NewLog(usage: UsageInput, amount: Cny): Log {
    Log(usage.owner, amount, usage.inputTokens, usage.outputTokens,
        if usage.routes.Some? then RouteRows(usage.routes.value) else map[])
  }

  /** Settling over a held log replaces its routes only when the caller brings new ones. */
  function ReplacedLog(log: Log, usage: UsageInput, amount: Cny): Log {
    NewLog(usage, amount).(routes := if usage.routes.Some? then RouteRows(usage.routes.value) else log.routes)
  }

  predicate UsageMatches(id: RequestId, e: Entry, usage: UsageInput, amount: Cny) {
    usage.requestId == id && usage.owner == e.owner && usage.cost == amount
  }

  /** A recorded log still belongs to its entry and carries what the entry has settled. */
  predicate LogMatches(e: Entry, log: Log) {
    log.owner == e.owner && log.cost == e.settled
  }

  predicate SameMember(a: Owner, b: Owner) {
    a.organizationId == b.organizationId && a.accountId == b.accountId && a.groupId == b.groupId
  }

  function RouteAmount(): Option<Cny> -> int {
    (cost: Option<Cny>) => if cost.Some? then cost.value else 0
  }

  ghost function RouteTotal(log: Log): int {
    SumOver(log.routes, RouteAmount())
  }

  function SumOfCosts(costs: seq<RouteCost>): int {
    if costs == [] then 0 else costs[0].cost + SumOfCosts(costs[1..])
  }

  predicate DistinctRoutes(costs: seq<RouteCost>) {
    forall i, j :: 0 <= i < j < |costs| ==> costs[i].id != costs[j].id
  }

  /** The allocation an administrator gave, or the obvious one when there is a single route. */
  function Allocation(log: Option<Log>, input: ReconcileInput, amount: Cny): seq<RouteCost> {
    if input.routes.Some? then input.routes.value
    else if log.Some? && |log.value.routes| == 1 && 0 in log.value.routes then [RouteCost(0, amount)]
    else []
  }

  /** An allocation names every route of the log exactly once. */
  predicate AllocationNames(log: Option<Log>, costs: seq<RouteCost>) {
    (log.Some? && |log.value.routes| > 0) || |costs| > 0 ==>
      && log.Some?
      && |costs| == |log.value.routes|
      && DistinctRoutes(costs)
      && (forall i :: 0 <= i < |costs| ==> costs[i].id in log.value.routes)
  }

  predicate AllCny(costs: seq<RouteCost>) {
    forall i :: 0 <= i < |costs| ==> IsCny(costs[i].cost)
  }

  function Allocated(routes: map<nat, Option<Cny>>, costs: seq<RouteCost>): map<nat, Option<Cny>>
    requires AllCny(costs)
    decreases costs
  {
    if costs == [] then routes
    else Allocated(routes[costs[0].id := Some(costs[0].cost)], costs[1..])
  }

  function ReconciledLog(e: Entry, log: Option<Log>, costs: seq<RouteCost>, amount: Cny): Log
    requires AllCny(costs)
  {
    if log.Some? then log.value.(cost := amount, routes := Allocated(log.value.routes, costs))
    else Log(e.owner, amount, 0, 0, map[])
  }

  // ----- the operations

  function FindLog(s: State, id: RequestId): Option<Log> {
    if id in s.logs then Some(s.logs[id]) else None
  }

  /** A group's period row, created with the group's defaults on first use. */
  function TermsFor(s: State, p: PeriodId): Terms
    requires p.groupId in s.groups
  {
    if p in s.terms then s.terms[p]
    else Terms(s.groups[p.groupId].defaultLimit, s.groups[p.groupId].unlimited, 0)
  }

  ghost function ReserveStep(s: State, input: ReserveInput, periodKey: nat, now: int, authorized: bool): Reply {
    if !IsCny(input.estimate) then Reject(s, BadRequest)
    else if input.owner.groupId !in s.groups then Reject(s, NotFound)
    else if !authorized then Reject(s, Forbidden)
    else if input.requestId in s.entries then
      var e := s.entries[input.requestId];
      if e.snapshot.reservation == input && e.status.RESERVED? then Reply(s, Held(e.reserved)) else Reject(s, Conflict)
    else
      var p := PeriodId(input.owner.groupId, periodKey);
      if !CanAfford(TermsFor(s, p), Used(s, p), input.estimate) then Reject(s, BudgetExceeded)
      else
        var ready := s.(terms := s.terms[p := TermsFor(s, p)]);
        var written := WithEntry(ready, input.requestId, NewEntry(input, p, input.estimate, now));
        Reply(Alerted(written, p), Held(input.estimate))
  }

  ghost function ExtendStep(s: State, ref: Ref, additional: int, attempt: AttemptSnapshot): Reply {
    if !IsCny(additional) then Reject(s, BadRequest)
    else if !Known(s, ref) then Reject(s, NotFound)
    else
      var e := s.entries[ref.requestId];
      if !IsOpen(e.status) then Reject(s, Conflict)
      else if attempt.attemptId in e.snapshot.extensions then
        if e.snapshot.extensions[attempt.attemptId] == Extension(additional, attempt) then Reply(s, Held(e.reserved))
        else Reject(s, Conflict)
      else if !CanAfford(s.terms[ref.periodId], Used(s, ref.periodId), additional) then Reject(s, BudgetExceeded)
      else
        var written := WithEntry(s, ref.requestId, ExtendedEntry(e, additional, attempt));
        Reply(Alerted(written, ref.periodId), Held(e.reserved + additional))
  }

  function MarkDispatchedStep(s: State, ref: Ref, leaseUntil: int): Reply {
    if !Known(s, ref) then Reject(s, NotFound)
    else
      var e := s.entries[ref.requestId];
      if !e.status.RESERVED? then Reject(s, Conflict)
      else Reply(WithEntry(s, ref.requestId, e.(dispatched := true, leaseUntil := Some(leaseUntil))), Done)
  }

  ghost function HoldStep(s: State, ref: Ref, hold: HoldInput): Reply {
    if !IsCny(hold.actual) || !IsCny(hold.unresolved) then Reject(s, BadRequest)
    else if !Known(s, ref) then Reject(s, NotFound)
    else
      var e := s.entries[ref.requestId];
      if e.snapshot.hold == Some(hold) then Reply(s, Done)
      else if e.snapshot.manualFinal || e.snapshot.hold.Some? || !IsOpen(e.status) then Reject(s, Conflict)
      else if !UsageMatches(ref.requestId, e, hold.usage, hold.actual) then Reject(s, Conflict)
      else if ref.requestId in s.logs then Reject(s, DuplicateLog)
      else Reply(Holding(s, ref, hold), Done)
  }

  ghost function Holding(s: State, ref: Ref, hold: HoldInput): State
    requires ref.requestId in s.entries && IsCny(hold.actual) && IsCny(hold.unresolved)
  {
    var logged := WithLog(s, ref.requestId, NewLog(hold.usage, hold.actual));
    var held := HeldEntry(s.entries[ref.requestId], hold, hold.actual, hold.unresolved);
    Alerted(WithEntry(logged, ref.requestId, held), ref.periodId)
  }

  ghost function SettleStep(s: State, ref: Ref, actual: int, usage: UsageInput): Reply {
    if !IsCny(actual) then Reject(s, BadRequest)
    else if !Known(s, ref) then Reject(s, NotFound)
    else
      var e := s.entries[ref.requestId];
      var billed := usage.(cost := actual);
      if e.snapshot.manualFinal then Reject(s, Conflict)
      else if e.status.SETTLED? then
        if e.snapshot.settlement == Some(billed) then Reply(s, Settlement(e.snapshot.exceeded)) else Reject(s, Conflict)
      else if !IsOpen(e.status) then Reject(s, Conflict)
      else if !UsageMatches(ref.requestId, e, usage, actual) then Reject(s, Conflict)
      else if ref.requestId in s.logs && (!LogMatches(e, s.logs[ref.requestId]) || e.snapshot.hold.None?) then Reject(s, Conflict)
      else
        var log := if ref.requestId in s.logs then ReplacedLog(s.logs[ref.requestId], usage, actual) else NewLog(usage, actual);
        var logged := WithLog(s, ref.requestId, log);
        var exceeded := OverLimit(WithEntry(logged, ref.requestId, SettledEntry(e, billed, actual, false)), ref.periodId);
        Reply(Alerted(WithEntry(logged, ref.requestId, SettledEntry(e, billed, actual, exceeded)), ref.periodId),
              Settlement(exceeded))
  }

  /** A limited period has spent more than its limit. */
  ghost predicate OverLimit(s: State, p: PeriodId) {
    p in s.terms && !s.terms[p].unlimited && Spent(s, p) > s.terms[p].limit
  }

  function ReleaseStep(s: State, ref: Ref): Reply {
    if !Known(s, ref) then Reject(s, NotFound)
    else
      var e := s.entries[ref.requestId];
      if e.status.RELEASED? then Reply(s, Done)
      else if !e.status.RESERVED? || e.dispatched then Reject(s, Conflict)
      else Reply(WithEntry(s, ref.requestId, ReleasedEntry(e)), Done)
  }

  function MarkUncertainStep(s: State, ref: Ref): Reply {
    if !Known(s, ref) then Reject(s, NotFound)
    else
      var e := s.entries[ref.requestId];
      if !IsOpen(e.status) then Reply(s, Unchanged)
      else Reply(WithEntry(s, ref.requestId, e.(status := RECONCILIATION_REQUIRED, leaseUntil := None)), Done)
  }

  /** One pass of the recovery worker over one entry. */
  function RecoverStep(s: State, ref: Ref, now: int): Reply {
    if !Known(s, ref) then Reject(s, NotFound)
    else
      var e := s.entries[ref.requestId];
      if !e.status.RESERVED? || e.leaseUntil.None? || e.leaseUntil.value > now then Reply(s, Unchanged)
      else if e.dispatched then
        Reply(WithEntry(s, ref.requestId, e.(status := RECONCILIATION_REQUIRED, leaseUntil := None)),
              Recovered(RECONCILIATION_REQUIRED))
      else Reply(WithEntry(s, ref.requestId, ReleasedEntry(e)), Recovered(RELEASED))
  }

  ghost function ReconcileStep(s: State, groupId: nat, actor: nat, id: RequestId, input: ReconcileInput, authorized: bool): Reply {
    if !authorized then Reject(s, Forbidden)
    else if !IsCny(input.actual) || (input.action.RELEASE? && input.actual != 0) then Reject(s, BadRequest)
    else if id !in s.entries || s.entries[id].periodId.groupId != groupId || s.entries[id].periodId !in s.terms then
      Reject(s, NotFound)
    else if input.operationId in s.operations then
      if s.operations[input.operationId] == Reconciled(groupId, actor, id, input) then Reply(s, Done) else Reject(s, Conflict)
    else
      var e := s.entries[id];
      var log := FindLog(s, id);
      var costs := Allocation(log, input, input.actual);
      if !e.status.SETTLED? && !e.status.RECONCILIATION_REQUIRED? then Reject(s, Conflict)
      else if log.Some? && !SameMember(log.value.owner, e.owner) then Reject(s, Conflict)
      else if !AllocationNames(log, costs) then Reject(s, Conflict)
      else if !AllCny(costs) then Reject(s, BadRequest)
      else if |costs| > 0 && SumOfCosts(costs) != input.actual then Reject(s, Conflict)
      else if log.None? && e.snapshot.reservation.snapshot.usage != Some(UsageTemplate(id, e.owner)) then Reject(s, Conflict)
      else Reply(Reconciliation(s, groupId, actor, id, input), Done)
  }

  /** An accepted reconciliation: log, entry, period and the record of the operation in one transaction. */
  ghost function Reconciliation(s: State, groupId: nat, actor: nat, id: RequestId, input: ReconcileInput): State
    requires id in s.entries && IsCny(input.actual) && AllCny(Allocation(FindLog(s, id), input, input.actual))
  {
    var e := s.entries[id];
    var log := FindLog(s, id);
    var logged := WithLog(s, id, ReconciledLog(e, log, Allocation(log, input, input.actual), input.actual));
    var written := WithEntry(logged, id, ReconciledEntry(e, input, input.actual, log));
    var alerted := Alerted(written, e.periodId);
    alerted.(operations := alerted.operations[input.operationId := Reconciled(groupId, actor, id, input)])
  }

  ghost function AdjustStep(s: State, groupId: nat, actor: nat, input: AdjustInput, currentKey: nat, authorized: bool): Reply {
    if !authorized then Reject(s, Forbidden)
    else if !IsCny(input.limit) then Reject(s, BadRequest)
    else if groupId !in s.groups then Reject(s, NotFound)
    else if input.operationId in s.operations then
      if s.operations[input.operationId] == Adjusted(groupId, actor, input) then Reply(s, Done) else Reject(s, Conflict)
    else if s.groups[groupId].archived then Reject(s, Conflict)
    else
      var chosen := input.scope.CURRENT? && input.scope.period.Some?;
      var p := PeriodId(groupId, if chosen then input.scope.period.value else currentKey);
      if chosen && p !in s.terms then Reject(s, NotFound)
      else if input.scope.CURRENT? && !input.unlimited && input.limit < Used(s, p) then Reject(s, Conflict)
      else Reply(Adjustment(s, actor, p, input), Done)
  }

  /** An accepted adjustment, of the period itself or of the defaults later periods start from. */
  ghost function Adjustment(s: State, actor: nat, p: PeriodId, input: AdjustInput): State
    requires p.groupId in s.groups && IsCny(input.limit)
  {
    var group := s.groups[p.groupId];
    var ready := s.(terms := s.terms[p := TermsFor(s, p)],
                    operations := s.operations[input.operationId := Adjusted(p.groupId, actor, input)]);
    if input.scope.DEFAULT? then
      ready.(groups := s.groups[p.groupId := group.(defaultLimit := input.limit, unlimited := input.unlimited)])
    else
      Alerted(ready.(terms := ready.terms[p := ready.terms[p].(limit := input.limit, unlimited := input.unlimited)]), p)
  }

  /** The end of a mirror synchronisation: the entry is marked only if no correction arrived since it was read. */
  function FinishSyncStep(s: State, ref: Ref, seen: Option<Correction>): Reply {
    if !Known(s, ref) then Reject(s, NotFound)
    else
      var e := s.entries[ref.requestId];
      if e.snapshot.redisCorrection != seen then Reply(s, Unchanged)
      else Reply(WithEntry(s, ref.requestId, e.(snapshot := e.snapshot.(redisSynced := true))), Done)
  }

  ghost function Step(s: State, c: Command): Reply {
    match c
    case Reserve(input, periodKey, now, authorized) => ReserveStep(s, input, periodKey, now, authorized)
    case Extend(ref, additional, attempt) => ExtendStep(s, ref, additional, attempt)
    case MarkDispatched(ref, leaseUntil) => MarkDispatchedStep(s, ref, leaseUntil)
    case Hold(ref, hold) => HoldStep(s, ref, hold)
    case Settle(ref, actual, usage) => SettleStep(s, ref, actual, usage)
    case Release(ref) => ReleaseStep(s, ref)
    case MarkUncertain(ref) => MarkUncertainStep(s, ref)
    case RecoverExpired(ref, now) => RecoverStep(s, ref, now)
    case Reconcile(groupId, actor, id, input, authorized) => ReconcileStep(s, groupId, actor, id, input, authorized)
    case Adjust(groupId, actor, input, currentKey, authorized) => AdjustStep(s, groupId, actor, input, currentKey, authorized)
    case FinishSync(ref, seen) => FinishSyncStep(s, ref, seen)
  }

  ghost function Run(s: State, commands: seq<Command>): State
    decreases commands
  {
    if commands == [] then s else Run(Step(s, commands[0]).state, commands[1..])
  }

  /** The request whose rows a command may touch. */
  function Target(c: Command): Option<RequestId> {
    match c
    case Reserve(input, _, _, _) => Some(input.requestId)
    case Reconcile(_, _, id, _, _) => Some(id)
    case Adjust(_, _, _, _, _) => None
    case Extend(ref, _, _) => Some(ref.requestId)
    case MarkDispatched(ref, _) => Some(ref.requestId)
    case Hold(ref, _) => Some(ref.requestId)
    case Settle(ref, _, _) => Some(ref.requestId)
    case Release(ref) => Some(ref.requestId)
    case MarkUncertain(ref) => Some(ref.requestId)
    case RecoverExpired(ref, _) => Some(ref.requestId)
    case FinishSync(ref, _) => Some(ref.requestId)
  }
}
