/**
 * What each ledger operation asks of the rows it finds and what it leaves in them, field by field. What no operation
 * touches is said once for all of them in LedgerSafety: OnlyTheTargetMoves and TermsAfter.
 */
module LedgerOperations {
  import opened Money
  import opened LedgerSpec
  import C = LedgerCoherence
  import S = LedgerSafety
  import Q = QuotaSpec
  import Sums

  /** A period that is not limited, or whose limit leaves room for so much more; a limit of zero leaves no room at all. */
  ghost predicate Room(s: State, p: PeriodId, limit: nat, unlimited: bool, amount: int) {
    unlimited || (limit > 0 && Spent(s, p) + Reserved(s, p) + amount <= limit)
  }

  // ----- reserving

  lemma ReservedExactly(s: State, input: ReserveInput, periodKey: nat, now: int, authorized: bool)
    requires input.requestId !in s.entries
    ensures var p := PeriodId(input.owner.groupId, periodKey);
            S.Accepted(ReserveStep(s, input, periodKey, now, authorized).outcome) <==>
              && IsCny(input.estimate) && input.owner.groupId in s.groups && authorized
              && (if p in s.terms then Room(s, p, s.terms[p].limit, s.terms[p].unlimited, input.estimate)
                  else Room(s, p, s.groups[p.groupId].defaultLimit, s.groups[p.groupId].unlimited, input.estimate))
    ensures var p := PeriodId(input.owner.groupId, periodKey);
            var r := ReserveStep(s, input, periodKey, now, authorized);
            S.Accepted(r.outcome) ==>
              && r.outcome == Held(input.estimate) && input.requestId in r.state.entries && p in r.state.terms
              && var e := r.state.entries[input.requestId];
                 && e.periodId == p && e.owner == input.owner && e.status.RESERVED?
                 && e.reserved == input.estimate && e.settled == 0 && !e.dispatched && e.leaseUntil == Some(now + 60_000)
                 && e.snapshot.reservation == input && e.snapshot.extensions == map[] && e.snapshot.hold.None?
                 && e.snapshot.settlement.None? && !e.snapshot.exceeded && !e.snapshot.manualFinal && !e.snapshot.redisSynced
                 && e.snapshot.redisActual.None? && e.snapshot.redisCorrection.None?
                 && r.state.logs == s.logs && r.state.groups == s.groups && r.state.operations == s.operations
                 && r.state.terms.Keys == s.terms.Keys + {p}
                 && (p !in s.terms ==>
                       r.state.terms[p].limit == s.groups[p.groupId].defaultLimit
                       && r.state.terms[p].unlimited == s.groups[p.groupId].unlimited)
  {
    hide Spent, Reserved;
  }

  lemma ReserveAgainExactly(s: State, input: ReserveInput, periodKey: nat, now: int, authorized: bool)
    requires input.requestId in s.entries
    ensures var e := s.entries[input.requestId];
            S.Accepted(ReserveStep(s, input, periodKey, now, authorized).outcome) <==>
              && IsCny(input.estimate) && input.owner.groupId in s.groups && authorized
              && e.snapshot.reservation == input && e.status.RESERVED?
    ensures ReserveStep(s, input, periodKey, now, authorized).state == s
    ensures var r := ReserveStep(s, input, periodKey, now, authorized);
            S.Accepted(r.outcome) ==> r.outcome == Held(s.entries[input.requestId].reserved)
  {
    hide Used;
  }

  /** The row a call refers to, in its open period. */
  predicate Found(s: State, ref: Ref) {
    ref.requestId in s.entries && s.entries[ref.requestId].periodId == ref.periodId && ref.periodId in s.terms
  }

  lemma ExtendedExactly(s: State, ref: Ref, additional: int, attempt: AttemptSnapshot)
    ensures var r := ExtendStep(s, ref, additional, attempt);
            S.Accepted(r.outcome) <==>
              && IsCny(additional) && Found(s, ref)
              && var e := s.entries[ref.requestId];
                 && (e.status.RESERVED? || e.status.RECONCILIATION_REQUIRED?)
                 && if attempt.attemptId in e.snapshot.extensions
                    then e.snapshot.extensions[attempt.attemptId].amount == additional
                         && e.snapshot.extensions[attempt.attemptId].attempt == attempt
                    else Room(s, ref.periodId, s.terms[ref.periodId].limit, s.terms[ref.periodId].unlimited, additional)
    ensures var r := ExtendStep(s, ref, additional, attempt);
            S.Accepted(r.outcome) ==>
              && ref.requestId in r.state.entries && r.outcome == Held(r.state.entries[ref.requestId].reserved)
              && var e, after := s.entries[ref.requestId], r.state.entries[ref.requestId];
                 if attempt.attemptId in e.snapshot.extensions then r.state == s
                 else
                   && after.reserved == e.reserved + additional
                   && after.snapshot.extensions == e.snapshot.extensions[attempt.attemptId := Extension(additional, attempt)]
                   && after == e.(reserved := after.reserved, snapshot := e.snapshot.(extensions := after.snapshot.extensions))
                   && r.state.logs == s.logs && r.state.groups == s.groups && r.state.operations == s.operations
  {
    hide Spent, Reserved, Raised;
  }

  // ----- charging

  /** The usage brought is this request's, of its owner, at the amount charged. */
  predicate Brings(usage: UsageInput, id: RequestId, owner: Owner, amount: int) {
    usage.requestId == id && usage.owner == owner && usage.cost == amount
  }

  lemma HeldExactly(s: State, ref: Ref, hold: HoldInput)
    ensures var r := HoldStep(s, ref, hold);
            S.Accepted(r.outcome) <==>
              && IsCny(hold.actual) && IsCny(hold.unresolved) && Found(s, ref)
              && var e := s.entries[ref.requestId];
                 e.snapshot.hold == Some(hold)
                 || (!e.snapshot.manualFinal && e.snapshot.hold.None? && (e.status.RESERVED? || e.status.RECONCILIATION_REQUIRED?)
                     && Brings(hold.usage, ref.requestId, e.owner, hold.actual) && ref.requestId !in s.logs)
    ensures var r := HoldStep(s, ref, hold);
            S.Accepted(r.outcome) ==>
              var e := s.entries[ref.requestId];
              if e.snapshot.hold == Some(hold) then r.state == s
              else
                && ref.requestId in r.state.entries && ref.requestId in r.state.logs
                && var after, log := r.state.entries[ref.requestId], r.state.logs[ref.requestId];
                   && after.status.RECONCILIATION_REQUIRED? && after.settled == hold.actual && after.reserved == hold.unresolved
                   && after.leaseUntil.None? && after.snapshot.hold == Some(hold)
                   && after == e.(status := after.status, settled := after.settled, reserved := after.reserved, leaseUntil := None,
                                  snapshot := e.snapshot.(hold := Some(hold)))
                   && log.owner == e.owner && log.cost == hold.actual
                   && log.inputTokens == hold.usage.inputTokens && log.outputTokens == hold.usage.outputTokens
                   && (hold.usage.routes.Some? ==> IsRoutes(log.routes, hold.usage.routes.value))
                   && (hold.usage.routes.None? ==> log.routes == map[])
                   && r.state.groups == s.groups && r.state.operations == s.operations
  {
    hide Used, Raised;
  }

  /** A charge still to be made. */
  predicate Settleable(s: State, ref: Ref, actual: int, usage: UsageInput) {
    && IsCny(actual) && Found(s, ref)
    && var e := s.entries[ref.requestId];
       && !e.snapshot.manualFinal && (e.status.RESERVED? || e.status.RECONCILIATION_REQUIRED?)
       && Brings(usage, ref.requestId, e.owner, actual)
       && (ref.requestId in s.logs ==>
             e.snapshot.hold.Some? && s.logs[ref.requestId].owner == e.owner && s.logs[ref.requestId].cost == e.settled)
  }

  lemma SettledExactly(s: State, ref: Ref, actual: int, usage: UsageInput)
    ensures var r := SettleStep(s, ref, actual, usage);
            S.Accepted(r.outcome) <==>
              || Settleable(s, ref, actual, usage)
              || (IsCny(actual) && Found(s, ref)
                  && var e := s.entries[ref.requestId];
                     !e.snapshot.manualFinal && e.status.SETTLED? && e.snapshot.settlement == Some(usage.(cost := actual)))
    ensures !Settleable(s, ref, actual, usage) ==> SettleStep(s, ref, actual, usage).state == s
    ensures var r := SettleStep(s, ref, actual, usage);
            S.Accepted(r.outcome) && !Settleable(s, ref, actual, usage) ==>
              r.outcome == Settlement(s.entries[ref.requestId].snapshot.exceeded)
  {
    hide Used, OverLimit, Raised, NewLog, ReplacedLog, SettledEntry;
  }

  lemma SettledRows(s: State, ref: Ref, actual: int, usage: UsageInput)
    requires Settleable(s, ref, actual, usage)
    ensures var r := SettleStep(s, ref, actual, usage);
            && ref.requestId in r.state.entries
            && var e, after := s.entries[ref.requestId], r.state.entries[ref.requestId];
               && after.status.SETTLED? && after.settled == actual && after.leaseUntil.None? && !after.snapshot.redisSynced
               && after.snapshot.settlement == Some(usage.(cost := actual))
               && after.snapshot.redisActual == Some(ActualAmounts(usage.inputTokens, usage.outputTokens, actual))
               && after.periodId == e.periodId && after.owner == e.owner && after.reserved == e.reserved
               && after.dispatched == e.dispatched && after.snapshot.reservation == e.snapshot.reservation
               && after.snapshot.extensions == e.snapshot.extensions && after.snapshot.hold == e.snapshot.hold
               && after.snapshot.redisCorrection == e.snapshot.redisCorrection && !after.snapshot.manualFinal
               && r.state.groups == s.groups && r.state.operations == s.operations
  {
    SettledEntryFields(s.entries[ref.requestId], usage, actual);
    hide Used, OverLimit, Raised, NewLog, ReplacedLog, SettledEntry;
  }

  lemma SettledEntryFields(e: Entry, usage: UsageInput, actual: Cny)
    requires !e.snapshot.manualFinal
    ensures forall exceeded ::
              var after := SettledEntry(e, usage.(cost := actual), actual, exceeded);
              && after.status.SETTLED? && after.settled == actual && after.leaseUntil.None? && !after.snapshot.redisSynced
              && after.snapshot.settlement == Some(usage.(cost := actual))
              && after.snapshot.redisActual == Some(ActualAmounts(usage.inputTokens, usage.outputTokens, actual))
              && after.periodId == e.periodId && after.owner == e.owner && after.reserved == e.reserved
              && after.dispatched == e.dispatched && after.snapshot.reservation == e.snapshot.reservation
              && after.snapshot.extensions == e.snapshot.extensions && after.snapshot.hold == e.snapshot.hold
              && after.snapshot.redisCorrection == e.snapshot.redisCorrection && !after.snapshot.manualFinal
  {
  }

  lemma SettledLogRow(s: State, ref: Ref, actual: int, usage: UsageInput)
    requires Settleable(s, ref, actual, usage)
    ensures var r := SettleStep(s, ref, actual, usage);
            && ref.requestId in r.state.logs
            && var log := r.state.logs[ref.requestId];
               && log.owner == s.entries[ref.requestId].owner && log.cost == actual
               && log.inputTokens == usage.inputTokens && log.outputTokens == usage.outputTokens
               && (usage.routes.Some? ==> IsRoutes(log.routes, usage.routes.value))
               && (usage.routes.None? ==>
                     log.routes == if ref.requestId in s.logs then s.logs[ref.requestId].routes else map[])
  {
    hide Used, OverLimit, Raised, SettledEntry, NewLog, ReplacedLog, IsRoutes;
    NewLogFields(usage, actual);
    if ref.requestId in s.logs { ReplacedLogFields(s.logs[ref.requestId], usage, actual); }
  }

  /** One row for each route, in their order. */
  ghost predicate IsRoutes(rows: map<nat, Option<Cny>>, routes: seq<Option<Cny>>) {
    && (forall i: nat :: i in rows <==> i < |routes|)
    && (forall i: nat :: i < |routes| ==> rows[i] == routes[i])
  }

  lemma NewLogFields(usage: UsageInput, amount: Cny)
    ensures var log := NewLog(usage, amount);
            && log.owner == usage.owner && log.cost == amount
            && log.inputTokens == usage.inputTokens && log.outputTokens == usage.outputTokens
            && (usage.routes.Some? ==> IsRoutes(log.routes, usage.routes.value)) && (usage.routes.None? ==> log.routes == map[])
  {
  }

  lemma ReplacedLogFields(log: Log, usage: UsageInput, amount: Cny)
    ensures var after := ReplacedLog(log, usage, amount);
            && after.owner == usage.owner && after.cost == amount
            && after.inputTokens == usage.inputTokens && after.outputTokens == usage.outputTokens
            && (usage.routes.Some? ==> IsRoutes(after.routes, usage.routes.value))
            && (usage.routes.None? ==> after.routes == log.routes)
  {
  }

  /** The verdict of a settlement, recorded and reported: the period is limited and has spent more than its limit. */
  lemma SettlementVerdict(s: State, ref: Ref, actual: int, usage: UsageInput)
    requires Settleable(s, ref, actual, usage)
    ensures var r := SettleStep(s, ref, actual, usage);
            && ref.requestId in r.state.entries && r.outcome == Settlement(r.state.entries[ref.requestId].snapshot.exceeded)
            && (r.state.entries[ref.requestId].snapshot.exceeded <==>
                  !s.terms[ref.periodId].unlimited && Spent(r.state, ref.periodId) > s.terms[ref.periodId].limit)
  {
    var id, e := ref.requestId, s.entries[ref.requestId];
    var billed := usage.(cost := actual);
    var log := if id in s.logs then ReplacedLog(s.logs[id], usage, actual) else NewLog(usage, actual);
    var logged := WithLog(s, id, log);
    var verdict := OverLimit(WithEntry(logged, id, SettledEntry(e, billed, actual, false)), ref.periodId);
    SameSpending(WithEntry(logged, id, SettledEntry(e, billed, actual, false)),
                 WithEntry(logged, id, SettledEntry(e, billed, actual, verdict)), id, ref.periodId);
    hide Spent, Reserved, Raised, NewLog, ReplacedLog;
  }

  lemma SameSpending(s: State, t: State, id: RequestId, p: PeriodId)
    requires id in s.entries && id in t.entries && s.entries[id].settled == t.entries[id].settled
    requires s.entries[id].periodId == t.entries[id].periodId && t.entries == s.entries[id := t.entries[id]]
    ensures Spent(t, p) == Spent(s, p)
  {
    Sums.SumWrite(s.entries, SettledIn(p), id, t.entries[id]);
    hide Sums.SumOver;
  }

  // ----- ending without a charge

  lemma ReleasedExactly(s: State, ref: Ref)
    ensures var r := ReleaseStep(s, ref);
            S.Accepted(r.outcome) <==>
              && Found(s, ref)
              && var e := s.entries[ref.requestId]; e.status.RELEASED? || (e.status.RESERVED? && !e.dispatched)
    ensures var r := ReleaseStep(s, ref);
            S.Accepted(r.outcome) ==>
              var e := s.entries[ref.requestId];
              r.state == if e.status.RELEASED? then s
                         else s.(entries := s.entries[ref.requestId := e.(status := RELEASED, leaseUntil := None,
                                                                          snapshot := e.snapshot.(redisSynced := false))])
  {
  }

  lemma DoubtedExactly(s: State, ref: Ref)
    ensures var r := MarkUncertainStep(s, ref);
            && (S.Accepted(r.outcome) <==> Found(s, ref))
            && (S.Accepted(r.outcome) ==>
                  var e := s.entries[ref.requestId];
                  r.state == if e.status.SETTLED? || e.status.RELEASED? then s
                             else s.(entries := s.entries[ref.requestId := e.(status := RECONCILIATION_REQUIRED, leaseUntil := None)]))
  {
  }

  lemma MarkedExactly(s: State, ref: Ref, leaseUntil: int)
    ensures var r := MarkDispatchedStep(s, ref, leaseUntil);
            && (S.Accepted(r.outcome) <==> Found(s, ref) && s.entries[ref.requestId].status.RESERVED?)
            && (S.Accepted(r.outcome) ==>
                  r.state == s.(entries := s.entries[ref.requestId := s.entries[ref.requestId].(dispatched := true,
                                                                                                leaseUntil := Some(leaseUntil))]))
  {
  }

  /** Recovery acts on a reserved entry whose lease has run out, and on no other. */
  lemma RecoveredExactly(s: State, ref: Ref, now: int)
    ensures var r := RecoverStep(s, ref, now);
            && (r.outcome.Recovered? <==>
                  && Found(s, ref) && s.entries[ref.requestId].status.RESERVED?
                  && s.entries[ref.requestId].leaseUntil.Some? && s.entries[ref.requestId].leaseUntil.value <= now)
            && (!r.outcome.Recovered? ==> r.state == s)
            && (r.outcome.Recovered? ==>
                  && ref.requestId in r.state.entries
                  && var e, after := s.entries[ref.requestId], r.state.entries[ref.requestId];
                     && r.outcome == Recovered(after.status)
                     && (after.status.RELEASED? <==> !e.dispatched) && (after.status.RECONCILIATION_REQUIRED? <==> e.dispatched)
                     && after.leaseUntil.None? && after.reserved == e.reserved && after.settled == e.settled)
  {
  }

  // ----- administration

  /** The routes an administrator brings, or the whole amount on the only route there is. */
  predicate Allocates(log: Option<Log>, input: ReconcileInput, costs: seq<RouteCost>) {
    if input.routes.Some? then costs == input.routes.value
    else if log.Some? && log.value.routes.Keys == {0} then costs == [RouteCost(0, input.actual)]
    else costs == []
  }

  predicate Reconcilable(s: State, groupId: nat, id: RequestId, input: ReconcileInput, authorized: bool, costs: seq<RouteCost>) {
    && authorized && IsCny(input.actual) && (input.action.RELEASE? ==> input.actual == 0)
    && id in s.entries && s.entries[id].periodId.groupId == groupId && s.entries[id].periodId in s.terms
    && var e := s.entries[id];
       && (e.status.SETTLED? || e.status.RECONCILIATION_REQUIRED?)
       && (id in s.logs ==>
             && s.logs[id].owner.organizationId == e.owner.organizationId && s.logs[id].owner.accountId == e.owner.accountId
             && s.logs[id].owner.groupId == e.owner.groupId)
       && (id !in s.logs ==>
             && costs == [] && e.snapshot.reservation.snapshot.usage.Some?
             && e.snapshot.reservation.snapshot.usage.value.requestId == id
             && e.snapshot.reservation.snapshot.usage.value.owner == e.owner)
       && (id in s.logs && (s.logs[id].routes != map[] || costs != []) ==>
             && |costs| == |s.logs[id].routes| && SumOfCosts(costs) == input.actual
             && forall i, j :: 0 <= i < j < |costs| ==> costs[i].id != costs[j].id)
       && forall i :: 0 <= i < |costs| ==> IsCny(costs[i].cost) && id in s.logs && costs[i].id in s.logs[id].routes
  }

  lemma AllocationIs(log: Option<Log>, input: ReconcileInput, costs: seq<RouteCost>)
    requires IsCny(input.actual)
    ensures Allocates(log, input, costs) <==> costs == Allocation(log, input, input.actual)
  {
    if log.Some? && |log.value.routes| == 1 && 0 in log.value.routes {
      OnlyKey(log.value.routes, 0);
    }
  }

  lemma OnlyKey<T>(m: map<nat, T>, k: nat)
    requires |m| == 1 && k in m
    ensures m.Keys == {k}
  {
    assert |m.Keys| == 1 && {k} <= m.Keys;
    if other :| other in m.Keys && other != k {
      assert {k, other} <= m.Keys;
      SubsetIsSmaller({k, other}, m.Keys);
    }
  }

  lemma SubsetIsSmaller<T>(a: set<T>, b: set<T>)
    requires a <= b
    ensures |a| <= |b|
  {
    assert |b - a| == |b| - |a|;
  }

  lemma ReconciledExactly(s: State, groupId: nat, actor: nat, id: RequestId, input: ReconcileInput, authorized: bool, costs: seq<RouteCost>)
    requires input.operationId !in s.operations && Allocates(if id in s.logs then Some(s.logs[id]) else None, input, costs)
    ensures S.Accepted(ReconcileStep(s, groupId, actor, id, input, authorized).outcome)
            <==> Reconcilable(s, groupId, id, input, authorized, costs)
  {
    if IsCny(input.actual) { AllocationIs(FindLog(s, id), input, costs); }
    if costs == [] { assert SumOfCosts(costs) == 0; }
    if id in s.logs && s.logs[id].routes == map[] { assert |s.logs[id].routes| == 0; }
    hide Allocation, SumOfCosts, Reconciliation;
  }

  /** What an accepted reconciliation writes: entry, log and routes all at the corrected amount, and a correction that carries it. */
  lemma ReconciledRows(s: State, groupId: nat, actor: nat, id: RequestId, input: ReconcileInput, authorized: bool, costs: seq<RouteCost>)
    requires input.operationId !in s.operations && Reconcilable(s, groupId, id, input, authorized, costs)
    requires Allocates(if id in s.logs then Some(s.logs[id]) else None, input, costs)
    ensures var t := ReconcileStep(s, groupId, actor, id, input, authorized).state;
            && id in t.entries && id in t.logs && input.operationId in t.operations
            && t.operations == s.operations[input.operationId := Reconciled(groupId, actor, id, input)] && t.groups == s.groups
            && var e, after := s.entries[id], t.entries[id];
               && after.settled == input.actual && after.leaseUntil.None? && after.snapshot.manualFinal && !after.snapshot.redisSynced
               && (after.status.RELEASED? <==> input.action.RELEASE?) && (after.status.SETTLED? <==> input.action.SETTLE?)
               && after.periodId == e.periodId && after.owner == e.owner && after.reserved == e.reserved
               && after.dispatched == e.dispatched && after.snapshot.reservation == e.snapshot.reservation
               && after.snapshot.redisCorrection
                  == Some(Q.Correction(input.operationId, Micro(input.actual),
                                       if e.snapshot.redisCorrection.Some? then e.snapshot.redisCorrection.value.version + 1 else 1))
               && (e.snapshot.redisActual.Some? ==> after.snapshot.redisActual == e.snapshot.redisActual)
               && (e.snapshot.redisActual.None? ==>
                     after.snapshot.redisActual == Some(ActualAmounts(t.logs[id].inputTokens, t.logs[id].outputTokens, input.actual)))
  {
    AllocationIs(FindLog(s, id), input, costs);
    ReconciledExactly(s, groupId, actor, id, input, authorized, costs);
    hide Allocation, SumOfCosts, Allocated, AllCny, AllocationNames, Raised, Used;
  }

  lemma ReconciledLogRow(s: State, groupId: nat, actor: nat, id: RequestId, input: ReconcileInput, authorized: bool, costs: seq<RouteCost>)
    requires input.operationId !in s.operations && Reconcilable(s, groupId, id, input, authorized, costs)
    requires Allocates(if id in s.logs then Some(s.logs[id]) else None, input, costs)
    ensures var t := ReconcileStep(s, groupId, actor, id, input, authorized).state;
            && id in t.logs && t.logs[id].cost == input.actual
            && (id in s.logs ==>
                  && t.logs[id].inputTokens == s.logs[id].inputTokens && t.logs[id].outputTokens == s.logs[id].outputTokens
                  && t.logs[id].owner == s.logs[id].owner && t.logs[id].routes.Keys == s.logs[id].routes.Keys
                  && forall i :: 0 <= i < |costs| ==>
                       costs[i].id in t.logs[id].routes && t.logs[id].routes[costs[i].id] == Some(costs[i].cost))
            && (id !in s.logs ==>
                  t.logs[id].owner == s.entries[id].owner && t.logs[id].inputTokens == t.logs[id].outputTokens == 0
                  && t.logs[id].routes == map[])
  {
    AllocationIs(FindLog(s, id), input, costs);
    ReconciledExactly(s, groupId, actor, id, input, authorized, costs);
    hide Allocation, SumOfCosts, AllocationNames, Raised, Used, Allocated, ReconciledEntry;
    if id in s.logs {
      AllocatedRoutes(s.logs[id].routes, costs);
    }
  }

  lemma {:induction false} AllocatedRoutes(routes: map<nat, Option<Cny>>, costs: seq<RouteCost>)
    requires AllCny(costs) && forall i :: 0 <= i < |costs| ==> costs[i].id in routes
    ensures Allocated(routes, costs).Keys == routes.Keys
    ensures (forall i, j :: 0 <= i < j < |costs| ==> costs[i].id != costs[j].id) ==>
              forall i :: 0 <= i < |costs| ==> Allocated(routes, costs)[costs[i].id] == Some(costs[i].cost)
    ensures forall k :: k in routes && (forall i :: 0 <= i < |costs| ==> costs[i].id != k) ==> Allocated(routes, costs)[k] == routes[k]
    decreases costs
  {
    if costs != [] {
      AllocatedRoutes(routes[costs[0].id := Some(costs[0].cost)], costs[1..]);
      assert forall i :: 0 < i < |costs| ==> costs[i] == costs[1..][i - 1];
    }
  }

  /** The period an adjustment is about: one that is named must be open, the current one is opened if need be. */
  function Adjusting(groupId: nat, input: AdjustInput, currentKey: nat): PeriodId {
    PeriodId(groupId, if input.scope.CURRENT? && input.scope.period.Some? then input.scope.period.value else currentKey)
  }

  lemma AdjustedExactly(s: State, groupId: nat, actor: nat, input: AdjustInput, currentKey: nat, authorized: bool)
    requires input.operationId !in s.operations
    ensures var p := Adjusting(groupId, input, currentKey);
            S.Accepted(AdjustStep(s, groupId, actor, input, currentKey, authorized).outcome) <==>
              && authorized && IsCny(input.limit) && groupId in s.groups && !s.groups[groupId].archived
              && (input.scope.CURRENT? && input.scope.period.Some? ==> p in s.terms)
              && (input.scope.CURRENT? && !input.unlimited ==> Spent(s, p) + Reserved(s, p) <= input.limit)
  {
    hide Spent, Reserved, Adjustment;
  }

  /** An accepted adjustment of a period sets the terms asked for, and no other period's or group's. */
  lemma PeriodIsAdjusted(s: State, groupId: nat, actor: nat, input: AdjustInput, currentKey: nat, authorized: bool)
    requires input.operationId !in s.operations && input.scope.CURRENT?
    requires S.Accepted(AdjustStep(s, groupId, actor, input, currentKey, authorized).outcome)
    ensures var p := Adjusting(groupId, input, currentKey);
            var t := AdjustStep(s, groupId, actor, input, currentKey, authorized).state;
            && p in t.terms && t.terms[p].limit == input.limit && t.terms[p].unlimited == input.unlimited
            && t.terms.Keys == s.terms.Keys + {p} && (forall q :: q in s.terms && q != p ==> t.terms[q] == s.terms[q])
            && t.groups == s.groups && t.entries == s.entries && t.logs == s.logs
            && t.operations == s.operations[input.operationId := Adjusted(groupId, actor, input)]
  {
    hide Used;
  }

  /** An accepted adjustment of the defaults sets them and leaves the limits of every period as they were. */
  lemma DefaultsAreAdjusted(s: State, groupId: nat, actor: nat, input: AdjustInput, currentKey: nat, authorized: bool)
    requires input.operationId !in s.operations && input.scope.DEFAULT?
    requires S.Accepted(AdjustStep(s, groupId, actor, input, currentKey, authorized).outcome)
    ensures var t := AdjustStep(s, groupId, actor, input, currentKey, authorized).state;
            && t.groups == s.groups[groupId := t.groups[groupId]] && t.groups[groupId].archived == s.groups[groupId].archived
            && t.groups[groupId].defaultLimit == input.limit && t.groups[groupId].unlimited == input.unlimited
            && (forall q :: q in s.terms ==> q in t.terms && t.terms[q] == s.terms[q])
            && (forall q :: q in t.terms && q !in s.terms ==>
                  q == PeriodId(groupId, currentKey) && t.terms[q].limit == s.groups[groupId].defaultLimit
                  && t.terms[q].unlimited == s.groups[groupId].unlimited)
            && t.entries == s.entries && t.logs == s.logs
            && t.operations == s.operations[input.operationId := Adjusted(groupId, actor, input)]
  {
    hide Used;
  }

  /** The next period a group opens, by a reservation or by an adjustment of the defaults, starts with exactly its defaults. */
  lemma NextPeriodStartsWithDefaults(s: State, groupId: nat, actor: nat, input: AdjustInput, currentKey: nat, authorized: bool,
                                     reserve: ReserveInput, periodKey: nat, now: int)
    requires input.operationId !in s.operations && input.scope.DEFAULT? && reserve.owner.groupId == groupId
    requires S.Accepted(AdjustStep(s, groupId, actor, input, currentKey, authorized).outcome)
    ensures var t := AdjustStep(s, groupId, actor, input, currentKey, authorized).state;
            var r := ReserveStep(t, reserve, periodKey, now, true);
            var p := PeriodId(groupId, periodKey);
            p !in t.terms && reserve.requestId !in t.entries && S.Accepted(r.outcome) ==>
              p in r.state.terms && r.state.terms[p].limit == input.limit && r.state.terms[p].unlimited == input.unlimited
  {
    var t := AdjustStep(s, groupId, actor, input, currentKey, authorized).state;
    DefaultsAreAdjusted(s, groupId, actor, input, currentKey, authorized);
    hide AdjustStep, ReserveStep;
    if reserve.requestId !in t.entries { ReservedExactly(t, reserve, periodKey, now, true); }
  }

  /** An operation id used before is answered if the call is the one remembered, and refused otherwise; nothing is done again. */
  lemma OperationAgainExactly(s: State, groupId: nat, actor: nat, id: RequestId, reconciliation: ReconcileInput,
                              adjustment: AdjustInput, currentKey: nat, authorized: bool)
    ensures var r := ReconcileStep(s, groupId, actor, id, reconciliation, authorized);
            reconciliation.operationId in s.operations ==>
              && r.state == s
              && (S.Accepted(r.outcome) ==>
                    s.operations[reconciliation.operationId] == Reconciled(groupId, actor, id, reconciliation))
    ensures var r := AdjustStep(s, groupId, actor, adjustment, currentKey, authorized);
            adjustment.operationId in s.operations ==>
              && r.state == s
              && (S.Accepted(r.outcome) ==> s.operations[adjustment.operationId] == Adjusted(groupId, actor, adjustment))
  {
    hide Used, AllocationNames, AllCny, Reconciliation, Adjustment;
  }

  lemma SynchronisedExactly(s: State, ref: Ref, seen: Option<Correction>)
    ensures var r := FinishSyncStep(s, ref, seen);
            r.outcome.Done? <==> Found(s, ref) && s.entries[ref.requestId].snapshot.redisCorrection == seen
    ensures var r := FinishSyncStep(s, ref, seen);
            r.state == if r.outcome.Done?
                       then s.(entries := s.entries[ref.requestId := s.entries[ref.requestId].(
                                            snapshot := s.entries[ref.requestId].snapshot.(redisSynced := true))])
                       else s
  {
  }

  /** What the error of a refused call tells about the rows it found. */
  lemma FundingRefusalMeans(s: State, c: Command)
    requires (c.Reserve? || c.Extend?) && Step(s, c).outcome.Rejected?
    ensures c.Reserve? ==>
              match Step(s, c).outcome.error
              case BadRequest => !IsCny(c.input.estimate)
              case NotFound => c.input.owner.groupId !in s.groups
              case Forbidden => !c.authorized
              case Conflict => c.input.requestId in s.entries
              case BudgetExceeded => c.input.requestId !in s.entries
              case DuplicateLog => false
    ensures c.Extend? ==>
              match Step(s, c).outcome.error
              case BadRequest => !IsCny(c.additional)
              case NotFound => !Found(s, c.ref)
              case Conflict => Found(s, c.ref)
              case BudgetExceeded => Found(s, c.ref) && c.attempt.attemptId !in s.entries[c.ref.requestId].snapshot.extensions
              case _ => false
  {
    hide Used, CanAfford;
  }

  lemma ChargingRefusalMeans(s: State, c: Command)
    requires (c.Hold? || c.Settle?) && Step(s, c).outcome.Rejected?
    ensures match Step(s, c).outcome.error
            case BadRequest => if c.Settle? then !IsCny(c.actual) else !IsCny(c.hold.actual) || !IsCny(c.hold.unresolved)
            case NotFound => !Found(s, c.ref)
            case Conflict => Found(s, c.ref)
            case DuplicateLog => c.Hold? && c.ref.requestId in s.logs
            case _ => false
  {
    hide Used, OverLimit;
  }

  lemma AdministrationRefusalMeans(s: State, c: Command)
    requires (c.Reconcile? || c.Adjust?) && Step(s, c).outcome.Rejected?
    ensures match Step(s, c).outcome.error
            case Forbidden => !c.authorized
            case NotFound =>
              if c.Reconcile? then
                c.requestId !in s.entries || s.entries[c.requestId].periodId.groupId != c.groupId
                || s.entries[c.requestId].periodId !in s.terms
              else c.groupId !in s.groups || c.adjustment.scope.CURRENT?
            case BadRequest => c.Reconcile? || !IsCny(c.adjustment.limit)
            case Conflict => true
            case _ => false
  {
    hide Used, AllocationNames, AllCny, SumOfCosts, Reconciliation, Adjustment, Allocation;
  }

  // ----- alerts

  /** An alert mark never falls, and a limited period that is eight tenths or all used is marked so. */
  lemma AlertMeans(s: State, p: PeriodId)
    ensures var t := Alerted(s, p);
            && t == s.(terms := t.terms) && t.terms.Keys == s.terms.Keys
            && (forall q :: q in s.terms && q != p ==> t.terms[q] == s.terms[q])
            && (p in s.terms ==>
                  && t.terms[p].limit == s.terms[p].limit && t.terms[p].unlimited == s.terms[p].unlimited
                  && t.terms[p].alerted >= s.terms[p].alerted
                  && (t.terms[p].alerted != s.terms[p].alerted ==>
                        !s.terms[p].unlimited && (t.terms[p].alerted == 100 || t.terms[p].alerted == 80))
                  && (!s.terms[p].unlimited ==>
                        var limit, used := s.terms[p].limit, Spent(s, p) + Reserved(s, p);
                        && (used >= limit ==> t.terms[p].alerted >= 100)
                        && (used * 10 >= limit * 8 ==> t.terms[p].alerted >= 80)
                        && (used < limit && t.terms[p].alerted == 100 ==> s.terms[p].alerted == 100)
                        && (used * 10 < limit * 8 ==> t.terms[p].alerted == s.terms[p].alerted)))
  {
    hide Spent, Reserved;
  }

  /** A period with a limit to speak of is marked by what is used of it. */
  ghost predicate Up(s: State, p: PeriodId) {
    p in s.terms && !s.terms[p].unlimited && s.terms[p].limit > 0 ==>
      && (Used(s, p) >= s.terms[p].limit ==> s.terms[p].alerted >= 100)
      && (Used(s, p) * 10 >= s.terms[p].limit * 8 ==> s.terms[p].alerted >= 80)
  }

  /** The period whose use or terms a call may raise. */
  function Touches(s: State, c: Command): Option<PeriodId> {
    match c
    case Reserve(input, periodKey, _, _) => Some(PeriodId(input.owner.groupId, periodKey))
    case Extend(ref, _, _) => Some(ref.periodId)
    case Hold(ref, _) => Some(ref.periodId)
    case Settle(ref, _, _) => Some(ref.periodId)
    case Reconcile(_, _, id, _, _) => if id in s.entries then Some(s.entries[id].periodId) else None
    case Adjust(groupId, _, input, currentKey, _) => if input.scope.CURRENT? then Some(Adjusting(groupId, input, currentKey)) else None
    case _ => None
  }

  lemma AlertedIsUp(u: State, t: State, p: PeriodId)
    requires t.terms == Alerted(u, p).terms && t.entries == u.entries
    ensures Up(t, p)
  {
    assert Used(t, p) == Used(u, p) by { hide Sums.SumOver; }
    hide Used;
  }

  lemma FundingIsUp(s: State, c: Command)
    requires (c.Reserve? || c.Extend? || c.Adjust?) && Step(s, c).state != s && Touches(s, c).Some?
    ensures Up(Step(s, c).state, Touches(s, c).value)
  {
    var p, t := Touches(s, c).value, Step(s, c).state;
    if c.Reserve? {
      var ready := s.(terms := s.terms[p := TermsFor(s, p)]);
      AlertedIsUp(WithEntry(ready, c.input.requestId, NewEntry(c.input, p, c.input.estimate, c.now)), t, p);
    } else if c.Extend? {
      AlertedIsUp(WithEntry(s, c.ref.requestId, ExtendedEntry(s.entries[c.ref.requestId], c.additional, c.attempt)), t, p);
    } else {
      AdjustedIsUp(s, c);
    }
    hide Used, Up, CanAfford, Raised;
  }

  lemma AdjustedIsUp(s: State, c: Command)
    requires c.Adjust? && Step(s, c).state != s && Touches(s, c).Some?
    ensures Up(Step(s, c).state, Touches(s, c).value)
  {
    var p, t := Touches(s, c).value, Step(s, c).state;
    var ready := s.(terms := s.terms[p := TermsFor(s, p)]);
    AlertedIsUp(ready.(terms := ready.terms[p := ready.terms[p].(limit := c.adjustment.limit, unlimited := c.adjustment.unlimited)]), t, p);
    hide Used, Up, Raised;
  }

  lemma ChargingIsUp(s: State, c: Command)
    requires (c.Hold? || c.Settle?) && Step(s, c).state != s
    ensures Up(Step(s, c).state, Touches(s, c).value)
  {
    hide Used, Up, Raised, OverLimit, NewLog, ReplacedLog, HeldEntry, SettledEntry;
    var t := Step(s, c).state;
    SameAlerts(s, c);
    AlertedIsUp(s.(entries := t.entries, logs := t.logs), t, c.ref.periodId);
  }

  lemma SameAlerts(s: State, c: Command)
    requires (c.Hold? || c.Settle?) && Step(s, c).state != s
    ensures var t := Step(s, c).state; t.terms == Alerted(s.(entries := t.entries, logs := t.logs), c.ref.periodId).terms
  {
    hide Used, Raised, OverLimit, NewLog, ReplacedLog, HeldEntry, SettledEntry;
  }

  lemma ReconcilingIsUp(s: State, c: Command)
    requires c.Reconcile? && Step(s, c).state != s
    ensures c.requestId in s.entries && Up(Step(s, c).state, s.entries[c.requestId].periodId)
  {
    hide Used, Up, Raised, ReconciledEntry, ReconciledLog, AllocationNames, AllCny, SumOfCosts;
    var t := Step(s, c).state;
    SameAlertsReconciling(s, c);
    AlertedIsUp(s.(entries := t.entries, logs := t.logs), t, s.entries[c.requestId].periodId);
  }

  lemma SameAlertsReconciling(s: State, c: Command)
    requires c.Reconcile? && Step(s, c).state != s
    ensures c.requestId in s.entries
    ensures var t := Step(s, c).state;
            t.terms == Alerted(s.(entries := t.entries, logs := t.logs), s.entries[c.requestId].periodId).terms
  {
    hide Used, Raised, ReconciledLog, AllocationNames, AllCny, SumOfCosts;
  }

  /** A call that does not touch a period leaves its terms as they were, opens it at its group's defaults, and uses no more of it. */
  lemma UntouchedStaysUp(s: State, c: Command, p: PeriodId)
    requires C.Coherent(s) && Up(s, p) && Touches(s, c) != Some(p)
    ensures Up(Step(s, c).state, p)
  {
    S.UseAfter(s, c, p);
    if p !in s.terms { S.UnopenedIsUnused(s, p); }
    hide Used, C.Coherent;
    UntouchedGrowsNothing(s, c, p);
    UntouchedTerms(s, c, p);
    hide Step, S.Growth;
  }

  lemma UntouchedGrowsNothing(s: State, c: Command, p: PeriodId)
    requires C.Coherent(s) && Touches(s, c) != Some(p)
    ensures S.Growth(s, c, p) <= 0
  {
    hide C.Coherent, S.Growth;
    if c.MarkDispatched? || c.Release? || c.MarkUncertain? || c.RecoverExpired? || c.FinishSync? {
      S.MarksNeverGrow(s, c, p);
    } else if c.Adjust? {
      S.AdjustmentsClaimNothing(s, c, p);
    } else {
      OthersGrowNothing(s, c, p);
    }
  }

  lemma OthersGrowNothing(s: State, c: Command, p: PeriodId)
    requires c.Reserve? || c.Extend? || c.Hold? || c.Settle? || c.Reconcile?
    requires Touches(s, c) != Some(p)
    ensures S.Growth(s, c, p) <= 0
  {
    if Step(s, c).state == s {
      hide Step;
    } else {
      TargetIsInItsPeriod(s, c);
      hide Step;
    }
  }

  /** A call that moves money does so in the period it touches. */
  lemma TargetIsInItsPeriod(s: State, c: Command)
    requires (c.Reserve? || c.Extend? || c.Hold? || c.Settle? || c.Reconcile?) && Step(s, c).state != s
    ensures var t := Step(s, c).state;
            && Target(c).Some? && Target(c).value in t.entries && Touches(s, c) == Some(t.entries[Target(c).value].periodId)
  {
    hide Used, OverLimit, CanAfford, Raised, NewLog, ReplacedLog, AllocationNames, AllCny, SumOfCosts, ReconciledLog;
  }

  lemma UntouchedTerms(s: State, c: Command, p: PeriodId)
    requires Touches(s, c) != Some(p)
    ensures var t := Step(s, c).state;
            && (p in s.terms ==> p in t.terms && t.terms[p] == s.terms[p])
            && (p in t.terms && p !in s.terms ==> t.terms[p].alerted == 0 && c.Adjust?)
  {
    hide Used, OverLimit, CanAfford, Raised, NewLog, ReplacedLog, AllocationNames, AllCny, SumOfCosts, ReconciledLog, HeldEntry,
         SettledEntry, ReconciledEntry;
  }

  lemma StepKeepsUp(s: State, c: Command, p: PeriodId)
    requires C.Coherent(s) && Up(s, p)
    ensures Up(Step(s, c).state, p)
  {
    hide C.Coherent, Up, Step;
    if Touches(s, c) != Some(p) {
      UntouchedStaysUp(s, c, p);
    } else if Step(s, c).state != s {
      if c.Reserve? || c.Extend? || c.Adjust? {
        FundingIsUp(s, c);
      } else if c.Reconcile? {
        ReconcilingIsUp(s, c);
      } else {
        ChargingIsUp(s, c);
      }
    }
  }

  /** In every reachable state a period with a limit is marked at eight tenths and at all of what is used of it. */
  lemma {:induction false} AlertsAreUp(s: State, commands: seq<Command>, p: PeriodId)
    requires C.Coherent(s) && Up(s, p)
    ensures Up(Run(s, commands), p)
    decreases commands
  {
    if commands != [] {
      C.StepKeepsCoherent(s, commands[0]);
      StepKeepsUp(s, commands[0], p);
      hide C.Coherent, Up, Step;
      AlertsAreUp(Step(s, commands[0]).state, commands[1..], p);
    }
  }
}
