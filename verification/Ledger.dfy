/** The ledger as the database keeps it: every period row carries totals that operations only ever increment. */
module Ledger {
  import opened Money
  import opened Sums
  import opened LedgerSpec
  import opened LedgerCoherence
  import opened Recovery

  datatype Totals = Totals(spent: int, reserved: int)

  // ----- the totals against the entries

  /** Conservation: the two columns of every period are the sums over its requests. */
  ghost predicate Agrees(s: State, totals: map<PeriodId, Totals>) {
    totals.Keys == s.terms.Keys
    && forall p :: p in totals ==> totals[p].spent == Spent(s, p) && totals[p].reserved == Reserved(s, p)
  }

  function TotalsOf(totals: map<PeriodId, Totals>, p: PeriodId): Totals {
    if p in totals then totals[p] else Totals(0, 0)
  }

  function Moved(totals: map<PeriodId, Totals>, p: PeriodId, spent: int, reserved: int): map<PeriodId, Totals> {
    var row := TotalsOf(totals, p);
    totals[p := Totals(row.spent + spent, row.reserved + reserved)]
  }

  lemma TotalsAgree(s: State, totals: map<PeriodId, Totals>, p: PeriodId)
    requires Coherent(s) && Agrees(s, totals)
    ensures Spent(s, p) == TotalsOf(totals, p).spent && Reserved(s, p) == TotalsOf(totals, p).reserved
  {
    if p !in totals {
      assert forall id :: id in s.entries ==> s.entries[id].periodId in s.terms;
      hide Coherent, SumOver;
      SumZero(s.entries, SettledIn(p));
      SumZero(s.entries, ReservedIn(p));
    }
  }

  function SettledDelta(s: State, id: RequestId, e: Entry): int {
    e.settled - (if id in s.entries then s.entries[id].settled else 0)
  }

  function ReservedDelta(s: State, id: RequestId, e: Entry): int {
    ReservedBy(e.periodId, e) - (if id in s.entries then ReservedBy(e.periodId, s.entries[id]) else 0)
  }

  /** Rewriting one entry moves its period by the differences and no other period at all. */
  lemma EntryMoves(s: State, after: State, id: RequestId, e: Entry, totals: map<PeriodId, Totals>)
    requires Agrees(s, totals) && e.periodId in s.terms
    requires after.entries == s.entries[id := e] && after.terms.Keys == s.terms.Keys
    requires id in s.entries ==> s.entries[id].periodId == e.periodId
    ensures Agrees(after, Moved(totals, e.periodId, SettledDelta(s, id, e), ReservedDelta(s, id, e)))
  {
    hide SumOver;
    var moved := Moved(totals, e.periodId, SettledDelta(s, id, e), ReservedDelta(s, id, e));
    forall p | p in moved ensures moved[p].spent == Spent(after, p) && moved[p].reserved == Reserved(after, p) {
      EntryMovesPeriod(s, id, e, p);
    }
  }

  /** Totals are sums of nonnegative amounts. */
  lemma TotalsNonNegative(s: State, p: PeriodId)
    ensures Spent(s, p) >= 0 && Reserved(s, p) >= 0
  {
    hide SumOver;
    SumNonNegative(s.entries, SettledIn(p));
    SumNonNegative(s.entries, ReservedIn(p));
  }

  lemma SameEntriesAgree(s: State, after: State, totals: map<PeriodId, Totals>, p: PeriodId)
    requires Coherent(s) && Agrees(s, totals)
    requires after.entries == s.entries && after.terms.Keys == s.terms.Keys + {p}
    ensures Agrees(after, Moved(totals, p, 0, 0))
  {
    hide Coherent, Spent, Reserved;
    TotalsAgree(s, totals, p);
    var moved := Moved(totals, p, 0, 0);
    forall q | q in moved ensures moved[q].spent == Spent(after, q) && moved[q].reserved == Reserved(after, q) {
      SameSums(s, after, q);
    }
  }

  lemma SameSums(s: State, after: State, p: PeriodId)
    requires after.entries == s.entries
    ensures Spent(after, p) == Spent(s, p) && Reserved(after, p) == Reserved(s, p)
  {
    hide SumOver;
  }

  lemma AlertKeepsAgreement(s: State, p: PeriodId, totals: map<PeriodId, Totals>)
    requires Agrees(s, totals)
    ensures Agrees(Alerted(s, p), totals)
    ensures totals.Keys == s.terms.Keys
  {
    hide SumOver;
  }

  lemma SameEntriesStillAgree(s: State, after: State, totals: map<PeriodId, Totals>)
    requires Agrees(s, totals)
    requires after.entries == s.entries && after.terms.Keys == s.terms.Keys
    ensures Agrees(after, totals)
  {
    hide SumOver;
  }

  /** Two states on which the same totals agree raise a period's alert mark alike. */
  lemma SameUse(a: State, b: State, totals: map<PeriodId, Totals>, p: PeriodId)
    requires Agrees(a, totals) && Agrees(b, totals) && a.terms == b.terms
    ensures Alerted(a, p).terms == Alerted(b, p).terms
  {
    hide SumOver, Raised;
  }

  class GroupLedger {
    var groups: map<nat, Group>
    var terms: map<PeriodId, Terms>
    var totals: map<PeriodId, Totals>
    var entries: map<RequestId, Entry>
    var logs: map<RequestId, Log>
    var operations: map<OperationId, Operation>

    ghost function Abs(): State
      reads this
    {
      State(groups, terms, entries, logs, operations)
    }

    ghost predicate Valid()
      reads this
    {
      Coherent(Abs()) && Agrees(Abs(), totals)
    }

    constructor (groups: map<nat, Group>)
      ensures Valid() && Abs() == State(groups, map[], map[], map[], map[])
    {
      this.groups, terms, totals, entries, logs, operations := groups, map[], map[], map[], map[], map[];
    }

    method Increment(p: PeriodId, spent: int, reserved: int)
      modifies this`totals
      ensures totals == Moved(old(totals), p, spent, reserved)
    {
      var row := TotalsOf(totals, p);
      totals := totals[p := row.(spent := row.spent + spent, reserved := row.reserved + reserved)];
    }

    /** Raises the period's alert mark and tells whether a limited period has spent more than its limit. */
    method Alert(p: PeriodId, ghost now: State) returns (exceeded: bool)
      requires p in terms && Agrees(now, totals) && now.terms == terms
      modifies this`terms
      ensures terms == Alerted(now, p).terms
      ensures exceeded == OverLimit(now, p)
    {
      var used := totals[p].spent + totals[p].reserved;
      var threshold := Threshold(terms[p], used);
      exceeded := !terms[p].unlimited && totals[p].spent > terms[p].limit;
      if threshold > terms[p].alerted { terms := terms[p := terms[p].(alerted := threshold)]; }
    }

    predicate Found(ref: Ref)
      reads this
    {
      ref.requestId in entries && entries[ref.requestId].periodId == ref.periodId && ref.periodId in terms
    }

    method Affordable(row: Terms, p: PeriodId, amount: nat) returns (affordable: bool)
      requires Valid()
      ensures affordable == CanAfford(row, Used(Abs(), p), amount)
    {
      var used := TotalsOf(totals, p);
      TotalsAgree(Abs(), totals, p);
      affordable := row.unlimited || (row.limit != 0 && row.limit - used.spent - used.reserved >= amount);
    }

    /** The period row, inserted with the group's defaults unless it is already there. */
    method OpenPeriod(p: PeriodId)
      requires Valid() && p.groupId in groups
      modifies this`terms, this`totals
      ensures Valid() && Abs() == old(Abs()).(terms := old(terms)[p := TermsFor(old(Abs()), p)])
    {
      ghost var before := Abs();
      if p !in terms {
        terms := terms[p := Terms(groups[p.groupId].defaultLimit, groups[p.groupId].unlimited, 0)];
      }
      Increment(p, 0, 0);
      SameEntriesAgree(before, Abs(), old(totals), p);
      MorePeriodsKeepCoherent(before, Abs());
      hide Coherent, Agrees;
    }

    /** One entry row together with the increments of its period's columns. */
    method Write(id: RequestId, e: Entry, spent: int, reserved: int)
      requires Agrees(Abs(), totals) && e.periodId in terms
      requires id in entries ==> entries[id].periodId == e.periodId
      requires spent == SettledDelta(Abs(), id, e) && reserved == ReservedDelta(Abs(), id, e)
      modifies this`entries, this`totals
      ensures entries == old(entries)[id := e] && Agrees(Abs(), totals)
    {
      ghost var before := Abs();
      hide Agrees;
      Increment(e.periodId, spent, reserved);
      entries := entries[id := e];
      EntryMoves(before, Abs(), id, e, old(totals));
    }

    /** The same followed by the threshold alert. */
    method WriteAndAlert(id: RequestId, e: Entry, spent: int, reserved: int)
      requires Agrees(Abs(), totals) && e.periodId in terms
      requires id in entries ==> entries[id].periodId == e.periodId
      requires spent == SettledDelta(Abs(), id, e) && reserved == ReservedDelta(Abs(), id, e)
      modifies this`entries, this`totals, this`terms
      ensures Abs() == Alerted(WithEntry(old(Abs()), id, e), e.periodId) && Agrees(Abs(), totals)
    {
      hide Agrees, SettledDelta, ReservedDelta, Used, Raised, OverLimit;
      Write(id, e, spent, reserved);
      ghost var written := Abs();
      var _ := Alert(e.periodId, written);
      AlertKeepsAgreement(written, e.periodId, totals);
    }

    method Reserve(input: ReserveInput, periodKey: nat, now: int, authorized: bool) returns (outcome: Outcome)
      requires Valid()
      modifies this
      ensures Valid()
      ensures Reply(Abs(), outcome) == ReserveStep(old(Abs()), input, periodKey, now, authorized)
    {
      hide Coherent, Agrees, Used, CanAfford, Alerted;
      ReserveKeepsCoherent(Abs(), input, periodKey, now, authorized);
      if !IsCny(input.estimate) { return Rejected(BadRequest); }
      if input.owner.groupId !in groups { return Rejected(NotFound); }
      if !authorized { return Rejected(Forbidden); }
      if input.requestId in entries {
        var known := entries[input.requestId];
        if known.snapshot.reservation != input || !known.status.RESERVED? { return Rejected(Conflict); }
        return Held(known.reserved);
      }
      var p := PeriodId(input.owner.groupId, periodKey);
      var row := if p in terms then terms[p] else Terms(groups[p.groupId].defaultLimit, groups[p.groupId].unlimited, 0);
      var affordable := Affordable(row, p, input.estimate);
      if !affordable { return Rejected(BudgetExceeded); }
      OpenPeriod(p);
      WriteAndAlert(input.requestId, NewEntry(input, p, input.estimate, now), 0, input.estimate);
      outcome := Held(input.estimate);
    }

    method Extend(ref: Ref, additional: int, attempt: AttemptSnapshot) returns (outcome: Outcome)
      requires Valid()
      modifies this
      ensures Valid()
      ensures Reply(Abs(), outcome) == ExtendStep(old(Abs()), ref, additional, attempt)
    {
      hide Coherent, Agrees, Used, CanAfford, Alerted;
      ExtendKeepsCoherent(Abs(), ref, additional, attempt);
      if !IsCny(additional) { return Rejected(BadRequest); }
      if !Found(ref) { return Rejected(NotFound); }
      var entry := entries[ref.requestId];
      if entry.status != RESERVED && entry.status != RECONCILIATION_REQUIRED { return Rejected(Conflict); }
      if attempt.attemptId in entry.snapshot.extensions {
        if entry.snapshot.extensions[attempt.attemptId] != Extension(additional, attempt) { return Rejected(Conflict); }
        return Held(entry.reserved);
      }
      var affordable := Affordable(terms[ref.periodId], ref.periodId, additional);
      if !affordable { return Rejected(BudgetExceeded); }
      WriteAndAlert(ref.requestId, ExtendedEntry(entry, additional, attempt), 0, additional);
      outcome := Held(entry.reserved + additional);
    }

    /** The whole known cost is new to the period: an open entry that was never held has settled nothing. */
    method ApplyHold(ref: Ref, entry: Entry, hold: HoldInput)
      requires Agrees(Abs(), totals) && Found(ref) && entry == entries[ref.requestId]
      requires IsCny(hold.actual) && IsCny(hold.unresolved) && IsOpen(entry.status) && entry.settled == 0
      modifies this
      ensures Abs() == Holding(old(Abs()), ref, hold) && Agrees(Abs(), totals)
    {
      hide Agrees, Alerted;
      logs := logs[ref.requestId := NewLog(hold.usage, hold.actual)];
      SameEntriesStillAgree(old(Abs()), Abs(), totals);
      WriteAndAlert(ref.requestId, HeldEntry(entry, hold, hold.actual, hold.unresolved),
                    hold.actual, hold.unresolved - entry.reserved);
    }

    method Hold(ref: Ref, hold: HoldInput) returns (outcome: Outcome)
      requires Valid()
      modifies this
      ensures Valid()
      ensures Reply(Abs(), outcome) == HoldStep(old(Abs()), ref, hold)
    {
      HoldKeepsCoherent(Abs(), ref, hold);
      assert Found(ref) ==> EntryOk(ref.requestId, entries[ref.requestId], FindLog(Abs(), ref.requestId));
      hide Coherent, Agrees, Holding;
      if !IsCny(hold.actual) || !IsCny(hold.unresolved) { return Rejected(BadRequest); }
      if !Found(ref) { return Rejected(NotFound); }
      var entry := entries[ref.requestId];
      if entry.snapshot.hold == Some(hold) { return Done; }
      if entry.snapshot.manualFinal || entry.snapshot.hold.Some? || !IsOpen(entry.status) { return Rejected(Conflict); }
      if !UsageMatches(ref.requestId, entry, hold.usage, hold.actual) { return Rejected(Conflict); }
      if ref.requestId in logs { return Rejected(DuplicateLog); }
      ApplyHold(ref, entry, hold);
      outcome := Done;
    }

    /** The over-limit verdict is taken from the updated period before the entry that records it is written. */
    method WriteSettled(ref: Ref, entry: Entry, billed: UsageInput, actual: Cny) returns (exceeded: bool)
      requires Agrees(Abs(), totals) && Found(ref) && entry == entries[ref.requestId] && IsOpen(entry.status)
      modifies this`entries, this`totals, this`terms
      ensures exceeded == OverLimit(WithEntry(old(Abs()), ref.requestId, SettledEntry(entry, billed, actual, false)), ref.periodId)
      ensures Abs() == Alerted(WithEntry(old(Abs()), ref.requestId, SettledEntry(entry, billed, actual, exceeded)), ref.periodId)
      ensures Agrees(Abs(), totals)
    {
      hide Agrees, Used, Raised, OverLimit;
      ghost var logged, before := Abs(), totals;
      Increment(ref.periodId, actual - entry.settled, 0 - entry.reserved);
      ghost var preview := WithEntry(logged, ref.requestId, SettledEntry(entry, billed, actual, false));
      EntryMoves(logged, preview, ref.requestId, SettledEntry(entry, billed, actual, false), before);
      exceeded := Alert(ref.periodId, preview);
      ghost var final := WithEntry(logged, ref.requestId, SettledEntry(entry, billed, actual, exceeded));
      EntryMoves(logged, final, ref.requestId, SettledEntry(entry, billed, actual, exceeded), before);
      SameUse(preview, final, totals, ref.periodId);
      entries := entries[ref.requestId := SettledEntry(entry, billed, actual, exceeded)];
      AlertKeepsAgreement(final, ref.periodId, totals);
    }

    method Settle(ref: Ref, actual: int, usage: UsageInput) returns (outcome: Outcome)
      requires Valid()
      modifies this
      ensures Valid()
      ensures Reply(Abs(), outcome) == SettleStep(old(Abs()), ref, actual, usage)
    {
      hide Coherent, Agrees, Used, Alerted, OverLimit;
      SettleKeepsCoherent(Abs(), ref, actual, usage);
      if !IsCny(actual) { return Rejected(BadRequest); }
      if !Found(ref) { return Rejected(NotFound); }
      var entry := entries[ref.requestId];
      var billed := usage.(cost := actual);
      if entry.snapshot.manualFinal { return Rejected(Conflict); }
      if entry.status == SETTLED {
        if entry.snapshot.settlement != Some(billed) { return Rejected(Conflict); }
        return Settlement(entry.snapshot.exceeded);
      }
      if !IsOpen(entry.status) { return Rejected(Conflict); }
      if !UsageMatches(ref.requestId, entry, usage, actual) { return Rejected(Conflict); }
      if ref.requestId in logs {
        if !LogMatches(entry, logs[ref.requestId]) || entry.snapshot.hold.None? { return Rejected(Conflict); }
        logs := logs[ref.requestId := ReplacedLog(logs[ref.requestId], usage, actual)];
      } else {
        logs := logs[ref.requestId := NewLog(usage, actual)];
      }
      SameEntriesStillAgree(old(Abs()), Abs(), totals);
      var exceeded := WriteSettled(ref, entry, billed, actual);
      outcome := Settlement(exceeded);
    }

    method Release(ref: Ref) returns (outcome: Outcome)
      requires Valid()
      modifies this
      ensures Valid()
      ensures Reply(Abs(), outcome) == ReleaseStep(old(Abs()), ref)
    {
      hide Coherent, Agrees;
      ReleaseKeepsCoherent(Abs(), ref);
      if !Found(ref) { return Rejected(NotFound); }
      var entry := entries[ref.requestId];
      if entry.status == RELEASED { return Done; }
      if entry.status != RESERVED || entry.dispatched { return Rejected(Conflict); }
      Write(ref.requestId, ReleasedEntry(entry), 0, 0 - entry.reserved);
      outcome := Done;
    }

    method MarkDispatched(ref: Ref, leaseUntil: int) returns (outcome: Outcome)
      requires Valid()
      modifies this
      ensures Valid()
      ensures Reply(Abs(), outcome) == MarkDispatchedStep(old(Abs()), ref, leaseUntil)
    {
      hide Coherent, Agrees;
      DispatchKeepsCoherent(Abs(), ref, leaseUntil);
      if !Found(ref) { return Rejected(NotFound); }
      var entry := entries[ref.requestId];
      if entry.status != RESERVED { return Rejected(Conflict); }
      Write(ref.requestId, entry.(dispatched := true, leaseUntil := Some(leaseUntil)), 0, 0);
      outcome := Done;
    }

    method MarkUncertain(ref: Ref) returns (outcome: Outcome)
      requires Valid()
      modifies this
      ensures Valid()
      ensures Reply(Abs(), outcome) == MarkUncertainStep(old(Abs()), ref)
    {
      hide Coherent, Agrees;
      UncertainKeepsCoherent(Abs(), ref);
      if !Found(ref) { return Rejected(NotFound); }
      var entry := entries[ref.requestId];
      if entry.status == SETTLED || entry.status == RELEASED { return Unchanged; }
      Write(ref.requestId, entry.(status := RECONCILIATION_REQUIRED, leaseUntil := None), 0, 0);
      outcome := Done;
    }

    method Recover(ref: Ref, now: int) returns (outcome: Outcome)
      requires Valid()
      modifies this
      ensures Valid()
      ensures Reply(Abs(), outcome) == RecoverStep(old(Abs()), ref, now)
    {
      hide Coherent, Agrees;
      RecoverKeepsCoherent(Abs(), ref, now);
      if !Found(ref) { return Rejected(NotFound); }
      var entry := entries[ref.requestId];
      if entry.status != RESERVED || entry.leaseUntil.None? || entry.leaseUntil.value > now { return Unchanged; }
      if entry.dispatched {
        Write(ref.requestId, entry.(status := RECONCILIATION_REQUIRED, leaseUntil := None), 0, 0);
        return Recovered(RECONCILIATION_REQUIRED);
      }
      Write(ref.requestId, ReleasedEntry(entry), 0, 0 - entry.reserved);
      outcome := Recovered(RELEASED);
    }

    /** The recovery worker: it searches, then looks at each entry it found again under the entry's own lock. */
    method RecoverExpired(now: int) returns (released: nat, uncertain: nat)
      requires Valid()
      modifies this
      ensures Valid()
      ensures exists batch :: IsBatch(old(entries), batch, now) && Sweep(Abs(), released, uncertain) == RecoverAll(old(Abs()), batch, now)
      ensures released + uncertain == (if |ExpiredIds(old(entries), now)| < 100 then |ExpiredIds(old(entries), now)| else 100)
      ensures |ExpiredIds(old(entries), now)| <= 100 ==> ExpiredIds(entries, now) == {}
    {
      var batch := FindExpired(entries, now);
      SweepClears(Abs(), batch, now);
      released, uncertain := RecoverBatch(batch, now);
    }

    /** A batch may have been found some time ago: what it names need not be expired any more. */
    method RecoverBatch(batch: seq<Ref>, now: int) returns (released: nat, uncertain: nat)
      requires Valid()
      modifies this
      ensures Valid()
      ensures Sweep(Abs(), released, uncertain) == RecoverAll(old(Abs()), batch, now)
    {
      hide RecoverStep, Coherent, Agrees;
      released, uncertain := 0, 0;
      var i := 0;
      while i < |batch|
        invariant 0 <= i <= |batch| && Valid()
        invariant RecoverAll(old(Abs()), batch, now)
                  == RecoverAll(Abs(), batch[i..], now).Plus(released, uncertain)
      {
        assert batch[i..][1..] == batch[i + 1..];
        var recovered := Recover(batch[i], now);
        if recovered == Recovered(RELEASED) { released := released + 1; }
        if recovered == Recovered(RECONCILIATION_REQUIRED) { uncertain := uncertain + 1; }
        i := i + 1;
      }
    }

    method ApplyReconciliation(groupId: nat, actor: nat, id: RequestId, input: ReconcileInput, log: Option<Log>, costs: seq<RouteCost>)
      requires Agrees(Abs(), totals) && id in entries && entries[id].periodId in terms
      requires entries[id].status == SETTLED || entries[id].status == RECONCILIATION_REQUIRED
      requires IsCny(input.actual) && AllCny(costs)
      requires log == FindLog(Abs(), id) && costs == Allocation(log, input, input.actual)
      modifies this
      ensures Abs() == Reconciliation(old(Abs()), groupId, actor, id, input) && Agrees(Abs(), totals)
    {
      hide Agrees, Alerted, AllCny, Allocated, Allocation;
      var entry := entries[id];
      logs := logs[id := ReconciledLog(entry, log, costs, input.actual)];
      SameEntriesStillAgree(old(Abs()), Abs(), totals);
      WriteAndAlert(id, ReconciledEntry(entry, input, input.actual, log), input.actual - entry.settled,
                    if entry.status == RECONCILIATION_REQUIRED then 0 - entry.reserved else 0);
      ghost var alerted := Abs();
      operations := operations[input.operationId := Reconciled(groupId, actor, id, input)];
      SameEntriesStillAgree(alerted, Abs(), totals);
    }

    method Reconcile(groupId: nat, actor: nat, id: RequestId, input: ReconcileInput, authorized: bool) returns (outcome: Outcome)
      requires Valid()
      modifies this
      ensures Valid()
      ensures Reply(Abs(), outcome) == ReconcileStep(old(Abs()), groupId, actor, id, input, authorized)
    {
      hide Coherent, Agrees, Reconciliation, SumOfCosts, AllocationNames, AllCny;
      ReconcileKeepsCoherent(Abs(), groupId, actor, id, input, authorized);
      if !authorized { return Rejected(Forbidden); }
      if !IsCny(input.actual) || (input.action == Action.RELEASE && input.actual != 0) { return Rejected(BadRequest); }
      if id !in entries || entries[id].periodId.groupId != groupId || entries[id].periodId !in terms { return Rejected(NotFound); }
      if input.operationId in operations {
        if operations[input.operationId] != Reconciled(groupId, actor, id, input) { return Rejected(Conflict); }
        return Done;
      }
      var entry := entries[id];
      if entry.status != SETTLED && entry.status != RECONCILIATION_REQUIRED { return Rejected(Conflict); }
      var log := if id in logs then Some(logs[id]) else None;
      if log.Some? && !SameMember(log.value.owner, entry.owner) { return Rejected(Conflict); }
      var costs := Allocation(log, input, input.actual);
      if !AllocationNames(log, costs) { return Rejected(Conflict); }
      if !AllCny(costs) { return Rejected(BadRequest); }
      if |costs| > 0 && SumOfCosts(costs) != input.actual { return Rejected(Conflict); }
      if log.None? && entry.snapshot.reservation.snapshot.usage != Some(UsageTemplate(id, entry.owner)) {
        return Rejected(Conflict);
      }
      ApplyReconciliation(groupId, actor, id, input, log, costs);
      outcome := Done;
    }

    method ApplyAdjustment(actor: nat, p: PeriodId, input: AdjustInput)
      requires Valid() && p.groupId in groups && IsCny(input.limit)
      modifies this
      ensures Abs() == Adjustment(old(Abs()), actor, p, input) && Agrees(Abs(), totals)
    {
      hide Coherent, Agrees, Raised, Used, OverLimit;
      OpenPeriod(p);
      ghost var ready := Abs();
      operations := operations[input.operationId := Adjusted(p.groupId, actor, input)];
      if input.scope.DEFAULT? {
        groups := groups[p.groupId := groups[p.groupId].(defaultLimit := input.limit, unlimited := input.unlimited)];
        SameEntriesStillAgree(ready, Abs(), totals);
      } else {
        terms := terms[p := terms[p].(limit := input.limit, unlimited := input.unlimited)];
        SameEntriesStillAgree(ready, Abs(), totals);
        ghost var written := Abs();
        var _ := Alert(p, written);
        AlertKeepsAgreement(written, p, totals);
      }
    }

    method Adjust(groupId: nat, actor: nat, input: AdjustInput, currentKey: nat, authorized: bool) returns (outcome: Outcome)
      requires Valid()
      modifies this
      ensures Valid()
      ensures Reply(Abs(), outcome) == AdjustStep(old(Abs()), groupId, actor, input, currentKey, authorized)
    {
      AdjustKeepsCoherent(Abs(), groupId, actor, input, currentKey, authorized);
      if !authorized { return Rejected(Forbidden); }
      if !IsCny(input.limit) { return Rejected(BadRequest); }
      if groupId !in groups { return Rejected(NotFound); }
      if input.operationId in operations {
        if operations[input.operationId] != Adjusted(groupId, actor, input) { return Rejected(Conflict); }
        return Done;
      }
      if groups[groupId].archived { return Rejected(Conflict); }
      var chosen := input.scope.CURRENT? && input.scope.period.Some?;
      var p := PeriodId(groupId, if chosen then input.scope.period.value else currentKey);
      if chosen && p !in terms { return Rejected(NotFound); }
      TotalsAgree(Abs(), totals, p);
      hide Coherent, Agrees, Adjustment, Spent, Reserved;
      var used := TotalsOf(totals, p);
      if input.scope.CURRENT? && !input.unlimited && input.limit < used.spent + used.reserved { return Rejected(Conflict); }
      ApplyAdjustment(actor, p, input);
      outcome := Done;
    }

    method FinishSync(ref: Ref, seen: Option<Correction>) returns (outcome: Outcome)
      requires Valid()
      modifies this
      ensures Valid()
      ensures Reply(Abs(), outcome) == FinishSyncStep(old(Abs()), ref, seen)
    {
      hide Coherent, Agrees;
      FinishSyncKeepsCoherent(Abs(), ref, seen);
      if !Found(ref) { return Rejected(NotFound); }
      var entry := entries[ref.requestId];
      if entry.snapshot.redisCorrection != seen { return Unchanged; }
      Write(ref.requestId, entry.(snapshot := entry.snapshot.(redisSynced := true)), 0, 0);
      outcome := Done;
    }

    /** Any call at all: the totals still agree and the reply is the specified one. */
    method Execute(c: Command) returns (outcome: Outcome)
      requires Valid()
      modifies this
      ensures Valid()
      ensures Reply(Abs(), outcome) == Step(old(Abs()), c)
    {
      match c
      case Reserve(input, periodKey, now, authorized) => outcome := Reserve(input, periodKey, now, authorized);
      case Extend(ref, additional, attempt) => outcome := Extend(ref, additional, attempt);
      case MarkDispatched(ref, leaseUntil) => outcome := MarkDispatched(ref, leaseUntil);
      case Hold(ref, hold) => outcome := Hold(ref, hold);
      case Settle(ref, actual, usage) => outcome := Settle(ref, actual, usage);
      case Release(ref) => outcome := Release(ref);
      case MarkUncertain(ref) => outcome := MarkUncertain(ref);
      case RecoverExpired(ref, now) => outcome := Recover(ref, now);
      case Reconcile(groupId, actor, id, input, authorized) => outcome := Reconcile(groupId, actor, id, input, authorized);
      case Adjust(groupId, actor, input, currentKey, authorized) => outcome := Adjust(groupId, actor, input, currentKey, authorized);
      case FinishSync(ref, seen) => outcome := FinishSync(ref, seen);
    }

    /** Any sequence of calls by any callers. */
    method Serve(commands: seq<Command>)
      requires Valid()
      modifies this
      ensures Valid() && Abs() == Run(old(Abs()), commands)
    {
      var i := 0;
      while i < |commands|
        invariant 0 <= i <= |commands| && Valid()
        invariant Run(Abs(), commands[i..]) == Run(old(Abs()), commands)
      {
        hide Step, Coherent, Agrees;
        assert commands[i..][1..] == commands[i + 1..];
        var _ := Execute(commands[i]);
        i := i + 1;
      }
    }
  }
}
