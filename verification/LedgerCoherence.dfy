/** What every ledger operation keeps about an entry, its log and its period. */
module LedgerCoherence {
  import opened Money
  import opened Sums
  import opened LedgerSpec

  /** How an entry's status, its amounts, its log and its snapshot hang together. */
  predicate EntryOk(id: RequestId, e: Entry, log: Option<Log>) {
    && e.snapshot.reservation.requestId == id
    && (e.status.RESERVED? ==> log.None? && e.snapshot.hold.None? && e.settled == 0)
    && (e.status.RECONCILIATION_REQUIRED? ==>
          (log.Some? <==> e.snapshot.hold.Some?) && (e.snapshot.hold.None? ==> e.settled == 0))
    && (e.status.SETTLED? ==> log.Some? && (e.snapshot.manualFinal || e.snapshot.settlement.Some?))
    && (e.status.RELEASED? ==>
          e.settled == 0 && (log.Some? <==> e.snapshot.manualFinal)
          && (e.snapshot.manualFinal || (!e.dispatched && e.snapshot.hold.None?)))
    && (IsOpen(e.status) ==> !e.snapshot.manualFinal && e.snapshot.redisActual.None?)
    && (log.Some? && !IsOpen(e.status) ==> e.snapshot.redisActual.Some?)
    && (log.None? ==> e.snapshot.redisActual.None?)
    && (log.Some? ==> LogMatches(e, log.value))
    && (e.snapshot.redisCorrection.Some? <==> e.snapshot.manualFinal)
  }

  predicate Coherent(s: State) {
    && (forall id :: id in s.entries ==> EntryOk(id, s.entries[id], FindLog(s, id)))
    && (forall id :: id in s.entries ==> s.entries[id].periodId in s.terms)
    && (forall id :: id in s.logs ==> id in s.entries)
  }

  /** After is s with one entry rewritten, possibly with its log, and with no period forgotten. */
  predicate Rewrites(s: State, after: State, id: RequestId, e: Entry, log: Option<Log>) {
    && after.entries == s.entries[id := e]
    && after.logs == (if log.Some? then s.logs[id := log.value] else s.logs)
    && s.terms.Keys <= after.terms.Keys
  }

  lemma RewriteKeepsCoherent(s: State, after: State, id: RequestId, e: Entry, log: Option<Log>)
    requires Coherent(s) && Rewrites(s, after, id, e, log)
    requires EntryOk(id, e, if log.Some? then log else FindLog(s, id)) && e.periodId in after.terms
    ensures Coherent(after)
  {
    hide EntryOk;
    forall j | j in after.entries ensures EntryOk(j, after.entries[j], FindLog(after, j)) {
      if j != id { assert FindLog(after, j) == FindLog(s, j); }
    }
  }

  lemma MorePeriodsKeepCoherent(s: State, after: State)
    requires Coherent(s)
    requires after.entries == s.entries && after.logs == s.logs && s.terms.Keys <= after.terms.Keys
    ensures Coherent(after)
  {
    hide EntryOk;
    assert forall id :: FindLog(after, id) == FindLog(s, id);
  }

  lemma ReserveKeepsCoherent(s: State, input: ReserveInput, periodKey: nat, now: int, authorized: bool)
    requires Coherent(s)
    ensures Coherent(ReserveStep(s, input, periodKey, now, authorized).state)
  {
    var after := ReserveStep(s, input, periodKey, now, authorized).state;
    if after != s {
      assert FindLog(s, input.requestId) == None;
      hide Coherent, Used;
      RewriteKeepsCoherent(s, after, input.requestId, after.entries[input.requestId], None);
    }
  }

  lemma ExtendKeepsCoherent(s: State, ref: Ref, additional: int, attempt: AttemptSnapshot)
    requires Coherent(s)
    ensures Coherent(ExtendStep(s, ref, additional, attempt).state)
  {
    var after := ExtendStep(s, ref, additional, attempt).state;
    if after != s {
      assert EntryOk(ref.requestId, s.entries[ref.requestId], FindLog(s, ref.requestId));
      hide Coherent, Used;
      RewriteKeepsCoherent(s, after, ref.requestId, after.entries[ref.requestId], None);
    }
  }

  lemma HoldKeepsCoherent(s: State, ref: Ref, hold: HoldInput)
    requires Coherent(s)
    ensures Coherent(HoldStep(s, ref, hold).state)
  {
    var after := HoldStep(s, ref, hold).state;
    if after != s {
      assert EntryOk(ref.requestId, s.entries[ref.requestId], FindLog(s, ref.requestId));
      hide Coherent, Used;
      RewriteKeepsCoherent(s, after, ref.requestId, after.entries[ref.requestId], Some(after.logs[ref.requestId]));
    }
  }

  lemma SettledIsOk(id: RequestId, e: Entry, log: Option<Log>, usage: UsageInput, amount: Cny, exceeded: bool, settled: Log)
    requires EntryOk(id, e, log) && IsOpen(e.status) && settled.owner == e.owner && settled.cost == amount
    ensures EntryOk(id, SettledEntry(e, usage, amount, exceeded), Some(settled))
  {
  }

  lemma SettleKeepsCoherent(s: State, ref: Ref, actual: int, usage: UsageInput)
    requires Coherent(s)
    ensures Coherent(SettleStep(s, ref, actual, usage).state)
  {
    var after := SettleStep(s, ref, actual, usage).state;
    if after != s {
      var e := s.entries[ref.requestId];
      assert EntryOk(ref.requestId, e, FindLog(s, ref.requestId));
      hide Coherent, Used, OverLimit, EntryOk, SettledEntry, Raised, RouteRows;
      forall exceeded ensures EntryOk(ref.requestId, SettledEntry(e, usage.(cost := actual), actual, exceeded),
                                      Some(after.logs[ref.requestId]))
      {
        SettledIsOk(ref.requestId, e, FindLog(s, ref.requestId), usage.(cost := actual), actual, exceeded, after.logs[ref.requestId]);
      }
      assert forall exceeded :: SettledEntry(e, usage.(cost := actual), actual, exceeded).periodId == e.periodId by {
        SettledPeriod(e, usage.(cost := actual), actual);
      }
      RewriteKeepsCoherent(s, after, ref.requestId, after.entries[ref.requestId], Some(after.logs[ref.requestId]));
    }
  }

  lemma SettledPeriod(e: Entry, usage: UsageInput, amount: Cny)
    ensures forall exceeded :: SettledEntry(e, usage, amount, exceeded).periodId == e.periodId
  {
  }

  lemma ReconciledIsOk(id: RequestId, e: Entry, log: Option<Log>, input: ReconcileInput, costs: seq<RouteCost>)
    requires EntryOk(id, e, log) && (e.status.SETTLED? || e.status.RECONCILIATION_REQUIRED?)
    requires IsCny(input.actual) && (input.action.RELEASE? ==> input.actual == 0) && AllCny(costs)
    requires log.Some? ==> SameMember(log.value.owner, e.owner)
    ensures EntryOk(id, ReconciledEntry(e, input, input.actual, log), Some(ReconciledLog(e, log, costs, input.actual)))
  {
    hide Allocated, AllCny;
  }

  lemma ReconcileKeepsCoherent(s: State, groupId: nat, actor: nat, id: RequestId, input: ReconcileInput, authorized: bool)
    requires Coherent(s)
    ensures Coherent(ReconcileStep(s, groupId, actor, id, input, authorized).state)
  {
    var after := ReconcileStep(s, groupId, actor, id, input, authorized).state;
    if after != s {
      var e, log := s.entries[id], FindLog(s, id);
      assert EntryOk(id, e, log);
      hide Coherent, EntryOk, Used, AllocationNames, AllCny, SumOfCosts, Allocated, Raised, ReconciledEntry, ReconciledLog;
      ReconciledIsOk(id, e, log, input, Allocation(log, input, input.actual));
      assert ReconciledEntry(e, input, input.actual, log).periodId == e.periodId by { ReconciledPeriod(e, input, log); }
      RewriteKeepsCoherent(s, after, id, after.entries[id], Some(after.logs[id]));
    }
  }

  lemma ReconciledPeriod(e: Entry, input: ReconcileInput, log: Option<Log>)
    requires IsCny(input.actual)
    ensures ReconciledEntry(e, input, input.actual, log).periodId == e.periodId
  {
  }

  lemma AdjustKeepsCoherent(s: State, groupId: nat, actor: nat, input: AdjustInput, currentKey: nat, authorized: bool)
    requires Coherent(s)
    ensures Coherent(AdjustStep(s, groupId, actor, input, currentKey, authorized).state)
  {
    hide Used, Coherent;
    MorePeriodsKeepCoherent(s, AdjustStep(s, groupId, actor, input, currentKey, authorized).state);
  }

  lemma DispatchKeepsCoherent(s: State, ref: Ref, leaseUntil: int)
    requires Coherent(s)
    ensures Coherent(MarkDispatchedStep(s, ref, leaseUntil).state)
  {
    var after := MarkDispatchedStep(s, ref, leaseUntil).state;
    if after != s {
      assert EntryOk(ref.requestId, s.entries[ref.requestId], FindLog(s, ref.requestId));
      assert s.entries[ref.requestId].periodId in s.terms;
      hide Coherent;
      RewriteKeepsCoherent(s, after, ref.requestId, after.entries[ref.requestId], None);
    }
  }

  lemma ReleaseKeepsCoherent(s: State, ref: Ref)
    requires Coherent(s)
    ensures Coherent(ReleaseStep(s, ref).state)
  {
    var after := ReleaseStep(s, ref).state;
    if after != s {
      assert EntryOk(ref.requestId, s.entries[ref.requestId], FindLog(s, ref.requestId));
      assert s.entries[ref.requestId].periodId in s.terms;
      hide Coherent;
      RewriteKeepsCoherent(s, after, ref.requestId, after.entries[ref.requestId], None);
    }
  }

  lemma UncertainKeepsCoherent(s: State, ref: Ref)
    requires Coherent(s)
    ensures Coherent(MarkUncertainStep(s, ref).state)
  {
    var after := MarkUncertainStep(s, ref).state;
    if after != s {
      assert EntryOk(ref.requestId, s.entries[ref.requestId], FindLog(s, ref.requestId));
      assert s.entries[ref.requestId].periodId in s.terms;
      hide Coherent;
      RewriteKeepsCoherent(s, after, ref.requestId, after.entries[ref.requestId], None);
    }
  }

  lemma RecoverKeepsCoherent(s: State, ref: Ref, now: int)
    requires Coherent(s)
    ensures Coherent(RecoverStep(s, ref, now).state)
  {
    var after := RecoverStep(s, ref, now).state;
    if after != s {
      assert EntryOk(ref.requestId, s.entries[ref.requestId], FindLog(s, ref.requestId));
      assert s.entries[ref.requestId].periodId in s.terms;
      hide Coherent;
      RewriteKeepsCoherent(s, after, ref.requestId, after.entries[ref.requestId], None);
    }
  }

  lemma FinishSyncKeepsCoherent(s: State, ref: Ref, seen: Option<Correction>)
    requires Coherent(s)
    ensures Coherent(FinishSyncStep(s, ref, seen).state)
  {
    var after := FinishSyncStep(s, ref, seen).state;
    if after != s {
      assert EntryOk(ref.requestId, s.entries[ref.requestId], FindLog(s, ref.requestId));
      assert s.entries[ref.requestId].periodId in s.terms;
      hide Coherent;
      RewriteKeepsCoherent(s, after, ref.requestId, after.entries[ref.requestId], None);
    }
  }

  lemma StepKeepsCoherent(s: State, c: Command)
    requires Coherent(s)
    ensures Coherent(Step(s, c).state)
  {
    hide Coherent;
    match c
    case Reserve(input, periodKey, now, authorized) => ReserveKeepsCoherent(s, input, periodKey, now, authorized);
    case Extend(ref, additional, attempt) => ExtendKeepsCoherent(s, ref, additional, attempt);
    case Hold(ref, hold) => HoldKeepsCoherent(s, ref, hold);
    case Settle(ref, actual, usage) => SettleKeepsCoherent(s, ref, actual, usage);
    case Reconcile(groupId, actor, id, input, authorized) => ReconcileKeepsCoherent(s, groupId, actor, id, input, authorized);
    case Adjust(groupId, actor, input, currentKey, authorized) => AdjustKeepsCoherent(s, groupId, actor, input, currentKey, authorized);
    case MarkDispatched(ref, leaseUntil) => DispatchKeepsCoherent(s, ref, leaseUntil);
    case Release(ref) => ReleaseKeepsCoherent(s, ref);
    case MarkUncertain(ref) => UncertainKeepsCoherent(s, ref);
    case RecoverExpired(ref, now) => RecoverKeepsCoherent(s, ref, now);
    case FinishSync(ref, seen) => FinishSyncKeepsCoherent(s, ref, seen);
  }

  lemma {:induction false} RunKeepsCoherent(s: State, commands: seq<Command>)
    requires Coherent(s)
    ensures Coherent(Run(s, commands))
    decreases commands
  {
    if commands != [] {
      StepKeepsCoherent(s, commands[0]);
      RunKeepsCoherent(Step(s, commands[0]).state, commands[1..]);
    }
  }

  lemma {:induction false} RunAppends(s: State, first: seq<Command>, second: seq<Command>)
    ensures Run(s, first + second) == Run(Run(s, first), second)
    decreases first
  {
    hide Step;
    if first == [] {
      assert first + second == second;
    } else {
      assert (first + second)[1..] == first[1..] + second;
      RunAppends(Step(s, first[0]).state, first[1..], second);
    }
  }

  // ----- totals

  /** Rewriting one entry moves the sums of every period by what that entry contributes to it. */
  lemma EntryMovesPeriod(s: State, id: RequestId, e: Entry, p: PeriodId)
    ensures SumOver(s.entries[id := e], SettledIn(p))
            == Spent(s, p) + SettledBy(p, e) - (if id in s.entries then SettledBy(p, s.entries[id]) else 0)
    ensures SumOver(s.entries[id := e], ReservedIn(p))
            == Reserved(s, p) + ReservedBy(p, e) - (if id in s.entries then ReservedBy(p, s.entries[id]) else 0)
  {
    hide SumOver;
    SumWrite(s.entries, SettledIn(p), id, e);
    SumWrite(s.entries, ReservedIn(p), id, e);
    assert SettledIn(p)(e) == SettledBy(p, e) && ReservedIn(p)(e) == ReservedBy(p, e);
  }
}
