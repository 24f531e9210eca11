/** What holds over every run of the ledger, whoever makes the calls and in whatever order. */
module LedgerSafety {
  import opened Money
  import opened Sums
  import opened LedgerSpec
  import opened LedgerCoherence

  function Empty(groups: map<nat, Group>): State {
    State(groups, map[], map[], map[], map[])
  }

  lemma EmptyIsCoherent(groups: map<nat, Group>)
    ensures Coherent(Empty(groups))
  {
  }

  // ----- what one step may touch

  predicate Accepted(outcome: Outcome) {
    !outcome.Rejected?
  }

  lemma RejectionChangesNothing(s: State, c: Command)
    requires Step(s, c).outcome.Rejected?
    ensures Step(s, c).state == s
  {
    hide Used, OverLimit, Alerted, CanAfford, Reconciliation, Holding, Adjustment;
  }

  /** Another request's entry and log are as they were. */
  predicate Untouched(s: State, after: State, id: RequestId) {
    (id in s.entries <==> id in after.entries) && (id in s.entries ==> after.entries[id] == s.entries[id])
    && FindLog(after, id) == FindLog(s, id)
  }

  lemma AdministrationTouchesItsTarget(s: State, c: Command, id: RequestId)
    requires Target(c) != Some(id) && (c.Adjust? || c.Reconcile?)
    ensures Untouched(s, Step(s, c).state, id)
  {
    hide Used, OverLimit, CanAfford, Raised, AllocationNames, AllCny, SumOfCosts, RouteRows, Allocated;
  }

  lemma ChargingTouchesItsTarget(s: State, c: Command, id: RequestId)
    requires Target(c) != Some(id) && (c.Hold? || c.Settle?)
    ensures Untouched(s, Step(s, c).state, id)
  {
    hide Used, OverLimit, Raised, NewLog, ReplacedLog, HeldEntry, SettledEntry;
  }

  /** A step leaves every entry and log but its target's alone, and forgets none. */
  lemma OnlyTheTargetMoves(s: State, c: Command, id: RequestId)
    requires Target(c) != Some(id)
    ensures var after := Step(s, c).state;
            (id in s.entries <==> id in after.entries) && (id in s.entries ==> after.entries[id] == s.entries[id])
            && FindLog(after, id) == FindLog(s, id)
  {
    hide Used, OverLimit, CanAfford, Raised;
    if c.Adjust? || c.Reconcile? {
      hide Step;
      AdministrationTouchesItsTarget(s, c, id);
    } else if c.Hold? || c.Settle? {
      hide Step;
      ChargingTouchesItsTarget(s, c, id);
    }
  }

  /** The command wrote at most its target's entry row, and left it in its period. */
  predicate WroteItsTarget(s: State, after: State, c: Command) {
    after.entries == s.entries
    || (Target(c).Some? && Target(c).value in after.entries
        && after.entries == s.entries[Target(c).value := after.entries[Target(c).value]]
        && (Target(c).value in s.entries ==>
              after.entries[Target(c).value].periodId == s.entries[Target(c).value].periodId))
  }

  lemma AdministrationWritesItsTarget(s: State, c: Command)
    requires c.Adjust? || c.Reconcile?
    ensures WroteItsTarget(s, Step(s, c).state, c)
  {
    hide Used, OverLimit, CanAfford, Raised, AllocationNames, AllCny, SumOfCosts, Allocated, RouteRows;
  }

  lemma HoldingWritesItsTarget(s: State, c: Command)
    requires c.Hold?
    ensures WroteItsTarget(s, Step(s, c).state, c)
  {
    hide Used, Raised, RouteRows;
  }

  lemma SettlingWritesItsTarget(s: State, c: Command)
    requires c.Settle?
    ensures WroteItsTarget(s, Step(s, c).state, c)
  {
    hide Used, OverLimit, Raised, RouteRows;
  }

  /** A step writes at most its target's entry row, and never moves it to another period. */
  lemma EntriesAfter(s: State, c: Command)
    ensures WroteItsTarget(s, Step(s, c).state, c)
  {
    hide Used, OverLimit, CanAfford, Raised;
    if c.Adjust? || c.Reconcile? {
      hide Step, WroteItsTarget;
      AdministrationWritesItsTarget(s, c);
    } else if c.Hold? {
      hide Step, WroteItsTarget;
      HoldingWritesItsTarget(s, c);
    } else if c.Settle? {
      hide Step, WroteItsTarget;
      SettlingWritesItsTarget(s, c);
    }
  }

  /** Only an adjustment changes the terms of an open period, apart from its alert mark; only it and a reserve open one. */
  predicate KeepsTerms(s: State, after: State, c: Command, p: PeriodId) {
    && (p in s.terms ==> p in after.terms)
    && (p in s.terms && !c.Adjust? ==>
          after.terms[p].limit == s.terms[p].limit && after.terms[p].unlimited == s.terms[p].unlimited)
    && (p !in s.terms && p in after.terms ==> c.Adjust? || c.Reserve?)
  }

  lemma FundingKeepsTerms(s: State, c: Command, p: PeriodId)
    requires c.Reserve? || c.Extend? || c.Adjust?
    ensures KeepsTerms(s, Step(s, c).state, c, p)
  {
    hide Used, CanAfford;
  }

  lemma ChargingKeepsTerms(s: State, c: Command, p: PeriodId)
    requires c.Hold? || c.Settle?
    ensures KeepsTerms(s, Step(s, c).state, c, p)
  {
    hide Used, OverLimit, RouteRows;
  }

  lemma ReconcilingKeepsTerms(s: State, c: Command, p: PeriodId)
    requires c.Reconcile?
    ensures KeepsTerms(s, Step(s, c).state, c, p)
  {
    hide Used, AllocationNames, AllCny, SumOfCosts, ReconciledEntry, ReconciledLog;
  }

  lemma MarkingKeepsTerms(s: State, c: Command, p: PeriodId)
    requires c.MarkDispatched? || c.Release? || c.MarkUncertain? || c.RecoverExpired? || c.FinishSync?
    ensures KeepsTerms(s, Step(s, c).state, c, p)
  {
  }

  lemma TermsAfter(s: State, c: Command, p: PeriodId)
    ensures KeepsTerms(s, Step(s, c).state, c, p)
  {
    hide Step, KeepsTerms;
    if c.Reserve? || c.Extend? || c.Adjust? {
      FundingKeepsTerms(s, c, p);
    } else if c.Hold? || c.Settle? {
      ChargingKeepsTerms(s, c, p);
    } else if c.Reconcile? {
      ReconcilingKeepsTerms(s, c, p);
    } else {
      MarkingKeepsTerms(s, c, p);
    }
  }

  // ----- limits

  /** What an entry takes out of its period: what it has settled and, while open, what it still holds. */
  function Claim(e: Entry): nat {
    e.settled + (if IsOpen(e.status) then e.reserved else 0)
  }

  /** How much the step adds to the use of a period, through the one entry it may write. */
  ghost function Growth(s: State, c: Command, p: PeriodId): int {
    var after := Step(s, c).state;
    if Target(c).None? || Target(c).value !in after.entries || after.entries[Target(c).value].periodId != p then 0
    else Claim(after.entries[Target(c).value])
         - (if Target(c).value in s.entries then Claim(s.entries[Target(c).value]) else 0)
  }

  lemma UseAfter(s: State, c: Command, p: PeriodId)
    requires Coherent(s)
    ensures Used(Step(s, c).state, p) == Used(s, p) + Growth(s, c, p)
  {
    var after := Step(s, c).state;
    EntriesAfter(s, c);
    hide Coherent, Step, SumOver;
    if after.entries != s.entries {
      EntryMovesPeriod(s, Target(c).value, after.entries[Target(c).value], p);
    }
  }

  /** By how much a settlement, a hold or a reconciliation takes more than the entry already claimed. */
  ghost function Overrun(s: State, c: Command, p: PeriodId): nat {
    if c.Settle? || c.Hold? || c.Reconcile? then Max(0, Growth(s, c, p)) else 0
  }

  ghost predicate WithinLimit(s: State, p: PeriodId, overrun: nat) {
    p in s.terms && !s.terms[p].unlimited ==> Used(s, p) <= s.terms[p].limit + overrun
  }

  lemma UnopenedIsUnused(s: State, p: PeriodId)
    requires Coherent(s) && p !in s.terms
    ensures Used(s, p) == 0
  {
    assert forall id :: id in s.entries ==> s.entries[id].periodId in s.terms;
    hide Coherent, SumOver;
    SumZero(s.entries, SettledIn(p));
    SumZero(s.entries, ReservedIn(p));
  }

  lemma ReserveIsFunded(s: State, c: Command, p: PeriodId)
    requires c.Reserve? || c.Extend?
    requires p in Step(s, c).state.terms && !Step(s, c).state.terms[p].unlimited && Growth(s, c, p) > 0
    ensures Used(s, p) + Growth(s, c, p) <= Step(s, c).state.terms[p].limit
  {
    hide Used;
  }

  lemma ReserveOpensFunded(s: State, c: Command, p: PeriodId)
    requires c.Reserve? && p !in s.terms && p in Step(s, c).state.terms
    ensures Growth(s, c, p) >= 0
    ensures !Step(s, c).state.terms[p].unlimited ==> Used(s, p) + Growth(s, c, p) <= Step(s, c).state.terms[p].limit
  {
    hide Used;
  }

  lemma AdjustedIsFunded(s: State, c: Command, p: PeriodId)
    requires Coherent(s) && c.Adjust? && p in Step(s, c).state.terms && !Step(s, c).state.terms[p].unlimited
    ensures (p in s.terms && Step(s, c).state.terms[p].limit == s.terms[p].limit && !s.terms[p].unlimited)
            || Used(s, p) <= Step(s, c).state.terms[p].limit
  {
    hide Coherent, Used, Step;
    if p !in s.terms { UnopenedIsUnused(s, p); }
    AdjustmentIsFunded(s, c, p);
  }

  lemma AdjustmentIsFunded(s: State, c: Command, p: PeriodId)
    requires c.Adjust? && p in Step(s, c).state.terms && !Step(s, c).state.terms[p].unlimited
    requires p !in s.terms ==> Used(s, p) == 0
    ensures (p in s.terms && Step(s, c).state.terms[p].limit == s.terms[p].limit && !s.terms[p].unlimited)
            || Used(s, p) <= Step(s, c).state.terms[p].limit
  {
    hide Used;
  }

  /** Moving a mark or giving up a hold never takes more from the period. */
  lemma MarksNeverGrow(s: State, c: Command, p: PeriodId)
    requires c.MarkDispatched? || c.Release? || c.MarkUncertain? || c.RecoverExpired? || c.FinishSync?
    ensures Growth(s, c, p) <= 0
  {
  }

  lemma StepStaysWithinLimit(s: State, c: Command, p: PeriodId, overrun: nat)
    requires Coherent(s) && WithinLimit(s, p, overrun)
    ensures WithinLimit(Step(s, c).state, p, overrun + Overrun(s, c, p))
  {
    var after := Step(s, c).state;
    UseAfter(s, c, p);
    TermsAfter(s, c, p);
    if p in after.terms && !after.terms[p].unlimited {
      hide Used, Step, Growth, Coherent;
      if c.Adjust? {
        AdjustedIsFunded(s, c, p);
        AdjustmentsClaimNothing(s, c, p);
      } else if c.Reserve? || c.Extend? {
        if p !in s.terms { ReserveOpensFunded(s, c, p); }
        else if Growth(s, c, p) > 0 { ReserveIsFunded(s, c, p); }
      } else if !c.Settle? && !c.Hold? && !c.Reconcile? {
        MarksNeverGrow(s, c, p);
      }
    }
  }

  lemma AdjustmentsClaimNothing(s: State, c: Command, p: PeriodId)
    requires c.Adjust?
    ensures Growth(s, c, p) == 0
  {
  }

  ghost function TotalOverrun(s: State, commands: seq<Command>, p: PeriodId): nat
    decreases commands
  {
    if commands == [] then 0
    else Overrun(s, commands[0], p) + TotalOverrun(Step(s, commands[0]).state, commands[1..], p)
  }

  lemma {:induction false} RunStaysWithinLimit(s: State, commands: seq<Command>, p: PeriodId, overrun: nat)
    requires Coherent(s) && WithinLimit(s, p, overrun)
    ensures WithinLimit(Run(s, commands), p, overrun + TotalOverrun(s, commands, p))
    decreases commands
  {
    hide Coherent, WithinLimit, Step, Overrun;
    if commands != [] {
      StepKeepsCoherent(s, commands[0]);
      StepStaysWithinLimit(s, commands[0], p, overrun);
      RunStaysWithinLimit(Step(s, commands[0]).state, commands[1..], p, overrun + Overrun(s, commands[0], p));
    }
  }

  /**
   * Whatever the mix of reservations, extensions, adjustments and unlimited spells: a limited period never uses more
   * than its limit plus what settlements, holds and reconciliations took beyond what their requests had on hold.
   */
  lemma LimitSafety(groups: map<nat, Group>, commands: seq<Command>, p: PeriodId)
    ensures var s := Run(Empty(groups), commands);
            p in s.terms && !s.terms[p].unlimited ==>
              Used(s, p) <= s.terms[p].limit + TotalOverrun(Empty(groups), commands, p)
  {
    EmptyIsCoherent(groups);
    RunStaysWithinLimit(Empty(groups), commands, p, 0);
  }

  /** Charging no more than the entry claims is no overrun, for a settlement and for a hold alike. */
  lemma ChargeWithinTheHold(s: State, c: Command, p: PeriodId)
    requires Coherent(s) && (c.Settle? || c.Hold?)
    requires c.ref.requestId in s.entries ==>
               (if c.Settle? then c.actual else c.hold.actual + c.hold.unresolved) <= Claim(s.entries[c.ref.requestId])
    ensures Overrun(s, c, p) == 0
  {
    hide Coherent, Used, OverLimit;
  }

  // ----- dispatch

  /** A dispatch mark is only ever put on a reserved entry. */
  lemma DispatchNeedsAReservation(s: State, ref: Ref, leaseUntil: int)
    ensures var r := MarkDispatchedStep(s, ref, leaseUntil);
            Accepted(r.outcome) <==>
              Known(s, ref) && s.entries[ref.requestId].status.RESERVED?
    ensures var r := MarkDispatchedStep(s, ref, leaseUntil);
            Accepted(r.outcome) ==> r.state.entries[ref.requestId].dispatched && r.state.entries[ref.requestId].status.RESERVED?
  {
  }

  /** Once dispatched, a request can only be released by an administrator's reconciliation. */
  lemma DispatchedReleasesOnlyByReconcile(s: State, c: Command, id: RequestId)
    requires Coherent(s) && id in s.entries && s.entries[id].dispatched && !s.entries[id].status.RELEASED?
    ensures id in Step(s, c).state.entries && Step(s, c).state.entries[id].dispatched
    ensures Step(s, c).state.entries[id].status.RELEASED? ==>
              c.Reconcile? && c.requestId == id && c.reconciliation.action == Action.RELEASE && c.authorized
  {
    hide Coherent, Used, OverLimit, CanAfford, AllocationNames, AllCny, Allocated;
    if Target(c) != Some(id) { OnlyTheTargetMoves(s, c, id); }
  }

  predicate SameMoney(a: Entry, b: Entry) {
    a.status == b.status && a.settled == b.settled && a.reserved == b.reserved && a.dispatched == b.dispatched
    && a.snapshot.manualFinal == b.snapshot.manualFinal && a.snapshot.redisActual == b.snapshot.redisActual
    && a.snapshot.redisCorrection == b.snapshot.redisCorrection && a.snapshot.reservation == b.snapshot.reservation
  }

  /** A released entry accepts nothing that moves its status or its money. */
  lemma ReleasedStays(s: State, c: Command, id: RequestId)
    requires id in s.entries && s.entries[id].status.RELEASED?
    ensures id in Step(s, c).state.entries && SameMoney(Step(s, c).state.entries[id], s.entries[id])
  {
    hide Used, OverLimit, CanAfford, AllocationNames, AllCny, Allocated;
    if Target(c) != Some(id) { OnlyTheTargetMoves(s, c, id); }
  }

  lemma {:induction false} ReleasedIsAbsorbing(s: State, commands: seq<Command>, id: RequestId)
    requires id in s.entries && s.entries[id].status.RELEASED?
    ensures id in Run(s, commands).entries && SameMoney(Run(s, commands).entries[id], s.entries[id])
    decreases commands
  {
    if commands != [] {
      ReleasedStays(s, commands[0], id);
      hide Step;
      ReleasedIsAbsorbing(Step(s, commands[0]).state, commands[1..], id);
    }
  }

  /** In every reachable state a released request that went upstream was released by hand, and costs nothing. */
  lemma ReleasedAfterDispatchWasManual(groups: map<nat, Group>, commands: seq<Command>, id: RequestId)
    ensures var s := Run(Empty(groups), commands);
            id in s.entries && s.entries[id].status.RELEASED? ==>
              s.entries[id].settled == 0 && (s.entries[id].dispatched ==> s.entries[id].snapshot.manualFinal)
  {
    EmptyIsCoherent(groups);
    RunKeepsCoherent(Empty(groups), commands);
    var s := Run(Empty(groups), commands);
    if id in s.entries { assert EntryOk(id, s.entries[id], FindLog(s, id)); }
  }
}
