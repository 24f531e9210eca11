/** Repeating a call whose first outcome is unknown. */
module LedgerReplay {
  import opened Money
  import opened LedgerSpec
  import opened LedgerCoherence
  import opened LedgerSafety

  /** The calls that move money or terms. */
  predicate Moves(c: Command) {
    c.Reserve? || c.Extend? || c.Hold? || c.Settle? || c.Release? || c.Reconcile? || c.Adjust?
  }

  predicate EntryRecords(e: Entry, c: Command) {
    match c
    case Reserve(_, _, _, _) => true
    case Extend(_, _, attempt) => attempt.attemptId in e.snapshot.extensions
    case Hold(_, hold) => e.snapshot.hold == Some(hold)
    case Settle(_, _, _) => e.status.SETTLED? || e.snapshot.manualFinal
    case Release(_) => e.status.RELEASED?
    case _ => true
  }

  /** The trace an accepted call leaves behind. */
  predicate Recorded(s: State, c: Command) {
    match c
    case Reconcile(_, _, _, input, _) => input.operationId in s.operations
    case Adjust(_, _, input, _, _) => input.operationId in s.operations
    case _ => Target(c).Some? && Target(c).value in s.entries && EntryRecords(s.entries[Target(c).value], c)
  }

  lemma AcceptedIsRecorded(s: State, c: Command)
    requires Coherent(s) && Moves(c) && Accepted(Step(s, c).outcome)
    ensures Recorded(Step(s, c).state, c)
  {
    if c.Hold? || c.Settle? {
      hide Step, Recorded, Coherent, EntryRecords;
      ChargeIsRecorded(s, c);
    } else if c.Reconcile? || c.Adjust? {
      hide Step, Recorded, Coherent, EntryRecords;
      OperationIsRecorded(s, c);
    } else {
      hide Used, CanAfford, Coherent, Raised;
    }
  }

  lemma ChargeIsRecorded(s: State, c: Command)
    requires (c.Hold? || c.Settle?) && Accepted(Step(s, c).outcome)
    ensures Recorded(Step(s, c).state, c)
  {
    hide Used, OverLimit, Raised, NewLog, ReplacedLog;
  }

  lemma OperationIsRecorded(s: State, c: Command)
    requires (c.Reconcile? || c.Adjust?) && Accepted(Step(s, c).outcome)
    ensures Recorded(Step(s, c).state, c)
  {
    hide Used, AllocationNames, AllCny, Allocated, Raised, SumOfCosts, ReconciledEntry, ReconciledLog;
  }

  lemma OperationsAreKept(s: State, c: Command, operationId: OperationId)
    requires operationId in s.operations
    ensures operationId in Step(s, c).state.operations
  {
    hide Used, OverLimit, CanAfford, AllocationNames, AllCny, Allocated;
  }

  /** What no step ever takes back from an entry. */
  predicate Grows(e: Entry, after: Entry) {
    && e.snapshot.extensions.Keys <= after.snapshot.extensions.Keys
    && (e.snapshot.hold.Some? ==> after.snapshot.hold == e.snapshot.hold)
    && (e.snapshot.manualFinal ==> after.snapshot.manualFinal)
    && (e.status.SETTLED? ==> after.status.SETTLED? || after.snapshot.manualFinal)
    && (e.status.RELEASED? ==> after.status.RELEASED?)
  }

  lemma EntryGrows(s: State, c: Command, id: RequestId)
    requires id in s.entries && EntryOk(id, s.entries[id], FindLog(s, id))
    ensures id in Step(s, c).state.entries && Grows(s.entries[id], Step(s, c).state.entries[id])
  {
    hide Step, Grows, EntryOk;
    if Target(c) != Some(id) {
      OnlyTheTargetMoves(s, c, id);
      SameGrows(s.entries[id]);
    } else if c.Hold? || c.Settle? {
      ChargedGrows(s, c, id);
    } else if c.Reconcile? {
      ReconciledGrows(s, c, id);
    } else {
      UnchargedGrows(s, c, id);
    }
  }

  lemma SameGrows(e: Entry)
    ensures Grows(e, e)
  {
  }

  lemma ChargedGrows(s: State, c: Command, id: RequestId)
    requires id in s.entries && EntryOk(id, s.entries[id], FindLog(s, id)) && (c.Hold? || c.Settle?) && c.ref.requestId == id
    ensures id in Step(s, c).state.entries && Grows(s.entries[id], Step(s, c).state.entries[id])
  {
    hide Used, OverLimit, Raised, RouteRows, Grows, HeldEntry, SettledEntry, NewLog, ReplacedLog, EntryOk;
    var e := s.entries[id];
    SameGrows(e);
    if c.Settle? {
      forall exceeded | c.actual >= 0 && IsOpen(e.status) && !e.snapshot.manualFinal
        ensures Grows(e, SettledEntry(e, c.usage.(cost := c.actual), c.actual, exceeded))
      {
        SettledGrows(e, c.usage.(cost := c.actual), c.actual, exceeded);
      }
    } else if c.hold.actual >= 0 && c.hold.unresolved >= 0 && IsOpen(e.status) && e.snapshot.hold.None? {
      HeldGrows(e, c.hold, c.hold.actual, c.hold.unresolved);
    }
  }

  lemma SettledGrows(e: Entry, usage: UsageInput, amount: Cny, exceeded: bool)
    requires IsOpen(e.status) && !e.snapshot.manualFinal
    ensures Grows(e, SettledEntry(e, usage, amount, exceeded))
  {
  }

  lemma HeldGrows(e: Entry, hold: HoldInput, actual: Cny, unresolved: Cny)
    requires IsOpen(e.status) && e.snapshot.hold.None?
    ensures Grows(e, HeldEntry(e, hold, actual, unresolved))
  {
  }

  lemma ReconciledGrows(s: State, c: Command, id: RequestId)
    requires id in s.entries && c.Reconcile? && c.requestId == id
    ensures id in Step(s, c).state.entries && Grows(s.entries[id], Step(s, c).state.entries[id])
  {
    hide Used, AllocationNames, AllCny, Allocated, Raised, SumOfCosts, Grows, ReconciledEntry, ReconciledLog;
    var e := s.entries[id];
    SameGrows(e);
    if IsCny(c.reconciliation.actual) && !e.status.RELEASED? {
      ReconciledEntryGrows(e, c.reconciliation, FindLog(s, id));
    }
  }

  lemma ReconciledEntryGrows(e: Entry, input: ReconcileInput, log: Option<Log>)
    requires IsCny(input.actual) && !e.status.RELEASED?
    ensures Grows(e, ReconciledEntry(e, input, input.actual, log))
  {
  }

  lemma UnchargedGrows(s: State, c: Command, id: RequestId)
    requires id in s.entries && Target(c) == Some(id) && !c.Hold? && !c.Settle? && !c.Reconcile?
    ensures id in Step(s, c).state.entries && Grows(s.entries[id], Step(s, c).state.entries[id])
  {
    hide Used, CanAfford, Raised;
  }

  /** No later step erases what an earlier call left on the entry. */
  lemma EntryRecordsAreKept(s: State, other: Command, c: Command, id: RequestId)
    requires Coherent(s) && id in s.entries && EntryRecords(s.entries[id], c)
    ensures id in Step(s, other).state.entries && EntryRecords(Step(s, other).state.entries[id], c)
  {
    assert EntryOk(id, s.entries[id], FindLog(s, id));
    hide Step, Coherent, EntryOk;
    EntryGrows(s, other, id);
  }

  lemma RecordIsKept(s: State, other: Command, c: Command)
    requires Coherent(s) && Recorded(s, c)
    ensures Recorded(Step(s, other).state, c)
  {
    hide Step, EntryRecords, Coherent;
    if c.Reconcile? { OperationsAreKept(s, other, c.reconciliation.operationId); }
    else if c.Adjust? { OperationsAreKept(s, other, c.adjustment.operationId); }
    else { EntryRecordsAreKept(s, other, c, Target(c).value); }
  }

  /** A recorded call is answered from the record or refused; it changes nothing. */
  lemma RecordedIsInert(s: State, c: Command)
    requires Coherent(s) && Moves(c) && Recorded(s, c)
    ensures Step(s, c).state == s
  {
    hide Used, OverLimit, CanAfford, Coherent, AllocationNames, AllCny, Allocated, Raised, RouteRows, SumOfCosts;
  }

  lemma {:induction false} RecordSurvives(s: State, commands: seq<Command>, c: Command)
    requires Coherent(s) && Recorded(s, c)
    ensures Coherent(Run(s, commands)) && Recorded(Run(s, commands), c)
    decreases commands
  {
    if commands != [] {
      StepKeepsCoherent(s, commands[0]);
      RecordIsKept(s, commands[0], c);
      hide Coherent, Recorded, Step;
      RecordSurvives(Step(s, commands[0]).state, commands[1..], c);
    }
  }

  /** Retry safety: after a call was accepted, and whatever happened since, making it again changes nothing at all. */
  lemma ReplayChangesNothing(s: State, c: Command, since: seq<Command>)
    requires Coherent(s) && Moves(c) && Accepted(Step(s, c).outcome)
    ensures var now := Run(Step(s, c).state, since);
            Step(now, c).state == now
  {
    AcceptedIsRecorded(s, c);
    StepKeepsCoherent(s, c);
    RecordSurvives(Step(s, c).state, since, c);
    hide Coherent, Recorded;
    RecordedIsInert(Run(Step(s, c).state, since), c);
  }

  /** Two tries are one: whether or not the first one took effect, the state is that of a single successful call. */
  lemma SecondTryChargesOnce(s: State, c: Command)
    requires Coherent(s) && Moves(c)
    ensures Step(Step(s, c).state, c).state == Step(s, c).state
  {
    if Accepted(Step(s, c).outcome) {
      ReplayChangesNothing(s, c, []);
      assert Run(Step(s, c).state, []) == Step(s, c).state;
    } else {
      RejectionChangesNothing(s, c);
    }
  }
}
