/** The amounts an entry keeps for the quota mirror, against what it has settled and what its usage log counts. */
module LedgerMirror {
  import opened Money
  import opened LedgerSpec
  import opened LedgerCoherence
  import opened LedgerSafety

  /**
   * A correction carries the settled amount in whole micro units, and so do the actual amounts until one is issued; the
   * tokens are those of the usage log.
   */
  predicate Carries(e: Entry, log: Option<Log>) {
    && (e.snapshot.redisCorrection.Some? ==> e.snapshot.redisCorrection.value.cost == Micro(e.settled))
    && (e.snapshot.redisActual.Some? && e.snapshot.redisCorrection.None? ==> e.snapshot.redisActual.value.cost == Micro(e.settled))
    && (e.snapshot.redisActual.Some? ==>
          log.Some? && e.snapshot.redisActual.value.tokens == log.value.inputTokens + log.value.outputTokens)
  }

  predicate CarriesAt(s: State, id: RequestId) {
    id in s.entries ==> Carries(s.entries[id], FindLog(s, id))
  }

  lemma ReconciledCarries(e: Entry, input: ReconcileInput, log: Option<Log>, costs: seq<RouteCost>)
    requires IsCny(input.actual) && AllCny(costs) && Carries(e, log)
    ensures Carries(ReconciledEntry(e, input, input.actual, log), Some(ReconciledLog(e, log, costs, input.actual)))
  {
    hide Allocated, AllCny;
  }

  lemma FundingCarries(s: State, c: Command, id: RequestId)
    requires Coherent(s) && CarriesAt(s, id) && Target(c) == Some(id) && (c.Reserve? || c.Extend?)
    ensures CarriesAt(Step(s, c).state, id)
  {
    hide Coherent, Used, CanAfford, Raised;
    if id !in s.entries { assert FindLog(s, id) == None by { NoEntryNoLog(s, id); } }
  }

  lemma NoEntryNoLog(s: State, id: RequestId)
    requires Coherent(s) && id !in s.entries
    ensures FindLog(s, id) == None
  {
    hide EntryOk;
  }

  lemma HoldingCarries(s: State, c: Command, id: RequestId)
    requires Coherent(s) && CarriesAt(s, id) && c.Hold? && c.ref.requestId == id
    ensures CarriesAt(Step(s, c).state, id)
  {
    if id in s.entries { assert EntryOk(id, s.entries[id], FindLog(s, id)); }
    hide Coherent, Used, Raised, NewLog;
  }

  lemma SettlingCarries(s: State, c: Command, id: RequestId)
    requires Coherent(s) && CarriesAt(s, id) && c.Settle? && c.ref.requestId == id
    ensures CarriesAt(Step(s, c).state, id)
  {
    if id in s.entries { assert EntryOk(id, s.entries[id], FindLog(s, id)); }
    hide Coherent, Used, OverLimit, Raised, RouteRows;
  }

  lemma ReconcilingCarries(s: State, c: Command, id: RequestId)
    requires CarriesAt(s, id) && c.Reconcile? && c.requestId == id
    ensures CarriesAt(Step(s, c).state, id)
  {
    hide Used, AllocationNames, AllCny, SumOfCosts, Raised, ReconciledEntry, ReconciledLog, Carries;
    var input, log := c.reconciliation, FindLog(s, id);
    if id in s.entries && IsCny(input.actual) && AllCny(Allocation(log, input, input.actual)) {
      ReconciledCarries(s.entries[id], input, log, Allocation(log, input, input.actual));
    }
  }

  lemma MarkingCarries(s: State, c: Command, id: RequestId)
    requires CarriesAt(s, id) && Target(c) == Some(id)
    requires c.MarkDispatched? || c.Release? || c.MarkUncertain? || c.RecoverExpired? || c.FinishSync?
    ensures CarriesAt(Step(s, c).state, id)
  {
  }

  lemma StepCarries(s: State, c: Command, id: RequestId)
    requires Coherent(s) && CarriesAt(s, id)
    ensures CarriesAt(Step(s, c).state, id)
  {
    hide Step, Coherent, Carries;
    if Target(c) != Some(id) {
      OnlyTheTargetMoves(s, c, id);
    } else if c.Reserve? || c.Extend? {
      FundingCarries(s, c, id);
    } else if c.Hold? {
      HoldingCarries(s, c, id);
    } else if c.Settle? {
      SettlingCarries(s, c, id);
    } else if c.Reconcile? {
      ReconcilingCarries(s, c, id);
    } else {
      MarkingCarries(s, c, id);
    }
  }

  lemma {:induction false} RunCarries(s: State, commands: seq<Command>, id: RequestId)
    requires Coherent(s) && CarriesAt(s, id)
    ensures CarriesAt(Run(s, commands), id)
    decreases commands
  {
    if commands != [] {
      StepKeepsCoherent(s, commands[0]);
      StepCarries(s, commands[0], id);
      hide Coherent, CarriesAt, Step;
      RunCarries(Step(s, commands[0]).state, commands[1..], id);
    }
  }

  /** In every reachable state what a request that is no longer open has for its markers is its settled amount and its logged tokens. */
  lemma MirrorAmountsAreTheLedgers(groups: map<nat, Group>, commands: seq<Command>, id: RequestId)
    ensures var s := Run(Empty(groups), commands);
            id in s.entries && !IsOpen(s.entries[id].status) ==>
              var e := s.entries[id];
              && (e.snapshot.redisCorrection.Some? ==> e.snapshot.redisCorrection.value.cost == Micro(e.settled))
              && (e.snapshot.redisActual.Some? && e.snapshot.redisCorrection.None? ==>
                    e.snapshot.redisActual.value.cost == Micro(e.settled))
              && (e.snapshot.redisActual.Some? <==> id in s.logs)
              && (id in s.logs ==> e.snapshot.redisActual.value.tokens == s.logs[id].inputTokens + s.logs[id].outputTokens)
              && (id !in s.logs ==> e.settled == 0)
  {
    EmptyIsCoherent(groups);
    RunKeepsCoherent(Empty(groups), commands);
    RunCarries(Empty(groups), commands, id);
    var s := Run(Empty(groups), commands);
    if id in s.entries { assert EntryOk(id, s.entries[id], FindLog(s, id)); }
    hide Run, Coherent;
  }
}
