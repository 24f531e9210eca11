/** The cost of a request as the entry, its usage log and the log's routes record it. */
module LedgerRoutes {
  import opened Money
  import opened Sums
  import opened LedgerSpec
  import opened LedgerCoherence
  import opened LedgerSafety

  /** The routes of a log, when there are any, add up to its cost; a route of unknown cost counts nothing. */
  ghost predicate RoutesAgree(log: Log) {
    |log.routes| > 0 ==> RouteTotal(log) == log.cost
  }

  function RouteSum(routes: seq<Option<Cny>>): nat {
    if routes == [] then 0
    else RouteSum(routes[..|routes| - 1]) + (if routes[|routes| - 1].Some? then routes[|routes| - 1].value else 0)
  }

  /** The caller brought routes, and they add up. */
  predicate FullyRouted(usage: UsageInput, amount: int) {
    usage.routes.Some? && (|usage.routes.value| > 0 ==> RouteSum(usage.routes.value) == amount)
  }

  lemma {:induction false} RouteRowsTotal(routes: seq<Option<Cny>>)
    ensures SumOver(RouteRows(routes), RouteAmount()) == RouteSum(routes)
    ensures |RouteRows(routes)| == |routes|
    decreases routes
  {
    if routes == [] {
      assert RouteRows(routes) == map[];
    } else {
      var last: nat := |routes| - 1;
      RouteRowsTotal(routes[..last]);
      SumWrite(RouteRows(routes[..last]), RouteAmount(), last, routes[last]);
      assert RouteRows(routes) == RouteRows(routes[..last])[last := routes[last]];
    }
  }

  function Ids(costs: seq<RouteCost>): set<nat> {
    set i | 0 <= i < |costs| :: costs[i].id
  }

  lemma {:induction false} DistinctIdsCount(costs: seq<RouteCost>)
    requires DistinctRoutes(costs)
    ensures |Ids(costs)| == |costs|
    decreases costs
  {
    if costs != [] {
      var last := |costs| - 1;
      DistinctIdsCount(costs[..last]);
      assert Ids(costs) == Ids(costs[..last]) + {costs[last].id};
    }
  }

  lemma SubsetOfSameSize<T>(a: set<T>, b: set<T>)
    requires a <= b && |a| == |b|
    ensures a == b
  {
    if a != b {
      var extra :| extra in b && extra !in a;
      SubsetSize(a, b - {extra});
    }
  }

  lemma {:induction false} SubsetSize<T>(a: set<T>, b: set<T>)
    requires a <= b
    ensures |a| <= |b|
    decreases a
  {
    if a != {} {
      var x :| x in a;
      SubsetSize(a - {x}, b - {x});
    }
  }

  /** Writing the allocated routes one by one moves the total from what those routes had to what they get. */
  lemma {:induction false} AllocatedTotal(routes: map<nat, Option<Cny>>, costs: seq<RouteCost>, rest: map<nat, Option<Cny>>)
    requires AllCny(costs) && DistinctRoutes(costs)
    requires rest == routes - Ids(costs)
    ensures SumOver(Allocated(routes, costs), RouteAmount()) == SumOver(rest, RouteAmount()) + SumOfCosts(costs)
    ensures Allocated(routes, costs).Keys == routes.Keys + Ids(costs)
    decreases costs
  {
    if costs == [] {
      assert rest == routes;
    } else {
      var first := costs[0];
      var next := routes[first.id := Some(first.cost)];
      var without := rest[first.id := Some(first.cost)];
      assert Ids(costs) == Ids(costs[1..]) + {first.id};
      assert first.id !in Ids(costs[1..]);
      assert without == next - Ids(costs[1..]);
      SumWrite(rest, RouteAmount(), first.id, Some(first.cost));
      hide SumOver;
      AllocatedTotal(next, costs[1..], without);
    }
  }

  /** An accepted allocation leaves the log's routes adding up to the corrected cost. */
  lemma AllocationAgrees(e: Entry, log: Option<Log>, costs: seq<RouteCost>, amount: Cny)
    requires AllCny(costs) && AllocationNames(log, costs)
    requires |costs| > 0 ==> SumOfCosts(costs) == amount
    ensures RoutesAgree(ReconciledLog(e, log, costs, amount))
  {
    if log.Some? && |log.value.routes| > 0 {
      DistinctIdsCount(costs);
      SubsetOfSameSize(Ids(costs), log.value.routes.Keys);
      var rest := log.value.routes - Ids(costs);
      assert rest == map[];
      AllocatedTotal(log.value.routes, costs, rest);
    }
  }

  lemma NewLogAgrees(usage: UsageInput, amount: Cny)
    ensures RoutesAgree(NewLog(usage, amount)) <==> (usage.routes.None? || FullyRouted(usage, amount))
  {
    if usage.routes.Some? { RouteRowsTotal(usage.routes.value); }
    hide RouteSum, RouteRows;
  }

  /** A settlement or hold that brings its routes, as the relay always does. */
  predicate BringsRoutes(c: Command) {
    && (c.Settle? ==> FullyRouted(c.usage, c.actual))
    && (c.Hold? ==> FullyRouted(c.hold.usage, c.hold.actual))
  }

  ghost predicate AllRoutesAgree(s: State) {
    forall id :: id in s.logs ==> RoutesAgree(s.logs[id])
  }

  /** What a settlement needs to leave the routes of its log adding up. */
  ghost predicate SettlesRoutes(s: State, id: RequestId, usage: UsageInput, actual: int)
    requires id in s.entries
  {
    if usage.routes.Some? then FullyRouted(usage, actual)
    else id !in s.logs || |s.logs[id].routes| == 0 || actual == s.entries[id].settled
  }

  /** A settlement or hold that takes effect brings routes that add up, or none where none that do not can be left. */
  ghost predicate KeepsRoutes(s: State, c: Command) {
    Step(s, c).state != s ==>
      && (c.Settle? && c.ref.requestId in s.entries ==> SettlesRoutes(s, c.ref.requestId, c.usage, c.actual))
      && (c.Hold? ==> c.hold.usage.routes.None? || FullyRouted(c.hold.usage, c.hold.actual))
  }

  lemma SettledLog(s: State, ref: Ref, actual: int, usage: UsageInput)
    requires Step(s, Settle(ref, actual, usage)).state != s
    ensures var id, after := ref.requestId, Step(s, Settle(ref, actual, usage)).state.logs;
            && actual >= 0 && id in s.entries && id in after
            && (id in s.logs ==> s.logs[id].cost == s.entries[id].settled && after[id] == ReplacedLog(s.logs[id], usage, actual))
            && (id !in s.logs ==> after[id] == NewLog(usage, actual))
  {
    hide Used, OverLimit, Raised, NewLog, ReplacedLog;
  }

  lemma ReplacedLogAgrees(log: Log, usage: UsageInput, amount: Cny)
    requires RoutesAgree(log)
    ensures RoutesAgree(ReplacedLog(log, usage, amount)) <==>
              if usage.routes.Some? then FullyRouted(usage, amount) else |log.routes| == 0 || amount == log.cost
  {
    if usage.routes.Some? { RouteRowsTotal(usage.routes.value); }
    hide RouteSum, RouteRows, SumOver;
  }

  /**
   * Exactly when a settlement leaves the routes adding up: the caller brings routes that do, or brings none and either
   * the held log has none or the settled cost is the held one.
   */
  lemma SettledRoutesAgreeExactly(s: State, ref: Ref, actual: int, usage: UsageInput)
    requires AllRoutesAgree(s) && Step(s, Settle(ref, actual, usage)).state != s
    ensures var id := ref.requestId;
            && id in s.entries && id in Step(s, Settle(ref, actual, usage)).state.logs
            && (RoutesAgree(Step(s, Settle(ref, actual, usage)).state.logs[id]) <==> SettlesRoutes(s, id, usage, actual))
  {
    hide Step, FullyRouted, RoutesAgree, NewLog, ReplacedLog;
    SettledLog(s, ref, actual, usage);
    if ref.requestId in s.logs {
      ReplacedLogAgrees(s.logs[ref.requestId], usage, actual);
    } else {
      NewLogAgrees(usage, actual);
    }
  }

  lemma HeldLogIsNew(s: State, ref: Ref, hold: HoldInput)
    requires Step(s, Command.Hold(ref, hold)).state != s
    ensures var after := Step(s, Command.Hold(ref, hold)).state.logs;
            hold.actual >= 0 && ref.requestId in after && after[ref.requestId] == NewLog(hold.usage, hold.actual)
  {
    hide Used, Raised, NewLog;
  }

  lemma ReconciledRoutesAgree(s: State, c: Command)
    requires c.Reconcile? && Step(s, c).state != s
    ensures c.requestId in Step(s, c).state.logs && RoutesAgree(Step(s, c).state.logs[c.requestId])
  {
    hide RoutesAgree, Used, AllocationNames, AllCny, SumOfCosts, Raised;
    var log := FindLog(s, c.requestId);
    AllocationAgrees(s.entries[c.requestId], log, Allocation(log, c.reconciliation, c.reconciliation.actual), c.reconciliation.actual);
  }

  lemma OnlyChargesWriteLogs(s: State, c: Command)
    requires !c.Settle? && !c.Hold? && !c.Reconcile?
    ensures Step(s, c).state.logs == s.logs
  {
    hide Used, CanAfford, Raised;
  }

  /** The log a charge wrote adds up exactly when the call kept the routes. */
  lemma TargetRoutesAgreeExactly(s: State, c: Command)
    requires Coherent(s) && AllRoutesAgree(s) && Step(s, c).state != s && (c.Settle? || c.Hold? || c.Reconcile?)
    ensures var id := Target(c).value;
            id in Step(s, c).state.logs && (RoutesAgree(Step(s, c).state.logs[id]) <==> KeepsRoutes(s, c))
  {
    hide Step, RoutesAgree, FullyRouted, Coherent, NewLog, AllRoutesAgree;
    if c.Settle? {
      SettledRoutesAgreeExactly(s, c.ref, c.actual, c.usage);
    } else if c.Hold? {
      HeldLogIsNew(s, c.ref, c.hold);
      NewLogAgrees(c.hold.usage, c.hold.actual);
    } else {
      ReconciledRoutesAgree(s, c);
    }
  }

  lemma OtherRoutesStay(s: State, c: Command, id: RequestId)
    requires Target(c) != Some(id)
    ensures id in Step(s, c).state.logs <==> id in s.logs
    ensures id in s.logs ==> Step(s, c).state.logs[id] == s.logs[id]
  {
    OnlyTheTargetMoves(s, c, id);
    hide Step;
    assert FindLog(Step(s, c).state, id) == FindLog(s, id);
  }

  /** Where all routes add up, they do so after a call if and only if the call kept them. */
  lemma StepKeepsRoutesExactly(s: State, c: Command)
    requires Coherent(s) && AllRoutesAgree(s)
    ensures AllRoutesAgree(Step(s, c).state) <==> KeepsRoutes(s, c)
  {
    hide Step, RoutesAgree, SettlesRoutes, FullyRouted, Coherent;
    var after := Step(s, c).state;
    if after != s {
      if c.Settle? || c.Hold? || c.Reconcile? {
        TargetRoutesAgreeExactly(s, c);
        forall id | id != Target(c).value
          ensures id in after.logs <==> id in s.logs
          ensures id in s.logs ==> after.logs[id] == s.logs[id]
        {
          OtherRoutesStay(s, c, id);
        }
      } else {
        OnlyChargesWriteLogs(s, c);
      }
    }
  }

  ghost predicate RunKeepsRoutes(s: State, commands: seq<Command>)
    decreases commands
  {
    commands == [] || (KeepsRoutes(s, commands[0]) && RunKeepsRoutes(Step(s, commands[0]).state, commands[1..]))
  }

  /** All routes add up now and after every call. */
  ghost predicate AgreeThroughout(s: State, commands: seq<Command>)
    decreases commands
  {
    AllRoutesAgree(s) && (commands == [] || AgreeThroughout(Step(s, commands[0]).state, commands[1..]))
  }

  /** The routes of all logs add up all through a run if and only if every settlement and hold of the run keeps them. */
  lemma {:induction false} RoutesAgreeExactly(s: State, commands: seq<Command>)
    requires Coherent(s) && AllRoutesAgree(s)
    ensures AgreeThroughout(s, commands) <==> RunKeepsRoutes(s, commands)
    ensures AgreeThroughout(s, commands) ==> AllRoutesAgree(Run(s, commands))
    decreases commands
  {
    if commands != [] {
      StepKeepsCoherent(s, commands[0]);
      StepKeepsRoutesExactly(s, commands[0]);
      hide Coherent, AllRoutesAgree, KeepsRoutes, Step;
      if AllRoutesAgree(Step(s, commands[0]).state) {
        RoutesAgreeExactly(Step(s, commands[0]).state, commands[1..]);
      }
    }
  }

  lemma {:induction false} BringingKeepsRoutes(s: State, commands: seq<Command>)
    requires forall c :: c in commands ==> BringsRoutes(c)
    ensures RunKeepsRoutes(s, commands)
    decreases commands
  {
    if commands != [] {
      assert commands[0] in commands;
      hide Step, FullyRouted;
      BringingKeepsRoutes(Step(s, commands[0]).state, commands[1..]);
    }
  }

  /**
   * Cost agreement: through holds, settlements over holds and every reconciliation, a request's usage log carries what
   * its entry has settled, and its routes add up to the same amount.
   */
  lemma CostRecordsAgree(groups: map<nat, Group>, commands: seq<Command>, id: RequestId)
    requires RunKeepsRoutes(Empty(groups), commands)
    ensures var s := Run(Empty(groups), commands);
            id in s.logs ==> id in s.entries && s.logs[id].cost == s.entries[id].settled && RoutesAgree(s.logs[id])
  {
    EmptyIsCoherent(groups);
    RunKeepsCoherent(Empty(groups), commands);
    RoutesAgreeExactly(Empty(groups), commands);
    var s := Run(Empty(groups), commands);
    if id in s.logs { assert EntryOk(id, s.entries[id], FindLog(s, id)); }
    hide RoutesAgree, Run, RunKeepsRoutes;
  }

  // ----- a settlement that brings no routes

  const OWNER := Owner(0, 0, 1, 0)
  const REF := Ref(0, PeriodId(1, 0))
  const GROUPS: map<nat, Group> := map[1 := Group(0, true, false)]
  const RESERVE := Command.Reserve(ReserveInput(0, OWNER, 0, 10, RequestSnapshot(None, [])), 0, 0, true)
  const HOLD := Command.Hold(REF, HoldInput(5, 2, UsageInput(0, OWNER, 5, 0, 0, Some([Some(5)]))))
  const SETTLE := Command.Settle(REF, 7, UsageInput(0, OWNER, 7, 0, 0, None))

  /** A held log of one route at 5, settled at 7 without routes, keeps a route total of 5. */
  lemma StaleRoutes()
    ensures var log := ReplacedLog(NewLog(HOLD.hold.usage, 5), SETTLE.usage, 7);
            RoutesAgree(NewLog(HOLD.hold.usage, 5)) && log.cost == 7 && RouteTotal(log) == 5 && !RoutesAgree(log)
  {
    var routes: map<nat, Option<Cny>> := map[0 := Some(5)];
    assert RouteRows([Some(5)]) == routes;
    SumRemove(routes, RouteAmount(), 0);
    assert routes - {0} == map[];
  }

  /** The request's only row and log, in a period that is open. */
  predicate OneRow(s: State, e: Entry, log: Option<Log>) {
    && 0 in s.entries && s.entries[0] == e && REF.periodId in s.terms && e.periodId == REF.periodId && e.owner == OWNER
    && FindLog(s, 0) == log
  }

  lemma ReservedRow(s: State)
    requires s == Empty(GROUPS)
    ensures OneRow(Step(s, RESERVE).state, NewEntry(RESERVE.input, REF.periodId, 10, 0), None)
    ensures Step(s, RESERVE).outcome == Held(10)
  {
    hide Used;
    assert CanAfford(TermsFor(s, REF.periodId), Used(s, REF.periodId), 10);
  }

  lemma HeldRow(s: State)
    requires OneRow(s, NewEntry(RESERVE.input, REF.periodId, 10, 0), None)
    ensures OneRow(Step(s, HOLD).state, HeldEntry(NewEntry(RESERVE.input, REF.periodId, 10, 0), HOLD.hold, 5, 2),
                   Some(NewLog(HOLD.hold.usage, 5)))
    ensures Step(s, HOLD).outcome == Done
  {
    hide Used, RouteRows;
  }

  lemma SettledRow(s: State)
    requires OneRow(s, HeldEntry(NewEntry(RESERVE.input, REF.periodId, 10, 0), HOLD.hold, 5, 2), Some(NewLog(HOLD.hold.usage, 5)))
    ensures FindLog(Step(s, SETTLE).state, 0) == Some(ReplacedLog(NewLog(HOLD.hold.usage, 5), SETTLE.usage, 7))
    ensures Step(s, SETTLE).outcome.Settlement?
  {
    hide Used, RouteRows, OverLimit;
  }

  /**
   * From the empty ledger, a hold at 5 with its route, then an accepted settlement at 7 that brings none: the log costs
   * 7 and its routes still add up to 5.
   */
  lemma SettlingWithoutRoutesLeavesStaleOnes()
    ensures var held := Run(Empty(GROUPS), [RESERVE, HOLD]);
            var reply := Step(held, SETTLE);
            && AllRoutesAgree(held) && reply.outcome.Settlement? && reply.state == Run(Empty(GROUPS), [RESERVE, HOLD, SETTLE])
            && 0 in reply.state.logs && reply.state.logs[0].cost == 7 && RouteTotal(reply.state.logs[0]) == 5
            && !RoutesAgree(reply.state.logs[0])
  {
    hide *;
    SettlesWithout();
    HeldRoutesAgree();
    Stepwise(Empty(GROUPS), RESERVE, HOLD, SETTLE);
  }

  lemma SettlesWithout()
    ensures var held := Step(Step(Empty(GROUPS), RESERVE).state, HOLD).state;
            var reply := Step(held, SETTLE);
            && reply.outcome.Settlement? && 0 in reply.state.logs && reply.state.logs[0].cost == 7
            && RouteTotal(reply.state.logs[0]) == 5 && !RoutesAgree(reply.state.logs[0])
  {
    hide Step, RoutesAgree, RouteTotal, ReplacedLog, NewLog;
    ReservedRow(Empty(GROUPS));
    HeldRow(Step(Empty(GROUPS), RESERVE).state);
    SettledRow(Step(Step(Empty(GROUPS), RESERVE).state, HOLD).state);
    StaleRoutes();
  }

  lemma Stepwise(s: State, a: Command, b: Command, c: Command)
    ensures Run(s, [a, b]) == Step(Step(s, a).state, b).state
    ensures Run(s, [a, b, c]) == Step(Run(s, [a, b]), c).state
  {
    hide Step;
    assert [a, b, c][1..] == [b, c] && [a, b][1..] == [b] && [b, c][1..] == [c] && [b][1..] == [] && [c][1..] == [];
    assert Run(Step(s, a).state, [b]) == Run(Step(Step(s, a).state, b).state, []);
    assert Run(Step(Step(s, a).state, b).state, [c]) == Run(Step(Step(Step(s, a).state, b).state, c).state, []);
  }

  lemma HeldRoutesAgree()
    ensures AllRoutesAgree(Run(Empty(GROUPS), [RESERVE, HOLD]))
  {
    assert [Some(5)][..0] == [] && RouteSum([Some(5)]) == 5;
    assert BringsRoutes(HOLD) && BringsRoutes(RESERVE);
    hide BringsRoutes, Run, RunKeepsRoutes, AgreeThroughout;
    EmptyIsCoherent(GROUPS);
    BringingKeepsRoutes(Empty(GROUPS), [RESERVE, HOLD]);
    RoutesAgreeExactly(Empty(GROUPS), [RESERVE, HOLD]);
  }
}
