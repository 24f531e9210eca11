/**
 * A request whose upstream answers well and reports no usage. Its output limit is one token, so one unit is put on hold;
 * the answer has 400 bytes, so a hundred tokens are guessed and a hundred units charged.
 */
module UnreportedAnswer {
  import opened Money
  import opened BudgetPreparation
  import opened LedgerSpec
  import opened Relay
  import opened RequestSafety
  import opened GroupRequest
  import C = LedgerCoherence
  import S = LedgerSafety
  import Routes = LedgerRoutes
  import Stream = StreamUsage

  const OWNER := Owner(1, 2, 3, 4)
  const PERIOD := PeriodId(3, 0)
  const GROUPS: map<nat, Group> := map[3 := Group(1, false, false)]
  const BODY := Body(40, map[MAX_TOKENS := 1], true)
  const CANDIDATE := Candidate(0, 0, false, 0, Price(0, 1_000_000, 0, 0))
  const INCOMING := Incoming(9, OWNER, 0, 0, OPENAI_CHAT, BODY, 1000, [CANDIDATE], false, RequestSnapshot(None, []))
  const REQUEST := Request(9, OWNER, 0, 0, 311, 1, [CANDIDATE], Call(false, 55), RequestSnapshot(None, []))
  const ANSWER := Response(200, Missing, 400, false)
  const REF := Ref(9, PERIOD)

  /** Nobody interferes, nothing is lost, and the one fetch is answered. */
  function AnswersWell(): World {
    World(0, true, _ => 60_000, _ => [], _ => Delivered, _ => false, _ => true, _ => ANSWER, None, _ => Stream.Reading(false, Missing),
          false, 0)
  }

  lemma RequestIsPrepared()
    ensures RequestOf(INCOMING) == Some(REQUEST) && HasBounds(REQUEST)
    ensures EstimateBudgetCost(REQUEST.inputTokens, REQUEST.outputTokens, Prices(REQUEST.candidates)) == Some(1)
  {
    assert LimitBytes(BODY.limits, MAX_TOKENS) == 15;
    assert Bytes(BODY) == 55;
    assert Prepare(OPENAI_CHAT, BODY, 1000) == Some(Prepared(BODY, 311, 1));
    assert Prices([CANDIDATE]) == [CANDIDATE.price];
    assert HighestWorstCase(311, 1, [CANDIDATE.price]) == 1_000_000;
  }

  /** The attempt is billed a hundred units by estimate, and stays so when the response ends. */
  const BILLED := Attempt(0, 0, 200, ESTIMATED, 100, Some(Usage(14, 100, 0, 0, false, 0)), CANDIDATE.price)

  lemma AttemptIsBilled()
    ensures Schedule([CANDIDATE]) == [CANDIDATE]
    ensures Final(REQUEST, AnswersWell(), [CANDIDATE], Returned(CANDIDATE)) == [BILLED]
    ensures Explains(REQUEST, AnswersWell(), [CANDIDATE], Returned(CANDIDATE))
  {
    var world := AnswersWell();
    assert [CANDIDATE][..0] == [];
    assert Schedule([]) == [];
    assert Repeated(CANDIDATE, 1) == [CANDIDATE];
    assert PlainUsage(CANDIDATE, ANSWER, REQUEST.call) == Usage(14, 100, 0, 0, false, 0);
    assert CalculateCost(Usage(14, 100, 0, 0, false, 0), CANDIDATE.price) == 100;
    assert AttemptFor(CANDIDATE, ANSWER, REQUEST.call) == BILLED;
    assert Tried([CANDIDATE], world.answer, REQUEST.call) == [BILLED];
    assert Finished(CANDIDATE, BILLED, LastUsage(REQUEST, world, CANDIDATE, 0), false) == BILLED;
  }

  const COMMIT := Command.Settle(REF, 100, UsageInput(9, OWNER, 100, 14, 100, Some([Some(100)])))

  lemma CommitIsAHundred()
    ensures Commit(REQUEST, REF, [BILLED]) == COMMIT
    ensures Routes.BringsRoutes(COMMIT)
  {
    assert [BILLED][..0] == [];
    assert KnownCost([]) == 0 && TokensIn([]) == 0 && TokensOut([]) == 0;
    assert RouteCosts([BILLED]) == [Some(100)];
    assert !AnyUnknown([BILLED]);
    CommitBringsRoutes(REQUEST, REF, [BILLED]);
  }

  // ----- the history

  const RESERVE := Command.Reserve(ReserveInput(9, OWNER, 0, 1, REQUEST.snapshot), 0, 0, true)
  const DISPATCH := Command.MarkDispatched(REF, 60_000)
  const HISTORY: seq<Event> := [Own(RESERVE), Own(DISPATCH), Fetch(0), Own(COMMIT)]

  function Row(): Entry {
    NewEntry(RESERVE.input, PERIOD, 1, 0)
  }

  ghost function Reserved1(): State {
    Step(S.Empty(GROUPS), RESERVE).state
  }

  ghost function Dispatched1(): State {
    Step(Reserved1(), DISPATCH).state
  }

  predicate OneRow(s: State, e: Entry) {
    s.entries == map[9 := e] && s.logs == map[] && PERIOD in s.terms
    && s.terms[PERIOD].limit == 1 && !s.terms[PERIOD].unlimited
  }

  lemma NothingIsUsed()
    ensures Used(S.Empty(GROUPS), PERIOD) == 0
  {
    S.EmptyIsCoherent(GROUPS);
    hide Used;
    S.UnopenedIsUnused(S.Empty(GROUPS), PERIOD);
  }

  lemma ReserveIsAccepted()
    ensures OneRow(ReserveStep(S.Empty(GROUPS), RESERVE.input, 0, 0, true).state, Row())
    ensures ReserveStep(S.Empty(GROUPS), RESERVE.input, 0, 0, true).outcome == Held(1)
  {
    hide Used;
    NothingIsUsed();
    var s := S.Empty(GROUPS);
    assert TermsFor(s, PERIOD) == Terms(1, false, 0);
    assert CanAfford(TermsFor(s, PERIOD), Used(s, PERIOD), 1);
    assert s.entries[9 := Row()] == map[9 := Row()];
  }

  lemma ReserveHolds()
    ensures OneRow(Reserved1(), Row()) && S.Growth(S.Empty(GROUPS), RESERVE, PERIOD) == 1
  {
    hide ReserveStep;
    ReserveIsAccepted();
    assert Step(S.Empty(GROUPS), RESERVE) == ReserveStep(S.Empty(GROUPS), RESERVE.input, 0, 0, true);
    hide Step;
  }

  lemma MarkingOneRow(s: State, e: Entry)
    requires OneRow(s, e) && e.status.RESERVED? && e.periodId == PERIOD
    ensures var r := MarkDispatchedStep(s, REF, 60_000);
            r.outcome == Done && OneRow(r.state, e.(dispatched := true, leaseUntil := Some(60_000)))
  {
    assert 9 in s.entries && s.entries[9] == e;
  }

  lemma SameClaimGrowsNothing(s: State, c: Command, e: Entry, after: Entry)
    requires OneRow(s, e) && OneRow(Step(s, c).state, after) && Target(c) == Some(9) && S.Claim(e) == S.Claim(after)
    ensures S.Growth(s, c, PERIOD) == 0
  {
    hide Step;
    assert 9 in s.entries && s.entries[9] == e;
    assert 9 in Step(s, c).state.entries && Step(s, c).state.entries[9] == after;
  }

  lemma DispatchMarks()
    ensures OneRow(Dispatched1(), Row().(dispatched := true, leaseUntil := Some(60_000)))
    ensures S.Accepted(Step(Reserved1(), DISPATCH).outcome) && S.Growth(Reserved1(), DISPATCH, PERIOD) == 0
  {
    hide Reserved1, MarkDispatchedStep, OneRow, S.Growth;
    ReserveHolds();
    assert Step(Reserved1(), DISPATCH) == MarkDispatchedStep(Reserved1(), REF, 60_000);
    hide Step;
    MarkingOneRow(Reserved1(), Row());
    SameClaimGrowsNothing(Reserved1(), DISPATCH, Row(), Row().(dispatched := true, leaseUntil := Some(60_000)));
  }

  lemma SettleOverruns()
    ensures S.Accepted(Step(Dispatched1(), COMMIT).outcome)
    ensures S.Overrun(Dispatched1(), COMMIT, PERIOD) == 99 && S.Growth(Dispatched1(), COMMIT, PERIOD) == 99
    ensures var after := Step(Dispatched1(), COMMIT).state;
            PERIOD in after.terms && after.terms[PERIOD].limit == 1 && !after.terms[PERIOD].unlimited
  {
    DispatchMarks();
    S.TermsAfter(Dispatched1(), COMMIT, PERIOD);
    hide Dispatched1, Used, OverLimit, Raised, RouteRows;
    assert Step(Dispatched1(), COMMIT) == SettleStep(Dispatched1(), REF, 100, COMMIT.usage);
  }

  lemma HistoryReplays()
    ensures HISTORY[..0] == [] && Replay(S.Empty(GROUPS), HISTORY[..0]) == S.Empty(GROUPS)
    ensures HISTORY[..1] == [Own(RESERVE)] && Replay(S.Empty(GROUPS), HISTORY[..1]) == Reserved1()
    ensures HISTORY[..2] == [Own(RESERVE), Own(DISPATCH)] && Replay(S.Empty(GROUPS), HISTORY[..2]) == Dispatched1()
    ensures HISTORY[..3] == [Own(RESERVE), Own(DISPATCH), Fetch(0)] && Replay(S.Empty(GROUPS), HISTORY[..3]) == Dispatched1()
    ensures Replay(S.Empty(GROUPS), HISTORY) == Step(Dispatched1(), COMMIT).state
    ensures Fetches(HISTORY[..2]) == 0 && AllCalls(HISTORY) == [RESERVE, DISPATCH, COMMIT]
  {
    hide Step, Replay, Fetches, AllCalls;
    FourEvents(S.Empty(GROUPS), RESERVE, DISPATCH, COMMIT);
  }

  /** Two calls, a fetch and a call, event by event. */
  lemma FourEvents(s: State, a: Command, b: Command, c: Command)
    ensures var h := [Own(a), Own(b), Fetch(0), Own(c)];
            && h[..0] == [] && h[..1] == [Own(a)] && h[..2] == [Own(a), Own(b)] && h[..3] == [Own(a), Own(b), Fetch(0)]
            && Replay(s, []) == s && Replay(s, h[..1]) == Step(s, a).state
            && Replay(s, h[..2]) == Step(Step(s, a).state, b).state && Replay(s, h[..3]) == Replay(s, h[..2])
            && Replay(s, h) == Step(Replay(s, h[..3]), c).state
            && Fetches(h[..2]) == 0 && AllCalls(h) == [a, b, c]
  {
    hide Step;
    var h := [Own(a), Own(b), Fetch(0), Own(c)];
    OneMoreEvent(s, [], Own(a));
    assert [] + [Own(a)] == h[..1];
    OneMoreEvent(s, h[..1], Own(b));
    assert h[..1] + [Own(b)] == h[..2];
    OneMoreEvent(s, h[..2], Fetch(0));
    assert h[..2] + [Fetch(0)] == h[..3];
    OneMoreEvent(s, h[..3], Own(c));
    assert h[..3] + [Own(c)] == h;
    assert [a] + [b] == [a, b] && [a, b] + [c] == [a, b, c];
    hide Replay, Fetches, AllCalls;
  }

  lemma OneMoreEvent(s: State, trace: seq<Event>, event: Event)
    ensures Replay(s, trace + [event]) == After(Replay(s, trace), event)
    ensures Fetches(trace + [event]) == Fetches(trace) + (if event.Fetch? then 1 else 0)
    ensures event.Own? ==> AllCalls(trace + [event]) == AllCalls(trace) + [event.c]
    ensures event.Fetch? ==> AllCalls(trace + [event]) == AllCalls(trace)
  {
    hide Step;
    assert (trace + [event])[..|trace|] == trace;
  }

  /** The history is one a request can have: every event keeps to the protocol, all but the hold being enough. */
  lemma HistoryIsSafe()
    ensures Safe(S.Empty(GROUPS), HISTORY, REF, false)
  {
    HistoryReplays();
    DispatchMarks();
    CommitIsAHundred();
    hide Replay, Step, Dispatched1, Reserved1, Fetches, AllCalls;
    forall i | 0 <= i < |HISTORY| ensures EventSafe(S.Empty(GROUPS), HISTORY[..i], HISTORY[i], REF, false) {
      if i == 2 {
        var before := HISTORY[..2];
        assert before[..1] == HISTORY[..1];
      }
    }
  }

  /** The commit overruns the period by all but the one unit on hold, and nobody else overruns anything. */
  lemma HistoryOverruns()
    ensures S.TotalOverrun(S.Empty(GROUPS), AllCalls(HISTORY), PERIOD) == 99
    ensures OthersOverrun(S.Empty(GROUPS), HISTORY, PERIOD) == 0
  {
    HistoryReplays();
    SettleOverruns();
    var s := S.Empty(GROUPS);
    hide Step, Replay, S.Overrun, AllCalls;
    assert [RESERVE, DISPATCH, COMMIT][1..] == [DISPATCH, COMMIT] && [DISPATCH, COMMIT][1..] == [COMMIT] && [COMMIT][1..] == [];
    assert S.TotalOverrun(Step(Dispatched1(), COMMIT).state, [], PERIOD) == 0;
    assert S.TotalOverrun(Dispatched1(), [COMMIT], PERIOD) == 99;
    OnlyCharges(s, RESERVE);
    OnlyCharges(Reserved1(), DISPATCH);
    assert S.TotalOverrun(Reserved1(), [DISPATCH, COMMIT], PERIOD) == 99;
    assert HISTORY == HISTORY[..3] + [Own(COMMIT)];
    assert HISTORY[..3] == HISTORY[..2] + [Fetch(0)] && HISTORY[..3][..2] == HISTORY[..2];
    assert HISTORY[..2] == HISTORY[..1] + [Own(DISPATCH)] && HISTORY[..2][..1] == HISTORY[..1];
    assert OthersOverrun(s, [], PERIOD) == 0;
    assert HISTORY[..1][..0] == [];
    assert OthersOverrun(s, HISTORY[..1], PERIOD) == 0;
    assert OthersOverrun(s, HISTORY[..2], PERIOD) == 0;
    assert OthersOverrun(s, HISTORY[..3], PERIOD) == 0;
  }

  lemma OnlyCharges(s: State, c: Command)
    requires c.Reserve? || c.MarkDispatched?
    ensures S.Overrun(s, c, PERIOD) == 0
  {
  }

  /** A hundred units are used of a limit of one. */
  lemma HistoryBreaksTheLimit()
    ensures var after := Replay(S.Empty(GROUPS), HISTORY);
            PERIOD in after.terms && !after.terms[PERIOD].unlimited && after.terms[PERIOD].limit == 1 && Used(after, PERIOD) == 100
  {
    HistoryReplays();
    S.EmptyIsCoherent(GROUPS);
    NothingIsUsed();
    ReserveHolds();
    DispatchMarks();
    SettleOverruns();
    var s := S.Empty(GROUPS);
    hide Replay, C.Coherent, S.Growth, Used, S.Overrun, AllCalls;
    C.StepKeepsCoherent(s, RESERVE);
    C.StepKeepsCoherent(Reserved1(), DISPATCH);
    S.UseAfter(s, RESERVE, PERIOD);
    S.UseAfter(Reserved1(), DISPATCH, PERIOD);
    S.UseAfter(Dispatched1(), COMMIT, PERIOD);
  }

  /**
   * So a request whose upstream reports nothing at all can overrun: the charge is that of its one attempt, a hundred
   * units against a hold and a limit of one.
   */
  lemma UnreportedAnswersOverrun()
    ensures RequestOf(INCOMING) == Some(REQUEST) && HasBounds(REQUEST) && RefOf(REQUEST) == REF
    ensures EstimateBudgetCost(REQUEST.inputTokens, REQUEST.outputTokens, Prices(REQUEST.candidates)) == Some(1)
    ensures forall k: nat :: AnswersWell().answer(k).Response? && !AnswersWell().answer(k).report.Reported?
    ensures var attempts := Final(REQUEST, AnswersWell(), Schedule(REQUEST.candidates), Returned(CANDIDATE));
            Explains(REQUEST, AnswersWell(), Schedule(REQUEST.candidates), Returned(CANDIDATE))
            && HISTORY[|HISTORY| - 1] == Own(Commit(REQUEST, REF, attempts)) && KnownCost(attempts) == 100
    ensures Safe(S.Empty(GROUPS), HISTORY, REF, false)
    ensures S.TotalOverrun(S.Empty(GROUPS), AllCalls(HISTORY), PERIOD) == 99 && OthersOverrun(S.Empty(GROUPS), HISTORY, PERIOD) == 0
    ensures var after := Replay(S.Empty(GROUPS), HISTORY);
            PERIOD in after.terms && !after.terms[PERIOD].unlimited && after.terms[PERIOD].limit == 1 && Used(after, PERIOD) == 100
  {
    hide Safe, Replay, Final, Explains, EstimateBudgetCost, RequestOf, Used, AllCalls, OthersOverrun, S.TotalOverrun, HasBounds, Commit;
    RequestIsPrepared();
    AttemptIsBilled();
    CommitIsAHundred();
    HistoryIsSafe();
    HistoryOverruns();
    HistoryBreaksTheLimit();
    assert [BILLED][..0] == [] && KnownCost([]) == 0;
  }
}
