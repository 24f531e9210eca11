/**
 * One budgeted request from reservation to charge, against the real ledger and amid everybody else's calls.
 *
 * What the request does not decide is given by a World: what others call before each of its own calls, whether a call
 * or its reply gets lost, when the client goes away, and what every fetch comes back with.
 */
module GroupRequest {
  import opened Money
  import opened BudgetPreparation
  import opened LedgerSpec
  import opened Relay
  import opened RequestSafety
  import C = LedgerCoherence
  import S = LedgerSafety
  import Routes = LedgerRoutes
  import L = Ledger
  import Stream = StreamUsage

  /** A request as it comes in. */
  datatype Incoming = Incoming(
    requestId: RequestId, owner: Owner, startedAt: int, periodKey: nat, protocol: Protocol, body: Body, contextSize: int,
    candidates: seq<Candidate>, streaming: bool, snapshot: RequestSnapshot)

  /** A request with its prepared token bounds. */
  datatype Request = Request(
    requestId: RequestId, owner: Owner, startedAt: int, periodKey: nat, inputTokens: nat, outputTokens: nat,
    candidates: seq<Candidate>, call: Call, snapshot: RequestSnapshot)

  function RequestOf(incoming: Incoming): Option<Request> {
    var prepared := Prepare(incoming.protocol, incoming.body, incoming.contextSize);
    if prepared.None? then None
    else
      Some(Request(incoming.requestId, incoming.owner, incoming.startedAt, incoming.periodKey,
                   prepared.value.inputTokens, prepared.value.outputTokens, incoming.candidates,
                   Call(incoming.streaming, Bytes(prepared.value.body)), incoming.snapshot))
  }

  predicate HasBounds(request: Request) {
    WellPrepared(request.call.preparedBytes, request.inputTokens, request.outputTokens)
  }

  datatype Fault = Delivered | ReplyLost | NeverArrived

  datatype World = World(
    now: int, authorized: bool, leaseUntil: nat -> int, others: nat -> seq<Command>, fault: nat -> Fault,
    aborted: nat -> bool, renewed: nat -> bool, answer: nat -> Answer,
    stream: Option<seq<string>>, read: string -> Stream.Reading, interrupted: bool, closings: nat)

  /** How the relay ended: a response to pass on, no candidate left, or stopped before an attempt. */
  datatype Relayed = Returned(candidate: Candidate) | Exhausted | Interrupted

  datatype Ending = NotReserved | Released(ok: bool) | Committed | Pending

  // ----- the history of a request

  datatype Event = Own(c: Command) | Others(commands: seq<Command>) | Fetch(attempt: nat)

  ghost function After(s: State, event: Event): State {
    match event
    case Own(c) => Step(s, c).state
    case Others(commands) => Run(s, commands)
    case Fetch(_) => s
  }

  ghost function Replay(s: State, trace: seq<Event>): State {
    if trace == [] then s else After(Replay(s, trace[..|trace| - 1]), trace[|trace| - 1])
  }

  function Fetches(trace: seq<Event>): nat {
    if trace == [] then 0
    else Fetches(trace[..|trace| - 1]) + (if trace[|trace| - 1].Fetch? then 1 else 0)
  }

  /** The last thing the request itself did was to mark this very entry as dispatched, and the mark was accepted. */
  ghost predicate Marked(start: State, before: seq<Event>, ref: Ref) {
    before != []
    && var last: nat := |before| - 1;
       IsMark(start, before, ref, last) || (before[last].Others? && Marked(start, before[..last], ref))
  }

  ghost predicate IsMark(start: State, trace: seq<Event>, ref: Ref, j: nat)
    requires j < |trace|
  {
    trace[j].Own? && trace[j].c.MarkDispatched? && trace[j].c.ref == ref
    && S.Accepted(Step(Replay(start, trace[..j]), trace[j].c).outcome)
  }

  /** What each event of a request keeps to, given what happened before it. */
  ghost predicate EventSafe(start: State, before: seq<Event>, event: Event, ref: Ref, covered: bool) {
    match event
    case Own(c) => Routes.BringsRoutes(c) && (covered ==> Harmless(Replay(start, before), c))
    case Others(commands) => AllForeign(commands, ref.requestId)
    case Fetch(attempt) => attempt == Fetches(before) && Marked(start, before, ref)
  }

  ghost predicate Safe(start: State, trace: seq<Event>, ref: Ref, covered: bool) {
    forall i :: 0 <= i < |trace| ==> EventSafe(start, trace[..i], trace[i], ref, covered)
  }

  lemma SafeExtended(start: State, trace: seq<Event>, event: Event, ref: Ref, covered: bool)
    requires Safe(start, trace, ref, covered) && EventSafe(start, trace, event, ref, covered)
    ensures Safe(start, trace + [event], ref, covered)
    ensures Replay(start, trace + [event]) == After(Replay(start, trace), event)
    ensures Fetches(trace + [event]) == Fetches(trace) + (if event.Fetch? then 1 else 0)
  {
    hide EventSafe;
    var longer := trace + [event];
    assert longer[..|trace|] == trace;
    forall i | 0 <= i < |longer| ensures EventSafe(start, longer[..i], longer[i], ref, covered) {
      if i < |trace| { assert longer[..i] == trace[..i]; }
    }
  }

  function AllCalls(trace: seq<Event>): seq<Command> {
    if trace == [] then []
    else
      AllCalls(trace[..|trace| - 1])
      + (match trace[|trace| - 1] case Own(c) => [c] case Others(commands) => commands case Fetch(_) => [])
  }

  /** A history is a run of the ledger, so everything proved of runs holds of it. */
  lemma {:induction false} ReplayIsARun(s: State, trace: seq<Event>)
    ensures Replay(s, trace) == Run(s, AllCalls(trace))
    decreases trace
  {
    if trace != [] {
      ReplayIsARun(s, trace[..|trace| - 1]);
      var event := trace[|trace| - 1];
      var before := Replay(s, trace[..|trace| - 1]);
      hide Step;
      match event
      case Own(c) =>
        C.RunAppends(s, AllCalls(trace[..|trace| - 1]), [c]);
        assert Run(before, [c]) == Step(before, c).state by { assert Run(Step(before, c).state, []) == Step(before, c).state; }
      case Others(commands) => C.RunAppends(s, AllCalls(trace[..|trace| - 1]), commands);
      case Fetch(_) => assert AllCalls(trace[..|trace| - 1]) + [] == AllCalls(trace[..|trace| - 1]);
    }
  }

  // ----- the charge

  /** What a request commits in the end: a hold while any attempt's cost is unknown, otherwise a settlement. */
  function Commit(request: Request, ref: Ref, attempts: seq<Attempt>): (commit: Command)
    ensures (commit.Settle? || commit.Hold?) && commit.ref == ref
  {
    var known := KnownCost(attempts);
    var usage := UsageInput(ref.requestId, request.owner, known, TokensIn(attempts), TokensOut(attempts), Some(RouteCosts(attempts)));
    if AnyUnknown(attempts) then
      Command.Hold(ref, HoldInput(known, UnresolvedCost(attempts, request.inputTokens, request.outputTokens), usage))
    else Command.Settle(ref, known, usage)
  }

  lemma {:induction false} RouteCostsAddUp(attempts: seq<Attempt>)
    ensures Routes.RouteSum(RouteCosts(attempts)) == KnownCost(attempts)
    decreases attempts
  {
    if attempts != [] {
      RouteCostsAddUp(attempts[..|attempts| - 1]);
      assert RouteCosts(attempts)[..|attempts| - 1] == RouteCosts(attempts[..|attempts| - 1]);
    }
  }

  lemma CommitBringsRoutes(request: Request, ref: Ref, attempts: seq<Attempt>)
    ensures Routes.BringsRoutes(Commit(request, ref, attempts))
  {
    RouteCostsAddUp(attempts);
  }

  lemma {:induction false} NothingUnknown(attempts: seq<Attempt>, inputTokens: nat, outputTokens: nat)
    requires !AnyUnknown(attempts)
    ensures UnresolvedCost(attempts, inputTokens, outputTokens) == 0
    decreases attempts
  {
    if attempts != [] {
      assert attempts[|attempts| - 1] in attempts;
      NothingUnknown(attempts[..|attempts| - 1], inputTokens, outputTokens);
    }
  }

  /** Hold sufficiency: what is committed never exceeds one estimate for every hold the request took. */
  lemma CommitWithinHolds(request: Request, ref: Ref, attempts: seq<Attempt>, estimate: Cny)
    requires EstimateBudgetCost(request.inputTokens, request.outputTokens, Prices(request.candidates)) == Some(estimate)
    requires forall a :: a in attempts ==> WithinEstimate(a, estimate, Prices(request.candidates))
    ensures Charge(Commit(request, ref, attempts)) <= OnHold(estimate, attempts)
  {
    hide EstimateBudgetCost, WithinEstimate;
    ChargeWithinEstimates(attempts, request.inputTokens, request.outputTokens, Prices(request.candidates), estimate);
    HoldsCoverChargeable(attempts);
    MulMonotone(estimate, Chargeable(attempts), Holds(attempts));
    if !AnyUnknown(attempts) { NothingUnknown(attempts, request.inputTokens, request.outputTokens); }
  }

  /** The response is passed on as a stream whose usage is collected on the way. */
  predicate IsStreamed(request: Request, world: World) {
    request.call.streaming && world.stream.Some?
  }

  function StreamEnd(world: World): Stream.State
    requires world.stream.Some?
  {
    Stream.Streamed(world.stream.value, world.read)
  }

  /** The usage a response of a candidate ends with. */
  function LastUsage(request: Request, world: World, c: Candidate, k: nat): Usage {
    if IsStreamed(request, world) then Stream.UsageOf(StreamEnd(world), request.inputTokens)
    else if !request.call.streaming && world.answer(k).Response? then PlainUsage(c, world.answer(k), request.call)
    else NO_USAGE
  }

  predicate IsInterrupted(request: Request, world: World) {
    world.interrupted || (IsStreamed(request, world) && !StreamEnd(world).completed)
  }

  /** The attempts a request is charged for, given which part of the schedule was tried and how the relay ended. */
  function Final(request: Request, world: World, schedule: seq<Candidate>, result: Relayed): seq<Attempt> {
    var tried := Tried(schedule, world.answer, request.call);
    if schedule == [] then (if request.candidates == [] then [] else [Begun(request.candidates[0])])
    else if result.Returned? then
      WithLast(tried, Finished(result.candidate, tried[|tried| - 1],
                               LastUsage(request, world, result.candidate, |schedule| - 1), IsInterrupted(request, world)))
    else tried
  }

  /** How far into the schedule the relay went, and why it stopped there. */
  predicate Explains(request: Request, world: World, schedule: seq<Candidate>, result: Relayed) {
    && schedule <= Schedule(request.candidates)
    && (result.Exhausted? ==> schedule == Schedule(request.candidates))
    && (!result.Returned? ==> AllRetried(schedule, world.answer, request.call))
    && (result.Returned? ==>
          schedule != [] && result.candidate == schedule[|schedule| - 1]
          && AllRetried(schedule[..|schedule| - 1], world.answer, request.call)
          && !AllRetried(schedule, world.answer, request.call))
  }

  lemma HeldOnceBefore(estimate: Cny, c: Candidate)
    ensures OnHold(estimate, [Begun(c)]) == OnHold(estimate, []) == estimate
  {
    assert [Begun(c)][..0] == [];
  }

  // ----- the request itself

  /** A complete stream reports usage inside the bounds, or reports none and has at most four bytes for each output token. */
  ghost predicate StreamCovered(request: Request, world: World) {
    IsStreamed(request, world) && !IsInterrupted(request, world) ==>
      && Stream.ReportsWithin(Stream.Concat(world.stream.value), world.read, request.inputTokens, request.outputTokens)
      && (!StreamEnd(world).collected.upstream ==> |Stream.Concat(world.stream.value)| <= 4 * request.outputTokens)
  }

  /**
   * Upstream reports stay inside the token bounds the request was prepared with, and good answers that report nothing
   * have at most four bytes for each prepared output token.
   */
  ghost predicate Covered(request: Request, world: World) {
    AllCovered(request.candidates, world.answer, request.call, request.inputTokens, request.outputTokens)
    && StreamCovered(request, world)
  }

  lemma StreamWithin(request: Request, world: World)
    requires HasBounds(request) && IsStreamed(request, world) && StreamCovered(request, world) && !IsInterrupted(request, world)
    ensures Within(Stream.UsageOf(StreamEnd(world), request.inputTokens), request.inputTokens, request.outputTokens)
  {
    Stream.StreamedUsageMeans(world.stream.value, world.read, request.inputTokens);
    Stream.CollectedWithin(world.stream.value, world.read, request.inputTokens, request.outputTokens);
    hide Stream.Streamed, Stream.Concat, Stream.ReportsWithin;
  }

  lemma LastUsageWithin(request: Request, world: World, k: nat)
    requires HasBounds(request) && Covered(request, world) && k < |Schedule(request.candidates)|
    requires world.answer(k).Response? && IsOk(world.answer(k).status)
    ensures IsInterrupted(request, world)
            || Within(LastUsage(request, world, Schedule(request.candidates)[k], k), request.inputTokens, request.outputTokens)
  {
    hide StreamEnd, StreamCovered, AnswerCovered, PlainUsage, Stream.UsageOf;
    if !IsInterrupted(request, world) {
      if IsStreamed(request, world) {
        StreamWithin(request, world);
      } else if !request.call.streaming {
        PlainUsageWithin(Schedule(request.candidates)[k], world.answer(k), request.call, request.inputTokens, request.outputTokens);
      }
    }
  }

  /**
   * An unreported stream is charged within the estimate at every price list exactly while it has at most four bytes for
   * each prepared output token.
   */
  lemma UnreportedStreamCoveredExactly(request: Request, world: World)
    requires HasBounds(request) && IsStreamed(request, world) && !StreamEnd(world).collected.upstream
    ensures CoveredAtEveryPrice(Stream.UsageOf(StreamEnd(world), request.inputTokens), request.inputTokens, request.outputTokens)
            <==> |Stream.Concat(world.stream.value)| <= 4 * request.outputTokens
  {
    Stream.StreamedUsageMeans(world.stream.value, world.read, request.inputTokens);
    hide Stream.Streamed, Stream.Concat, CoveredAtEveryPrice;
    GuessCoveredExactly(request.inputTokens, |Stream.Concat(world.stream.value)|, request.inputTokens, request.outputTokens);
  }

  lemma FirstBegun(request: Request, estimate: Cny)
    requires request.candidates != []
    ensures WithinEstimate(Begun(request.candidates[0]), estimate, Prices(request.candidates))
  {
    PriceIsListed(request.candidates, request.candidates[0]);
  }

  lemma LastIsOk(c: Candidate, answer: Answer, call: Call)
    ensures IsOk(AttemptFor(c, answer, call).status) ==> answer.Response? && IsOk(answer.status)
  {
    hide CalculateCost;
  }

  lemma LastWithinEstimate(request: Request, world: World, schedule: seq<Candidate>, c: Candidate, estimate: Cny)
    requires schedule <= Schedule(request.candidates) && HasBounds(request) && Covered(request, world)
    requires schedule != [] && c == schedule[|schedule| - 1]
    requires EstimateBudgetCost(request.inputTokens, request.outputTokens, Prices(request.candidates)) == Some(estimate)
    requires forall a :: a in Tried(schedule, world.answer, request.call) ==> WithinEstimate(a, estimate, Prices(request.candidates))
    ensures var k: nat := |schedule| - 1;
            WithinEstimate(Finished(c, Tried(schedule, world.answer, request.call)[k], LastUsage(request, world, c, k),
                                    IsInterrupted(request, world)),
                           estimate, Prices(request.candidates))
  {
    var k: nat := |schedule| - 1;
    var last := Tried(schedule, world.answer, request.call)[k];
    assert last in Tried(schedule, world.answer, request.call);
    ScheduleMembers(request.candidates, k);
    PriceIsListed(request.candidates, c);
    LastIsOk(c, world.answer(k), request.call);
    hide EstimateBudgetCost, AttemptFor, LastUsage, IsInterrupted, Covered, WithinEstimate;
    if IsOk(last.status) {
      hide Finished;
      LastUsageWithin(request, world, k);
      FinishedWithinEstimate(c, last, LastUsage(request, world, c, k), IsInterrupted(request, world),
                             request.inputTokens, request.outputTokens, Prices(request.candidates), estimate);
    }
  }

  /** However the relay ended, every attempt the request is charged for is within the estimate. */
  lemma FinalWithinEstimate(request: Request, world: World, schedule: seq<Candidate>, result: Relayed, estimate: Cny)
    requires schedule <= Schedule(request.candidates) && request.candidates != [] && HasBounds(request)
    requires result.Returned? ==> schedule != [] && result.candidate == schedule[|schedule| - 1]
    requires EstimateBudgetCost(request.inputTokens, request.outputTokens, Prices(request.candidates)) == Some(estimate)
    requires Covered(request, world)
    ensures forall a :: a in Final(request, world, schedule, result) ==> WithinEstimate(a, estimate, Prices(request.candidates))
  {
    hide EstimateBudgetCost, Finished, AttemptFor, LastUsage, IsInterrupted, StreamCovered, AnswerCovered, WithinEstimate;
    FirstBegun(request, estimate);
    TriedWithinEstimate(request.candidates, schedule, world.answer, request.call,
                        request.inputTokens, request.outputTokens, estimate);
    if result.Returned? { LastWithinEstimate(request, world, schedule, result.candidate, estimate); }
  }

  /**
   * Hold sufficiency of a whole fail-over: whatever part of the schedule was tried and however it ended, the commit of a
   * covered request is at most one estimate for every hold it took.
   */
  lemma CoveredCommitWithinHolds(request: Request, world: World, schedule: seq<Candidate>, result: Relayed, estimate: Cny)
    requires HasBounds(request) && request.candidates != [] && Covered(request, world)
    requires Explains(request, world, schedule, result)
    requires EstimateBudgetCost(request.inputTokens, request.outputTokens, Prices(request.candidates)) == Some(estimate)
    ensures var attempts := Final(request, world, schedule, result);
            Charge(Commit(request, RefOf(request), attempts)) <= OnHold(estimate, attempts)
  {
    FinalWithinEstimate(request, world, schedule, result, estimate);
    hide EstimateBudgetCost, Final, Commit, OnHold, Covered;
    CommitWithinHolds(request, RefOf(request), Final(request, world, schedule, result), estimate);
  }

  /** The reservation of a request is delivered and accepted after others had their turn. */
  ghost predicate Reserves(s: State, request: Request, world: World, call: nat, estimate: Cny) {
    world.fault(call).Delivered?
    && S.Accepted(ReserveStep(Run(s, world.others(call)),
                              ReserveInput(request.requestId, request.owner, request.startedAt, estimate, request.snapshot),
                              request.periodKey, world.now, world.authorized).outcome)
  }

  class BudgetedRequest {
    const ledger: L.GroupLedger
    const request: Request
    const world: World
    const ref: Ref
    const estimate: Cny

    var calls: nat
    var checks: nat
    var attempts: seq<Attempt>
    var dispatched: bool
    var finalized: bool

    ghost const start: State
    ghost var trace: seq<Event>

    /** How many calls to the ledger were lost or refused. */
    ghost var failed: nat

    constructor (ledger: L.GroupLedger, request: Request, world: World, estimate: Cny)
      requires ledger.Valid()
      ensures this.ledger == ledger && this.request == request && this.world == world && this.estimate == estimate
      ensures ref == Ref(request.requestId, PeriodId(request.owner.groupId, request.periodKey))
      ensures start == ledger.Abs() && trace == [] && attempts == [] && !dispatched && !finalized && calls == 0
    {
      this.ledger, this.request, this.world, this.estimate := ledger, request, world, estimate;
      ref := Ref(request.requestId, PeriodId(request.owner.groupId, request.periodKey));
      calls, checks, attempts, dispatched, finalized := 0, 0, [], false, false;
      start, trace, failed := ledger.Abs(), [], 0;
    }

    /** Nobody else reserves, extends, charges or releases this request. */
    ghost predicate Fair() {
      forall n: nat :: AllForeign(world.others(n), ref.requestId)
    }

    ghost predicate Recording()
      reads this`trace, ledger
    {
      ledger.Valid() && Replay(start, trace) == ledger.Abs() && Safe(start, trace, ref, Covered(request, world))
    }

    ghost predicate Holding(least: nat, most: nat, extensions: nat)
      reads ledger
    {
      Secured(ledger.Abs(), ref, request.owner, least, most, extensions)
    }

    method Record(ghost event: Event, ghost before: State)
      requires ledger.Valid() && Replay(start, trace) == before && Safe(start, trace, ref, Covered(request, world))
      requires EventSafe(start, trace, event, ref, Covered(request, world)) && ledger.Abs() == After(before, event)
      modifies this`trace
      ensures Recording() && trace == old(trace) + [event]
      ensures Fetches(trace) == Fetches(old(trace)) + (if event.Fetch? then 1 else 0)
    {
      SafeExtended(start, trace, event, ref, Covered(request, world));
      trace := trace + [event];
    }

    /** Others take their turn. */
    method LetOthers()
      requires Recording() && Fair()
      modifies this`calls, this`trace, ledger
      ensures Recording() && Fetches(trace) == Fetches(old(trace)) && calls == old(calls) + 1
      ensures trace == old(trace) + [Others(world.others(old(calls)))]
      ensures ledger.Abs() == Run(old(ledger.Abs()), world.others(old(calls)))
    {
      hide Step, Run, Safe, Harmless, C.Coherent, L.Agrees, Covered;
      var others := world.others(calls);
      calls := calls + 1;
      ledger.Serve(others);
      Record(Others(others), old(ledger.Abs()));
    }

    /** One call to the ledger: others come first, and the call or its reply may get lost. */
    method Call(c: Command) returns (ok: bool, ghost mid: State)
      requires Recording() && Fair() && Routes.BringsRoutes(c)
      requires Covered(request, world) ==> Harmless(Run(ledger.Abs(), world.others(calls)), c)
      modifies this`calls, this`failed, this`trace, ledger
      ensures Recording() && Fetches(trace) == Fetches(old(trace))
      ensures mid == Run(old(ledger.Abs()), world.others(old(calls)))
      ensures ok <==> world.fault(old(calls)).Delivered? && S.Accepted(Step(mid, c).outcome)
      ensures failed == old(failed) + (if ok then 0 else 1) && calls == old(calls) + 1
      ensures ok ==> ledger.Abs() == Step(mid, c).state
      ensures ok ==> trace != [] && trace[|trace| - 1] == Own(c) && Replay(start, trace[..|trace| - 1]) == mid
      ensures !ok ==> ledger.Abs() == mid || ledger.Abs() == Step(mid, c).state
    {
      hide Step, Run, Safe, Harmless, Routes.BringsRoutes, C.Coherent, L.Agrees, Covered;
      var fault := world.fault(calls);
      LetOthers();
      mid := ledger.Abs();
      if fault.NeverArrived? {
        failed := failed + 1;
        return false, mid;
      }
      var outcome := ledger.Execute(c);
      ghost var before := trace;
      Record(Own(c), mid);
      assert trace[..|trace| - 1] == before;
      ok := fault.Delivered? && !outcome.Rejected?;
      if !ok { failed := failed + 1; }
    }

    method Reserve() returns (ok: bool)
      requires Recording() && Fair() && ref == Ref(request.requestId, PeriodId(request.owner.groupId, request.periodKey))
      requires ref.requestId !in ledger.Abs().entries
      modifies this`calls, this`failed, this`trace, ledger
      ensures failed >= old(failed)
      ensures Recording() && Fetches(trace) == Fetches(old(trace))
      ensures ok <==> Reserves(old(ledger.Abs()), request, world, old(calls), estimate)
      ensures ok ==> Holding(estimate, estimate, 0)
      ensures !ok ==> ref.requestId !in ledger.Abs().entries || Holding(estimate, estimate, 0)
    {
      var input := ReserveInput(request.requestId, request.owner, request.startedAt, estimate, request.snapshot);
      var c := Command.Reserve(input, request.periodKey, world.now, world.authorized);
      ReserveAfterOthers(ledger.Abs(), world.others(calls), input, request.periodKey, world.now, world.authorized);
      hide Step, Run, Harmless, Recording, Secured;
      ghost var mid;
      ok, mid := Call(c);
    }

    /** A call that moves no money keeps the hold, whether or not it gets through. */
    method CallInPassing(c: Command, ghost least: nat, ghost most: nat, ghost extensions: nat) returns (ok: bool, ghost mid: State)
      requires Recording() && Fair() && Holding(least, most, extensions)
      requires c.MarkDispatched? || c.MarkUncertain? || (c.Release? && c.ref == ref)
      modifies this`calls, this`failed, this`trace, ledger
      ensures failed == old(failed) + (if ok then 0 else 1) && calls == old(calls) + 1
      ensures Recording() && Fetches(trace) == Fetches(old(trace)) && Holding(least, most, extensions)
      ensures ok ==> S.Accepted(Step(mid, c).outcome) && ledger.Abs() == Step(mid, c).state
      ensures ok ==> trace != [] && trace[|trace| - 1] == Own(c) && Replay(start, trace[..|trace| - 1]) == mid
    {
      PassingAfterOthers(ledger.Abs(), world.others(calls), c, ref, request.owner, least, most, extensions);
      hide Step, Run, Harmless, Recording, Secured;
      ok, mid := Call(c);
    }

    method Extend(attemptId: nat, ghost held: nat) returns (ok: bool)
      requires Recording() && Fair() && attemptId > 0 && Holding(held, held, attemptId - 1)
      modifies this`calls, this`failed, this`trace, ledger
      ensures failed == old(failed) + (if ok then 0 else 1) && calls == old(calls) + 1
      ensures Recording() && Fetches(trace) == Fetches(old(trace))
      ensures ok ==> Holding(held + estimate, held + estimate, attemptId)
      ensures !ok ==> Holding(held, held + estimate, attemptId)
    {
      hide Step, Run, Harmless, Recording, Secured;
      var attempt := AttemptSnapshot(attemptId, 0);
      ExtendAfterOthers(ledger.Abs(), world.others(calls), ref, request.owner, held, estimate, attempt);
      ghost var mid;
      ok, mid := Call(Command.Extend(ref, estimate, attempt));
    }

    method MarkDispatched(index: nat, ghost held: nat) returns (ok: bool)
      requires Recording() && Fair() && Holding(held, held, index + 1)
      modifies this`calls, this`failed, this`trace, ledger
      ensures failed == old(failed) + (if ok then 0 else 1) && calls == old(calls) + 1
      ensures Recording() && Fetches(trace) == Fetches(old(trace)) && Holding(held, held, index + 1)
      ensures ok ==> Marked(start, trace, ref)
    {
      hide Step, Run, Harmless, Recording, Secured;
      ghost var mid;
      ok, mid := CallInPassing(Command.MarkDispatched(ref, world.leaseUntil(index)), held, held, index + 1);
    }

    /** The hook before an attempt: extend the hold unless the previous attempt was free of charge, then mark the dispatch. */
    method BeforeAttempt() returns (go: bool)
      requires Recording() && Fair()
      requires Holding(OnHold(estimate, attempts), OnHold(estimate, attempts), |attempts|)
      modifies this`calls, this`failed, this`trace, this`dispatched, ledger
      ensures Recording() && Fetches(trace) == Fetches(old(trace)) && dispatched == (old(dispatched) || go)
      ensures go ==> Holding(Needed(estimate, attempts), Needed(estimate, attempts), |attempts| + 1)
      ensures go ==> Marked(start, trace, ref)
      ensures go <==> world.renewed(|attempts|) && failed == old(failed)
      ensures failed >= old(failed)
      ensures !go ==> Holding(OnHold(estimate, attempts), OnHold(estimate, attempts) + estimate, |attempts| + 1)
    {
      hide Recording, Secured, Step, Run, Marked, OnHold, Needed;
      NeededNext(estimate, attempts);
      var index := |attempts|;
      ghost var held := OnHold(estimate, attempts);
      ghost var needed := Needed(estimate, attempts);
      if index > 0 && !attempts[index - 1].billing.NO_CHARGE? {
        var extended := Extend(index + 1, held);
        if !extended { return false; }
      } else {
        SecuredWeaker(ledger.Abs(), ref, request.owner, held, held, index, held, held, index + 1);
      }
      go := false;
      if world.renewed(index) {
        go := MarkDispatched(index, needed);
      }
      if go {
        dispatched := true;
      } else {
        SecuredWeaker(ledger.Abs(), ref, request.owner, needed, needed, index + 1, held, held + estimate, index + 1);
      }
    }

    /** One fetch and what the request makes of its answer. */
    method Exchange(c: Candidate, answer: Answer) returns (attempt: Attempt, again: bool)
      ensures attempt == AttemptFor(c, answer, request.call) && again == Retries(c, answer, request.call)
    {
      attempt := Begun(c);
      if answer.NoResponse? { return attempt, true; }
      attempt := attempt.(status := answer.status);
      if !IsOk(answer.status) {
        attempt := Refused(attempt, answer.report);
        if Retryable(answer.status) { return attempt, true; }
      }
      if c.gemini {
        if answer.bodyLost { attempt := attempt.(status := 0); }
        return attempt, answer.bodyLost;
      }
      if !request.call.streaming && IsOk(answer.status) {
        if answer.bodyLost { return attempt.(status := 0), true; }
        var usage := Normalised(answer.report);
        if !usage.upstream {
          usage := Usage(Max(1, CeilDiv(request.call.preparedBytes, 4)), Max(1, CeilDiv(answer.bodyBytes, 4)), 0, 0, false, 0);
        }
        attempt := Billed(attempt, usage, if usage.upstream then CONFIRMED else ESTIMATED);
      }
      again := false;
    }

    method ThrowIfAborted() returns (go: bool)
      modifies this`checks
      ensures go == !world.aborted(old(checks)) && checks == old(checks) + 1
    {
      go := !world.aborted(checks);
      checks := checks + 1;
    }

    /** Between attempts: everything fetched is recorded, and the hold is exactly what the attempts so far call for. */
    ghost predicate Ready()
      reads this`trace, this`attempts, this`dispatched, ledger
    {
      && Recording() && Fetches(trace) == |attempts| && (attempts != [] ==> dispatched)
      && Holding(OnHold(estimate, attempts), OnHold(estimate, attempts), |attempts|)
    }

    /** No further attempt: an extension for one may still have gone through. */
    ghost predicate Stopped()
      reads this`trace, this`attempts, this`dispatched, ledger
    {
      && Recording() && Fetches(trace) == |attempts| && (attempts != [] ==> dispatched)
      && Holding(OnHold(estimate, attempts), OnHold(estimate, attempts) + estimate, |attempts| + 1)
    }

    lemma ReadyToStop()
      requires Ready()
      ensures Stopped()
    {
      hide Recording, Secured, OnHold;
      ghost var held := OnHold(estimate, attempts);
      SecuredWeaker(ledger.Abs(), ref, request.owner, held, held, |attempts|, held, held + estimate, |attempts| + 1);
    }

    /** At none of these looks the client had gone away, and for each of these attempts the quota reservations were renewed. */
    ghost predicate Undisturbed(check: int, untilCheck: int, index: int, untilIndex: int) {
      && (forall n: nat :: check <= n < untilCheck ==> !world.aborted(n))
      && (forall k: nat :: index <= k < untilIndex ==> world.renewed(k))
    }

    /** One round of the loop: the hook between two looks at the client, the fetch, and the answer. */
    method Try(c: Candidate) returns (go: bool, again: bool)
      requires Ready() && Fair()
      modifies this`calls, this`failed, this`checks, this`trace, this`dispatched, this`attempts, ledger
      ensures go ==> attempts == old(attempts) + [AttemptFor(c, world.answer(|old(attempts)|), request.call)]
      ensures go ==> again == Retries(c, world.answer(|old(attempts)|), request.call)
      ensures go ==> Ready()
      ensures go <==> Undisturbed(old(checks), old(checks) + 2, |old(attempts)|, |old(attempts)| + 1) && failed == old(failed)
      ensures go ==> checks == old(checks) + 2
      ensures failed >= old(failed) && checks >= old(checks)
      ensures !go ==> attempts == old(attempts) && Stopped()
    {
      hide Recording, Secured, OnHold, Needed, Marked;
      NeededNext(estimate, attempts);
      again := false;
      go := ThrowIfAborted();
      if !go {
        ReadyToStop();
        return;
      }
      go := BeforeAttempt();
      if !go { return; }
      go := ThrowIfAborted();
      if !go {
        ghost var needed, held := Needed(estimate, attempts), OnHold(estimate, attempts);
        SecuredWeaker(ledger.Abs(), ref, request.owner, needed, needed, |attempts| + 1, held, held + estimate, |attempts| + 1);
        return;
      }
      RecordFetch(Needed(estimate, attempts), |attempts| + 1);
      var attempt;
      attempt, again := Exchange(c, world.answer(|attempts|));
      HeldAfter(estimate, attempts, attempt);
      attempts := attempts + [attempt];
    }

    /** The fetch: others may have acted since the dispatch mark. */
    method RecordFetch(ghost held: nat, ghost extensions: nat)
      requires Recording() && Fair() && Marked(start, trace, ref) && Holding(held, held, extensions)
      modifies this`calls, this`trace, ledger
      ensures Recording() && Fetches(trace) == Fetches(old(trace)) + 1 && Holding(held, held, extensions)
    {
      hide Safe, Secured, Run, IsMark, Covered;
      ForeignRunKeepsSecured(ledger.Abs(), world.others(calls), ref, request.owner, held, held, extensions);
      LetOthers();
      assert Marked(start, trace, ref) by { assert trace[..|trace| - 1] == old(trace); }
      hide Marked;
      Record(Fetch(Fetches(trace)), ledger.Abs());
    }

    /** The attempts are the answers to the first candidates of the schedule. */
    ghost predicate Follows(schedule: seq<Candidate>)
      reads this`attempts
    {
      attempts == Tried(schedule, world.answer, request.call)
    }

    ghost predicate Retried(schedule: seq<Candidate>) {
      AllRetried(schedule, world.answer, request.call)
    }

    /** The inner loop: one candidate with its retries, after the schedule so far. */
    method TryCandidate(i: nat, ghost before: seq<Candidate>) returns (result: Relayed, ghost schedule: seq<Candidate>)
      requires Ready() && Fair() && i < |request.candidates|
      requires before == Schedule(request.candidates[..i]) && Follows(before) && Retried(before)
      modifies this`calls, this`failed, this`checks, this`trace, this`dispatched, this`attempts, ledger
      ensures failed >= old(failed)
      ensures schedule <= Schedule(request.candidates) && Follows(schedule)
      ensures result.Exhausted? ==> Ready() && schedule == Schedule(request.candidates[..i + 1])
      ensures !result.Exhausted? ==> Stopped()
      ensures !result.Returned? ==> Retried(schedule)
      ensures !result.Interrupted? ==>
                failed == old(failed) && checks == old(checks) + 2 * (|schedule| - |before|)
                && Undisturbed(old(checks), checks, |before|, |schedule|)
      ensures result.Interrupted? ==>
                failed > old(failed)
                || !Undisturbed(old(checks), old(checks) + 2 * (|schedule| + 1 - |before|), |before|, |schedule| + 1)
      ensures |schedule| >= |before|
      ensures result.Returned? ==>
                schedule != [] && result.candidate == schedule[|schedule| - 1] && Retried(schedule[..|schedule| - 1])
                && !Retried(schedule)
    {
      hide Ready, Stopped, Retries, AttemptFor, Tried, AllRetried;
      TriedLength(before, world.answer, request.call);
      var c := request.candidates[i];
      var retry := 0;
      schedule := before;
      assert before + Repeated(c, 0) == before;
      while retry <= Max(0, c.maxRetries)
        invariant 0 <= retry <= 1 + Max(0, c.maxRetries) && schedule == before + Repeated(c, retry)
        invariant Follows(schedule) && Retried(schedule) && |attempts| == |schedule| && Ready()
        invariant failed == old(failed) && |schedule| == |before| + retry && checks == old(checks) + 2 * retry
        invariant Undisturbed(old(checks), checks, |before|, |schedule|)
      {
        PositionInSchedule(request.candidates, i, retry);
        PositionInSchedule(request.candidates, i, retry + 1);
        OneMoreTried(schedule, c, world.answer, request.call);
        var go, again := Try(c);
        if !go { return Interrupted, schedule; }
        assert Repeated(c, retry + 1) == Repeated(c, retry) + [c];
        schedule := schedule + [c];
        assert schedule[..|schedule| - 1] + [c] == schedule;
        if !again {
          ReadyToStop();
          return Returned(c), schedule;
        }
        retry := retry + 1;
      }
      assert request.candidates[..i + 1][..i] == request.candidates[..i];
      PositionInSchedule(request.candidates, i, retry);
      result := Exhausted;
    }

    /** Candidates in turn, each with its retries; every attempt after the hook, and no attempt without it. */
    method Relay() returns (result: Relayed, ghost schedule: seq<Candidate>)
      requires Ready() && Fair() && attempts == []
      modifies this`calls, this`failed, this`checks, this`trace, this`dispatched, this`attempts, ledger
      ensures failed >= old(failed)
      ensures Stopped() && Follows(schedule) && Explains(request, world, schedule, result)
      ensures result.Interrupted? ==>
                failed > old(failed) || !Undisturbed(old(checks), old(checks) + 2 * (|schedule| + 1), 0, |schedule| + 1)
      ensures !result.Interrupted? ==>
                failed == old(failed) && Undisturbed(old(checks), old(checks) + 2 * |schedule|, 0, |schedule|)
    {
      hide Ready, Stopped, Retries;
      var i := 0;
      schedule := [];
      while i < |request.candidates|
        invariant 0 <= i <= |request.candidates| && schedule == Schedule(request.candidates[..i])
        invariant Follows(schedule) && Retried(schedule) && Ready()
        invariant failed == old(failed) && checks == old(checks) + 2 * |schedule| && Undisturbed(old(checks), checks, 0, |schedule|)
      {
        result, schedule := TryCandidate(i, schedule);
        if !result.Exhausted? { return; }
        i := i + 1;
      }
      assert request.candidates[..i] == request.candidates;
      ReadyToStop();
      result := Exhausted;
    }

    /** Every attempt is at a listed price and its known cost is within the estimate. */
    ghost predicate Affordable(attempts: seq<Attempt>) {
      Covered(request, world) ==> forall a :: a in attempts ==> WithinEstimate(a, estimate, Prices(request.candidates))
    }

    /** The commit has taken effect, or nothing is charged yet and the hold stands. */
    ghost predicate Open()
      reads this`attempts, ledger
    {
      Committable(ledger.Abs(), Commit(request, ref, attempts), request.owner,
                  OnHold(estimate, attempts), OnHold(estimate, attempts) + estimate, |attempts| + 1)
    }

    ghost predicate ChargedNow()
      reads this`attempts, ledger
    {
      Charged(ledger.Abs(), Commit(request, ref, attempts))
    }

    /** A commit is delivered and accepted after others had their turn. */
    ghost predicate Commits(s: State, call: nat)
      reads this`attempts
    {
      world.fault(call).Delivered? && S.Accepted(Step(Run(s, world.others(call)), Commit(request, ref, attempts)).outcome)
    }

    /** One try of the commit. */
    method TryCommit() returns (ok: bool)
      requires Recording() && Fair() && Open()
      requires Covered(request, world) ==> Charge(Commit(request, ref, attempts)) <= OnHold(estimate, attempts)
      modifies this`calls, this`failed, this`trace, ledger
      ensures failed == old(failed) + (if ok then 0 else 1)
      ensures Recording() && Fetches(trace) == Fetches(old(trace)) && Open()
      ensures ok ==> ChargedNow()
      ensures ok <==> Commits(old(ledger.Abs()), old(calls))
      ensures calls == old(calls) + 1
    {
      var commit := Commit(request, ref, attempts);
      hide Step, Run, Harmless, Committable, Charged, Routes.BringsRoutes, Safe, Charge;
      assert C.Coherent(ledger.Abs());
      hide C.Coherent, L.Agrees, OnHold, Covered;
      CommitBringsRoutes(request, ref, attempts);
      CommitAfterOthers(ledger.Abs(), world.others(calls), commit, request.owner,
                        OnHold(estimate, attempts), OnHold(estimate, attempts) + estimate, |attempts| + 1);
      ghost var mid;
      ok, mid := Call(commit);
    }

    method Doubt()
      requires Recording() && Fair() && Open()
      modifies this`calls, this`failed, this`trace, ledger
      ensures failed >= old(failed)
      ensures Recording() && Fetches(trace) == Fetches(old(trace)) && Open() && calls == old(calls) + 1
    {
      hide Step, Run, Harmless, Committable, Safe, C.Coherent, L.Agrees, OnHold, Covered;
      DoubtAfterOthers(ledger.Abs(), world.others(calls), Commit(request, ref, attempts), request.owner,
                       OnHold(estimate, attempts), OnHold(estimate, attempts) + estimate, |attempts| + 1);
      var _, _ := Call(Command.MarkUncertain(ref));
    }

    /** Commits once; when that was lost or refused, once more; and only when that failed too, leaves the request in doubt. */
    method Persist() returns (ending: Ending)
      requires Recording() && Fair() && !finalized && Affordable(attempts) && Open()
      requires EstimateBudgetCost(request.inputTokens, request.outputTokens, Prices(request.candidates)) == Some(estimate)
      modifies this`calls, this`failed, this`trace, this`finalized, ledger
      ensures failed >= old(failed) && (ending.Pending? ==> failed >= old(failed) + 2)
      ensures finalized && Recording() && Fetches(trace) == Fetches(old(trace)) && Open()
      ensures ending.Pending? || (ending.Committed? && ChargedNow())
      ensures Commits(old(ledger.Abs()), old(calls)) <==> ending.Committed? && calls == old(calls) + 1
      ensures !Commits(old(ledger.Abs()), old(calls)) ==> calls == old(calls) + (if ending.Committed? then 2 else 3)
    {
      hide Recording, Open, ChargedNow, Charge, Covered, EstimateBudgetCost, OnHold, Commit, Fair;
      finalized := true;
      if Covered(request, world) { CommitWithinHolds(request, ref, attempts, estimate); }
      var ok := TryCommit();
      if !ok {
        ok := TryCommit();
        if !ok {
          Doubt();
          return Pending;
        }
      }
      ending := Committed;
    }

    lemma FinalIsAffordable(schedule: seq<Candidate>, result: Relayed)
      requires schedule <= Schedule(request.candidates) && request.candidates != [] && HasBounds(request)
      requires result.Returned? ==> schedule != [] && result.candidate == schedule[|schedule| - 1]
      requires EstimateBudgetCost(request.inputTokens, request.outputTokens, Prices(request.candidates)) == Some(estimate)
      ensures Affordable(Final(request, world, schedule, result))
    {
      if Covered(request, world) { FinalWithinEstimate(request, world, schedule, result, estimate); }
    }

    /** Sets the last attempt from the final usage report; the holds taken for the attempts before it still stand. */
    method FinishUsage(c: Candidate, usage: Usage, interrupted: bool)
      requires attempts != [] && Stopped()
      modifies this`attempts
      ensures attempts == WithLast(old(attempts), Finished(c, old(attempts)[|old(attempts)| - 1], usage, interrupted))
      ensures Open() && Recording()
    {
      hide Recording, Secured, OnHold, Finished, Charged, Commit;
      var last := |attempts| - 1;
      var finished := Finished(c, attempts[last], usage, interrupted);
      LastCostsNoHold(estimate, attempts, finished);
      attempts := attempts[last := finished];
    }

    /** The end of a response, reported once or several times: the first report settles, the others find nothing to do. */
    method Finish(c: Candidate, usage: Usage, interrupted: bool) returns (ending: Option<Ending>)
      requires Recording() && Fair()
      requires !finalized ==> attempts != [] && Stopped()
      requires !finalized ==> Affordable(WithLast(attempts, Finished(c, attempts[|attempts| - 1], usage, interrupted)))
      requires EstimateBudgetCost(request.inputTokens, request.outputTokens, Prices(request.candidates)) == Some(estimate)
      modifies this`calls, this`failed, this`trace, this`finalized, this`attempts, ledger
      ensures ending.Some? && ending.value.Pending? ==> failed >= old(failed) + 2
      ensures finalized && Recording()
      ensures old(finalized) ==> ending.None? && unchanged(ledger) && unchanged(this)
      ensures !old(finalized) ==>
                ending.Some? && Fetches(trace) == Fetches(old(trace)) && Open()
                && attempts == WithLast(old(attempts), Finished(c, old(attempts)[|old(attempts)| - 1], usage, interrupted))
                && (ending.value.Pending? || (ending.value.Committed? && ChargedNow()))
    {
      hide Recording, Stopped, Open, ChargedNow, Finished, EstimateBudgetCost, Fair, Affordable;
      if finalized { return None; }
      FinishUsage(c, usage, interrupted);
      var persisted := Persist();
      ending := Some(persisted);
    }

    /** No response to pass on: a request that was never dispatched gives its hold back, any other is persisted as it stands. */
    method Fail() returns (ending: Ending)
      requires Stopped() && Fair() && !finalized && request.candidates != []
      requires Affordable(attempts)
      requires EstimateBudgetCost(request.inputTokens, request.outputTokens, Prices(request.candidates)) == Some(estimate)
      modifies this`calls, this`failed, this`trace, this`finalized, this`attempts, ledger
      ensures ending.Pending? ==> failed >= old(failed) + 2
      ensures finalized && Recording() && Fetches(trace) == Fetches(old(trace))
      ensures ending.Released? <==> old(attempts) == [] && !old(dispatched)
      ensures ending == Released(true) ==> ref.requestId in ledger.Abs().entries && ledger.Abs().entries[ref.requestId].status.RELEASED?
      ensures ending.Released? ==> Stopped() && attempts == old(attempts) == []
      ensures ending.Released? || ending.Pending? || (ending.Committed? && ChargedNow())
      ensures !ending.Released? ==>
                Open() && attempts == if old(attempts) == [] then [Begun(request.candidates[0])] else old(attempts)
    {
      hide Recording, Secured, OnHold, EstimateBudgetCost, Charged, Commit, Covered;
      if attempts == [] && !dispatched {
        finalized := true;
        ghost var mid;
        var ok;
        ok, mid := CallInPassing(Command.Release(ref), OnHold(estimate, []), OnHold(estimate, []) + estimate, 1);
        return Released(ok);
      }
      if attempts == [] {
        PriceIsListed(request.candidates, request.candidates[0]);
        HeldOnceBefore(estimate, request.candidates[0]);
        attempts := [Begun(request.candidates[0])];
        SecuredWeaker(ledger.Abs(), ref, request.owner, OnHold(estimate, []), OnHold(estimate, []) + estimate, 1,
                      OnHold(estimate, attempts), OnHold(estimate, attempts) + estimate, 2);
      }
      ending := Persist();
    }

    lemma StoppedAfter(schedule: seq<Candidate>)
      requires Stopped() && Follows(schedule)
      ensures Recording() && Fetches(trace) == |schedule| && |attempts| == |schedule|
      ensures attempts == [] ==> Holding(estimate, estimate + estimate, 1)
    {
      hide Recording, Secured;
      assert OnHold(estimate, []) == estimate;
    }

    lemma NothingYet()
      requires ledger.Valid() && start == ledger.Abs() && trace == [] && attempts == []
      ensures Recording() && Fetches(trace) == 0
    {
      hide C.Coherent, L.Agrees;
    }

    lemma StartsReady()
      requires Recording() && Fetches(trace) == 0 && attempts == [] && Holding(estimate, estimate, 0)
      ensures Ready()
    {
      hide Recording, Secured;
    }

    /** A streamed response passes through a usage collector chunk by chunk; any other brought its usage with it. */
    method CollectUsage(c: Candidate, k: nat) returns (usage: Usage, interrupted: bool)
      ensures usage == LastUsage(request, world, c, k) && interrupted == IsInterrupted(request, world)
    {
      hide Stream.Streamed, Stream.UsageOf, PlainUsage;
      usage, interrupted := NO_USAGE, world.interrupted;
      if request.call.streaming && world.stream.Some? {
        var collector := new Stream.StreamUsageCollector(world.read);
        collector.PushWhole(world.stream.value);
        usage := collector.Usage(request.inputTokens);
        interrupted := world.interrupted || !collector.completed;
      } else if !request.call.streaming && world.answer(k).Response? {
        usage := PlainUsage(c, world.answer(k), request.call);
      }
    }

    lemma FinalOfResponse(c: Candidate, schedule: seq<Candidate>)
      requires Follows(schedule) && schedule != []
      ensures attempts != [] && |attempts| == |schedule|
      ensures var last := |attempts| - 1;
              Final(request, world, schedule, Returned(c))
              == WithLast(attempts, Finished(c, attempts[last], LastUsage(request, world, c, last), IsInterrupted(request, world)))
    {
      TriedLength(schedule, world.answer, request.call);
      hide Tried, Finished, LastUsage, IsInterrupted;
    }

    /** Closing events after the first find the request finished. */
    method CloseAgain(c: Candidate, usage: Usage, interrupted: bool)
      requires finalized && Recording() && Fair()
      requires EstimateBudgetCost(request.inputTokens, request.outputTokens, Prices(request.candidates)) == Some(estimate)
      modifies this`calls, this`failed, this`trace, this`finalized, this`attempts, ledger
      ensures unchanged(this) && unchanged(ledger)
    {
      hide Recording, Stopped, EstimateBudgetCost, Fair, Covered, Finished;
      var n := 0;
      while n < world.closings
        invariant finalized && Recording() && unchanged(this) && unchanged(ledger)
      {
        var _ := Finish(c, usage, interrupted);
        n := n + 1;
      }
    }

    /** A response arrived: it is finished by its first closing event and only by that one. */
    method Respond(c: Candidate, ghost schedule: seq<Candidate>) returns (ending: Ending)
      requires Stopped() && Fair() && Follows(schedule) && !finalized && request.candidates != [] && HasBounds(request)
      requires schedule <= Schedule(request.candidates) && schedule != [] && c == schedule[|schedule| - 1]
      requires EstimateBudgetCost(request.inputTokens, request.outputTokens, Prices(request.candidates)) == Some(estimate)
      modifies this`calls, this`failed, this`trace, this`finalized, this`attempts, ledger
      ensures ending.Pending? ==> failed >= old(failed) + 2
      ensures Recording() && Fetches(trace) == |schedule| && attempts == Final(request, world, schedule, Returned(c)) && Open()
      ensures ending.Pending? || (ending.Committed? && ChargedNow())
    {
      hide Recording, Stopped, Open, ChargedNow, EstimateBudgetCost, Fair, Finished, WithinEstimate, LastUsage, IsInterrupted,
           Final, Follows, Affordable, HasBounds, Schedule, Tried, Holding;
      StoppedAfter(schedule);
      FinalOfResponse(c, schedule);
      FinalIsAffordable(schedule, Returned(c));
      var usage, interrupted := CollectUsage(c, |attempts| - 1);
      var first := Finish(c, usage, interrupted);
      ending := first.value;
      CloseAgain(c, usage, interrupted);
    }

    /** The request once its hold is in place. */
    method Proceed() returns (ending: Ending, ghost schedule: seq<Candidate>, result: Relayed)
      requires Ready() && Fair() && attempts == [] && !finalized && request.candidates != []
      requires HasBounds(request)
      requires EstimateBudgetCost(request.inputTokens, request.outputTokens, Prices(request.candidates)) == Some(estimate)
      modifies this, ledger
      ensures ending.Pending? ==> failed >= old(failed) + 2
      ensures Recording() && Fetches(trace) == |schedule| && Explains(request, world, schedule, result)
      ensures ending.Released? ==> schedule == [] && Holding(estimate, estimate + estimate, 1)
      ensures !ending.Released? ==> attempts == Final(request, world, schedule, result) && Open()
      ensures ending.Released? || ending.Pending? || (ending.Committed? && ChargedNow())
    {
      hide Recording, Secured, Stopped, Ready, Open, EstimateBudgetCost, Fair, AttemptFor, Retries, Finished, ChargedNow, OnHold, LastUsage,
           IsInterrupted;
      result, schedule := Relay();
      StoppedAfter(schedule);
      if result.Returned? {
        ending := Respond(result.candidate, schedule);
      } else {
        FinalIsAffordable(schedule, result);
        ending := Fail();
        if ending.Released? { StoppedAfter(schedule); }
      }
    }

    /** From reservation to charge. */
    method Serve() returns (ending: Ending, ghost schedule: seq<Candidate>, result: Relayed)
      requires ledger.Valid() && start == ledger.Abs() && trace == [] && attempts == [] && !dispatched && !finalized
      requires ref == Ref(request.requestId, PeriodId(request.owner.groupId, request.periodKey)) && Fair()
      requires ref.requestId !in start.entries && request.candidates != []
      requires HasBounds(request)
      requires EstimateBudgetCost(request.inputTokens, request.outputTokens, Prices(request.candidates)) == Some(estimate)
      modifies this, ledger
      ensures ending.Pending? ==> failed >= old(failed) + 2
      ensures Recording() && Fetches(trace) == |schedule| && Explains(request, world, schedule, result)
      ensures ending.NotReserved? <==> !Reserves(start, request, world, old(calls), estimate)
      ensures ending.NotReserved? ==> schedule == [] && (ref.requestId !in ledger.Abs().entries || Holding(estimate, estimate, 0))
      ensures ending.Released? ==> schedule == [] && Holding(estimate, estimate + estimate, 1)
      ensures ending.Committed? || ending.Pending? ==> attempts == Final(request, world, schedule, result) && Open()
      ensures ending.Committed? ==> ChargedNow()
    {
      NothingYet();
      hide Recording, Secured, Ready, Open, EstimateBudgetCost, Fair, Final, ChargedNow, OnHold, Retries, C.Coherent, L.Agrees;
      schedule, result := [], Interrupted;
      var reserved := Reserve();
      if !reserved { return NotReserved, schedule, result; }
      StartsReady();
      ending, schedule, result := Proceed();
    }
  }

  method RelayPrepared(ledger: L.GroupLedger, request: Request, world: World)
    returns (ending: Ending, attempts: seq<Attempt>, result: Relayed, ghost trace: seq<Event>, ghost schedule: seq<Candidate>)
    requires ledger.Valid() && request.requestId !in ledger.Abs().entries && HasBounds(request)
    requires forall n: nat :: AllForeign(world.others(n), request.requestId)
    modifies ledger
    ensures ledger.Valid() && ledger.Abs() == Replay(old(ledger.Abs()), trace)
    ensures Safe(old(ledger.Abs()), trace, RefOf(request), Covered(request, world))
    ensures Fetches(trace) == |schedule|
    ensures ending.NotReserved? <==>
              var estimate := EstimateBudgetCost(request.inputTokens, request.outputTokens, Prices(request.candidates));
              estimate.None? || !Reserves(old(ledger.Abs()), request, world, 0, estimate.value)
    ensures ending.Committed? || ending.Pending? ==>
              request.candidates != [] && Explains(request, world, schedule, result)
              && attempts == Final(request, world, schedule, result)
    ensures ending.NotReserved? || ending.Released? ==> schedule == [] && Uncharged(ledger.Abs(), request.requestId)
    ensures ending.Committed? ==> Charged(ledger.Abs(), Commit(request, RefOf(request), attempts))
    ensures ending.Pending? ==>
              Uncharged(ledger.Abs(), request.requestId) || Charged(ledger.Abs(), Commit(request, RefOf(request), attempts))
  {
    attempts, trace, schedule, result := [], [], [], Interrupted;
    var estimate := EstimateBudgetCost(request.inputTokens, request.outputTokens, Prices(request.candidates));
    if estimate.None? { return NotReserved, attempts, result, trace, schedule; }
    assert request.candidates != [];
    var serving := new BudgetedRequest(ledger, request, world, estimate.value);
    hide Reserves, EstimateBudgetCost, Final, Explains, C.Coherent, L.Agrees, Safe, Covered, Commit, HasBounds;
    ending, schedule, result := serving.Serve();
    attempts, trace := serving.attempts, serving.trace;
  }

  function RefOf(request: Request): Ref {
    Ref(request.requestId, PeriodId(request.owner.groupId, request.periodKey))
  }

  /** Nothing is charged to the request, unless an administrator did so. */
  predicate Uncharged(s: State, id: RequestId) {
    id in s.entries && !s.entries[id].snapshot.manualFinal ==> s.entries[id].settled == 0
  }

  // ----- what a safe history means

  lemma SafeHistoryIsCoherent(start: State, trace: seq<Event>)
    requires C.Coherent(start)
    ensures C.Coherent(Replay(start, trace))
  {
    ReplayIsARun(start, trace);
    hide C.Coherent;
    C.RunKeepsCoherent(start, AllCalls(trace));
  }

  /** What others overrun during a request. */
  ghost function OthersOverrun(start: State, trace: seq<Event>, p: PeriodId): nat {
    if trace == [] then 0
    else
      var front := trace[..|trace| - 1];
      var last := trace[|trace| - 1];
      OthersOverrun(start, front, p) + (if last.Others? then S.TotalOverrun(Replay(start, front), last.commands, p) else 0)
  }

  lemma {:induction false} TotalOverrunAppends(s: State, first: seq<Command>, second: seq<Command>, p: PeriodId)
    ensures S.TotalOverrun(s, first + second, p) == S.TotalOverrun(s, first, p) + S.TotalOverrun(Run(s, first), second, p)
    decreases first
  {
    hide Step, S.Overrun;
    if first == [] {
      assert first + second == second;
    } else {
      assert (first + second)[1..] == first[1..] + second;
      TotalOverrunAppends(Step(s, first[0]).state, first[1..], second, p);
    }
  }

  lemma HarmlessOverrunsNothing(s: State, c: Command, p: PeriodId)
    requires Harmless(s, c)
    ensures S.TotalOverrun(s, [c], p) == 0
  {
    hide Step, S.Overrun;
    assert S.TotalOverrun(Step(s, c).state, [], p) == 0;
  }

  /**
   * Hold sufficiency over a whole request: when its answers are covered, upstream reports within the prepared bounds and
   * unreported good answers within four bytes for each prepared output token, no call of the request ever takes more from a
   * period than the request had on hold there, whatever the fail-over did.
   */
  lemma {:induction false} RequestNeverOverruns(start: State, trace: seq<Event>, ref: Ref, p: PeriodId)
    requires Safe(start, trace, ref, true)
    ensures S.TotalOverrun(start, AllCalls(trace), p) == OthersOverrun(start, trace, p)
    decreases trace
  {
    if trace != [] {
      var last: nat := |trace| - 1;
      var front := trace[..last];
      assert EventSafe(start, front, trace[last], ref, true);
      assert Safe(start, front, ref, true) by {
        hide EventSafe;
        forall i | 0 <= i < last ensures EventSafe(start, front[..i], front[i], ref, true) {
          assert front[..i] == trace[..i] && front[i] == trace[i];
        }
      }
      RequestNeverOverruns(start, front, ref, p);
      ReplayIsARun(start, front);
      hide Safe, Harmless, S.TotalOverrun, Routes.BringsRoutes, Step;
      match trace[last]
      case Own(c) =>
        TotalOverrunAppends(start, AllCalls(front), [c], p);
        HarmlessOverrunsNothing(Replay(start, front), c, p);
      case Others(commands) => TotalOverrunAppends(start, AllCalls(front), commands, p);
      case Fetch(_) => assert AllCalls(front) + [] == AllCalls(front);
    }
  }

  /** So a period that kept to its limit before a covered request keeps to it through the request, but for others' overruns. */
  lemma LimitHoldsThroughARequest(start: State, trace: seq<Event>, ref: Ref, p: PeriodId)
    requires C.Coherent(start) && Safe(start, trace, ref, true) && S.WithinLimit(start, p, 0)
    ensures S.WithinLimit(Replay(start, trace), p, OthersOverrun(start, trace, p))
  {
    hide C.Coherent, Safe, S.WithinLimit;
    RequestNeverOverruns(start, trace, ref, p);
    ReplayIsARun(start, trace);
    S.RunStaysWithinLimit(start, AllCalls(trace), p, 0);
  }
}
