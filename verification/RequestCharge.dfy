/**
 * What a request costs in the end, said of its answers: which of them are charged, for which usage and at which price,
 * and which stay undecided.
 */
module RequestCharge {
  import opened Money
  import opened BudgetPreparation
  import opened LedgerSpec
  import opened Relay
  import opened RequestSafety
  import opened GroupRequest
  import Stream = StreamUsage

  predicate Good(status: nat) {
    200 <= status < 300
  }

  /** A request that comes in is served with what was prepared of it, and not at all if it cannot be prepared. */
  lemma ServedAsPrepared(incoming: Incoming)
    ensures var prepared := Prepare(incoming.protocol, incoming.body, incoming.contextSize);
            && (RequestOf(incoming).None? <==> prepared.None?)
            && (prepared.Some? ==>
                  var request := RequestOf(incoming).value;
                  && request.inputTokens == prepared.value.inputTokens && request.outputTokens == prepared.value.outputTokens
                  && request.call.streaming == incoming.streaming && request.call.preparedBytes == Bytes(prepared.value.body)
                  && request.candidates == incoming.candidates && request.requestId == incoming.requestId
                  && request.owner == incoming.owner && request.startedAt == incoming.startedAt
                  && request.periodKey == incoming.periodKey && request.snapshot == incoming.snapshot
                  && RefOf(request) == Ref(incoming.requestId, PeriodId(incoming.owner.groupId, incoming.periodKey)))
  {
    hide Prepare, Bytes;
  }

  // ----- one answer

  /** A bad answer is charged for what it reports, if all of that has a price. */
  predicate BadAnswerCharged(answer: Answer) {
    answer.Response? && !Good(answer.status) && answer.report.Reported? && answer.report.unpricedTokens == 0
  }

  /** An answer that is not passed on owes nothing if it was refused outright, and is undecided if it tells too little. */
  predicate AnswerUndecided(answer: Answer) {
    && !BadAnswerCharged(answer)
    && !(answer.Response? && answer.report.Missing? && answer.status in {400, 401, 403, 404, 422, 429})
  }

  function AnswerDue(c: Candidate, answer: Answer): Cny {
    if BadAnswerCharged(answer) then CalculateCost(ReportedUsage(answer.report), c.price) else 0
  }

  /** The attempt at position k of the schedule is the good response that was passed on. */
  predicate PassedOn(world: World, schedule: seq<Candidate>, result: Relayed, k: nat) {
    result.Returned? && k + 1 == |schedule| && world.answer(k).Response? && Good(world.answer(k).status)
  }

  function DueAt(request: Request, world: World, schedule: seq<Candidate>, result: Relayed, k: nat): Cny
    requires k < |schedule|
  {
    if PassedOn(world, schedule, result, k) then
      if UndecidedAt(request, world, schedule, result, k) then 0
      else CalculateCost(LastUsage(request, world, schedule[k], k), schedule[k].price)
    else AnswerDue(schedule[k], world.answer(k))
  }

  predicate UndecidedAt(request: Request, world: World, schedule: seq<Candidate>, result: Relayed, k: nat)
    requires k < |schedule|
  {
    if PassedOn(world, schedule, result, k) then
      IsInterrupted(request, world) || LastUsage(request, world, schedule[k], k).unpricedTokens > 0
    else AnswerUndecided(world.answer(k))
  }

  /** No count of the one is larger than that of the other. */
  predicate NoMore(a: Usage, b: Usage) {
    a.inputTokens <= b.inputTokens && a.outputTokens <= b.outputTokens && a.cachedTokens <= b.cachedTokens
    && a.reasoningTokens <= b.reasoningTokens && a.unpricedTokens <= b.unpricedTokens
  }

  /** No event reports more than that. */
  predicate CoversReports(usage: Usage, events: seq<string>, read: string -> Stream.Reading) {
    forall i :: 0 <= i < |events| && read(events[i]).report.Reported? ==> NoMore(ReportedUsage(read(events[i]).report), usage)
  }

  predicate AnyReports(events: seq<string>, read: string -> Stream.Reading) {
    exists i :: 0 <= i < |events| && read(events[i]).report.Reported?
  }

  lemma CollectedCovers(events: seq<string>, read: string -> Stream.Reading)
    ensures CoversReports(Stream.Collect(NO_USAGE, events, read), events, read)
  {
    var collected := Stream.Collect(NO_USAGE, events, read);
    Stream.CollectedIsTheMaximum(NO_USAGE, events, read, collected);
    hide Stream.Collect;
    forall i | 0 <= i < |events| && read(events[i]).report.Reported?
      ensures NoMore(ReportedUsage(read(events[i]).report), collected)
    {
      assert Stream.Below(Normalised(read(events[i]).report), collected);
    }
  }

  lemma CollectedIsLeast(events: seq<string>, read: string -> Stream.Reading, other: Usage)
    requires CoversReports(other, events, read)
    ensures NoMore(Stream.Collect(NO_USAGE, events, read), other)
  {
    var bound := other.(upstream := true);
    forall i | 0 <= i < |events| && !read(events[i]).report.Missing? ensures Stream.Below(Normalised(read(events[i]).report), bound) {
      if read(events[i]).report.Reported? { assert NoMore(ReportedUsage(read(events[i]).report), other); }
    }
    Stream.CollectedIsTheMaximum(NO_USAGE, events, read, bound);
    hide Stream.Collect;
  }

  /**
   * The final usage of a streamed response: an upstream's exactly if a complete event reports counts, and then the least
   * counts that no report exceeds; without any report, tokens guessed from the prepared bound and the length of the stream.
   */
  lemma LastUsageOfAStream(request: Request, world: World, c: Candidate, k: nat)
    requires request.call.streaming && world.stream.Some?
    ensures var events := Stream.Split(Stream.Concat(world.stream.value)).events;
            var usage := LastUsage(request, world, c, k);
            && (usage.upstream <==> AnyReports(events, world.read))
            && (usage.upstream ==>
                  CoversReports(usage, events, world.read)
                  && forall other :: CoversReports(other, events, world.read) ==> NoMore(usage, other))
            && (!usage.upstream ==>
                  usage == Usage(Max(1, request.inputTokens), Quarter(|Stream.Concat(world.stream.value)|), 0, 0, false, 0))
  {
    var chunks, read := world.stream.value, world.read;
    var events := Stream.Split(Stream.Concat(chunks)).events;
    Stream.StreamedIs(chunks, read);
    Stream.UpstreamMeans(NO_USAGE, events, read);
    CollectedCovers(events, read);
    hide Stream.Split, Stream.Concat, Stream.Collect, Stream.Streamed, CoversReports, NoMore;
    forall other | CoversReports(other, events, read) ensures NoMore(Stream.Collect(NO_USAGE, events, read), other) {
      CollectedIsLeast(events, read, other);
    }
  }

  /** The final usage of any other response is what its answer stands for. */
  lemma LastUsageOfAnAnswer(request: Request, world: World, c: Candidate, k: nat)
    requires !request.call.streaming && world.answer(k).Response?
    ensures var answer := world.answer(k);
            LastUsage(request, world, c, k)
            == if answer.report.Reported? then ReportedUsage(answer.report)
               else if c.gemini then Usage(0, 0, 0, 0, true, 0)
               else Usage(Quarter(request.call.preparedBytes), Quarter(answer.bodyBytes), 0, 0, false, 0)
  {
    PlainUsageMeans(c, world.answer(k), request.call);
    hide PlainUsage;
  }

  /** A response is interrupted if it was cut short, or if it was streamed and no complete event of the stream ended it. */
  lemma InterruptedMeans(request: Request, world: World)
    ensures IsInterrupted(request, world) <==>
              || world.interrupted
              || (request.call.streaming && world.stream.Some?
                  && var events := Stream.Split(Stream.Concat(world.stream.value)).events;
                     forall i :: 0 <= i < |events| ==> !world.read(events[i]).done)
  {
    hide Stream.Split, Stream.Concat, Stream.Streamed;
    if world.stream.Some? { Stream.CompletedMeans(world.stream.value, world.read); }
  }

  /** The usage the answer at position k is recorded with. */
  function UsageAt(request: Request, world: World, schedule: seq<Candidate>, result: Relayed, k: nat): Usage
    requires k < |schedule|
  {
    var answer := world.answer(k);
    if PassedOn(world, schedule, result, k) then LastUsage(request, world, schedule[k], k)
    else if answer.Response? && !Good(answer.status) && answer.report.Reported? then ReportedUsage(answer.report)
    else NO_USAGE
  }

  // ----- all answers

  function AmountDue(request: Request, world: World, schedule: seq<Candidate>, result: Relayed, n: nat): nat
    requires n <= |schedule|
  {
    if n == 0 then 0 else AmountDue(request, world, schedule, result, n - 1) + DueAt(request, world, schedule, result, n - 1)
  }

  /** One estimate of its own for each attempt that stays undecided. */
  function AmountUndecided(request: Request, world: World, schedule: seq<Candidate>, result: Relayed, n: nat): nat
    requires n <= |schedule|
  {
    if n == 0 then 0
    else
      AmountUndecided(request, world, schedule, result, n - 1)
      + (if UndecidedAt(request, world, schedule, result, n - 1)
         then OwnEstimate(request.inputTokens, request.outputTokens, schedule[n - 1].price) else 0)
  }

  function InputCounted(request: Request, world: World, schedule: seq<Candidate>, result: Relayed, n: nat): nat
    requires n <= |schedule|
  {
    if n == 0 then 0
    else InputCounted(request, world, schedule, result, n - 1) + UsageAt(request, world, schedule, result, n - 1).inputTokens
  }

  function OutputCounted(request: Request, world: World, schedule: seq<Candidate>, result: Relayed, n: nat): nat
    requires n <= |schedule|
  {
    if n == 0 then 0
    else OutputCounted(request, world, schedule, result, n - 1) + UsageAt(request, world, schedule, result, n - 1).outputTokens
  }

  predicate AllDecided(request: Request, world: World, schedule: seq<Candidate>, result: Relayed) {
    schedule != [] && forall k :: 0 <= k < |schedule| ==> !UndecidedAt(request, world, schedule, result, k)
  }

  /** What the request's attempts say of the answer at position k. */
  predicate Accounts(request: Request, world: World, schedule: seq<Candidate>, result: Relayed, k: nat, a: Attempt)
    requires k < |schedule|
  {
    && a.price == schedule[k].price
    && (a.billing.UNKNOWN? <==> UndecidedAt(request, world, schedule, result, k))
    && (!a.billing.UNKNOWN? ==> a.cost == DueAt(request, world, schedule, result, k))
    && Counted(a.usage).inputTokens == UsageAt(request, world, schedule, result, k).inputTokens
    && Counted(a.usage).outputTokens == UsageAt(request, world, schedule, result, k).outputTokens
  }

  /** An answer that is retried, or is no good, is accounted for by what it says itself. */
  lemma AnswerAccounts(c: Candidate, answer: Answer, call: Call)
    requires Retries(c, answer, call) || !answer.Response? || !Good(answer.status)
    ensures var a := AttemptFor(c, answer, call);
            && a.price == c.price && (a.billing.UNKNOWN? <==> AnswerUndecided(answer))
            && (!a.billing.UNKNOWN? ==> a.cost == AnswerDue(c, answer))
    ensures Counted(AttemptFor(c, answer, call).usage)
            == if answer.Response? && !Good(answer.status) && answer.report.Reported? then ReportedUsage(answer.report) else NO_USAGE
  {
    BillingMeans(c, answer, call);
    RetriesMeans(c, answer, call);
    hide CalculateCost;
  }

  lemma FinalAccounts(request: Request, world: World, schedule: seq<Candidate>, result: Relayed, k: nat)
    requires Explains(request, world, schedule, result) && k < |schedule|
    ensures |Final(request, world, schedule, result)| == |schedule|
    ensures Accounts(request, world, schedule, result, k, Final(request, world, schedule, result)[k])
  {
    var c, answer := schedule[k], world.answer(k);
    var tried := Tried(schedule, world.answer, request.call);
    assert tried[k] == AttemptFor(c, answer, request.call);
    hide CalculateCost, AttemptFor, LastUsage, IsInterrupted, Schedule, Retries;
    if result.Returned? && k + 1 == |schedule| {
      LastRetries(request, world, schedule);
      AttemptStatus(c, answer, request.call);
      FinishedMeans(c, tried[k], LastUsage(request, world, c, k), IsInterrupted(request, world));
      hide Finished;
      if !PassedOn(world, schedule, result, k) { AnswerAccounts(c, answer, request.call); }
    } else {
      assert Retries(c, answer, request.call) by {
        if result.Returned? { assert schedule[..|schedule| - 1][k] == c; }
      }
      AnswerAccounts(c, answer, request.call);
    }
  }

  /** The last attempt of a response is one that is not retried. */
  lemma LastRetries(request: Request, world: World, schedule: seq<Candidate>)
    requires schedule != [] && AllRetried(schedule[..|schedule| - 1], world.answer, request.call)
    requires !AllRetried(schedule, world.answer, request.call)
    ensures !Retries(schedule[|schedule| - 1], world.answer(|schedule| - 1), request.call)
  {
    hide Retries;
    var last := |schedule| - 1;
    assert forall k :: 0 <= k < last ==> schedule[..last][k] == schedule[k];
  }

  /** An attempt that is not retried carries the status of its answer. */
  lemma AttemptStatus(c: Candidate, answer: Answer, call: Call)
    requires !Retries(c, answer, call)
    ensures answer.Response? && AttemptFor(c, answer, call).status == answer.status
  {
    BillingMeans(c, answer, call);
    hide AttemptFor, CalculateCost;
  }

  lemma {:induction false} KnownIsDue(request: Request, world: World, schedule: seq<Candidate>, result: Relayed, attempts: seq<Attempt>,
                                      n: nat)
    requires n <= |schedule| == |attempts|
    requires forall k :: 0 <= k < |schedule| ==> Accounts(request, world, schedule, result, k, attempts[k])
    ensures KnownCost(attempts[..n]) == AmountDue(request, world, schedule, result, n)
    ensures UnresolvedCost(attempts[..n], request.inputTokens, request.outputTokens) == AmountUndecided(request, world, schedule, result, n)
    ensures TokensIn(attempts[..n]) == InputCounted(request, world, schedule, result, n)
    ensures TokensOut(attempts[..n]) == OutputCounted(request, world, schedule, result, n)
    decreases n
  {
    hide Accounts, DueAt, UndecidedAt, OwnEstimate, UsageAt, Counted;
    if n > 0 {
      assert attempts[..n][..n - 1] == attempts[..n - 1];
      KnownIsDue(request, world, schedule, result, attempts, n - 1);
      OneAccounts(request, world, schedule, result, n - 1, attempts[n - 1]);
    }
  }

  lemma OneAccounts(request: Request, world: World, schedule: seq<Candidate>, result: Relayed, k: nat, a: Attempt)
    requires k < |schedule| && Accounts(request, world, schedule, result, k, a)
    ensures a.price == schedule[k].price && (a.billing.UNKNOWN? <==> UndecidedAt(request, world, schedule, result, k))
    ensures DueAt(request, world, schedule, result, k) == if a.billing.UNKNOWN? then 0 else a.cost
    ensures Counted(a.usage).inputTokens == UsageAt(request, world, schedule, result, k).inputTokens
    ensures Counted(a.usage).outputTokens == UsageAt(request, world, schedule, result, k).outputTokens
  {
    hide LastUsage, CalculateCost, IsInterrupted;
  }

  /** The usage log of a request: its owner's, with the tokens of every answer and a route for each, of unknown cost while undecided. */
  predicate IsLogged(request: Request, ref: Ref, world: World, schedule: seq<Candidate>, result: Relayed, usage: UsageInput) {
    && usage.requestId == ref.requestId && usage.owner == request.owner
    && usage.inputTokens == InputCounted(request, world, schedule, result, |schedule|)
    && usage.outputTokens == OutputCounted(request, world, schedule, result, |schedule|)
    && usage.routes.Some?
    && (schedule == [] ==> usage.routes.value == [None])
    && (schedule != [] ==>
          && |usage.routes.value| == |schedule|
          && forall k :: 0 <= k < |schedule| ==>
               usage.routes.value[k] == if UndecidedAt(request, world, schedule, result, k) then None
                                        else Some(DueAt(request, world, schedule, result, k)))
  }

  lemma {:induction false} NothingTried(request: Request, ref: Ref, world: World, result: Relayed)
    requires request.candidates != []
    ensures var attempts := Final(request, world, [], result);
            && attempts == [Begun(request.candidates[0])] && AnyUnknown(attempts) && KnownCost(attempts) == 0
            && UnresolvedCost(attempts, request.inputTokens, request.outputTokens)
               == OwnEstimate(request.inputTokens, request.outputTokens, request.candidates[0].price)
            && TokensIn(attempts) == TokensOut(attempts) == 0 && RouteCosts(attempts) == [None]
  {
    var attempts := Final(request, world, [], result);
    assert attempts[0] in attempts && attempts[..0] == [];
    assert KnownCost([]) == 0 && UnresolvedCost([], request.inputTokens, request.outputTokens) == 0;
    assert TokensIn([]) == 0 && TokensOut([]) == 0;
  }

  lemma CommitMeans(request: Request, ref: Ref, attempts: seq<Attempt>)
    ensures var commit := Commit(request, ref, attempts);
            var usage := if commit.Settle? then commit.usage else commit.hold.usage;
            && (commit.Settle? <==> !AnyUnknown(attempts))
            && (commit.Settle? ==> commit.actual == KnownCost(attempts))
            && (commit.Hold? ==>
                  commit.hold.actual == KnownCost(attempts)
                  && commit.hold.unresolved == UnresolvedCost(attempts, request.inputTokens, request.outputTokens))
            && usage == UsageInput(ref.requestId, request.owner, KnownCost(attempts), TokensIn(attempts), TokensOut(attempts),
                                   Some(RouteCosts(attempts)))
  {
    hide KnownCost, UnresolvedCost, TokensIn, TokensOut, RouteCosts, AnyUnknown;
  }

  /**
   * The charge of a request, in terms of its answers: it is settled exactly when every attempt that was made is decided,
   * for the sum of what is due; otherwise what is due is spent and one estimate stays on hold for each undecided attempt.
   */
  lemma ChargedForItsAnswers(request: Request, ref: Ref, world: World, schedule: seq<Candidate>, result: Relayed)
    requires Explains(request, world, schedule, result) && request.candidates != []
    ensures var commit := Commit(request, ref, Final(request, world, schedule, result));
            var n := |schedule|;
            && (commit.Settle? <==> AllDecided(request, world, schedule, result))
            && (commit.Settle? ==>
                  commit.actual == AmountDue(request, world, schedule, result, n) == commit.usage.cost
                  && IsLogged(request, ref, world, schedule, result, commit.usage))
            && (commit.Hold? ==>
                  commit.hold.actual == AmountDue(request, world, schedule, result, n) == commit.hold.usage.cost
                  && IsLogged(request, ref, world, schedule, result, commit.hold.usage)
                  && commit.hold.unresolved
                     == if schedule == [] then OwnEstimate(request.inputTokens, request.outputTokens, request.candidates[0].price)
                        else AmountUndecided(request, world, schedule, result, n))
  {
    var attempts := Final(request, world, schedule, result);
    CommitMeans(request, ref, attempts);
    hide Commit;
    if schedule == [] {
      NothingTried(request, ref, world, result);
      hide Final, KnownCost, UnresolvedCost, TokensIn, TokensOut, RouteCosts, AnyUnknown;
    } else {
      forall k | 0 <= k < |schedule|
        ensures |attempts| == |schedule| && Accounts(request, world, schedule, result, k, attempts[k])
      {
        FinalAccounts(request, world, schedule, result, k);
      }
      hide Final, Accounts, DueAt, UndecidedAt, Explains;
      assert |attempts| == |schedule| by { FinalAccounts(request, world, schedule, result, 0); }
      KnownIsDue(request, world, schedule, result, attempts, |schedule|);
      assert attempts[..|schedule|] == attempts;
      forall k | 0 <= k < |schedule|
        ensures attempts[k].billing.UNKNOWN? <==> UndecidedAt(request, world, schedule, result, k)
        ensures !attempts[k].billing.UNKNOWN? ==> attempts[k].cost == DueAt(request, world, schedule, result, k)
      {
        OneAccounts(request, world, schedule, result, k, attempts[k]);
      }
      hide KnownCost, UnresolvedCost, AmountDue, AmountUndecided, TokensIn, TokensOut, InputCounted, OutputCounted;
    }
  }

  /** So a charged entry has settled what is due, and holds what is undecided, unless an administrator decided otherwise. */
  lemma EntryForItsAnswers(s: State, request: Request, ref: Ref, world: World, schedule: seq<Candidate>, result: Relayed)
    requires Explains(request, world, schedule, result) && request.candidates != []
    requires Charged(s, Commit(request, ref, Final(request, world, schedule, result)))
    ensures IsDue(s, ref.requestId, request, world, schedule, result)
  {
    ChargedForItsAnswers(request, ref, world, schedule, result);
    hide AmountDue, AmountUndecided, AllDecided, Explains, IsLogged;
    CommitRef(request, ref, Final(request, world, schedule, result));
    hide Commit, Final;
  }

  lemma CommitRef(request: Request, ref: Ref, attempts: seq<Attempt>)
    ensures Commit(request, ref, attempts).ref == ref
  {
  }

  predicate IsDue(s: State, id: RequestId, request: Request, world: World, schedule: seq<Candidate>, result: Relayed) {
    && id in s.entries
    && var e := s.entries[id];
       !e.snapshot.manualFinal ==>
         && e.settled == AmountDue(request, world, schedule, result, |schedule|)
         && (e.status.SETTLED? <==> AllDecided(request, world, schedule, result))
         && (e.status.RECONCILIATION_REQUIRED? <==> !AllDecided(request, world, schedule, result))
         && (e.status.RECONCILIATION_REQUIRED? && schedule != [] ==>
               e.reserved == AmountUndecided(request, world, schedule, result, |schedule|))
  }
}
