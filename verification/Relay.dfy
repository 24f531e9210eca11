/**
 * Fail-over at one request: which upstream attempts are made, what each is billed as, and what the request is charged.
 */
module Relay {
  import opened Money
  import opened BudgetPreparation

  datatype BillingState = UNKNOWN | CONFIRMED | ESTIMATED | NO_CHARGE

  datatype Candidate = Candidate(channelId: nat, keyId: nat, gemini: bool, maxRetries: int, price: Price)

  /** One upstream attempt; its price is the candidate's at the time. */
  datatype Attempt = Attempt(
    channelId: nat, keyId: nat, status: nat, billing: BillingState, cost: Cny, usage: Option<Usage>, price: Price)

  /** What every attempt of a request has in common: whether it streams, and the bytes of the prepared body. */
  datatype Call = Call(streaming: bool, preparedBytes: nat)

  /** What came back from one fetch: nothing at all, or a status, a body and its usage report, and whether reading it failed. */
  datatype Answer = NoResponse | Response(status: nat, report: Report, bodyBytes: nat, bodyLost: bool)

  predicate IsOk(status: nat) {
    200 <= status <= 299
  }

  predicate Retryable(status: nat) {
    status == 408 || status == 429 || status >= 500
  }

  /** Statuses that tell that the upstream refused the request before doing any work. */
  predicate Unbilled(status: nat) {
    status in {400, 401, 403, 404, 422, 429}
  }

  /** Without a report a good answer is charged for tokens guessed from the bytes of both bodies; a Gemini answer for none. */
  function PlainUsage(c: Candidate, answer: Answer, call: Call): Usage
    requires answer.Response?
  {
    if answer.report.Reported? then Normalised(answer.report)
    else if c.gemini then NO_USAGE.(upstream := true)
    else GuessedUsage(CeilDiv(call.preparedBytes, 4), answer.bodyBytes)
  }

  function Begun(c: Candidate): Attempt {
    Attempt(c.channelId, c.keyId, 0, UNKNOWN, 0, None, c.price)
  }

  function Billed(a: Attempt, usage: Usage, billing: BillingState): Attempt {
    a.(usage := Some(usage), cost := CalculateCost(usage, a.price), billing := billing)
  }

  function Refused(a: Attempt, report: Report): Attempt {
    if !report.Missing? then
      var usage := Normalised(report);
      Billed(a, usage, if usage.unpricedTokens > 0 || !usage.upstream then UNKNOWN else CONFIRMED)
    else if Unbilled(a.status) then a.(billing := NO_CHARGE, cost := 0)
    else a
  }

  predicate ReadsBody(c: Candidate, status: nat, streaming: bool) {
    c.gemini || (IsOk(status) && !streaming)
  }

  /** The loop goes on to the next attempt. */
  predicate Retries(c: Candidate, answer: Answer, call: Call) {
    || answer.NoResponse?
    || (!IsOk(answer.status) && Retryable(answer.status))
    || (ReadsBody(c, answer.status, call.streaming) && answer.bodyLost)
  }

  function AttemptFor(c: Candidate, answer: Answer, call: Call): Attempt {
    if answer.NoResponse? then Begun(c)
    else
      var received := Begun(c).(status := answer.status);
      var judged := if IsOk(answer.status) then received else Refused(received, answer.report);
      if !IsOk(answer.status) && Retryable(answer.status) then judged
      else if ReadsBody(c, answer.status, call.streaming) && answer.bodyLost then judged.(status := 0)
      else if IsOk(answer.status) && !call.streaming && !c.gemini then
        var usage := PlainUsage(c, answer, call);
        Billed(judged, usage, if usage.upstream then CONFIRMED else ESTIMATED)
      else judged
  }

  /** Whether a status says that all is well, that another try may help, or that nothing was done and nothing is owed. */
  lemma StatusesMean(status: nat)
    ensures IsOk(status) <==> 200 <= status < 300
    ensures Retryable(status) <==> status == 408 || status == 429 || 500 <= status
    ensures Unbilled(status) <==>
              status == 400 || status == 401 || status == 403 || status == 404 || status == 422 || status == 429
  {
  }

  /** The usage an upstream's report stands for. */
  function ReportedUsage(report: Report): Usage
    requires report.Reported?
  {
    Usage(report.inputTokens, report.outputTokens, report.cachedTokens, report.reasoningTokens, true, report.unpricedTokens)
  }

  /** What a billing state says about the answer, and what the cost then is. */
  lemma BillingMeans(c: Candidate, answer: Answer, call: Call)
    ensures var a := AttemptFor(c, answer, call);
            var good := answer.Response? && 200 <= answer.status < 300;
            && (a.billing.NO_CHARGE? <==>
                  answer.Response? && answer.status in {400, 401, 403, 404, 422, 429} && answer.report.Missing?)
            && (a.billing.CONFIRMED? <==>
                  answer.Response? && answer.report.Reported?
                  && if good then !call.streaming && !c.gemini && !answer.bodyLost else answer.report.unpricedTokens == 0)
            && (a.billing.ESTIMATED? <==> good && !answer.report.Reported? && !call.streaming && !c.gemini && !answer.bodyLost)
            && (a.billing.NO_CHARGE? ==> a.cost == 0)
            && (a.billing.CONFIRMED? ==>
                  a.usage == Some(ReportedUsage(answer.report)) && a.cost == CalculateCost(ReportedUsage(answer.report), c.price))
            && (a.billing.ESTIMATED? ==>
                  a.usage.Some? && a.cost == CalculateCost(a.usage.value, c.price)
                  && a.usage.value.inputTokens == Quarter(call.preparedBytes)
                  && a.usage.value.outputTokens == Quarter(answer.bodyBytes)
                  && a.usage.value.cachedTokens == a.usage.value.reasoningTokens == 0)
            && a.channelId == c.channelId && a.keyId == c.keyId && a.price == c.price
    ensures AttemptFor(c, answer, call).status == 0 <==>
              answer.NoResponse? || answer.status == 0
              || (Retries(c, answer, call) && (IsOk(answer.status) || !Retryable(answer.status)))
    ensures AttemptFor(c, answer, call).status != 0 ==> AttemptFor(c, answer, call).status == answer.status
  {
    hide CalculateCost;
  }

  /** Another try follows no response, a bad status that may pass, and a body that was needed and got lost. */
  lemma RetriesMeans(c: Candidate, answer: Answer, call: Call)
    ensures Retries(c, answer, call) <==>
              || answer.NoResponse?
              || answer.status == 408 || answer.status == 429 || answer.status >= 500
              || (answer.bodyLost && (c.gemini || (200 <= answer.status < 300 && !call.streaming)))
  {
  }

  /** The usage of a good answer that is no stream. */
  lemma PlainUsageMeans(c: Candidate, answer: Answer, call: Call)
    requires answer.Response?
    ensures answer.report.Reported? ==> PlainUsage(c, answer, call) == ReportedUsage(answer.report)
    ensures !answer.report.Reported? && c.gemini ==> PlainUsage(c, answer, call) == Usage(0, 0, 0, 0, true, 0)
    ensures !answer.report.Reported? && !c.gemini ==>
              PlainUsage(c, answer, call) == Usage(Quarter(call.preparedBytes), Quarter(answer.bodyBytes), 0, 0, false, 0)
  {
  }

  // ----- the order of attempts

  /** Every candidate in turn, each once and then as often again as its retries allow. */
  function Schedule(candidates: seq<Candidate>): seq<Candidate> {
    if candidates == [] then []
    else
      var last := candidates[|candidates| - 1];
      Schedule(candidates[..|candidates| - 1]) + Repeated(last, 1 + Max(0, last.maxRetries))
  }

  function Repeated(c: Candidate, times: nat): seq<Candidate> {
    seq(times, _ => c)
  }

  /** Every candidate is tried once and then as often again as its retries allow, if it comes to that. */
  lemma {:induction false} EachAsOften(candidates: seq<Candidate>, c: Candidate)
    requires forall i, j :: 0 <= i < j < |candidates| ==> candidates[i] != candidates[j]
    ensures multiset(Schedule(candidates))[c] == if c in candidates then 1 + Max(0, c.maxRetries) else 0
    decreases candidates
  {
    if candidates != [] {
      var front, last := candidates[..|candidates| - 1], candidates[|candidates| - 1];
      EachAsOften(front, c);
      RepeatedCount(last, 1 + Max(0, last.maxRetries), c);
      assert candidates == front + [last];
    }
  }

  lemma {:induction false} RepeatedCount(c: Candidate, times: nat, d: Candidate)
    ensures multiset(Repeated(c, times))[d] == if c == d then times else 0
    decreases times
  {
    if times > 0 {
      RepeatedCount(c, times - 1, d);
      assert Repeated(c, times) == Repeated(c, times - 1) + [c];
    } else {
      assert Repeated(c, times) == [];
    }
  }

  /** Nobody is tried before a candidate further up has had all its tries. */
  lemma {:induction false} InTheirOrder(candidates: seq<Candidate>, a: nat, b: nat, i: nat, j: nat)
    requires forall i, j :: 0 <= i < j < |candidates| ==> candidates[i] != candidates[j]
    requires a <= b < |Schedule(candidates)| && i < |candidates| && j < |candidates|
    requires Schedule(candidates)[a] == candidates[i] && Schedule(candidates)[b] == candidates[j]
    ensures i <= j
    decreases candidates
  {
    var front, last := candidates[..|candidates| - 1], candidates[|candidates| - 1];
    if b < |Schedule(front)| {
      ScheduleMembers(front, a);
      ScheduleMembers(front, b);
      InTheirOrder(front, a, b, i, j);
    }
  }

  function Tried(schedule: seq<Candidate>, answers: nat -> Answer, call: Call): seq<Attempt> {
    seq(|schedule|, k requires 0 <= k < |schedule| => AttemptFor(schedule[k], answers(k), call))
  }

  predicate AllRetried(schedule: seq<Candidate>, answers: nat -> Answer, call: Call) {
    forall k :: 0 <= k < |schedule| ==> Retries(schedule[k], answers(k), call)
  }

  lemma TriedLength(schedule: seq<Candidate>, answers: nat -> Answer, call: Call)
    ensures |Tried(schedule, answers, call)| == |schedule|
  {
  }

  lemma OneMoreTried(schedule: seq<Candidate>, c: Candidate, answers: nat -> Answer, call: Call)
    ensures Tried(schedule + [c], answers, call)
            == Tried(schedule, answers, call) + [AttemptFor(c, answers(|schedule|), call)]
    ensures AllRetried(schedule, answers, call) ==>
              (AllRetried(schedule + [c], answers, call) <==> Retries(c, answers(|schedule|), call))
  {
    assert (schedule + [c])[|schedule|] == c;
    hide AttemptFor, Retries;
  }

  lemma {:induction false} ScheduleOfPrefix(candidates: seq<Candidate>, n: nat)
    requires n <= |candidates|
    ensures Schedule(candidates[..n]) <= Schedule(candidates)
    decreases |candidates|
  {
    if n == |candidates| {
      assert candidates[..n] == candidates;
    } else {
      var front := candidates[..|candidates| - 1];
      ScheduleOfPrefix(front, n);
      assert front[..n] == candidates[..n];
    }
  }

  /** The attempts so far are a prefix of the schedule whatever the position in the nested loops. */
  lemma PositionInSchedule(candidates: seq<Candidate>, i: nat, retry: nat)
    requires i < |candidates| && retry <= 1 + Max(0, candidates[i].maxRetries)
    ensures Schedule(candidates[..i]) + Repeated(candidates[i], retry) <= Schedule(candidates)
  {
    var upTo := candidates[..i + 1];
    assert upTo[..i] == candidates[..i];
    assert Repeated(candidates[i], retry) <= Repeated(candidates[i], 1 + Max(0, candidates[i].maxRetries));
    ScheduleOfPrefix(candidates, i + 1);
  }

  lemma {:induction false} ScheduleMembers(candidates: seq<Candidate>, k: nat)
    requires k < |Schedule(candidates)|
    ensures Schedule(candidates)[k] in candidates
    decreases candidates
  {
    var front := candidates[..|candidates| - 1];
    if k < |Schedule(front)| { ScheduleMembers(front, k); }
  }

  // ----- what a request is charged

  function Prices(candidates: seq<Candidate>): seq<Price> {
    seq(|candidates|, i requires 0 <= i < |candidates| => candidates[i].price)
  }

  function KnownCost(attempts: seq<Attempt>): nat {
    if attempts == [] then 0
    else
      var last := attempts[|attempts| - 1];
      KnownCost(attempts[..|attempts| - 1]) + (if last.billing.UNKNOWN? then 0 else last.cost)
  }

  /** An attempt's own estimate. It exists whenever the request's does: EstimateMonotone. */
  function OwnEstimate(inputTokens: nat, outputTokens: nat, price: Price): nat {
    var estimate := EstimateBudgetCost(inputTokens, outputTokens, [price]);
    if estimate.Some? then estimate.value else 0
  }

  /** What stays on hold for an undecided attempt is the estimate at its own price: it covers any usage within the bounds. */
  lemma OwnEstimateMeans(inputTokens: nat, outputTokens: nat, price: Price)
    ensures EstimateBudgetCost(inputTokens, outputTokens, [price]).Some? ==>
              && EstimateBudgetCost(inputTokens, outputTokens, [price]) == Some(OwnEstimate(inputTokens, outputTokens, price))
              && forall usage :: Within(usage, inputTokens, outputTokens) ==>
                   CalculateCost(usage, price) <= OwnEstimate(inputTokens, outputTokens, price)
  {
    if EstimateBudgetCost(inputTokens, outputTokens, [price]).Some? {
      forall usage | Within(usage, inputTokens, outputTokens)
        ensures CalculateCost(usage, price) <= OwnEstimate(inputTokens, outputTokens, price)
      {
        ActualWithinEstimate(usage, price, inputTokens, outputTokens, [price]);
      }
    }
    hide EstimateBudgetCost, CalculateCost, Within;
  }

  function UnresolvedCost(attempts: seq<Attempt>, inputTokens: nat, outputTokens: nat): nat {
    if attempts == [] then 0
    else
      var last := attempts[|attempts| - 1];
      UnresolvedCost(attempts[..|attempts| - 1], inputTokens, outputTokens)
      + (if last.billing.UNKNOWN? then OwnEstimate(inputTokens, outputTokens, last.price) else 0)
  }

  predicate AnyUnknown(attempts: seq<Attempt>) {
    exists a :: a in attempts && a.billing.UNKNOWN?
  }

  function Chargeable(attempts: seq<Attempt>): nat {
    if attempts == [] then 0
    else Chargeable(attempts[..|attempts| - 1]) + (if attempts[|attempts| - 1].billing.NO_CHARGE? then 0 else 1)
  }

  /** How many estimates a request has on hold: one, and one more for each chargeable attempt that was followed up. */
  function Holds(attempts: seq<Attempt>): nat {
    if attempts == [] then 1 else 1 + Chargeable(attempts[..|attempts| - 1])
  }

  function OnHold(estimate: Cny, attempts: seq<Attempt>): nat {
    estimate * Holds(attempts)
  }

  /** What must be on hold before the next attempt may start. */
  function Needed(estimate: Cny, attempts: seq<Attempt>): nat {
    estimate * (1 + Chargeable(attempts))
  }

  /** One more estimate is needed exactly when the last attempt may be charged. */
  lemma NeededNext(estimate: Cny, attempts: seq<Attempt>)
    ensures Needed(estimate, attempts)
            == OnHold(estimate, attempts)
               + (if attempts != [] && !attempts[|attempts| - 1].billing.NO_CHARGE? then estimate else 0)
  {
    if attempts != [] {
      var before := Chargeable(attempts[..|attempts| - 1]);
      assert estimate * (1 + (before + 1)) == estimate * (1 + before) + estimate;
    }
  }

  /** What the next attempt needed is what is held once it has been made. */
  lemma HeldAfter(estimate: Cny, attempts: seq<Attempt>, a: Attempt)
    ensures OnHold(estimate, attempts + [a]) == Needed(estimate, attempts)
  {
    assert (attempts + [a])[..|attempts|] == attempts;
  }

  lemma HoldsCoverChargeable(attempts: seq<Attempt>)
    ensures Chargeable(attempts) <= Holds(attempts) <= Chargeable(attempts) + 1
  {
  }

  /** An attempt at a listed price whose known cost is within the estimate. */
  predicate WithinEstimate(a: Attempt, estimate: Cny, prices: seq<Price>) {
    a.price in prices
    && (!a.billing.UNKNOWN? ==> a.cost <= estimate)
    && (a.billing.NO_CHARGE? ==> a.cost == 0)
  }

  lemma OwnWithinEstimate(inputTokens: nat, outputTokens: nat, price: Price, prices: seq<Price>, estimate: Cny)
    requires EstimateBudgetCost(inputTokens, outputTokens, prices) == Some(estimate) && price in prices
    ensures OwnEstimate(inputTokens, outputTokens, price) <= estimate
  {
    EstimateMonotone(inputTokens, outputTokens, [price], prices);
    hide EstimateBudgetCost;
  }

  /** The known and the unresolved cost together never exceed one estimate for each attempt that may be charged. */
  lemma {:induction false} ChargeWithinEstimates(
      attempts: seq<Attempt>, inputTokens: nat, outputTokens: nat, prices: seq<Price>, estimate: Cny)
    requires EstimateBudgetCost(inputTokens, outputTokens, prices) == Some(estimate)
    requires forall a :: a in attempts ==> WithinEstimate(a, estimate, prices)
    ensures KnownCost(attempts) + UnresolvedCost(attempts, inputTokens, outputTokens) <= estimate * Chargeable(attempts)
    decreases attempts
  {
    hide EstimateBudgetCost, OwnEstimate;
    if attempts != [] {
      var last := attempts[|attempts| - 1];
      ChargeWithinEstimates(attempts[..|attempts| - 1], inputTokens, outputTokens, prices, estimate);
      assert last in attempts;
      OwnWithinEstimate(inputTokens, outputTokens, last.price, prices, estimate);
      var before := Chargeable(attempts[..|attempts| - 1]);
      assert estimate * (before + 1) == estimate * before + estimate;
    }
  }

  /** A usage inside the prepared bounds at a listed price is billed within the estimate. */
  lemma BilledWithinEstimate(
      a: Attempt, usage: Usage, billing: BillingState, inputTokens: nat, outputTokens: nat, prices: seq<Price>, estimate: Cny)
    requires a.price in prices && Within(usage, inputTokens, outputTokens) && !billing.NO_CHARGE?
    requires EstimateBudgetCost(inputTokens, outputTokens, prices) == Some(estimate)
    ensures WithinEstimate(Billed(a, usage, billing), estimate, prices)
  {
    ActualWithinEstimate(usage, a.price, inputTokens, outputTokens, prices);
    hide EstimateBudgetCost, CalculateCost;
  }

  /**
   * What keeps the charge for an answer within the estimate: a report inside the prepared bounds, or, when a good answer
   * reports nothing and its tokens are guessed, at most four bytes for each prepared output token.
   */
  predicate AnswerCovered(c: Candidate, answer: Answer, call: Call, inputTokens: nat, outputTokens: nat) {
    answer.Response? ==>
      && (answer.report.Reported? ==> Within(Normalised(answer.report), inputTokens, outputTokens))
      && (IsOk(answer.status) && !call.streaming && !c.gemini && !answer.report.Reported? ==>
            answer.bodyBytes <= 4 * outputTokens)
  }

  lemma PlainUsageWithin(c: Candidate, answer: Answer, call: Call, inputTokens: nat, outputTokens: nat)
    requires answer.Response? && IsOk(answer.status) && !call.streaming
    requires AnswerCovered(c, answer, call, inputTokens, outputTokens) && WellPrepared(call.preparedBytes, inputTokens, outputTokens)
    ensures Within(PlainUsage(c, answer, call), inputTokens, outputTokens)
  {
  }

  lemma AttemptWithinEstimate(
      c: Candidate, answer: Answer, call: Call, inputTokens: nat, outputTokens: nat, prices: seq<Price>, estimate: Cny)
    requires c.price in prices && AnswerCovered(c, answer, call, inputTokens, outputTokens)
    requires WellPrepared(call.preparedBytes, inputTokens, outputTokens)
    requires EstimateBudgetCost(inputTokens, outputTokens, prices) == Some(estimate)
    ensures WithinEstimate(AttemptFor(c, answer, call), estimate, prices)
  {
    hide EstimateBudgetCost, CalculateCost, PlainUsage;
    if answer.Response? {
      var received := Begun(c).(status := answer.status);
      if !IsOk(answer.status) {
        assert Within(Normalised(answer.report), inputTokens, outputTokens);
        BilledWithinEstimate(received, Normalised(answer.report), UNKNOWN, inputTokens, outputTokens, prices, estimate);
        BilledWithinEstimate(received, Normalised(answer.report), CONFIRMED, inputTokens, outputTokens, prices, estimate);
      } else if !call.streaming {
        var usage := PlainUsage(c, answer, call);
        PlainUsageWithin(c, answer, call, inputTokens, outputTokens);
        BilledWithinEstimate(received, usage, CONFIRMED, inputTokens, outputTokens, prices, estimate);
        BilledWithinEstimate(received, usage, ESTIMATED, inputTokens, outputTokens, prices, estimate);
      }
    }
  }

  /**
   * An unreported good answer is charged within the estimate at every price list exactly while it has at most four bytes
   * for each prepared output token.
   */
  lemma UnreportedCoveredExactly(c: Candidate, answer: Answer, call: Call, inputTokens: nat, outputTokens: nat)
    requires answer.Response? && !answer.report.Reported? && !c.gemini && WellPrepared(call.preparedBytes, inputTokens, outputTokens)
    ensures CoveredAtEveryPrice(PlainUsage(c, answer, call), inputTokens, outputTokens) <==> answer.bodyBytes <= 4 * outputTokens
    ensures answer.bodyBytes <= 4 * outputTokens <==> Quarter(answer.bodyBytes) <= outputTokens
  {
    GuessCoveredExactly(CeilDiv(call.preparedBytes, 4), answer.bodyBytes, inputTokens, outputTokens);
  }

  predicate AllCovered(candidates: seq<Candidate>, answers: nat -> Answer, call: Call, inputTokens: nat, outputTokens: nat) {
    forall k :: 0 <= k < |Schedule(candidates)| ==>
      AnswerCovered(Schedule(candidates)[k], answers(k), call, inputTokens, outputTokens)
  }

  /** Whatever was tried of the schedule, every attempt is within the estimate when every answer is covered. */
  lemma TriedWithinEstimate(candidates: seq<Candidate>, schedule: seq<Candidate>, answers: nat -> Answer, call: Call,
                            inputTokens: nat, outputTokens: nat, estimate: Cny)
    requires schedule <= Schedule(candidates)
    requires AllCovered(candidates, answers, call, inputTokens, outputTokens)
    requires WellPrepared(call.preparedBytes, inputTokens, outputTokens)
    requires EstimateBudgetCost(inputTokens, outputTokens, Prices(candidates)) == Some(estimate)
    ensures forall a :: a in Tried(schedule, answers, call) ==> WithinEstimate(a, estimate, Prices(candidates))
  {
    hide EstimateBudgetCost, AttemptFor, WithinEstimate, AnswerCovered, WellPrepared;
    forall k | 0 <= k < |schedule| ensures WithinEstimate(Tried(schedule, answers, call)[k], estimate, Prices(candidates)) {
      assert schedule[k] == Schedule(candidates)[k];
      ScheduleMembers(candidates, k);
      PriceIsListed(candidates, schedule[k]);
      AttemptWithinEstimate(schedule[k], answers(k), call, inputTokens, outputTokens, Prices(candidates), estimate);
    }
  }

  lemma PriceIsListed(candidates: seq<Candidate>, c: Candidate)
    requires c in candidates
    ensures c.price in Prices(candidates)
  {
    var i :| 0 <= i < |candidates| && candidates[i] == c;
    assert Prices(candidates)[i] == c.price;
  }

  // ----- the last attempt

  /** What the final usage report makes of the last attempt of a successful response. */
  function Finished(c: Candidate, a: Attempt, usage: Usage, interrupted: bool): Attempt {
    if !IsOk(a.status) then a
    else Billed(a.(price := c.price), usage,
                if interrupted || usage.unpricedTokens > 0 then UNKNOWN else if usage.upstream then CONFIRMED else ESTIMATED)
  }

  /**
   * What a finished response costs: the charge for its final usage at its candidate's price, confirmed when an upstream
   * reported it and estimated when not, and unknown when it was interrupted or counts tokens without a price.
   */
  lemma FinishedMeans(c: Candidate, a: Attempt, usage: Usage, interrupted: bool)
    ensures var finished := Finished(c, a, usage, interrupted);
            if 200 <= a.status < 300 then
              && finished.cost == CalculateCost(usage, c.price) && finished.usage == Some(usage) && finished.price == c.price
              && (finished.billing.CONFIRMED? <==> !interrupted && usage.unpricedTokens == 0 && usage.upstream)
              && (finished.billing.ESTIMATED? <==> !interrupted && usage.unpricedTokens == 0 && !usage.upstream)
              && (finished.billing.UNKNOWN? <==> interrupted || usage.unpricedTokens > 0)
              && finished.channelId == a.channelId && finished.keyId == a.keyId && finished.status == a.status
            else finished == a
  {
    hide CalculateCost;
  }

  function WithLast(attempts: seq<Attempt>, a: Attempt): seq<Attempt>
    requires attempts != []
  {
    attempts[|attempts| - 1 := a]
  }

  lemma LastCostsNoHold(estimate: Cny, attempts: seq<Attempt>, a: Attempt)
    requires attempts != []
    ensures OnHold(estimate, WithLast(attempts, a)) == OnHold(estimate, attempts)
  {
    assert WithLast(attempts, a)[..|attempts| - 1] == attempts[..|attempts| - 1];
  }

  lemma FinishedWithinEstimate(c: Candidate, a: Attempt, usage: Usage, interrupted: bool,
                               inputTokens: nat, outputTokens: nat, prices: seq<Price>, estimate: Cny)
    requires c.price in prices && WithinEstimate(a, estimate, prices)
    requires interrupted || Within(usage, inputTokens, outputTokens)
    requires EstimateBudgetCost(inputTokens, outputTokens, prices) == Some(estimate)
    ensures WithinEstimate(Finished(c, a, usage, interrupted), estimate, prices)
  {
    if !interrupted {
      hide EstimateBudgetCost, CalculateCost, WithinEstimate;
      var priced := a.(price := c.price);
      BilledWithinEstimate(priced, usage, UNKNOWN, inputTokens, outputTokens, prices, estimate);
      BilledWithinEstimate(priced, usage, CONFIRMED, inputTokens, outputTokens, prices, estimate);
      BilledWithinEstimate(priced, usage, ESTIMATED, inputTokens, outputTokens, prices, estimate);
    }
  }

  // ----- the record of a charge

  /** The route rows of a request's log: an attempt of unknown cost has none. */
  function RouteCosts(attempts: seq<Attempt>): seq<Option<Cny>> {
    seq(|attempts|, i requires 0 <= i < |attempts| => if attempts[i].billing.UNKNOWN? then None else Some(attempts[i].cost))
  }

  function Counted(usage: Option<Usage>): Usage {
    if usage.Some? then usage.value else NO_USAGE
  }

  function TokensIn(attempts: seq<Attempt>): nat {
    if attempts == [] then 0
    else TokensIn(attempts[..|attempts| - 1]) + Counted(attempts[|attempts| - 1].usage).inputTokens
  }

  function TokensOut(attempts: seq<Attempt>): nat {
    if attempts == [] then 0
    else TokensOut(attempts[..|attempts| - 1]) + Counted(attempts[|attempts| - 1].usage).outputTokens
  }
}
