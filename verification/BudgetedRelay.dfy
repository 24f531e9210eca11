/** A budgeted request from beginning to end: what comes in, what goes into the ledger, and what it is charged. */
module BudgetedRelay {
  import opened Money
  import opened BudgetPreparation
  import opened LedgerSpec
  import opened Relay
  import opened RequestSafety
  import opened GroupRequest
  import opened RequestCharge
  import S = LedgerSafety
  import L = Ledger

  /**
   * A budgeted request. Afterwards the ledger is what the recorded history makes of it; the history is safe; a
   * committed request is charged exactly what is due for its answers, and one that was never sent is not charged.
   */
  method RelayBudgetedRequest(ledger: L.GroupLedger, incoming: Incoming, world: World)
    returns (ending: Ending, attempts: seq<Attempt>, result: Relayed, ghost trace: seq<Event>, ghost schedule: seq<Candidate>)
    requires ledger.Valid() && incoming.requestId !in ledger.Abs().entries
    requires forall n: nat :: AllForeign(world.others(n), incoming.requestId)
    modifies ledger
    ensures ledger.Valid() && ledger.Abs() == Replay(old(ledger.Abs()), trace) && Fetches(trace) == |schedule|
    ensures RequestOf(incoming).None? ==> ending.NotReserved? && trace == []
    ensures RequestOf(incoming).Some? ==>
              var request := RequestOf(incoming).value;
              var estimate := EstimateBudgetCost(request.inputTokens, request.outputTokens, Prices(request.candidates));
              ending.NotReserved? <==> estimate.None? || !Reserves(old(ledger.Abs()), request, world, 0, estimate.value)
    ensures RequestOf(incoming).Some? ==>
              var request := RequestOf(incoming).value;
              && HasBounds(request)
              && Safe(old(ledger.Abs()), trace, RefOf(request), Covered(request, world))
              && (ending.Committed? || ending.Pending? ==>
                    Explains(request, world, schedule, result) && attempts == Final(request, world, schedule, result))
              && (ending.Committed? ==> Charged(ledger.Abs(), Commit(request, RefOf(request), attempts)))
              && (ending.Pending? ==>
                    Uncharged(ledger.Abs(), request.requestId)
                    || Charged(ledger.Abs(), Commit(request, RefOf(request), attempts)))
    ensures RequestOf(incoming).Some? && ending.Committed? ==>
              IsDue(ledger.Abs(), incoming.requestId, RequestOf(incoming).value, world, schedule, result)
    ensures RequestOf(incoming).Some? && ending.Pending? ==>
              Uncharged(ledger.Abs(), incoming.requestId)
              || IsDue(ledger.Abs(), incoming.requestId, RequestOf(incoming).value, world, schedule, result)
    ensures ending.NotReserved? || ending.Released? ==> schedule == [] && Uncharged(ledger.Abs(), incoming.requestId)
    ensures RequestOf(incoming).Some? && Covered(RequestOf(incoming).value, world) ==>
              forall p :: S.TotalOverrun(old(ledger.Abs()), AllCalls(trace), p) == OthersOverrun(old(ledger.Abs()), trace, p)
  {
    attempts, trace, schedule, result := [], [], [], Interrupted;
    var prepared := RequestOf(incoming);
    if prepared.None? { return NotReserved, attempts, result, trace, schedule; }
    PreparedBoundsHold(incoming.protocol, incoming.body, incoming.contextSize);
    hide Prepare, Bytes, WellPrepared, Covered, Reserves, EstimateBudgetCost, Safe, IsDue, Explains, Final, Commit,
         Charged, S.TotalOverrun, OthersOverrun;
    var request := prepared.value;
    ending, attempts, result, trace, schedule := RelayPrepared(ledger, request, world);
    if ending.Committed? || (ending.Pending? && Charged(ledger.Abs(), Commit(request, RefOf(request), attempts))) {
      EntryForItsAnswers(ledger.Abs(), request, RefOf(request), world, schedule, result);
    }
    if Covered(request, world) {
      forall p ensures S.TotalOverrun(old(ledger.Abs()), AllCalls(trace), p) == OthersOverrun(old(ledger.Abs()), trace, p) {
        RequestNeverOverruns(old(ledger.Abs()), trace, RefOf(request), p);
      }
    }
  }
}
