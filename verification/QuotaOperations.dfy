/** What each quota script asks and does, in terms of what the markers already add up to. */
module QuotaOperations {
  import opened Money
  import opened Sums
  import opened QuotaSpec

  // ----- reserving

  /**
   * A new reservation is let through exactly when each of its limits that is set still has room: a request more in its
   * second and in its slot, and its estimate more in its minute, its day and its month.
   */
  lemma ReservedExactly(s: Mirror, r: Reservation, now: int)
    requires r.markerKey !in s.markers
    ensures var l, k, e := r.limits, r.keys, r.estimate;
            ReserveStep(s, r, now).outcome.Ok? <==>
              && (l.qps == 0 || Total(s, SecondRequests(k.second)) + 1 <= l.qps)
              && (l.tpm == 0 || Total(s, MinuteTokens(k.minute)) + e.tokens <= l.tpm)
              && (l.concurrency == 0 || Holding(s, k.slot) + 1 <= l.concurrency)
              && (l.dailyTokens == 0 || Total(s, DailyTokens(k.day)) + e.tokens <= l.dailyTokens)
              && (l.monthlyTokens == 0 || Total(s, MonthlyTokens(k.month)) + e.tokens <= l.monthlyTokens)
              && (l.dailyCost == 0 || Total(s, DailyCost(k.day)) + e.cost <= l.dailyCost)
              && (l.monthlyCost == 0 || Total(s, MonthlyCost(k.month)) + e.cost <= l.monthlyCost)
    ensures !ReserveStep(s, r, now).outcome.Ok? ==> ReserveStep(s, r, now).mirror == s && ReserveStep(s, r, now).outcome.Refused?
  {
    hide Total, Holding;
  }

  /** The error names a limit that has no room. */
  lemma RefusalNamesALimit(s: Mirror, r: Reservation, now: int)
    requires r.markerKey !in s.markers && ReserveStep(s, r, now).outcome.Refused?
    ensures var l, k, e := r.limits, r.keys, r.estimate;
            match ReserveStep(s, r, now).outcome.error
            case QpsExceeded => 0 < l.qps < Total(s, SecondRequests(k.second)) + 1
            case TpmExceeded => 0 < l.tpm < Total(s, MinuteTokens(k.minute)) + e.tokens
            case ConcurrencyExceeded => 0 < l.concurrency < Holding(s, k.slot) + 1
            case DailyTokenQuota => 0 < l.dailyTokens < Total(s, DailyTokens(k.day)) + e.tokens
            case MonthlyTokenQuota => 0 < l.monthlyTokens < Total(s, MonthlyTokens(k.month)) + e.tokens
            case DailyCostQuota => 0 < l.dailyCost < Total(s, DailyCost(k.day)) + e.cost
            case MonthlyCostQuota => 0 < l.monthlyCost < Total(s, MonthlyCost(k.month)) + e.cost
            case _ => false
  {
    hide Total, Holding;
  }

  lemma ReserveAgainExactly(s: Mirror, r: Reservation, now: int)
    requires r.markerKey in s.markers
    ensures ReserveStep(s, r, now).outcome.Ok? <==>
              s.markers[r.markerKey].reservation == r && s.markers[r.markerKey].state.RESERVED?
    ensures ReserveStep(s, r, now).mirror == s
    ensures ReserveStep(s, r, now).outcome.Ok? || ReserveStep(s, r, now).outcome == Refused(ReservationConflict)
  {
    hide Verify;
  }

  /** What a reservation adds to a window. */
  function Added(r: Reservation, w: Window): nat {
    match w
    case DailyTokens(day) => if day == r.keys.day then r.estimate.tokens else 0
    case MonthlyTokens(month) => if month == r.keys.month then r.estimate.tokens else 0
    case DailyCost(day) => if day == r.keys.day then r.estimate.cost else 0
    case MonthlyCost(month) => if month == r.keys.month then r.estimate.cost else 0
    case SecondRequests(second) => if second == r.keys.second then 1 else 0
    case MinuteTokens(minute) => if minute == r.keys.minute then r.estimate.tokens else 0
  }

  /** Every window moves by what the reservation brings to it, its own marker is reserved, and its slot holds one more. */
  lemma ReserveMoves(s: Mirror, r: Reservation, now: int)
    requires WellFormed(s) && r.markerKey !in s.markers && ReserveStep(s, r, now).outcome.Ok?
    ensures var t := ReserveStep(s, r, now).mirror;
            && (forall w :: Total(t, w) == Total(s, w) + Added(r, w))
            && t.markers.Keys == s.markers.Keys + {r.markerKey} && t.markers == s.markers[r.markerKey := t.markers[r.markerKey]]
            && var m := t.markers[r.markerKey];
               && m.state.RESERVED? && m.reservation == r && m.recoverAfter == now + 120_000 && !m.concurrencyReleased
               && m.corrected.None? && m.corrections == map[] && m.correctionVersion == 0
               && t.generations == s.generations[r.keys.slot := m.generation]
               && m.generation == if r.keys.slot in s.generations then s.generations[r.keys.slot] else r.markerKey
  {
    hide SumOver, Verify, WellFormed;
    var m := ReserveStep(s, r, now).mirror.markers[r.markerKey];
    forall w ensures Total(ReserveStep(s, r, now).mirror, w) == Total(s, w) + Added(r, w) {
      SumWrite(s.markers, Charge(w), r.markerKey, m);
      assert Charge(w)(m) == ChargeTo(w, m);
    }
  }

  /** So an admitted reservation leaves each of its four quotas within its limit. */
  lemma QuotasHold(s: Mirror, r: Reservation, now: int)
    requires WellFormed(s) && r.markerKey !in s.markers && ReserveStep(s, r, now).outcome.Ok?
    ensures var t := ReserveStep(s, r, now).mirror;
            && (r.limits.dailyTokens > 0 ==> Total(t, DailyTokens(r.keys.day)) <= r.limits.dailyTokens)
            && (r.limits.monthlyTokens > 0 ==> Total(t, MonthlyTokens(r.keys.month)) <= r.limits.monthlyTokens)
            && (r.limits.dailyCost > 0 ==> Total(t, DailyCost(r.keys.day)) <= r.limits.dailyCost)
            && (r.limits.monthlyCost > 0 ==> Total(t, MonthlyCost(r.keys.month)) <= r.limits.monthlyCost)
  {
    ReservedExactly(s, r, now);
    ReserveMoves(s, r, now);
    hide ReserveStep, Total, Holding, WellFormed;
  }

  /** A percentage is reached when one of the four quotas that is set is filled that far. */
  lemma ReachedMeans(s: Mirror, r: Reservation, percent: nat)
    ensures var l, k := r.limits, r.keys;
            Reached(s, r, percent) <==>
              || (l.dailyTokens > 0 && 100 * Total(s, DailyTokens(k.day)) >= percent * l.dailyTokens)
              || (l.monthlyTokens > 0 && 100 * Total(s, MonthlyTokens(k.month)) >= percent * l.monthlyTokens)
              || (l.dailyCost > 0 && 100 * Total(s, DailyCost(k.day)) >= percent * l.dailyCost)
              || (l.monthlyCost > 0 && 100 * Total(s, MonthlyCost(k.month)) >= percent * l.monthlyCost)
  {
    hide Total;
  }

  /** A slot lives for ten minutes after a new reservation in it and after a renewal from its own generation. */
  lemma ExpiryMeans(s: Mirror, expiry: map<nat, int>, r: Reservation, now: int)
    requires WellFormed(s)
    ensures ExpiryAfter(s, expiry, Script.Reserve(r, now))
            == if r.markerKey !in s.markers && ReserveStep(s, r, now).outcome.Ok? then expiry[r.keys.slot := now + 600_000] else expiry
    ensures r.markerKey in s.markers && s.markers[r.markerKey].reservation == r ==>
              ExpiryAfter(s, expiry, Script.Renew(r, now))
              == if s.markers[r.markerKey].state.RESERVED? && r.keys.slot in s.generations
                    && s.generations[r.keys.slot] == s.markers[r.markerKey].generation
                 then expiry[r.keys.slot := now + 600_000] else expiry
  {
    hide Verify, WellFormed;
  }

  // ----- settling

  lemma SettledExactly(s: Mirror, r: Reservation, actual: Amounts)
    ensures var reply := SettleStep(s, r, actual);
            && (reply.outcome.Refused? <==>
                  r.markerKey !in s.markers || (s.markers[r.markerKey].state.SETTLED? && s.markers[r.markerKey].actual != actual))
            && (reply.outcome.Refused? ==>
                  reply.mirror == s
                  && reply.outcome.error == if r.markerKey in s.markers then ReservationConflict else ReservationMissing)
            && (!reply.outcome.Refused? && s.markers[r.markerKey].state.SETTLED? ==>
                  reply.mirror == s && (reply.outcome.HardLimitExceeded? <==> s.markers[r.markerKey].exceeded))
  {
    hide Exceeded;
  }

  /** What settling adds to a window beyond the estimate it already counts. */
  function Difference(r: Reservation, actual: Amounts, w: Window): int {
    match w
    case DailyTokens(day) => if day == r.keys.day then actual.tokens - r.estimate.tokens else 0
    case MonthlyTokens(month) => if month == r.keys.month then actual.tokens - r.estimate.tokens else 0
    case DailyCost(day) => if day == r.keys.day then actual.cost - r.estimate.cost else 0
    case MonthlyCost(month) => if month == r.keys.month then actual.cost - r.estimate.cost else 0
    case _ => 0
  }

  predicate FirstSettlement(s: Mirror, r: Reservation) {
    r.markerKey in s.markers && s.markers[r.markerKey].state.RESERVED? && s.markers[r.markerKey].reservation == r
  }

  /** A first settlement moves every window by actual minus estimate and records the amounts. */
  lemma SettleMoves(s: Mirror, r: Reservation, actual: Amounts)
    requires WellFormed(s) && FirstSettlement(s, r)
    ensures var t := SettleStep(s, r, actual).mirror;
            && (forall w :: Total(t, w) == Total(s, w) + Difference(r, actual, w))
            && t.generations == s.generations && r.markerKey in t.markers && t.markers == s.markers[r.markerKey := t.markers[r.markerKey]]
            && var m := t.markers[r.markerKey];
               m.state.SETTLED? && m.actual == actual && m.reservation == r && m.correctionVersion == 0 && m.corrected.None?
  {
    assert MarkerOk(r.markerKey, s.markers[r.markerKey]);
    hide Total, WellFormed, Exceeded, ChargeTo, Difference, SettledMarker;
    var m := s.markers[r.markerKey];
    forall exceeded, w ensures ChargeTo(w, SettledMarker(m, actual, exceeded)) == ChargeTo(w, m) + Difference(r, actual, w) {
      SettledCharge(m, actual, exceeded, w);
    }
    SettledFields(m, actual);
    forall exceeded ensures forall w :: Total(Written(s, SettledMarker(m, actual, exceeded)), w)
                                        == Total(s, w) + ChargeTo(w, SettledMarker(m, actual, exceeded)) - ChargeTo(w, m) {
      WrittenMoves(s, SettledMarker(m, actual, exceeded));
    }
  }

  /** The verdict of a first settlement: one of its four quotas is set and exceeded once the actual amounts are counted. */
  lemma SettlementVerdict(s: Mirror, r: Reservation, actual: Amounts)
    requires WellFormed(s) && FirstSettlement(s, r)
    ensures var reply := SettleStep(s, r, actual);
            var l, t := r.limits, reply.mirror;
            && !reply.outcome.Refused? && r.markerKey in t.markers
            && (reply.outcome.HardLimitExceeded? <==> t.markers[r.markerKey].exceeded)
            && (reply.outcome.HardLimitExceeded? <==>
                  || 0 < l.dailyTokens < Total(t, DailyTokens(r.keys.day))
                  || 0 < l.monthlyTokens < Total(t, MonthlyTokens(r.keys.month))
                  || 0 < l.dailyCost < Total(t, DailyCost(r.keys.day))
                  || 0 < l.monthlyCost < Total(t, MonthlyCost(r.keys.month)))
  {
    assert MarkerOk(r.markerKey, s.markers[r.markerKey]);
    var m := s.markers[r.markerKey];
    var exceeded := Exceeded(Written(s, SettledMarker(m, actual, false)), r);
    VerdictCountsNothing(s, m, actual, exceeded);
    SettledFields(m, actual);
    hide Total, WellFormed, SettledMarker, MarkerOk;
  }

  /** Rewriting a marker moves every window by what it is charged more than before. */
  lemma WrittenMoves(s: Mirror, m: Marker)
    requires m.reservation.markerKey in s.markers
    ensures forall w :: Total(Written(s, m), w) == Total(s, w) + ChargeTo(w, m) - ChargeTo(w, s.markers[m.reservation.markerKey])
  {
    hide SumOver, ChargeTo;
    var was := s.markers[m.reservation.markerKey];
    forall w ensures Total(Written(s, m), w) == Total(s, w) + ChargeTo(w, m) - ChargeTo(w, was) {
      SumWrite(s.markers, Charge(w), m.reservation.markerKey, m);
      assert Charge(w)(m) == ChargeTo(w, m) && Charge(w)(was) == ChargeTo(w, was);
    }
  }

  lemma SettledCharge(m: Marker, actual: Amounts, exceeded: bool, w: Window)
    requires m.state.RESERVED? && m.corrected.None?
    ensures ChargeTo(w, SettledMarker(m, actual, exceeded)) == ChargeTo(w, m) + Difference(m.reservation, actual, w)
  {
  }

  lemma VerdictCountsNothing(s: Mirror, m: Marker, actual: Amounts, exceeded: bool)
    requires m.reservation.markerKey in s.markers && s.markers[m.reservation.markerKey] == m && m.state.RESERVED? && m.corrected.None?
    ensures forall w :: Total(Written(s, SettledMarker(m, actual, exceeded)), w)
                        == Total(Written(s, SettledMarker(m, actual, false)), w)
  {
    hide Total, Written, ChargeTo, SettledMarker;
    SettledFields(m, actual);
    WrittenMoves(s, SettledMarker(m, actual, exceeded));
    WrittenMoves(s, SettledMarker(m, actual, false));
    forall w ensures ChargeTo(w, SettledMarker(m, actual, exceeded)) == ChargeTo(w, SettledMarker(m, actual, false)) {
      SettledCharge(m, actual, exceeded, w);
      SettledCharge(m, actual, false, w);
    }
  }

  lemma NewsMoves(s: Mirror, m: Marker, cost: nat, operationId: nat, version: nat)
    requires m.reservation.markerKey in s.markers && s.markers[m.reservation.markerKey] == m && m.state.SETTLED?
    ensures var r := m.reservation;
            var after := m.(corrected := Some(cost), corrections := m.corrections[operationId := cost], correctionVersion := version);
            var inForce := if m.corrected.Some? then m.corrected.value else m.actual.cost;
            forall w :: Total(Written(s, after), w) == Total(s, w) + (if w == DailyCost(r.keys.day) || w == MonthlyCost(r.keys.month)
                                                                      then cost - inForce else 0)
  {
    hide Total, Written;
    WrittenMoves(s, m.(corrected := Some(cost), corrections := m.corrections[operationId := cost], correctionVersion := version));
  }

  lemma SettledFields(m: Marker, actual: Amounts)
    ensures forall exceeded ::
              var after := SettledMarker(m, actual, exceeded);
              after.state.SETTLED? && after.actual == actual && after.exceeded == exceeded && after.reservation == m.reservation
              && after.correctionVersion == m.correctionVersion && after.corrected == m.corrected
  {
  }

  // ----- the other scripts

  lemma RenewedExactly(s: Mirror, r: Reservation, now: int)
    ensures var reply := RenewStep(s, r, now);
            && (reply.outcome.Ok? <==> r.markerKey in s.markers && s.markers[r.markerKey].state.RESERVED?)
            && (!reply.outcome.Ok? ==> reply == Reply(s, Refused(ReservationInactive)))
    ensures WellFormed(s) && RenewStep(s, r, now).outcome.Ok? ==>
              RenewStep(s, r, now).mirror
              == s.(markers := s.markers[r.markerKey := s.markers[r.markerKey].(recoverAfter := now + 120_000)])
  {
    if r.markerKey in s.markers && WellFormed(s) { assert MarkerOk(r.markerKey, s.markers[r.markerKey]); }
  }

  lemma ReleasedExactly(s: Mirror, r: Reservation)
    ensures ReleaseConcurrencyStep(s, r).outcome.Ok?
    ensures WellFormed(s) ==>
              ReleaseConcurrencyStep(s, r).mirror
              == if r.markerKey in s.markers && s.markers[r.markerKey].state.RESERVED?
                 then s.(markers := s.markers[r.markerKey := s.markers[r.markerKey].(concurrencyReleased := true)]) else s
  {
    if r.markerKey in s.markers && WellFormed(s) {
      assert MarkerOk(r.markerKey, s.markers[r.markerKey]);
      assert s.markers[r.markerKey := s.markers[r.markerKey]] == s.markers;
    }
  }

  /** A correction is refused by a marker that is missing, not settled or remembers another cost for the operation. */
  lemma CorrectedExactly(s: Mirror, r: Reservation, cost: nat, operationId: nat, version: nat)
    ensures var reply := CorrectStep(s, r, cost, operationId, version);
            reply.outcome.Ok? <==>
              && r.markerKey in s.markers
              && var m := s.markers[r.markerKey];
                 m.state.SETTLED?
                 && (version < m.correctionVersion || operationId !in m.corrections || m.corrections[operationId] == cost)
    ensures !CorrectStep(s, r, cost, operationId, version).outcome.Ok? ==>
              CorrectStep(s, r, cost, operationId, version) == Reply(s, Refused(CorrectionConflict))
  {
  }

  /** A correction that is news moves both cost windows from the cost in force to the corrected one. */
  lemma CorrectMoves(s: Mirror, r: Reservation, cost: nat, operationId: nat, version: nat)
    requires WellFormed(s) && CorrectStep(s, r, cost, operationId, version).outcome.Ok? && s.markers[r.markerKey].reservation == r
    ensures var t, m := CorrectStep(s, r, cost, operationId, version).mirror, s.markers[r.markerKey];
            var news := version >= m.correctionVersion && operationId !in m.corrections;
            var inForce := if m.corrected.Some? then m.corrected.value else m.actual.cost;
            && (!news ==> t == s)
            && (news ==>
                  && r.markerKey in t.markers && t.markers[r.markerKey].corrected == Some(cost)
                  && t.markers[r.markerKey].correctionVersion == version
                  && t.markers[r.markerKey].corrections == m.corrections[operationId := cost]
                  && t.markers[r.markerKey].actual == m.actual
                  && (forall w :: Total(t, w) == Total(s, w) + (if w == DailyCost(r.keys.day) || w == MonthlyCost(r.keys.month)
                                                                then cost - inForce else 0)))
  {
    var m := s.markers[r.markerKey];
    assert MarkerOk(r.markerKey, m);
    assert Written(s, m) == s by { assert s.markers[r.markerKey := m] == s.markers; }
    if version >= m.correctionVersion && operationId !in m.corrections { NewsMoves(s, m, cost, operationId, version); }
    hide Total, WellFormed, MarkerOk, Written;
  }
}
