/** The quota mirror as the scripts keep it: one counter per window and one per concurrency slot, moved by increments. */
module QuotaStore {
  import opened Money
  import opened Sums
  import opened QuotaSpec

  class Store {
    var markers: map<MarkerKey, Marker>
    var counters: map<Window, int>
    var slots: map<nat, int>
    var generations: map<nat, MarkerKey>
    var expiry: map<nat, int>

    ghost function Abs(): Mirror
      reads this
    {
      Mirror(markers, generations)
    }

    function Counter(w: Window): int
      reads this
    {
      Lookup(counters, w)
    }

    function Concurrent(slot: nat): int
      reads this
    {
      if slot in slots then slots[slot] else 0
    }

    /** Every counter is the total of its markers, every live slot the number of markers holding it and due to expire. */
    ghost predicate Valid()
      reads this
    {
      WellFormed(Abs()) && Tracks(Abs(), counters) && Present(Abs(), counters) && Occupied(Abs(), slots)
      && expiry.Keys == slots.Keys
    }

    constructor ()
      ensures Valid() && Abs() == Mirror(map[], map[])
    {
      markers, counters, slots, generations, expiry := map[], map[], map[], map[], map[];
    }

    /** INCRBY on the four windows of a reservation. */
    method AddToWindows(keys: Keys, tokens: int, cost: int)
      modifies this`counters
      ensures counters == Shifted(old(counters), keys, tokens, cost)
    {
      counters := counters[DailyTokens(keys.day) := Counter(DailyTokens(keys.day)) + tokens];
      counters := counters[MonthlyTokens(keys.month) := Counter(MonthlyTokens(keys.month)) + tokens];
      counters := counters[DailyCost(keys.day) := Counter(DailyCost(keys.day)) + cost];
      counters := counters[MonthlyCost(keys.month) := Counter(MonthlyCost(keys.month)) + cost];
    }

    /** INCRBY on those of the four windows that still exist; all of them do while their markers do. */
    method AddToLiveWindows(keys: Keys, tokens: int, cost: int)
      requires forall w :: w in Windows(keys) ==> w in counters
      modifies this`counters
      ensures counters == Shifted(old(counters), keys, tokens, cost)
    {
      if DailyTokens(keys.day) in counters {
        counters := counters[DailyTokens(keys.day) := counters[DailyTokens(keys.day)] + tokens];
      }
      if MonthlyTokens(keys.month) in counters {
        counters := counters[MonthlyTokens(keys.month) := counters[MonthlyTokens(keys.month)] + tokens];
      }
      AddToLiveCosts(keys, cost);
    }

    method AddToLiveCosts(keys: Keys, cost: int)
      requires DailyCost(keys.day) in counters && MonthlyCost(keys.month) in counters
      modifies this`counters
      ensures counters == old(counters)[DailyCost(keys.day) := old(counters)[DailyCost(keys.day)] + cost]
                                       [MonthlyCost(keys.month) := old(counters)[MonthlyCost(keys.month)] + cost]
    {
      if DailyCost(keys.day) in counters {
        counters := counters[DailyCost(keys.day) := counters[DailyCost(keys.day)] + cost];
      }
      if MonthlyCost(keys.month) in counters {
        counters := counters[MonthlyCost(keys.month) := counters[MonthlyCost(keys.month)] + cost];
      }
    }

    /** The guarded decrement shared by settlement and by early release of the slot. */
    method LeaveSlot(marker: Marker)
      requires slots.Keys == generations.Keys
      modifies this`slots
      ensures slots == Left(old(slots), generations, marker)
    {
      var slot := marker.reservation.keys.slot;
      if Concurrent(slot) > 0 && !marker.concurrencyReleased && marker.generation == generations[slot] {
        slots := slots[slot := slots[slot] - 1];
      }
    }

    /** Counts the request and its estimated tokens in its second and its minute. */
    method AddToRates(r: Reservation)
      modifies this`counters
      ensures counters == Rated(old(counters), r)
    {
      counters := counters[SecondRequests(r.keys.second) := Counter(SecondRequests(r.keys.second)) + 1];
      counters := counters[MinuteTokens(r.keys.minute) := Counter(MinuteTokens(r.keys.minute)) + r.estimate.tokens];
    }

    /** The counter has no room for so much more. */
    predicate Full(limit: nat, w: Window, more: nat)
      reads this
    {
      limit > 0 && Counter(w) + more > limit
    }

    lemma FullMeansOver(keys: Keys)
      requires Valid()
      ensures forall limit: nat, w, more: nat :: Full(limit, w, more) == Over(Abs(), limit, w, more)
      ensures Concurrent(keys.slot) == Holding(Abs(), keys.slot)
    {
      hide WellFormed, Present, Total, Holding;
      Agreement(Abs(), counters, slots, keys);
    }

    method Refusal(r: Reservation) returns (refusal: Option<QuotaError>)
      requires Valid()
      ensures refusal == Verify(Abs(), r)
    {
      hide Over, Full, Total, Holding, Valid;
      FullMeansOver(r.keys);
      var limits := r.limits;
      if Full(limits.qps, SecondRequests(r.keys.second), 1) { return Some(QpsExceeded); }
      if Full(limits.tpm, MinuteTokens(r.keys.minute), r.estimate.tokens) { return Some(TpmExceeded); }
      if limits.concurrency > 0 && Concurrent(r.keys.slot) + 1 > limits.concurrency { return Some(ConcurrencyExceeded); }
      if Full(limits.dailyTokens, DailyTokens(r.keys.day), r.estimate.tokens) { return Some(DailyTokenQuota); }
      if Full(limits.monthlyTokens, MonthlyTokens(r.keys.month), r.estimate.tokens) { return Some(MonthlyTokenQuota); }
      if Full(limits.dailyCost, DailyCost(r.keys.day), r.estimate.cost) { return Some(DailyCostQuota); }
      if Full(limits.monthlyCost, MonthlyCost(r.keys.month), r.estimate.cost) { return Some(MonthlyCostQuota); }
      return None;
    }

    /** The thresholds that the reservation will cross, from what the counters hold before it is counted. */
    method Crossed(r: Reservation) returns (alerts: seq<nat>)
      ensures Increasing(alerts)
      ensures forall t :: t in alerts <==>
                t in THRESHOLDS && !ReachedBy(counters, r, 0, 0, t) && ReachedBy(counters, r, r.estimate.tokens, r.estimate.cost, t)
    {
      hide ReachedBy;
      alerts := [];
      var i := 0;
      while i < |THRESHOLDS|
        invariant 0 <= i <= |THRESHOLDS| && Increasing(alerts)
        invariant i < |THRESHOLDS| ==> forall t :: t in alerts ==> t < THRESHOLDS[i]
        invariant forall t :: t in alerts <==>
                    t in THRESHOLDS[..i] && !ReachedBy(counters, r, 0, 0, t)
                    && ReachedBy(counters, r, r.estimate.tokens, r.estimate.cost, t)
      {
        var threshold := THRESHOLDS[i];
        assert THRESHOLDS[..i + 1] == THRESHOLDS[..i] + [threshold];
        if !ReachedBy(counters, r, 0, 0, threshold) && ReachedBy(counters, r, r.estimate.tokens, r.estimate.cost, threshold) {
          StillIncreasing(alerts, threshold);
          alerts := alerts + [threshold];
        }
        i := i + 1;
      }
      assert THRESHOLDS[..i] == THRESHOLDS;
    }

    method Reserve(r: Reservation, now: int) returns (outcome: Outcome, alerts: seq<nat>)
      requires Valid()
      modifies this
      ensures Valid()
      ensures Reply(Abs(), outcome) == ReserveStep(old(Abs()), r, now)
      ensures expiry == ExpiryAfter(old(Abs()), old(expiry), Script.Reserve(r, now))
      ensures Increasing(alerts)
      ensures forall t :: t in alerts <==> (t == 50 || t == 80 || t == 100) && !Reached(old(Abs()), r, t) && Reached(Abs(), r, t)
    {
      hide Tracks, Present, Occupied, WellFormed, Verify, Reached, ReachedBy, Rated, Shifted;
      alerts := [];
      if r.markerKey in markers {
        var known := markers[r.markerKey];
        if known.reservation != r || !known.state.RESERVED? { outcome := Refused(ReservationConflict); return; }
        outcome := Ok;
        return;
      }
      var refusal := Refusal(r);
      if refusal.Some? { outcome := Refused(refusal.value); return; }
      ghost var before, was := Abs(), slots;
      Shape(before, counters, slots, r.markerKey);
      alerts := Crossed(r);
      AddToWindows(r.keys, r.estimate.tokens, r.estimate.cost);
      AddToRates(r);
      if r.keys.slot !in slots { generations := generations[r.keys.slot := r.markerKey]; }
      var marker := FreshMarker(r, generations[r.keys.slot], now + RECOVERY_DELAY);
      markers := markers[r.markerKey := marker];
      slots := slots[r.keys.slot := Concurrent(r.keys.slot) + 1];
      expiry := expiry[r.keys.slot := now + SLOT_LIFETIME];
      outcome := Ok;
      ReserveKeepsWellFormed(before, r, now);
      TracksNew(before, old(counters), marker, generations);
      OccupiedNew(before, was, marker);
      CrossedAgrees(before, Abs(), old(counters), r);
      assert before.generations[r.keys.slot := marker.generation] == generations;
    }

    method Settle(r: Reservation, actual: Amounts) returns (outcome: Outcome)
      requires Valid() && Genuine(Abs(), Script.Settle(r, actual))
      modifies this
      ensures Valid()
      ensures Reply(Abs(), outcome) == SettleStep(old(Abs()), r, actual) && expiry == old(expiry)
    {
      hide Tracks, Present, Occupied, WellFormed, ChargeTo, Shifted;
      if r.markerKey !in markers { return Refused(ReservationMissing); }
      var marker := markers[r.markerKey];
      if marker.state.SETTLED? {
        if marker.actual != actual { return Refused(ReservationConflict); }
        return Verdict(marker.exceeded);
      }
      ghost var before, was := Abs(), slots;
      Shape(before, counters, slots, r.markerKey);
      AddToLiveWindows(r.keys, actual.tokens - r.estimate.tokens, actual.cost - r.estimate.cost);
      ShiftedBySettling(old(counters), marker, actual);
      LeaveSlot(marker);
      ghost var settled := SettledMarker(marker, actual, false);
      TracksRewrite(before, old(counters), settled, counters);
      var exceeded := ExceededBy(counters, r);
      ExceededAgreement(Written(before, settled), counters, r);
      var final := SettledMarker(marker, actual, exceeded);
      markers := markers[r.markerKey := final];
      outcome := Verdict(exceeded);
      WrittenKeepsWellFormed(before, final);
      TracksRewrite(before, old(counters), final, counters);
      OccupiedLeave(before, was, final);
    }

    method ReleaseConcurrency(r: Reservation) returns (outcome: Outcome)
      requires Valid() && Genuine(Abs(), Script.ReleaseConcurrency(r))
      modifies this
      ensures Valid()
      ensures Reply(Abs(), outcome) == ReleaseConcurrencyStep(old(Abs()), r) && expiry == old(expiry)
    {
      hide Tracks, Present, Occupied, WellFormed;
      if r.markerKey !in markers { return Ok; }
      var marker := markers[r.markerKey];
      if !marker.state.RESERVED? || marker.concurrencyReleased { return Ok; }
      ghost var before, was := Abs(), slots;
      Shape(before, counters, slots, r.markerKey);
      LeaveSlot(marker);
      var released := marker.(concurrencyReleased := true);
      markers := markers[r.markerKey := released];
      outcome := Ok;
      WrittenKeepsWellFormed(before, released);
      TracksRewrite(before, counters, released, counters);
      OccupiedLeave(before, was, released);
    }

    method Renew(r: Reservation, now: int) returns (outcome: Outcome)
      requires Valid() && Genuine(Abs(), Script.Renew(r, now))
      modifies this
      ensures Valid()
      ensures Reply(Abs(), outcome) == RenewStep(old(Abs()), r, now)
      ensures expiry == ExpiryAfter(old(Abs()), old(expiry), Script.Renew(r, now))
    {
      hide Tracks, Present, Occupied, WellFormed;
      if r.markerKey !in markers || !markers[r.markerKey].state.RESERVED? { return Refused(ReservationInactive); }
      ghost var before := Abs();
      Shape(before, counters, slots, r.markerKey);
      var marker := markers[r.markerKey].(recoverAfter := now + RECOVERY_DELAY);
      markers := markers[r.markerKey := marker];
      if r.keys.slot in generations && marker.generation == generations[r.keys.slot] {
        expiry := expiry[r.keys.slot := now + SLOT_LIFETIME];
      }
      outcome := Ok;
      WrittenKeepsWellFormed(before, marker);
      TracksRewrite(before, counters, marker, counters);
      OccupiedStay(before, slots, marker);
    }

    method CorrectCost(r: Reservation, cost: nat, operationId: nat, version: nat) returns (outcome: Outcome)
      requires Valid() && Genuine(Abs(), Script.Correct(r, cost, operationId, version))
      modifies this
      ensures Valid()
      ensures Reply(Abs(), outcome) == CorrectStep(old(Abs()), r, cost, operationId, version) && expiry == old(expiry)
    {
      hide Tracks, Present, Occupied, WellFormed;
      if r.markerKey !in markers || !markers[r.markerKey].state.SETTLED? { return Refused(CorrectionConflict); }
      var marker := markers[r.markerKey];
      if version < marker.correctionVersion { assert Written(Abs(), marker) == Abs(); return Ok; }
      if operationId in marker.corrections {
        if marker.corrections[operationId] != cost { return Refused(CorrectionConflict); }
        assert Written(Abs(), marker) == Abs();
        return Ok;
      }
      ghost var before := Abs();
      Shape(before, counters, slots, r.markerKey);
      var delta := cost - (if marker.corrected.Some? then marker.corrected.value else marker.actual.cost);
      AddToLiveCosts(r.keys, delta);
      marker := marker.(corrected := Some(cost), corrections := marker.corrections[operationId := cost],
                        correctionVersion := version);
      markers := markers[r.markerKey := marker];
      outcome := Ok;
      WrittenKeepsWellFormed(before, marker);
      TracksRewrite(before, old(counters), marker, counters);
      OccupiedStay(before, slots, marker);
    }

    method ExpireSlot(slot: nat)
      requires Valid()
      modifies this
      ensures Valid()
      ensures Abs() == ExpireStep(old(Abs()), slot).mirror && expiry == old(expiry) - {slot}
    {
      hide Tracks, Present, Occupied, WellFormed;
      ghost var before := Abs();
      slots := slots - {slot};
      generations := generations - {slot};
      expiry := expiry - {slot};
      TracksExpiry(before, slot, counters);
      OccupiedExpiry(before, slot, old(slots));
      ExpireKeepsWellFormed(before, slot);
    }

    /** Any script in any order: every counter and every live slot stays equal to what its markers say. */
    method Eval(script: Script) returns (outcome: Outcome)
      requires Valid() && Genuine(Abs(), script)
      modifies this
      ensures Valid()
      ensures Reply(Abs(), outcome) == QuotaSpec.Eval(old(Abs()), script)
      ensures expiry == ExpiryAfter(old(Abs()), old(expiry), script)
    {
      match script
      case Reserve(r, now) => var alerts; outcome, alerts := Reserve(r, now);
      case Settle(r, actual) => outcome := Settle(r, actual);
      case ReleaseConcurrency(r) => outcome := ReleaseConcurrency(r);
      case Renew(r, now) => outcome := Renew(r, now);
      case Correct(r, cost, operationId, version) => outcome := CorrectCost(r, cost, operationId, version);
      case ExpireSlot(slot) => ExpireSlot(slot); outcome := Ok;
    }
  }

  // ----- the counters against the markers

  function Lookup(counters: map<Window, int>, w: Window): int {
    if w in counters then counters[w] else 0
  }

  ghost predicate Tracks(s: Mirror, counters: map<Window, int>) {
    forall w :: Lookup(counters, w) == Total(s, w)
  }

  ghost predicate Present(s: Mirror, counters: map<Window, int>) {
    forall k :: k in s.markers ==> Windows(s.markers[k].reservation.keys) <= counters.Keys
  }

  ghost predicate Occupied(s: Mirror, slots: map<nat, int>) {
    slots.Keys == s.generations.Keys && forall slot :: slot in slots ==> slots[slot] == Holding(s, slot)
  }

  function Shifted(counters: map<Window, int>, keys: Keys, tokens: int, cost: int): map<Window, int> {
    counters[DailyTokens(keys.day) := Lookup(counters, DailyTokens(keys.day)) + tokens]
            [MonthlyTokens(keys.month) := Lookup(counters, MonthlyTokens(keys.month)) + tokens]
            [DailyCost(keys.day) := Lookup(counters, DailyCost(keys.day)) + cost]
            [MonthlyCost(keys.month) := Lookup(counters, MonthlyCost(keys.month)) + cost]
  }

  function Rated(counters: map<Window, int>, r: Reservation): map<Window, int> {
    counters[SecondRequests(r.keys.second) := Lookup(counters, SecondRequests(r.keys.second)) + 1]
            [MinuteTokens(r.keys.minute) := Lookup(counters, MinuteTokens(r.keys.minute)) + r.estimate.tokens]
  }

  // ----- alerts

  const THRESHOLDS: seq<nat> := [50, 80, 100]

  predicate Increasing(s: seq<nat>) {
    forall i, j :: 0 <= i < j < |s| ==> s[i] < s[j]
  }

  lemma StillIncreasing(s: seq<nat>, x: nat)
    requires Increasing(s) && forall t :: t in s ==> t < x
    ensures Increasing(s + [x])
  {
    assert forall i :: 0 <= i < |s| ==> s[i] in s;
  }

  predicate FilledBy(counters: map<Window, int>, limit: nat, w: Window, more: nat, percent: nat) {
    limit > 0 && (Lookup(counters, w) + more) * 100 >= percent * limit
  }

  /** Some limited window is filled to a percentage once it holds so much more. */
  predicate ReachedBy(counters: map<Window, int>, r: Reservation, tokens: nat, cost: nat, percent: nat) {
    || FilledBy(counters, r.limits.dailyTokens, DailyTokens(r.keys.day), tokens, percent)
    || FilledBy(counters, r.limits.monthlyTokens, MonthlyTokens(r.keys.month), tokens, percent)
    || FilledBy(counters, r.limits.dailyCost, DailyCost(r.keys.day), cost, percent)
    || FilledBy(counters, r.limits.monthlyCost, MonthlyCost(r.keys.month), cost, percent)
  }

  /** What the counters hold now, and with the reservation added, is what the markers make of them before and after. */
  lemma CrossedAgrees(before: Mirror, after: Mirror, counters: map<Window, int>, r: Reservation)
    requires Tracks(before, counters)
    requires Tracks(after, Rated(Shifted(counters, r.keys, r.estimate.tokens, r.estimate.cost), r))
    ensures forall t: nat :: ReachedBy(counters, r, 0, 0, t) == Reached(before, r, t)
    ensures forall t: nat :: ReachedBy(counters, r, r.estimate.tokens, r.estimate.cost, t) == Reached(after, r, t)
  {
    var moved := Rated(Shifted(counters, r.keys, r.estimate.tokens, r.estimate.cost), r);
    var keys := r.keys;
    assert Lookup(moved, DailyTokens(keys.day)) == Lookup(counters, DailyTokens(keys.day)) + r.estimate.tokens;
    assert Lookup(moved, MonthlyTokens(keys.month)) == Lookup(counters, MonthlyTokens(keys.month)) + r.estimate.tokens;
    assert Lookup(moved, DailyCost(keys.day)) == Lookup(counters, DailyCost(keys.day)) + r.estimate.cost;
    assert Lookup(moved, MonthlyCost(keys.month)) == Lookup(counters, MonthlyCost(keys.month)) + r.estimate.cost;
    hide Rated, Shifted, Lookup, SumOver, Total;
  }

  function Left(slots: map<nat, int>, generations: map<nat, MarkerKey>, m: Marker): map<nat, int>
    requires slots.Keys == generations.Keys
  {
    var slot := m.reservation.keys.slot;
    if slot in slots && slots[slot] > 0 && !m.concurrencyReleased && m.generation == generations[slot]
    then slots[slot := slots[slot] - 1] else slots
  }

  function ExceededBy(counters: map<Window, int>, r: Reservation): bool {
    || (r.limits.dailyTokens > 0 && Lookup(counters, DailyTokens(r.keys.day)) > r.limits.dailyTokens)
    || (r.limits.monthlyTokens > 0 && Lookup(counters, MonthlyTokens(r.keys.month)) > r.limits.monthlyTokens)
    || (r.limits.dailyCost > 0 && Lookup(counters, DailyCost(r.keys.day)) > r.limits.dailyCost)
    || (r.limits.monthlyCost > 0 && Lookup(counters, MonthlyCost(r.keys.month)) > r.limits.monthlyCost)
  }

  lemma ExceededAgreement(s: Mirror, counters: map<Window, int>, r: Reservation)
    requires Tracks(s, counters)
    ensures ExceededBy(counters, r) == Exceeded(s, r)
  {
    hide SumOver;
  }

  lemma Shape(s: Mirror, counters: map<Window, int>, slots: map<nat, int>, k: MarkerKey)
    requires WellFormed(s) && Present(s, counters) && Occupied(s, slots)
    ensures slots.Keys == s.generations.Keys
    ensures k in s.markers ==>
              var m := s.markers[k];
              m.reservation.markerKey == k && Windows(m.reservation.keys) <= counters.Keys
              && (m.state.RESERVED? ==> m.corrected.None? && m.corrections == map[] && m.correctionVersion == 0)
  {
  }

  /** The differences of a settlement turn what a marker was charged into what it is charged now. */
  lemma ShiftedBySettling(counters: map<Window, int>, m: Marker, actual: Amounts)
    requires m.state.RESERVED? && m.corrected.None? && Windows(m.reservation.keys) <= counters.Keys
    ensures var r := m.reservation;
            var moved := Shifted(counters, r.keys, actual.tokens - r.estimate.tokens, actual.cost - r.estimate.cost);
            && moved.Keys == counters.Keys
            && forall w, exceeded :: w in counters ==>
                 moved[w] == counters[w] + ChargeTo(w, SettledMarker(m, actual, exceeded)) - ChargeTo(w, m)
  {
    var r := m.reservation;
    var moved := Shifted(counters, r.keys, actual.tokens - r.estimate.tokens, actual.cost - r.estimate.cost);
    assert moved.Keys == counters.Keys by {
      assert forall w :: w in Windows(r.keys) ==> w in counters;
      hide Windows;
      assert DailyTokens(r.keys.day) in counters && MonthlyTokens(r.keys.month) in counters;
      assert DailyCost(r.keys.day) in counters && MonthlyCost(r.keys.month) in counters;
    }
  }

  lemma Agreement(s: Mirror, counters: map<Window, int>, slots: map<nat, int>, keys: Keys)
    requires Tracks(s, counters) && Occupied(s, slots)
    ensures forall w :: Lookup(counters, w) == Total(s, w)
    ensures (if keys.slot in slots then slots[keys.slot] else 0) == Holding(s, keys.slot)
  {
  }

  lemma TracksNew(s: Mirror, counters: map<Window, int>, m: Marker, generations: map<nat, MarkerKey>)
    requires Tracks(s, counters) && Present(s, counters)
    requires m.reservation.markerKey !in s.markers && m.state.RESERVED?
    ensures var r := m.reservation;
            var after := Mirror(s.markers[r.markerKey := m], generations);
            var moved := Rated(Shifted(counters, r.keys, r.estimate.tokens, r.estimate.cost), r);
            Tracks(after, moved) && Present(after, moved)
  {
    var r := m.reservation;
    var after := Mirror(s.markers[r.markerKey := m], generations);
    var moved := Rated(Shifted(counters, r.keys, r.estimate.tokens, r.estimate.cost), r);
    NewCharges(counters, m);
    hide SumOver, ChargeTo, Rated, Shifted, Lookup;
    forall w ensures Lookup(moved, w) == Total(after, w) {
      SumWrite(s.markers, Charge(w), r.markerKey, m);
      assert Lookup(counters, w) == Total(s, w);
      assert Charge(w)(m) == ChargeTo(w, m);
    }
  }

  lemma NewCharges(counters: map<Window, int>, m: Marker)
    requires m.state.RESERVED?
    ensures var r := m.reservation;
            var moved := Rated(Shifted(counters, r.keys, r.estimate.tokens, r.estimate.cost), r);
            && counters.Keys + Windows(r.keys) <= moved.Keys
            && forall w :: Lookup(moved, w) == Lookup(counters, w) + ChargeTo(w, m)
  {
  }

  /** Counters moved by what the rewritten marker contributes more than before still track the markers. */
  lemma TracksRewrite(s: Mirror, counters: map<Window, int>, m: Marker, moved: map<Window, int>)
    requires Tracks(s, counters) && Present(s, counters)
    requires m.reservation.markerKey in s.markers
    requires m.reservation == s.markers[m.reservation.markerKey].reservation
    requires moved.Keys == counters.Keys
    requires forall w :: w in counters ==>
               moved[w] == counters[w] + ChargeTo(w, m) - ChargeTo(w, s.markers[m.reservation.markerKey])
    ensures Tracks(Written(s, m), moved) && Present(Written(s, m), moved)
  {
    hide SumOver;
    forall w ensures Lookup(moved, w) == Total(Written(s, m), w) {
      var was := s.markers[m.reservation.markerKey];
      SumWrite(s.markers, Charge(w), m.reservation.markerKey, m);
      assert Lookup(counters, w) == Total(s, w);
      assert Charge(w)(m) == ChargeTo(w, m) && Charge(w)(was) == ChargeTo(w, was);
      assert w in Windows(m.reservation.keys) ==> w in counters;
    }
  }

  // ----- the slots against the markers

  function Joined(s: Mirror, m: Marker): Mirror {
    Mirror(s.markers[m.reservation.markerKey := m], s.generations[m.reservation.keys.slot := m.generation])
  }

  /** A new marker takes one place; a slot without a counter starts a generation nobody else belongs to. */
  lemma HoldingNew(s: Mirror, m: Marker, slot: nat)
    requires WellFormed(s) && m.reservation.markerKey !in s.markers
    requires m.state.RESERVED? && !m.concurrencyReleased
    requires m.generation == if m.reservation.keys.slot in s.generations then s.generations[m.reservation.keys.slot]
                             else m.reservation.markerKey
    ensures Holding(Joined(s, m), slot) == Holding(s, slot) + (if slot == m.reservation.keys.slot then 1 else 0)
  {
    var own := m.reservation.keys.slot;
    if slot == own || slot in s.generations {
      var generation := if slot == own then m.generation else s.generations[slot];
      SumWrite(s.markers, Occupies(slot, generation), m.reservation.markerKey, m);
      if slot !in s.generations {
        assert forall k :: k in s.markers ==> s.markers[k].generation in s.markers;
        hide SumOver, WellFormed;
        SumZero(s.markers, Occupies(slot, generation));
      }
    }
  }

  lemma OccupiedNew(s: Mirror, slots: map<nat, int>, m: Marker)
    requires WellFormed(s) && Occupied(s, slots) && m.reservation.markerKey !in s.markers
    requires m.state.RESERVED? && !m.concurrencyReleased
    requires m.generation == if m.reservation.keys.slot in s.generations then s.generations[m.reservation.keys.slot]
                             else m.reservation.markerKey
    ensures var slot := m.reservation.keys.slot;
            Occupied(Joined(s, m), slots[slot := (if slot in slots then slots[slot] else 0) + 1])
  {
    hide SumOver, WellFormed;
    var own := m.reservation.keys.slot;
    var after := slots[own := (if own in slots then slots[own] else 0) + 1];
    forall slot | slot in after ensures after[slot] == Holding(Joined(s, m), slot) {
      HoldingNew(s, m, slot);
    }
  }

  lemma HoldingRewrite(s: Mirror, m: Marker, slot: nat)
    requires m.reservation.markerKey in s.markers && slot in s.generations
    ensures Holding(Written(s, m), slot)
            == Holding(s, slot) + Occupies(slot, s.generations[slot])(m)
               - Occupies(slot, s.generations[slot])(s.markers[m.reservation.markerKey])
    ensures Holding(s, slot) >= Occupies(slot, s.generations[slot])(s.markers[m.reservation.markerKey])
  {
    SumWrite(s.markers, Occupies(slot, s.generations[slot]), m.reservation.markerKey, m);
    SumBoundsRow(s.markers, Occupies(slot, s.generations[slot]), m.reservation.markerKey);
  }

  /** The guarded decrement is exactly the place the leaving marker held: its own slot, its own generation. */
  lemma OccupiedLeave(s: Mirror, slots: map<nat, int>, m: Marker)
    requires Occupied(s, slots) && m.reservation.markerKey in s.markers
    requires var was := s.markers[m.reservation.markerKey];
             was.state.RESERVED? && was.reservation == m.reservation && was.generation == m.generation
    requires m.state.SETTLED? || m.concurrencyReleased
    requires m.state.SETTLED? ==> m.concurrencyReleased == s.markers[m.reservation.markerKey].concurrencyReleased
    ensures Occupied(Written(s, m), Left(slots, s.generations, s.markers[m.reservation.markerKey]))
  {
    var left := Left(slots, s.generations, s.markers[m.reservation.markerKey]);
    forall slot | slot in left ensures left[slot] == Holding(Written(s, m), slot) {
      HoldingRewrite(s, m, slot);
    }
  }

  lemma OccupiedStay(s: Mirror, slots: map<nat, int>, m: Marker)
    requires Occupied(s, slots) && m.reservation.markerKey in s.markers
    requires var was := s.markers[m.reservation.markerKey];
             was.state == m.state && was.reservation == m.reservation && was.generation == m.generation
             && was.concurrencyReleased == m.concurrencyReleased
    ensures Occupied(Written(s, m), slots)
  {
    forall slot | slot in slots ensures slots[slot] == Holding(Written(s, m), slot) {
      HoldingRewrite(s, m, slot);
    }
  }

  lemma TracksExpiry(s: Mirror, slot: nat, counters: map<Window, int>)
    requires Tracks(s, counters) && Present(s, counters)
    ensures Tracks(ExpireStep(s, slot).mirror, counters) && Present(ExpireStep(s, slot).mirror, counters)
  {
    hide SumOver, Windows;
    forall w ensures Lookup(counters, w) == Total(ExpireStep(s, slot).mirror, w) {
      assert Lookup(counters, w) == Total(s, w);
    }
  }

  lemma OccupiedExpiry(s: Mirror, slot: nat, slots: map<nat, int>)
    requires Occupied(s, slots)
    ensures Occupied(ExpireStep(s, slot).mirror, slots - {slot})
  {
    hide SumOver;
  }
}
