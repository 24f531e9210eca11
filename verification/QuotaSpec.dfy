/**
 * The request markers of the quota mirror and what each script does to them.
 *
 * No counter appears here: what a counter must hold is derived from the markers (Total, Holding). The class
 * QuotaStore keeps the counters by increments and is proved to agree with this description.
 */
module QuotaSpec {
  import opened Money
  import opened Sums

  datatype MarkerKey = MarkerKey(requestId: nat, digest: nat)

  /** The counter keys of one reservation; each stands for prefix plus calendar day, month, second or minute. */
  datatype Keys = Keys(day: nat, month: nat, second: nat, minute: nat, slot: nat)

  datatype Window =
    | DailyTokens(day: nat) | MonthlyTokens(month: nat) | DailyCost(day: nat) | MonthlyCost(month: nat)
    | SecondRequests(second: nat) | MinuteTokens(minute: nat)

  datatype Amounts = Amounts(tokens: nat, cost: nat)

  /** Zero means unlimited. */
  datatype Limits = Limits(
    dailyTokens: nat, monthlyTokens: nat, dailyCost: nat, monthlyCost: nat, qps: nat, tpm: nat, concurrency: nat)

  datatype Reservation = Reservation(markerKey: MarkerKey, keys: Keys, estimate: Amounts, limits: Limits)

  datatype MarkerState = RESERVED | SETTLED

  datatype Marker = Marker(
    state: MarkerState, reservation: Reservation, generation: MarkerKey, concurrencyReleased: bool,
    recoverAfter: int, actual: Amounts, exceeded: bool,
    corrected: Option<nat>, corrections: map<nat, nat>, correctionVersion: nat)

  datatype QuotaError =
    | QpsExceeded | TpmExceeded | ConcurrencyExceeded
    | DailyTokenQuota | MonthlyTokenQuota | DailyCostQuota | MonthlyCostQuota
    | ReservationConflict | ReservationMissing | ReservationInactive | CorrectionConflict

  datatype Outcome = Ok | HardLimitExceeded | Refused(error: QuotaError)

  /** Milliseconds until an unrenewed reservation is due for recovery, and until an unused slot expires. */
  const RECOVERY_DELAY: nat := 120_000
  const SLOT_LIFETIME: nat := 600_000

  datatype Mirror = Mirror(markers: map<MarkerKey, Marker>, generations: map<nat, MarkerKey>)

  datatype Reply = Reply(mirror: Mirror, outcome: Outcome)

  // ----- what a marker contributes

  function TokensOf(m: Marker): nat {
    if m.state.RESERVED? then m.reservation.estimate.tokens else m.actual.tokens
  }

  /** The estimate while reserved, then the actual cost or the correction that replaced it. */
  function CostOf(m: Marker): nat {
    if m.state.RESERVED? then m.reservation.estimate.cost
    else if m.corrected.Some? then m.corrected.value else m.actual.cost
  }

  /** The windows that a settlement corrects. */
  function Windows(keys: Keys): set<Window> {
    {DailyTokens(keys.day), MonthlyTokens(keys.month), DailyCost(keys.day), MonthlyCost(keys.month)}
  }

  /** The rates count a request and its estimated tokens when it begins, whatever becomes of it. */
  function ChargeTo(w: Window, m: Marker): int {
    var keys := m.reservation.keys;
    match w
    case DailyTokens(day) => if day == keys.day then TokensOf(m) else 0
    case MonthlyTokens(month) => if month == keys.month then TokensOf(m) else 0
    case DailyCost(day) => if day == keys.day then CostOf(m) else 0
    case MonthlyCost(month) => if month == keys.month then CostOf(m) else 0
    case SecondRequests(second) => if second == keys.second then 1 else 0
    case MinuteTokens(minute) => if minute == keys.minute then m.reservation.estimate.tokens else 0
  }

  function Charge(w: Window): Marker -> int {
    m => ChargeTo(w, m)
  }

  predicate Occupying(slot: nat, generation: MarkerKey, m: Marker) {
    m.reservation.keys.slot == slot && m.state.RESERVED? && !m.concurrencyReleased && m.generation == generation
  }

  function Occupies(slot: nat, generation: MarkerKey): Marker -> int {
    m => if Occupying(slot, generation, m) then 1 else 0
  }

  ghost function Total(s: Mirror, w: Window): int {
    SumOver(s.markers, Charge(w))
  }

  /** How many requests hold the slot in its current generation. */
  ghost function Holding(s: Mirror, slot: nat): int {
    if slot in s.generations then SumOver(s.markers, Occupies(slot, s.generations[slot])) else 0
  }

  // ----- the scripts

  ghost predicate Over(s: Mirror, limit: nat, w: Window, extra: nat) {
    limit > 0 && Total(s, w) + extra > limit
  }

  /** The first limit the reservation would break. */
  ghost function Verify(s: Mirror, r: Reservation): Option<QuotaError> {
    if Over(s, r.limits.qps, SecondRequests(r.keys.second), 1) then Some(QpsExceeded)
    else if Over(s, r.limits.tpm, MinuteTokens(r.keys.minute), r.estimate.tokens) then Some(TpmExceeded)
    else if r.limits.concurrency > 0 && Holding(s, r.keys.slot) + 1 > r.limits.concurrency then Some(ConcurrencyExceeded)
    else if Over(s, r.limits.dailyTokens, DailyTokens(r.keys.day), r.estimate.tokens) then Some(DailyTokenQuota)
    else if Over(s, r.limits.monthlyTokens, MonthlyTokens(r.keys.month), r.estimate.tokens) then Some(MonthlyTokenQuota)
    else if Over(s, r.limits.dailyCost, DailyCost(r.keys.day), r.estimate.cost) then Some(DailyCostQuota)
    else if Over(s, r.limits.monthlyCost, MonthlyCost(r.keys.month), r.estimate.cost) then Some(MonthlyCostQuota)
    else None
  }

  ghost function ReserveStep(s: Mirror, r: Reservation, now: int): Reply {
    if r.markerKey in s.markers then
      var known := s.markers[r.markerKey];
      if known.reservation == r && known.state.RESERVED? then Reply(s, Ok) else Reply(s, Refused(ReservationConflict))
    else
      match Verify(s, r)
      case Some(error) => Reply(s, Refused(error))
      case None =>
      var generation := if r.keys.slot in s.generations then s.generations[r.keys.slot] else r.markerKey;
      var marker := FreshMarker(r, generation, now + RECOVERY_DELAY);
      Reply(Mirror(s.markers[r.markerKey := marker], s.generations[r.keys.slot := generation]), Ok)
  }

  function FreshMarker(r: Reservation, generation: MarkerKey, recoverAfter: int): Marker {
    Marker(RESERVED, r, generation, false, recoverAfter, Amounts(0, 0), false, None, map[], 0)
  }

  function Written(s: Mirror, m: Marker): Mirror {
    s.(markers := s.markers[m.reservation.markerKey := m])
  }

  ghost predicate Exceeded(s: Mirror, r: Reservation) {
    || Over(s, r.limits.dailyTokens, DailyTokens(r.keys.day), 0)
    || Over(s, r.limits.monthlyTokens, MonthlyTokens(r.keys.month), 0)
    || Over(s, r.limits.dailyCost, DailyCost(r.keys.day), 0)
    || Over(s, r.limits.monthlyCost, MonthlyCost(r.keys.month), 0)
  }

  function Verdict(exceeded: bool): Outcome {
    if exceeded then HardLimitExceeded else Ok
  }

  ghost function SettleStep(s: Mirror, r: Reservation, actual: Amounts): Reply {
    if r.markerKey !in s.markers then Reply(s, Refused(ReservationMissing))
    else
      var m := s.markers[r.markerKey];
      if m.state.SETTLED? then
        if m.actual == actual then Reply(s, Verdict(m.exceeded)) else Reply(s, Refused(ReservationConflict))
      else
        var exceeded := Exceeded(Written(s, SettledMarker(m, actual, false)), r);
        Reply(Written(s, SettledMarker(m, actual, exceeded)), Verdict(exceeded))
  }

  function SettledMarker(m: Marker, actual: Amounts, exceeded: bool): Marker {
    m.(state := SETTLED, actual := actual, exceeded := exceeded)
  }

  function ReleaseConcurrencyStep(s: Mirror, r: Reservation): Reply {
    if r.markerKey !in s.markers then Reply(s, Ok)
    else
      var m := s.markers[r.markerKey];
      if !m.state.RESERVED? || m.concurrencyReleased then Reply(s, Ok)
      else Reply(Written(s, m.(concurrencyReleased := true)), Ok)
  }

  function RenewStep(s: Mirror, r: Reservation, now: int): Reply {
    if r.markerKey !in s.markers || !s.markers[r.markerKey].state.RESERVED? then Reply(s, Refused(ReservationInactive))
    else Reply(Written(s, s.markers[r.markerKey].(recoverAfter := now + RECOVERY_DELAY)), Ok)
  }

  /** One delivery of a versioned correction to a marker; None is a conflict. */
  function Corrected(m: Marker, cost: nat, operationId: nat, version: nat): Option<Marker> {
    if !m.state.SETTLED? then None
    else if version < m.correctionVersion then Some(m)
    else if operationId in m.corrections then
      if m.corrections[operationId] == cost then Some(m) else None
    else Some(m.(corrected := Some(cost), corrections := m.corrections[operationId := cost], correctionVersion := version))
  }

  function CorrectStep(s: Mirror, r: Reservation, cost: nat, operationId: nat, version: nat): Reply {
    if r.markerKey !in s.markers then Reply(s, Refused(CorrectionConflict))
    else
      match Corrected(s.markers[r.markerKey], cost, operationId, version)
      case None => Reply(s, Refused(CorrectionConflict))
      case Some(m) => Reply(Written(s, m), Ok)
  }

  /** When each slot expires: a new reservation in it, and a renewal from its own generation, put that off. */
  ghost function ExpiryAfter(s: Mirror, expiry: map<nat, int>, script: Script): map<nat, int> {
    match script
    case Reserve(r, now) =>
      if r.markerKey !in s.markers && Verify(s, r).None? then expiry[r.keys.slot := now + SLOT_LIFETIME] else expiry
    case Renew(r, now) =>
      if InForce(s, r.markerKey) && s.markers[r.markerKey].state.RESERVED? then expiry[r.keys.slot := now + SLOT_LIFETIME]
      else expiry
    case ExpireSlot(slot) => expiry - {slot}
    case _ => expiry
  }

  /** The marker belongs to the generation its slot is in now. */
  predicate InForce(s: Mirror, k: MarkerKey) {
    && k in s.markers && s.markers[k].reservation.keys.slot in s.generations
    && s.generations[s.markers[k].reservation.keys.slot] == s.markers[k].generation
  }

  // ----- alerts

  ghost predicate Filled(s: Mirror, limit: nat, w: Window, percent: nat) {
    limit > 0 && Total(s, w) * 100 >= percent * limit
  }

  /** Some limited window of the reservation has reached this percentage. */
  ghost predicate Reached(s: Mirror, r: Reservation, percent: nat) {
    || Filled(s, r.limits.dailyTokens, DailyTokens(r.keys.day), percent)
    || Filled(s, r.limits.monthlyTokens, MonthlyTokens(r.keys.month), percent)
    || Filled(s, r.limits.dailyCost, DailyCost(r.keys.day), percent)
    || Filled(s, r.limits.monthlyCost, MonthlyCost(r.keys.month), percent)
  }

  /** The concurrency key and its generation key carry the same expiry and go together. */
  function ExpireStep(s: Mirror, slot: nat): Reply {
    Reply(s.(generations := s.generations - {slot}), Ok)
  }

  datatype Script =
    | Reserve(r: Reservation, now: int)
    | Settle(r: Reservation, actual: Amounts)
    | ReleaseConcurrency(r: Reservation)
    | Renew(r: Reservation, now: int)
    | Correct(r: Reservation, cost: nat, operationId: nat, version: nat)
    | ExpireSlot(slot: nat)

  ghost function Eval(s: Mirror, script: Script): Reply {
    match script
    case Reserve(r, now) => ReserveStep(s, r, now)
    case Settle(r, actual) => SettleStep(s, r, actual)
    case ReleaseConcurrency(r) => ReleaseConcurrencyStep(s, r)
    case Renew(r, now) => RenewStep(s, r, now)
    case Correct(r, cost, operationId, version) => CorrectStep(s, r, cost, operationId, version)
    case ExpireSlot(slot) => ExpireStep(s, slot)
  }

  // ----- what every script keeps

  predicate MarkerOk(k: MarkerKey, m: Marker) {
    && m.reservation.markerKey == k
    && (m.state.RESERVED? ==> m.corrected.None? && m.corrections == map[] && m.correctionVersion == 0)
  }

  predicate WellFormed(s: Mirror) {
    && (forall k :: k in s.markers ==> MarkerOk(k, s.markers[k]))
    && (forall k {:trigger s.markers[k].generation} :: k in s.markers ==> s.markers[k].generation in s.markers)
    && (forall slot :: slot in s.generations ==> s.generations[slot] in s.markers)
  }

  /** A script is only ever given a reservation that the mirror itself returned for that marker. */
  predicate Genuine(s: Mirror, script: Script) {
    (script.Settle? || script.ReleaseConcurrency? || script.Renew? || script.Correct?)
    ==> script.r.markerKey in s.markers ==> s.markers[script.r.markerKey].reservation == script.r
  }

  /** Rewriting a marker in place keeps the mirror well formed. */
  lemma WrittenKeepsWellFormed(s: Mirror, m: Marker)
    requires WellFormed(s) && m.reservation.markerKey in s.markers
    requires m.reservation == s.markers[m.reservation.markerKey].reservation
    requires m.generation == s.markers[m.reservation.markerKey].generation
    requires m.state.RESERVED? ==> m.corrected.None? && m.corrections == map[] && m.correctionVersion == 0
    ensures WellFormed(Written(s, m))
  {
  }

  lemma ReserveKeepsWellFormed(s: Mirror, r: Reservation, now: int)
    requires WellFormed(s)
    ensures WellFormed(ReserveStep(s, r, now).mirror)
  {
    hide SumOver, Verify;
  }

  lemma EvalKeepsWellFormed(s: Mirror, script: Script)
    requires WellFormed(s)
    ensures WellFormed(Eval(s, script).mirror)
  {
    if script.Reserve? {
      ReserveKeepsWellFormed(s, script.r, script.now);
    } else if script.ExpireSlot? {
      ExpireKeepsWellFormed(s, script.slot);
    } else if script.r.markerKey in s.markers {
      var k := script.r.markerKey;
      var after := Eval(s, script).mirror;
      assert MarkerOk(k, s.markers[k]);
      hide SumOver, Exceeded, WellFormed, Verify;
      if after != s { WrittenKeepsWellFormed(s, after.markers[k]); }
    }
  }

  lemma ExpireKeepsWellFormed(s: Mirror, slot: nat)
    requires WellFormed(s)
    ensures WellFormed(ExpireStep(s, slot).mirror)
  {
  }

  /** What any script may do to a marker it finds. */
  predicate Evolves(m: Marker, after: Marker) {
    && after.reservation == m.reservation
    && after.generation == m.generation
    && (m.state.SETTLED? ==> after.state.SETTLED? && after.actual == m.actual && after.correctionVersion >= m.correctionVersion)
  }

  /** The only marker a script writes is that of its reservation. */
  lemma ScriptWritesOneMarker(s: Mirror, script: Script, k: MarkerKey)
    requires WellFormed(s)
    ensures var after := Eval(s, script).mirror.markers;
            script.ExpireSlot? || k != script.r.markerKey ==>
              (k in s.markers <==> k in after) && (k in s.markers ==> after[k] == s.markers[k])
  {
    hide SumOver, Verify, Exceeded, WellFormed, Corrected;
    if !script.ExpireSlot? && script.r.markerKey in s.markers {
      MarkerIsKeyed(s, script.r.markerKey);
      if script.Correct? {
        CorrectedEvolves(s.markers[script.r.markerKey], script.cost, script.operationId, script.version);
      }
    }
  }

  lemma MarkerIsKeyed(s: Mirror, k: MarkerKey)
    requires WellFormed(s) && k in s.markers
    ensures s.markers[k].reservation.markerKey == k
  {
    assert MarkerOk(k, s.markers[k]);
  }

  /** Markers are never lost, and a settled marker keeps its state and its recorded actual amounts. */
  lemma SettledIsFinal(s: Mirror, script: Script, k: MarkerKey)
    requires WellFormed(s) && k in s.markers
    ensures k in Eval(s, script).mirror.markers && Evolves(s.markers[k], Eval(s, script).mirror.markers[k])
  {
    ScriptWritesOneMarker(s, script, k);
    var m := s.markers[k];
    assert m.reservation.markerKey == k;
    hide SumOver, Verify, Exceeded, WellFormed, Evolves;
    if script.ExpireSlot? || k != script.r.markerKey || script.Reserve? {
      assert Eval(s, script).mirror.markers[k] == m;
      SameEvolves(m);
    } else if script.Settle? && m.state.RESERVED? {
      SettledEvolves(m, script.actual, Exceeded(Written(s, SettledMarker(m, script.actual, false)), script.r));
    } else if script.Correct? {
      CorrectedEvolves(m, script.cost, script.operationId, script.version);
      SameEvolves(m);
    } else {
      SameEvolves(m);
      SameEvolves(m.(concurrencyReleased := true));
      ReservedEvolves(m, m.(concurrencyReleased := true));
      if script.Renew? { ReservedEvolves(m, m.(recoverAfter := script.now + RECOVERY_DELAY)); }
    }
  }

  lemma SameEvolves(m: Marker)
    ensures Evolves(m, m)
  {
  }

  lemma ReservedEvolves(m: Marker, after: Marker)
    requires after.reservation == m.reservation && after.generation == m.generation
    ensures m.state.RESERVED? ==> Evolves(m, after)
  {
  }

  lemma SettledEvolves(m: Marker, actual: Amounts, exceeded: bool)
    requires m.state.RESERVED?
    ensures Evolves(m, SettledMarker(m, actual, exceeded))
  {
  }

  lemma CorrectedEvolves(m: Marker, cost: nat, operationId: nat, version: nat)
    ensures var after := Corrected(m, cost, operationId, version);
            after.Some? ==> Evolves(m, after.value) && after.value.reservation == m.reservation
  {
  }

  // ----- versioned corrections

  datatype Correction = Correction(operationId: nat, cost: nat, version: nat)

  /** The corrections issued for one request: version n is the n-th, each by an operation of its own. */
  predicate Issued(all: seq<Correction>) {
    && (forall i :: 0 <= i < |all| ==> all[i].version == i + 1)
    && (forall i, j :: 0 <= i < j < |all| ==> all[i].operationId != all[j].operationId)
  }

  /** A settled marker whose corrections all come from those issued and whose cost is that of its version. */
  predicate Consistent(m: Marker, all: seq<Correction>) {
    && m.state.SETTLED?
    && m.correctionVersion <= |all|
    && (m.correctionVersion == 0 ==> m.corrected.None?)
    && (m.correctionVersion > 0 ==>
          var current := all[m.correctionVersion - 1];
          m.corrected == Some(current.cost) && current.operationId in m.corrections
          && m.corrections[current.operationId] == current.cost)
    && (forall op :: op in m.corrections ==> exists i :: 0 <= i < m.correctionVersion && all[i].operationId == op)
  }

  /** A delivery is never refused and leaves the marker at the newer of the two versions. */
  lemma DeliverOne(m: Marker, all: seq<Correction>, version: nat)
    requires Issued(all) && Consistent(m, all) && 1 <= version <= |all|
    ensures var c := all[version - 1];
            var after := Corrected(m, c.cost, c.operationId, c.version);
            after.Some? && Consistent(after.value, all) && Evolves(m, after.value)
            && after.value.correctionVersion == Max(m.correctionVersion, version)
  {
    var c := all[version - 1];
    if version > m.correctionVersion {
      assert c.operationId !in m.corrections;
      var after := Corrected(m, c.cost, c.operationId, c.version).value;
      forall op | op in after.corrections
        ensures exists i :: 0 <= i < after.correctionVersion && all[i].operationId == op
      {
        if op == c.operationId { assert all[version - 1].operationId == op; }
      }
    }
  }

  function Deliver(m: Marker, all: seq<Correction>, order: seq<nat>): Option<Marker>
    requires forall v :: v in order ==> 1 <= v <= |all|
    decreases order
  {
    if order == [] then Some(m)
    else
      assert order[0] in order && forall v :: v in order[1..] ==> v in order;
      var c := all[order[0] - 1];
      match Corrected(m, c.cost, c.operationId, c.version)
      case None => None
      case Some(next) => Deliver(next, all, order[1..])
  }

  function Highest(order: seq<nat>): nat {
    if order == [] then 0 else Max(order[0], Highest(order[1..]))
  }

  lemma ConsistentCost(m: Marker, all: seq<Correction>)
    requires Consistent(m, all)
    ensures CostOf(m) == if m.correctionVersion == 0 then m.actual.cost else all[m.correctionVersion - 1].cost
  {
  }

  lemma {:induction false} DeliverAll(m: Marker, all: seq<Correction>, order: seq<nat>)
    requires Issued(all) && Consistent(m, all)
    requires forall v :: v in order ==> 1 <= v <= |all|
    ensures var after := Deliver(m, all, order);
            after.Some? && Consistent(after.value, all) && after.value.actual == m.actual
            && after.value.correctionVersion == Max(m.correctionVersion, Highest(order))
    decreases order
  {
    if order != [] {
      assert order[0] in order && forall v :: v in order[1..] ==> v in order;
      DeliverOne(m, all, order[0]);
      var c := all[order[0] - 1];
      hide Issued, Consistent, Corrected;
      DeliverAll(Corrected(m, c.cost, c.operationId, c.version).value, all, order[1..]);
    }
  }

  /** Duplicated, dropped and reordered deliveries end at the cost of the highest version delivered. */
  lemma DeliveriesConverge(m: Marker, all: seq<Correction>, order: seq<nat>)
    requires Issued(all) && Consistent(m, all)
    requires forall v :: v in order ==> 1 <= v <= |all|
    ensures var highest := Max(m.correctionVersion, Highest(order));
            Deliver(m, all, order).Some? && highest <= |all|
            && CostOf(Deliver(m, all, order).value) == if highest == 0 then m.actual.cost else all[highest - 1].cost
  {
    DeliverAll(m, all, order);
    hide Deliver, Highest, Issued;
    ConsistentCost(Deliver(m, all, order).value, all);
  }

  /** The operations must differ: one operation id under two versions swallows the newer cost. */
  lemma RepeatedOperationSticks(m: Marker)
    requires m.state.SETTLED? && m.correctionVersion == 0 && m.corrections == map[] && m.corrected.None?
    ensures var all := [Correction(7, 10, 1), Correction(8, 20, 2), Correction(7, 10, 3)];
            Deliver(m, all, [1, 2, 3]).Some? && CostOf(Deliver(m, all, [1, 2, 3]).value) == 20
  {
    var all := [Correction(7, 10, 1), Correction(8, 20, 2), Correction(7, 10, 3)];
    var first := Corrected(m, 10, 7, 1).value;
    var second := Corrected(first, 20, 8, 2).value;
    assert Corrected(second, 10, 7, 3) == Some(second);
    assert [1, 2, 3][1..] == [2, 3] && [2, 3][1..] == [3] && [3][1..] == [];
    assert Deliver(second, all, []) == Some(second);
    assert Deliver(second, all, [3]) == Some(second);
    assert Deliver(first, all, [2, 3]) == Some(second);
  }

  // ----- rates

  /** A reservation let through the rate limits leaves its second and its minute within them. */
  lemma RateLimitsHold(s: Mirror, r: Reservation, now: int)
    requires r.markerKey !in s.markers && ReserveStep(s, r, now).outcome.Ok?
    ensures var after := ReserveStep(s, r, now).mirror;
            && (r.limits.qps > 0 ==> Total(after, SecondRequests(r.keys.second)) <= r.limits.qps)
            && (r.limits.tpm > 0 ==> Total(after, MinuteTokens(r.keys.minute)) <= r.limits.tpm)
  {
    var after := ReserveStep(s, r, now).mirror;
    var m := after.markers[r.markerKey];
    hide SumOver;
    SumWrite(s.markers, Charge(SecondRequests(r.keys.second)), r.markerKey, m);
    SumWrite(s.markers, Charge(MinuteTokens(r.keys.minute)), r.markerKey, m);
  }

  // ----- concurrency slots

  function Holders(markers: map<MarkerKey, Marker>, slot: nat, generation: MarkerKey): set<MarkerKey> {
    set k | k in markers && Occupying(slot, generation, markers[k])
  }

  lemma HoldersWithout(markers: map<MarkerKey, Marker>, slot: nat, generation: MarkerKey, k: MarkerKey)
    requires k in markers
    ensures k !in Holders(markers - {k}, slot, generation)
    ensures Holders(markers, slot, generation)
            == Holders(markers - {k}, slot, generation) + (if Occupying(slot, generation, markers[k]) then {k} else {})
  {
    hide Occupying;
  }

  /** The slot counter counts requests: it is the number of markers holding the slot in its live generation. */
  lemma {:induction false} HoldingIsACount(markers: map<MarkerKey, Marker>, slot: nat, generation: MarkerKey)
    ensures SumOver(markers, Occupies(slot, generation)) == |Holders(markers, slot, generation)|
    decreases |markers|
  {
    if markers == map[] {
      assert Holders(markers, slot, generation) == {};
    } else {
      var k :| k in markers;
      SumRemove(markers, Occupies(slot, generation), k);
      HoldersWithout(markers, slot, generation, k);
      HoldingIsACount(markers - {k}, slot, generation);
      hide Occupying, SumOver, Holders;
    }
  }

  /** Settling a request of an expired generation never takes a place away from the generation that replaced it. */
  lemma LateSettleSparesTheNewGeneration(s: Mirror, r: Reservation, actual: Amounts)
    requires WellFormed(s) && r.markerKey in s.markers && s.markers[r.markerKey].reservation == r
    requires r.keys.slot !in s.generations || s.generations[r.keys.slot] != s.markers[r.markerKey].generation
    ensures forall slot :: Holding(SettleStep(s, r, actual).mirror, slot) == Holding(s, slot)
  {
    var after := SettleStep(s, r, actual).mirror;
    forall slot ensures Holding(after, slot) == Holding(s, slot) {
      if slot in s.generations && after != s {
        SumWrite(s.markers, Occupies(slot, s.generations[slot]), r.markerKey, after.markers[r.markerKey]);
      }
    }
  }

  /** A reservation let through a concurrency limit leaves its slot within that limit. */
  lemma ConcurrencyLimitHolds(s: Mirror, r: Reservation, now: int)
    requires WellFormed(s) && r.limits.concurrency > 0 && r.markerKey !in s.markers
    requires ReserveStep(s, r, now).outcome.Ok?
    ensures Holding(ReserveStep(s, r, now).mirror, r.keys.slot) <= r.limits.concurrency
  {
    var after := ReserveStep(s, r, now).mirror;
    var generation := after.generations[r.keys.slot];
    hide SumOver, MarkerOk;
    SumWrite(s.markers, Occupies(r.keys.slot, generation), r.markerKey, after.markers[r.markerKey]);
    if r.keys.slot !in s.generations {
      assert forall k :: k in s.markers ==> s.markers[k].generation in s.markers;
      SumZero(s.markers, Occupies(r.keys.slot, generation));
    }
  }
}
