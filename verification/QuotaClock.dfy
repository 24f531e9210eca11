/**
 * The quota mirror in time: slots expire unless they are used or renewed. A request that is renewed before it is long
 * overdue never loses the place it holds, and a generation that has expired never comes back.
 */
module QuotaClock {
  import opened Money
  import opened Sums
  import opened QuotaSpec

  /** How much longer a slot lives than the reservation that renewed it takes to become due for recovery. */
  const GRACE: nat := SLOT_LIFETIME - RECOVERY_DELAY

  datatype Clocked = Clocked(mirror: Mirror, expiry: map<nat, int>, now: int)

  datatype Tick = Wait(until: int) | Eval(script: Script)

  /** Time passes up to the next expiry; a slot expires exactly when it is due; scripts run on the clock's time. */
  predicate Possible(c: Clocked, tick: Tick) {
    match tick
    case Wait(until) => c.now <= until && forall slot :: slot in c.expiry ==> until <= c.expiry[slot]
    case Eval(script) =>
      if script.ExpireSlot? then script.slot in c.expiry && c.expiry[script.slot] == c.now
      else
        && (forall slot :: slot in c.expiry ==> c.now < c.expiry[slot])
        && (script.Reserve? || script.Renew? ==> script.now == c.now)
        && Genuine(c.mirror, script)
  }

  ghost function After(c: Clocked, tick: Tick): Clocked {
    match tick
    case Wait(until) => c.(now := until)
    case Eval(script) =>
      Clocked(QuotaSpec.Eval(c.mirror, script).mirror, ExpiryAfter(c.mirror, c.expiry, script), c.now)
  }

  ghost predicate Inv(c: Clocked) {
    && WellFormed(c.mirror) && c.expiry.Keys == c.mirror.generations.Keys
    && forall slot :: slot in c.expiry ==> c.now <= c.expiry[slot] <= c.now + SLOT_LIFETIME
  }

  lemma TickKeepsInv(c: Clocked, tick: Tick)
    requires Inv(c) && Possible(c, tick)
    ensures Inv(After(c, tick))
  {
    hide Verify, WellFormed, Exceeded;
    if tick.Eval? {
      EvalKeepsWellFormed(c.mirror, tick.script);
      InForceIsKeyed(c.mirror, tick.script);
    }
  }

  lemma InForceIsKeyed(s: Mirror, script: Script)
    requires WellFormed(s) && Genuine(s, script)
    ensures script.Renew? && script.r.markerKey in s.markers ==> s.markers[script.r.markerKey].reservation == script.r
  {
  }

  // ----- a place kept

  /** The request holds a place in its slot's present generation, which outlives its falling due by the grace. */
  predicate Placed(c: Clocked, k: MarkerKey) {
    && InForce(c.mirror, k) && c.mirror.markers[k].reservation.keys.slot in c.expiry
    && c.mirror.markers[k].recoverAfter + GRACE <= c.expiry[c.mirror.markers[k].reservation.keys.slot]
  }

  /** Still reserved, and overdue by less than the grace. */
  predicate InTime(c: Clocked, k: MarkerKey) {
    k in c.mirror.markers && c.mirror.markers[k].state.RESERVED? && c.now < c.mirror.markers[k].recoverAfter + GRACE
  }

  /** A fresh reservation has its place. */
  lemma ReservedIsPlaced(c: Clocked, r: Reservation)
    requires Inv(c) && Possible(c, Eval(Script.Reserve(r, c.now))) && r.markerKey !in c.mirror.markers
    requires ReserveStep(c.mirror, r, c.now).outcome.Ok?
    ensures Placed(After(c, Eval(Script.Reserve(r, c.now))), r.markerKey)
    ensures InTime(After(c, Eval(Script.Reserve(r, c.now))), r.markerKey)
  {
    hide Verify, WellFormed;
  }

  lemma TickKeepsPlace(c: Clocked, tick: Tick, k: MarkerKey)
    requires Inv(c) && Possible(c, tick) && Placed(c, k) && InTime(c, k) && InTime(After(c, tick), k)
    ensures Placed(After(c, tick), k)
  {
    hide Verify, WellFormed, Exceeded;
    if tick.Eval? {
      ScriptWritesOneMarker(c.mirror, tick.script, k);
      MarkerIsKeyed(c.mirror, k);
    }
  }

  // ----- runs

  ghost function RunFrom(c: Clocked, ticks: seq<Tick>): Clocked
    decreases ticks
  {
    if ticks == [] then c else RunFrom(After(c, ticks[0]), ticks[1..])
  }

  ghost predicate PossibleRun(c: Clocked, ticks: seq<Tick>)
    decreases ticks
  {
    ticks == [] || (Possible(c, ticks[0]) && PossibleRun(After(c, ticks[0]), ticks[1..]))
  }

  /** The requests of a slot that have neither ended nor released their place. */
  function Running(s: Mirror, slot: nat): set<MarkerKey> {
    set k | k in s.markers && s.markers[k].reservation.keys.slot == slot && s.markers[k].state.RESERVED?
            && !s.markers[k].concurrencyReleased
  }

  /** Every request running in the slot is in time, now and after every tick. */
  ghost predicate AlwaysInTime(c: Clocked, ticks: seq<Tick>, slot: nat)
    decreases ticks
  {
    AllInTime(c, slot) && (ticks == [] || AlwaysInTime(After(c, ticks[0]), ticks[1..], slot))
  }

  ghost predicate AllInTime(c: Clocked, slot: nat) {
    forall k :: k in Running(c.mirror, slot) ==> InTime(c, k)
  }

  ghost predicate AllPlaced(c: Clocked, slot: nat) {
    forall k :: k in Running(c.mirror, slot) ==> Placed(c, k)
  }

  lemma TickKeepsAllPlaced(c: Clocked, tick: Tick, slot: nat)
    requires Inv(c) && Possible(c, tick) && AllPlaced(c, slot) && AllInTime(c, slot) && AllInTime(After(c, tick), slot)
    ensures AllPlaced(After(c, tick), slot)
  {
    var after := After(c, tick);
    forall k | k in Running(after.mirror, slot) ensures Placed(after, k) {
      if tick.Eval? { ScriptWritesOneMarker(c.mirror, tick.script, k); }
      hide Inv, Placed, InTime, Possible, Verify, Exceeded;
      if k in c.mirror.markers {
        WasRunning(c, tick, k, slot);
        TickKeepsPlace(c, tick, k);
      } else {
        NewIsReserved(c, tick, k);
        ReservedIsPlaced(c, tick.script.r);
      }
    }
  }

  /** Who runs in the slot after a tick ran in it before, or is new. */
  lemma WasRunning(c: Clocked, tick: Tick, k: MarkerKey, slot: nat)
    requires Inv(c) && k in c.mirror.markers && k in Running(After(c, tick).mirror, slot)
    ensures k in Running(c.mirror, slot)
  {
    hide Evolves, QuotaSpec.Eval, ExpiryAfter, WellFormed;
    if tick.Eval? {
      SettledIsFinal(c.mirror, tick.script, k);
      StateEvolves(c.mirror.markers[k], QuotaSpec.Eval(c.mirror, tick.script).mirror.markers[k]);
      ReleaseIsFinal(c.mirror, tick.script, k);
    }
  }

  lemma StateEvolves(m: Marker, after: Marker)
    requires Evolves(m, after)
    ensures after.reservation == m.reservation && after.generation == m.generation
    ensures after.state.RESERVED? ==> m.state.RESERVED?
  {
  }

  /** A place once released is not taken again. */
  lemma ReleaseIsFinal(s: Mirror, script: Script, k: MarkerKey)
    requires WellFormed(s) && k in s.markers
    ensures var after := QuotaSpec.Eval(s, script).mirror.markers;
            k in after && (s.markers[k].concurrencyReleased ==> after[k].concurrencyReleased)
  {
    ScriptWritesOneMarker(s, script, k);
    MarkerIsKeyed(s, k);
    hide Verify, Exceeded, WellFormed;
  }

  lemma NewIsReserved(c: Clocked, tick: Tick, k: MarkerKey)
    requires Possible(c, tick) && k !in c.mirror.markers && k in After(c, tick).mirror.markers
    requires tick.Eval? && !tick.script.ExpireSlot? && k == tick.script.r.markerKey
    ensures tick.script == Script.Reserve(tick.script.r, c.now) && ReserveStep(c.mirror, tick.script.r, c.now).outcome.Ok?
  {
    hide Verify, Exceeded;
  }

  lemma {:induction false} RunKeepsAllPlaced(c: Clocked, ticks: seq<Tick>, slot: nat)
    requires Inv(c) && AllPlaced(c, slot) && PossibleRun(c, ticks) && AlwaysInTime(c, ticks, slot)
    ensures Inv(RunFrom(c, ticks)) && AllPlaced(RunFrom(c, ticks), slot)
    decreases ticks
  {
    if ticks != [] {
      hide Inv, AllPlaced, Possible, After, AllInTime;
      TickKeepsInv(c, ticks[0]);
      assert AlwaysInTime(After(c, ticks[0]), ticks[1..], slot);
      TickKeepsAllPlaced(c, ticks[0], slot);
      RunKeepsAllPlaced(After(c, ticks[0]), ticks[1..], slot);
    }
  }

  // ----- what a slot counts

  function Fresh(now: int): Clocked {
    Clocked(Mirror(map[], map[]), map[], now)
  }

  /** The slot counter never counts more than the requests running, and counts them all exactly when each is in force. */
  lemma InForceAreCounted(s: Mirror, slot: nat)
    ensures Holding(s, slot) <= |Running(s, slot)|
    ensures Holding(s, slot) == |Running(s, slot)| <==> forall k :: k in Running(s, slot) ==> InForce(s, k)
  {
    var counted := if slot in s.generations then Holders(s.markers, slot, s.generations[slot]) else {};
    if slot in s.generations { HoldingIsACount(s.markers, slot, s.generations[slot]); }
    assert forall k :: k in counted <==> k in Running(s, slot) && InForce(s, k);
    hide Running, InForce, Holders, SumOver, Occupying;
    assert counted <= Running(s, slot);
    assert |Running(s, slot) - counted| == |Running(s, slot)| - |counted|;
    if |Running(s, slot)| == |counted| { assert Running(s, slot) - counted == {}; }
    if forall k :: k in Running(s, slot) ==> InForce(s, k) { assert Running(s, slot) == counted; }
  }

  /**
   * No request is forgotten: as long as every request running in the slot is renewed, ended or released before it is
   * overdue by the grace, the slot counter is the number of requests running in the slot, whatever happens to requests
   * that gave up their place or hold another, and however long it takes.
   */
  lemma SlotCountsEveryRequest(start: int, ticks: seq<Tick>, slot: nat)
    requires PossibleRun(Fresh(start), ticks) && AlwaysInTime(Fresh(start), ticks, slot)
    ensures var s := RunFrom(Fresh(start), ticks).mirror; Holding(s, slot) == |Running(s, slot)|
  {
    RunKeepsAllPlaced(Fresh(start), ticks, slot);
    hide RunFrom, InForce;
    InForceAreCounted(RunFrom(Fresh(start), ticks).mirror, slot);
  }

  /** So a reservation within its rates is refused for its concurrency exactly when as many requests as allowed are running. */
  lemma RefusedAtTheLimit(start: int, ticks: seq<Tick>, r: Reservation)
    requires PossibleRun(Fresh(start), ticks) && AlwaysInTime(Fresh(start), ticks, r.keys.slot) && r.limits.concurrency > 0
    ensures var c := RunFrom(Fresh(start), ticks);
            var refusal := Verify(c.mirror, r);
            refusal != Some(QpsExceeded) && refusal != Some(TpmExceeded) ==>
              (refusal == Some(ConcurrencyExceeded) <==> |Running(c.mirror, r.keys.slot)| >= r.limits.concurrency)
  {
    SlotCountsEveryRequest(start, ticks, r.keys.slot);
    hide RunFrom, Running, Over, Holding;
  }

  // ----- a generation that has expired

  predicate Gone(s: Mirror, k: MarkerKey) {
    k in s.markers && !InForce(s, k)
  }

  /** A slot's generation changes only by expiring, or from none to a request that was not there before. */
  lemma GenerationsAfter(s: Mirror, script: Script, slot: nat)
    ensures var after := QuotaSpec.Eval(s, script).mirror.generations;
            slot in after ==> (slot in s.generations && after[slot] == s.generations[slot]) || after[slot] !in s.markers
  {
    hide Verify, Exceeded, Corrected;
  }

  lemma TickKeepsGone(c: Clocked, tick: Tick, k: MarkerKey)
    requires Inv(c) && Gone(c.mirror, k)
    ensures Gone(After(c, tick).mirror, k)
  {
    hide Evolves, QuotaSpec.Eval, MarkerOk;
    if tick.Eval? {
      assert c.mirror.markers[k].generation in c.mirror.markers;
      SettledIsFinal(c.mirror, tick.script, k);
      GenerationsAfter(c.mirror, tick.script, c.mirror.markers[k].reservation.keys.slot);
      StateEvolves(c.mirror.markers[k], QuotaSpec.Eval(c.mirror, tick.script).mirror.markers[k]);
    }
  }

  /** A request whose slot expired is never counted again, however often it is renewed afterwards. */
  lemma {:induction false} GoneIsForever(c: Clocked, ticks: seq<Tick>, k: MarkerKey, slot: nat)
    requires Inv(c) && PossibleRun(c, ticks) && Gone(c.mirror, k)
    ensures var s := RunFrom(c, ticks).mirror;
            Gone(s, k) && (slot in s.generations ==> k !in Holders(s.markers, slot, s.generations[slot]))
    decreases ticks
  {
    if ticks != [] {
      TickKeepsInv(c, ticks[0]);
      TickKeepsGone(c, ticks[0], k);
      hide Inv, Possible, After, Gone, Holders;
      GoneIsForever(After(c, ticks[0]), ticks[1..], k, slot);
    }
  }
}
