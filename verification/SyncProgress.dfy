/** A synchronisation that nothing disturbs gets through exactly when no marker of the request stands in its way. */
module SyncProgress {
  import opened Money
  import opened TwoStores
  import L = LedgerSpec
  import C = LedgerCoherence
  import Q = QuotaSpec

  /** The marker is there, and not settled at other amounts. */
  predicate Deliverable(mirror: Q.Mirror, r: Q.Reservation, actual: Q.Amounts) {
    r.markerKey in mirror.markers
    && (mirror.markers[r.markerKey].state.SETTLED? ==> mirror.markers[r.markerKey].actual == actual)
  }

  predicate AllDeliverable(mirror: Q.Mirror, reservations: seq<Q.Reservation>, actual: Q.Amounts) {
    forall r :: r in reservations ==> Deliverable(mirror, r, actual)
  }

  /** So many calls to the mirror one after the other; calls after the last marker do nothing. */
  ghost function Advanced(sys: System, sync: nat, calls: nat): System
    decreases calls
  {
    if calls == 0 then sys else Advanced(AfterAdvance(sys, sync), sync, calls - 1)
  }

  /** Begin, two calls for every marker, finish. */
  ghost function Undisturbed(sys: System, sync: nat, id: nat): System
    requires id in sys.ledger.entries
  {
    AfterFinish(Advanced(AfterBegin(sys, sync, id), sync, 2 * |Reservations(sys.ledger.entries[id])|), sync)
  }

  function Remaining(run: Sync, reservations: nat): int {
    2 * (reservations - run.done) - (if run.settled then 1 else 0)
  }

  // ----- getting through

  function ScriptOf(r: Q.Reservation, run: Sync): Q.Script {
    if run.settled && run.correction.Some? then
      Q.Correct(r, run.correction.value.cost, run.correction.value.operationId, run.correction.value.version)
    else Q.Script.Settle(r, Amount(run.actual))
  }

  lemma DeliveryIsAScript(mirror: Q.Mirror, r: Q.Reservation, run: Sync)
    ensures Q.Eval(mirror, ScriptOf(r, run)) == Delivery(mirror, r, run)
    ensures !ScriptOf(r, run).ExpireSlot? && ScriptOf(r, run).r == r
    ensures r.markerKey !in mirror.markers ==> Delivery(mirror, r, run).mirror == mirror
  {
    hide Q.Exceeded, Q.Corrected;
  }

  /** What one call writes leaves every marker of the request deliverable. */
  lemma DeliveryKeepsDeliverable(sys: System, run: Sync, r: Q.Reservation, other: Q.Reservation)
    requires Q.WellFormed(sys.mirror) && Deliverable(sys.mirror, other, Amount(run.actual))
    requires var reply := Delivery(sys.mirror, r, run);
             !reply.outcome.Refused? && Delivered(reply.mirror, r, Amount(run.actual), 0)
    ensures Deliverable(Delivery(sys.mirror, r, run).mirror, other, Amount(run.actual))
  {
    hide Q.Eval, Q.WellFormed, Delivery;
    DeliveryIsAScript(sys.mirror, r, run);
    Q.ScriptWritesOneMarker(sys.mirror, ScriptOf(r, run), other.markerKey);
  }

  lemma DeliverableSettles(mirror: Q.Mirror, r: Q.Reservation, actual: Q.Amounts)
    requires Deliverable(mirror, r, actual)
    ensures !Q.SettleStep(mirror, r, actual).outcome.Refused?
  {
    hide Q.Exceeded;
  }

  lemma CorrectionInReach(sys: System, run: Sync)
    requires SyncOk(sys.ledger.entries, sys.mirror, run, IssuedTo(sys.issued, run.requestId))
    requires run.settled && run.correction.Some?
    requires forall r :: r in Reservations(sys.ledger.entries[run.requestId]) ==> r.markerKey.requestId == run.requestId
    ensures var r := Reservations(sys.ledger.entries[run.requestId])[run.done];
            var all := IssuedTo(sys.issued, r.markerKey.requestId);
            Delivered(sys.mirror, r, Amount(run.actual), 0)
            && 1 <= run.correction.value.version <= |all| && all[run.correction.value.version - 1] == run.correction.value
  {
    hide Delivered;
  }

  lemma DeliverableIsAccepted(sys: System, run: Sync)
    requires Inv(sys) && SyncOk(sys.ledger.entries, sys.mirror, run, IssuedTo(sys.issued, run.requestId))
    requires run.done < |Reservations(sys.ledger.entries[run.requestId])|
    requires Deliverable(sys.mirror, Reservations(sys.ledger.entries[run.requestId])[run.done], Amount(run.actual))
    ensures !Delivery(sys.mirror, Reservations(sys.ledger.entries[run.requestId])[run.done], run).outcome.Refused?
  {
    hide Inv, Q.CorrectStep, Q.SettleStep, CorrectionsOk, SyncedOk, Deliverable, Delivered;
    var r := Reservations(sys.ledger.entries[run.requestId])[run.done];
    if run.settled && run.correction.Some? {
      InvRequest(sys, run.requestId);
      CorrectionInReach(sys, run);
      hide SyncOk;
      AdvanceCorrects(sys, r, Amount(run.actual), run.correction.value.version);
    } else {
      DeliverableSettles(sys.mirror, r, Amount(run.actual));
    }
  }

  lemma AdvanceUnfolds(sys: System, sync: nat)
    requires sync in sys.syncs && sys.syncs[sync].requestId in sys.ledger.entries
    requires var run := sys.syncs[sync];
             run.done < |Reservations(sys.ledger.entries[run.requestId])|
             && !Delivery(sys.mirror, Reservations(sys.ledger.entries[run.requestId])[run.done], run).outcome.Refused?
    ensures var run := sys.syncs[sync];
            var reply := Delivery(sys.mirror, Reservations(sys.ledger.entries[run.requestId])[run.done], run);
            var next := if run.settled || run.correction.None? then run.(done := run.done + 1, settled := false)
                        else run.(settled := true);
            AfterAdvance(sys, sync) == sys.(mirror := reply.mirror, syncs := sys.syncs[sync := next])
  {
    hide Delivery;
  }

  /** One undisturbed call: the synchronisation goes on, one step nearer its end. */
  lemma OneCall(sys: System, sync: nat, actual: Q.Amounts)
    requires Inv(sys) && sync in sys.syncs && sys.syncs[sync].requestId in sys.ledger.entries
    requires var run := sys.syncs[sync];
             var reservations := Reservations(sys.ledger.entries[run.requestId]);
             run.done < |reservations| && Amount(run.actual) == actual && AllDeliverable(sys.mirror, reservations, actual)
    ensures var run := sys.syncs[sync];
            var reservations := Reservations(sys.ledger.entries[run.requestId]);
            var after := AfterAdvance(sys, sync);
            && Inv(after) && after.ledger == sys.ledger && sync in after.syncs
            && after.syncs[sync].requestId == run.requestId && after.syncs[sync].actual == run.actual
            && after.syncs[sync].correction == run.correction && after.syncs[sync].done <= |reservations|
            && Remaining(after.syncs[sync], |reservations|) < Remaining(run, |reservations|)
            && AllDeliverable(after.mirror, reservations, actual)
  {
    var run := sys.syncs[sync];
    var reservations := Reservations(sys.ledger.entries[run.requestId]);
    var r := reservations[run.done];
    hide Inv, SyncOk, Delivered, Deliverable, Delivery, AfterAdvance;
    InvSyncs(sys);
    InvMirror(sys);
    hide Q.WellFormed, MarkersFollow;
    assert Deliverable(sys.mirror, r, actual);
    DeliverableIsAccepted(sys, run);
    CallToMirror(sys, run);
    AdvanceKeepsInv(sys, sync);
    AdvanceUnfolds(sys, sync);
    DeliveriesStay(sys, run, r, reservations);
  }

  lemma DeliveriesStay(sys: System, run: Sync, r: Q.Reservation, reservations: seq<Q.Reservation>)
    requires Q.WellFormed(sys.mirror) && AllDeliverable(sys.mirror, reservations, Amount(run.actual))
    requires var reply := Delivery(sys.mirror, r, run);
             !reply.outcome.Refused?
             && Delivered(reply.mirror, r, Amount(run.actual), if run.settled then Version(run.correction) else 0)
    ensures AllDeliverable(Delivery(sys.mirror, r, run).mirror, reservations, Amount(run.actual))
  {
    hide Delivered, Deliverable, Delivery, Q.WellFormed;
    var reply := Delivery(sys.mirror, r, run);
    DeliveredAtLeast(reply.mirror, r, Amount(run.actual), if run.settled then Version(run.correction) else 0);
    forall other | other in reservations ensures Deliverable(reply.mirror, other, Amount(run.actual)) {
      DeliveryKeepsDeliverable(sys, run, r, other);
    }
  }

  lemma DeliveredAtLeast(mirror: Q.Mirror, r: Q.Reservation, actual: Q.Amounts, version: nat)
    requires Delivered(mirror, r, actual, version)
    ensures Delivered(mirror, r, actual, 0)
  {
  }

  lemma {:induction false} CallsGetThrough(sys: System, sync: nat, actual: Q.Amounts, calls: nat)
    requires Inv(sys) && sync in sys.syncs && sys.syncs[sync].requestId in sys.ledger.entries
    requires var run := sys.syncs[sync];
             var reservations := Reservations(sys.ledger.entries[run.requestId]);
             run.done <= |reservations| && Amount(run.actual) == actual && AllDeliverable(sys.mirror, reservations, actual)
             && Remaining(run, |reservations|) <= calls
    ensures var run := sys.syncs[sync];
            var after := Advanced(sys, sync, calls);
            && after.ledger == sys.ledger && sync in after.syncs
            && after.syncs[sync].requestId == run.requestId && after.syncs[sync].correction == run.correction
            && after.syncs[sync].done >= |Reservations(sys.ledger.entries[run.requestId])|
    decreases calls
  {
    hide Inv, AllDeliverable;
    var run := sys.syncs[sync];
    var reservations := Reservations(sys.ledger.entries[run.requestId]);
    if calls > 0 {
      if run.done < |reservations| {
        OneCall(sys, sync, actual);
      }
      var next := AfterAdvance(sys, sync);
      if run.done == |reservations| { assert next == sys; }
      hide AfterAdvance;
      CallsGetThrough(next, sync, actual, calls - 1);
    }
  }

  // ----- being stopped

  /** A synchronisation neither creates a marker nor changes the amounts of a settled one. */
  predicate Kept(mirror: Q.Mirror, after: Q.Mirror) {
    forall k :: k in after.markers ==>
      k in mirror.markers
      && (mirror.markers[k].state.SETTLED? ==>
            after.markers[k].state.SETTLED? && after.markers[k].actual == mirror.markers[k].actual)
  }

  lemma DeliveryKept(mirror: Q.Mirror, r: Q.Reservation, run: Sync, k: Q.MarkerKey)
    requires Q.WellFormed(mirror) && k in Delivery(mirror, r, run).mirror.markers
    ensures k in mirror.markers && Q.Evolves(mirror.markers[k], Delivery(mirror, r, run).mirror.markers[k])
  {
    hide Q.Eval, Q.WellFormed, Delivery, Q.Evolves;
    DeliveryIsAScript(mirror, r, run);
    Q.ScriptWritesOneMarker(mirror, ScriptOf(r, run), k);
    if k in mirror.markers { Q.SettledIsFinal(mirror, ScriptOf(r, run), k); }
  }

  lemma AllKept(mirror: Q.Mirror, r: Q.Reservation, run: Sync)
    requires Q.WellFormed(mirror)
    ensures Kept(mirror, Delivery(mirror, r, run).mirror)
  {
    hide Q.WellFormed, Delivery;
    var after := Delivery(mirror, r, run).mirror;
    forall k | k in after.markers ensures k in mirror.markers && Q.Evolves(mirror.markers[k], after.markers[k]) {
      DeliveryKept(mirror, r, run, k);
    }
  }

  lemma CallKeeps(sys: System, sync: nat)
    requires Inv(sys)
    ensures Kept(sys.mirror, AfterAdvance(sys, sync).mirror) && AfterAdvance(sys, sync).ledger == sys.ledger
  {
    InvMirror(sys);
    hide Inv, Q.WellFormed, MarkersFollow, Delivery;
    var after := AfterAdvance(sys, sync).mirror;
    if after != sys.mirror {
      var run := sys.syncs[sync];
      hide Kept;
      AllKept(sys.mirror, Reservations(sys.ledger.entries[run.requestId])[run.done], run);
    }
  }

  lemma KeptAsIs(mirror: Q.Mirror)
    ensures Kept(mirror, mirror)
  {
  }

  lemma KeptTwice(a: Q.Mirror, b: Q.Mirror, c: Q.Mirror)
    requires Kept(a, b) && Kept(b, c)
    ensures Kept(a, c)
  {
  }

  lemma {:induction false} CallsKeep(sys: System, sync: nat, calls: nat)
    requires Inv(sys)
    ensures Inv(Advanced(sys, sync, calls)) && Kept(sys.mirror, Advanced(sys, sync, calls).mirror)
    ensures Advanced(sys, sync, calls).ledger == sys.ledger
    decreases calls
  {
    hide Inv, AfterAdvance, Kept;
    if calls == 0 {
      KeptAsIs(sys.mirror);
    } else {
      var next := AfterAdvance(sys, sync);
      AdvanceKeepsInv(sys, sync);
      CallKeeps(sys, sync);
      CallsKeep(next, sync, calls - 1);
      KeptTwice(sys.mirror, next.mirror, Advanced(sys, sync, calls).mirror);
    }
  }

  // ----- both together

  lemma BegunRun(sys: System, sync: nat, id: nat)
    requires sync !in sys.syncs && id in sys.ledger.entries
    requires !L.IsOpen(sys.ledger.entries[id].status) && !sys.ledger.entries[id].snapshot.redisSynced
    ensures var e := sys.ledger.entries[id];
            AfterBegin(sys, sync, id)
            == sys.(syncs := sys.syncs[sync := Sync(id, e.snapshot.redisActual, e.snapshot.redisCorrection, 0, false)])
  {
  }

  /**
   * Left alone, the synchronisation of a finished request marks its entry exactly when every marker is still there and
   * none is settled at amounts other than the recorded ones.
   */
  lemma UndisturbedSyncSucceedsExactly(sys: System, sync: nat, id: nat)
    requires Inv(sys) && sync !in sys.syncs && id in sys.ledger.entries
    requires !L.IsOpen(sys.ledger.entries[id].status) && !sys.ledger.entries[id].snapshot.redisSynced
    ensures id in Undisturbed(sys, sync, id).ledger.entries
    ensures Undisturbed(sys, sync, id).ledger.entries[id].snapshot.redisSynced
            <==> AllDeliverable(sys.mirror, Reservations(sys.ledger.entries[id]), Amount(sys.ledger.entries[id].snapshot.redisActual))
  {
    hide Inv, AllDeliverable;
    var e := sys.ledger.entries[id];
    var begun := AfterBegin(sys, sync, id);
    var calls: nat := 2 * |Reservations(e)|;
    var advanced := Advanced(begun, sync, calls);
    BegunRun(sys, sync, id);
    BeginKeepsInv(sys, sync, id);
    InvRequest(sys, id);
    CallsKeep(begun, sync, calls);
    hide AfterBegin, Advanced, CorrectionsOk, SyncedOk, OwnMarkers;
    if AllDeliverable(sys.mirror, Reservations(e), Amount(e.snapshot.redisActual)) {
      CallsGetThrough(begun, sync, Amount(e.snapshot.redisActual), calls);
    }
    FinishKeepsInv(advanced, sync);
    var finished := AfterFinish(advanced, sync);
    FinishSameEntry(advanced, sync, id);
    if finished.ledger.entries[id].snapshot.redisSynced {
      SyncedWasDeliverable(sys.mirror, finished, e, id);
    }
  }

  lemma FinishSameEntry(sys: System, sync: nat, id: nat)
    requires id in sys.ledger.entries
    ensures var after := AfterFinish(sys, sync);
            after.mirror == sys.mirror && id in after.ledger.entries
            && after.ledger.entries[id].snapshot.reservation == sys.ledger.entries[id].snapshot.reservation
            && after.ledger.entries[id].snapshot.redisActual == sys.ledger.entries[id].snapshot.redisActual
  {
  }

  lemma SyncedWasDeliverable(before: Q.Mirror, sys: System, e: L.Entry, id: nat)
    requires Inv(sys) && id in sys.ledger.entries && sys.ledger.entries[id].snapshot.redisSynced && Kept(before, sys.mirror)
    requires sys.ledger.entries[id].snapshot.reservation == e.snapshot.reservation
    requires sys.ledger.entries[id].snapshot.redisActual == e.snapshot.redisActual
    ensures AllDeliverable(before, Reservations(e), Amount(e.snapshot.redisActual))
  {
    hide Inv;
    forall r | r in Reservations(e) ensures Deliverable(before, r, Amount(e.snapshot.redisActual)) {
      InvSynced(sys, id, r);
    }
  }
}
