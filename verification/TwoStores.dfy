/**
 * Keeping the quota mirror in step with the ledger.
 *
 * A synchronisation reads the entry without a lock, then settles and corrects its markers one call at a time, and
 * marks the entry under the lock. Any number of synchronisations, of one request or of many, run interleaved with each
 * other, with every ledger call and with every other script; each may stop anywhere.
 */
module TwoStores {
  import opened Money
  import L = LedgerSpec
  import C = LedgerCoherence
  import S = LedgerSafety
  import R = LedgerReplay
  import M = LedgerMirror
  import Q = QuotaSpec

  /** A synchronisation in flight: what it read, and how many markers it has dealt with. */
  datatype Sync = Sync(requestId: nat, actual: Option<Q.Amounts>, correction: Option<Q.Correction>, done: nat, settled: bool)

  /** History: issued is an auxiliary record of every correction a request was ever given. */
  datatype System = System(ledger: L.State, mirror: Q.Mirror, syncs: map<nat, Sync>, issued: map<nat, seq<Q.Correction>>)

  datatype Event =
    | Call(c: L.Command)
    | Script(script: Q.Script)
    | Begin(sync: nat, requestId: nat)
    | Advance(sync: nat)
    | Finish(sync: nat)
    | Crash(sync: nat)

  function Reservations(e: L.Entry): seq<Q.Reservation> {
    e.snapshot.reservation.snapshot.redis
  }

  /** An entry without recorded amounts is released: its markers settle at nothing. */
  function Amount(actual: Option<Q.Amounts>): Q.Amounts {
    if actual.Some? then actual.value else Q.Amounts(0, 0)
  }

  function Version(correction: Option<Q.Correction>): nat {
    if correction.Some? then correction.value.version else 0
  }

  function IssuedTo(issued: map<nat, seq<Q.Correction>>, id: nat): seq<Q.Correction> {
    if id in issued then issued[id] else []
  }

  /**
   * Marking an entry and delivering corrections is what synchronisations do and nobody else, and a request reserves
   * only markers of its own.
   */
  predicate Possible(event: Event) {
    && (event.Call? ==> !event.c.FinishSync?)
    && (event.Call? && event.c.Reserve? ==>
          forall r :: r in event.c.input.snapshot.redis ==> r.markerKey.requestId == event.c.input.requestId)
    && (event.Script? ==> !event.script.Correct?)
  }

  ghost function AfterCall(sys: System, c: L.Command): System {
    var after := L.Step(sys.ledger, c).state;
    var issued :=
      if c.Reconcile? && c.requestId in sys.ledger.entries && c.requestId in after.entries
         && after.entries[c.requestId].snapshot.redisCorrection.Some?
         && after.entries[c.requestId].snapshot.redisCorrection != sys.ledger.entries[c.requestId].snapshot.redisCorrection
      then sys.issued[c.requestId := IssuedTo(sys.issued, c.requestId) + [after.entries[c.requestId].snapshot.redisCorrection.value]]
      else sys.issued;
    sys.(ledger := after, issued := issued)
  }

  function AfterBegin(sys: System, sync: nat, id: nat): System {
    if sync in sys.syncs || id !in sys.ledger.entries || sys.ledger.entries[id].snapshot.redisSynced
       || L.IsOpen(sys.ledger.entries[id].status) then sys
    else
      var e := sys.ledger.entries[id];
      sys.(syncs := sys.syncs[sync := Sync(id, e.snapshot.redisActual, e.snapshot.redisCorrection, 0, false)])
  }

  ghost function Delivery(mirror: Q.Mirror, r: Q.Reservation, run: Sync): Q.Reply {
    if run.settled && run.correction.Some? then
      Q.CorrectStep(mirror, r, run.correction.value.cost, run.correction.value.operationId, run.correction.value.version)
    else Q.SettleStep(mirror, r, Amount(run.actual))
  }

  /** One call to the mirror; a refusal ends the synchronisation. */
  ghost function AfterAdvance(sys: System, sync: nat): System {
    if sync !in sys.syncs || sys.syncs[sync].requestId !in sys.ledger.entries then sys
    else
      var run := sys.syncs[sync];
      var reservations := Reservations(sys.ledger.entries[run.requestId]);
      if run.done >= |reservations| then sys
      else
        var r := reservations[run.done];
        var reply := Delivery(sys.mirror, r, run);
        if reply.outcome.Refused? then sys.(syncs := sys.syncs - {sync})
        else
          var next := if run.settled || run.correction.None? then run.(done := run.done + 1, settled := false)
                      else run.(settled := true);
          sys.(mirror := reply.mirror, syncs := sys.syncs[sync := next])
  }

  function AfterFinish(sys: System, sync: nat): System {
    if sync !in sys.syncs || sys.syncs[sync].requestId !in sys.ledger.entries then sys
    else
      var run := sys.syncs[sync];
      var e := sys.ledger.entries[run.requestId];
      if run.done < |Reservations(e)| then sys
      else
        var ledger := L.FinishSyncStep(sys.ledger, L.Ref(run.requestId, e.periodId), run.correction).state;
        sys.(ledger := ledger, syncs := sys.syncs - {sync})
  }

  ghost function Next(sys: System, event: Event): System {
    match event
    case Call(c) => AfterCall(sys, c)
    case Script(script) => sys.(mirror := Q.Eval(sys.mirror, script).mirror)
    case Begin(sync, id) => AfterBegin(sys, sync, id)
    case Advance(sync) => AfterAdvance(sys, sync)
    case Finish(sync) => AfterFinish(sys, sync)
    case Crash(sync) => sys.(syncs := sys.syncs - {sync})
  }

  ghost function Run(sys: System, events: seq<Event>): System
    decreases events
  {
    if events == [] then sys else Run(Next(sys, events[0]), events[1..])
  }

  function Start(groups: map<nat, L.Group>): System {
    System(S.Empty(groups), Q.Mirror(map[], map[]), map[], map[])
  }

  // ----- the invariant

  /** The marker of a reservation is settled at the amounts given and has seen the correction version given. */
  predicate Delivered(mirror: Q.Mirror, r: Q.Reservation, actual: Q.Amounts, version: nat) {
    r.markerKey in mirror.markers
    && var m := mirror.markers[r.markerKey];
       m.state.SETTLED? && m.actual == actual && m.correctionVersion >= version
  }

  predicate CorrectionsOk(s: L.State, id: nat, all: seq<Q.Correction>) {
    && Q.Issued(all)
    && (forall i :: 0 <= i < |all| ==> all[i].operationId in s.operations)
    && (id !in s.entries ==> all == [])
    && (id in s.entries ==>
          s.entries[id].snapshot.redisCorrection == if all == [] then None else Some(all[|all| - 1]))
  }

  predicate OwnMarkers(id: nat, e: L.Entry) {
    forall r :: r in Reservations(e) ==> r.markerKey.requestId == id
  }

  predicate MarkerFollows(m: Q.Marker, all: seq<Q.Correction>) {
    m.state.SETTLED? ==> Q.Consistent(m, all)
  }

  predicate SyncOk(entries: map<nat, L.Entry>, mirror: Q.Mirror, run: Sync, all: seq<Q.Correction>) {
    && run.requestId in entries
    && var e := entries[run.requestId];
       var reservations := Reservations(e);
       && !L.IsOpen(e.status)
       && run.actual == e.snapshot.redisActual
       && (run.correction.Some? ==>
             1 <= run.correction.value.version <= |all| && all[run.correction.value.version - 1] == run.correction.value)
       && run.done <= |reservations|
       && (forall j :: 0 <= j < run.done ==> Delivered(mirror, reservations[j], Amount(run.actual), Version(run.correction)))
       && (run.settled ==> run.done < |reservations| && Delivered(mirror, reservations[run.done], Amount(run.actual), 0))
  }

  predicate SyncedOk(mirror: Q.Mirror, e: L.Entry, all: seq<Q.Correction>) {
    e.snapshot.redisSynced ==>
      !L.IsOpen(e.status)
      && forall r :: r in Reservations(e) ==> Delivered(mirror, r, Amount(e.snapshot.redisActual), |all|)
  }

  ghost predicate Inv(sys: System) {
    && C.Coherent(sys.ledger)
    && Q.WellFormed(sys.mirror)
    && (forall id :: CorrectionsOk(sys.ledger, id, IssuedTo(sys.issued, id)))
    && (forall id :: id in sys.ledger.entries ==> OwnMarkers(id, sys.ledger.entries[id]))
    && (forall k :: k in sys.mirror.markers ==> MarkerFollows(sys.mirror.markers[k], IssuedTo(sys.issued, k.requestId)))
    && (forall n :: n in sys.syncs ==>
          SyncOk(sys.ledger.entries, sys.mirror, sys.syncs[n], IssuedTo(sys.issued, sys.syncs[n].requestId)))
    && (forall id :: id in sys.ledger.entries ==> SyncedOk(sys.mirror, sys.ledger.entries[id], IssuedTo(sys.issued, id)))
  }

  lemma StartHolds(groups: map<nat, L.Group>)
    ensures Inv(Start(groups))
  {
  }

  // ----- a ledger call

  /** What a ledger call may change of what a synchronisation relies on. */
  predicate Moves(e: L.Entry, after: L.Entry) {
    && after.snapshot.reservation == e.snapshot.reservation
    && (!L.IsOpen(e.status) ==> !L.IsOpen(after.status) && after.snapshot.redisActual == e.snapshot.redisActual)
    && (after.snapshot.redisSynced ==> e.snapshot.redisSynced && after.snapshot.redisCorrection == e.snapshot.redisCorrection)
  }

  lemma SameMoves(e: L.Entry)
    ensures Moves(e, e)
  {
  }

  lemma ChargedEntryMoves(e: L.Entry, usage: L.UsageInput, amount: Cny, exceeded: bool)
    requires L.IsOpen(e.status)
    ensures Moves(e, L.SettledEntry(e, usage, amount, exceeded))
  {
  }

  lemma HeldEntryMoves(e: L.Entry, hold: L.HoldInput, actual: Cny, unresolved: Cny)
    requires L.IsOpen(e.status)
    ensures Moves(e, L.HeldEntry(e, hold, actual, unresolved))
  {
  }

  lemma ReconciledEntryMoves(id: nat, e: L.Entry, input: L.ReconcileInput, log: Option<L.Log>)
    requires C.EntryOk(id, e, log) && IsCny(input.actual) && !e.status.RELEASED?
    ensures Moves(e, L.ReconciledEntry(e, input, input.actual, log))
  {
  }

  lemma ChargingMoves(s: L.State, c: L.Command, id: nat)
    requires id in s.entries && (c.Hold? || c.Settle?) && c.ref.requestId == id
    ensures id in L.Step(s, c).state.entries && Moves(s.entries[id], L.Step(s, c).state.entries[id])
  {
    hide L.Used, L.OverLimit, L.Raised, L.NewLog, L.ReplacedLog, L.HeldEntry, L.SettledEntry, Moves;
    var e := s.entries[id];
    SameMoves(e);
    if c.Settle? {
      forall exceeded | c.actual >= 0 && L.IsOpen(e.status)
        ensures Moves(e, L.SettledEntry(e, c.usage.(cost := c.actual), c.actual, exceeded))
      {
        ChargedEntryMoves(e, c.usage.(cost := c.actual), c.actual, exceeded);
      }
    } else if c.hold.actual >= 0 && c.hold.unresolved >= 0 && L.IsOpen(e.status) {
      HeldEntryMoves(e, c.hold, c.hold.actual, c.hold.unresolved);
    }
  }

  lemma ReconcilingMoves(s: L.State, c: L.Command, id: nat)
    requires id in s.entries && C.EntryOk(id, s.entries[id], L.FindLog(s, id)) && c.Reconcile? && c.requestId == id
    ensures id in L.Step(s, c).state.entries && Moves(s.entries[id], L.Step(s, c).state.entries[id])
  {
    hide L.Used, L.AllocationNames, L.AllCny, L.Allocated, L.SumOfCosts, L.Raised, L.ReconciledEntry, L.ReconciledLog, Moves;
    SameMoves(s.entries[id]);
    if IsCny(c.reconciliation.actual) && !s.entries[id].status.RELEASED? {
      ReconciledEntryMoves(id, s.entries[id], c.reconciliation, L.FindLog(s, id));
    }
  }

  lemma CallMoves(s: L.State, c: L.Command, id: nat)
    requires id in s.entries && C.EntryOk(id, s.entries[id], L.FindLog(s, id)) && !c.FinishSync?
    ensures id in L.Step(s, c).state.entries && Moves(s.entries[id], L.Step(s, c).state.entries[id])
  {
    hide L.Step, C.EntryOk, Moves;
    if L.Target(c) != Some(id) {
      S.OnlyTheTargetMoves(s, c, id);
      SameMoves(s.entries[id]);
    } else if c.Hold? || c.Settle? {
      ChargingMoves(s, c, id);
    } else if c.Reconcile? {
      ReconcilingMoves(s, c, id);
    } else {
      UnchargedMoves(s, c, id);
    }
  }

  lemma UnchargedMoves(s: L.State, c: L.Command, id: nat)
    requires id in s.entries && L.Target(c) == Some(id) && !c.Hold? && !c.Settle? && !c.Reconcile? && !c.FinishSync?
    ensures id in L.Step(s, c).state.entries && Moves(s.entries[id], L.Step(s, c).state.entries[id])
  {
    hide L.Used, L.CanAfford, L.Raised;
  }

  lemma OnlyReconcilingCorrects(s: L.State, c: L.Command, id: nat)
    requires id in s.entries && L.Target(c) == Some(id) && !c.Reconcile?
    ensures id in L.Step(s, c).state.entries
    ensures L.Step(s, c).state.entries[id].snapshot.redisCorrection == s.entries[id].snapshot.redisCorrection
  {
    hide L.Used, L.OverLimit, L.CanAfford, L.Raised, L.NewLog, L.ReplacedLog;
  }

  lemma ReconcilingCorrects(s: L.State, c: L.Command)
    requires c.Reconcile? && c.requestId in s.entries && L.Step(s, c).state != s
    ensures var after := L.Step(s, c).state;
            && c.requestId in after.entries
            && c.reconciliation.operationId !in s.operations && c.reconciliation.operationId in after.operations
            && after.entries[c.requestId].snapshot.redisCorrection
               == Some(L.CorrectionAfter(s.entries[c.requestId], c.reconciliation.operationId, c.reconciliation.actual))
  {
    hide L.Used, L.AllocationNames, L.AllCny, L.Allocated, L.SumOfCosts, L.Raised, L.ReconciledLog, L.CorrectionAfter;
  }

  /** A correction changes only by an accepted reconciliation, which issues the next version under a new operation. */
  lemma CallCorrects(s: L.State, c: L.Command, id: nat)
    requires id in s.entries
    ensures id in L.Step(s, c).state.entries
    ensures var was := s.entries[id].snapshot.redisCorrection;
            var now := L.Step(s, c).state.entries[id].snapshot.redisCorrection;
            now != was ==>
              c.Reconcile? && c.requestId == id && c.reconciliation.operationId !in s.operations
              && c.reconciliation.operationId in L.Step(s, c).state.operations
              && now.Some? && now.value.operationId == c.reconciliation.operationId
              && now.value.version == Version(was) + 1
  {
    hide L.Step;
    if L.Target(c) != Some(id) {
      S.OnlyTheTargetMoves(s, c, id);
    } else if c.Reconcile? {
      if L.Step(s, c).state != s { ReconcilingCorrects(s, c); }
    } else {
      OnlyReconcilingCorrects(s, c, id);
    }
  }

  lemma NewEntriesAreFresh(s: L.State, c: L.Command, id: nat)
    requires id !in s.entries && id in L.Step(s, c).state.entries
    ensures c.Reserve? && c.input.requestId == id
    ensures var e := L.Step(s, c).state.entries[id];
            e.snapshot.reservation == c.input && L.IsOpen(e.status) && !e.snapshot.redisSynced && e.snapshot.redisCorrection.None?
  {
    hide L.Used, L.OverLimit, L.CanAfford, L.AllocationNames, L.AllCny, L.Allocated, L.SumOfCosts, L.Raised, L.RouteRows;
    if L.Target(c) != Some(id) { S.OnlyTheTargetMoves(s, c, id); }
  }

  /** A call either leaves a request's corrections alone or issues the next one. */
  lemma CallIssues(sys: System, c: L.Command, id: nat)
    requires CorrectionsOk(sys.ledger, id, IssuedTo(sys.issued, id))
    ensures CorrectionsOk(AfterCall(sys, c).ledger, id, IssuedTo(AfterCall(sys, c).issued, id))
    ensures IssuedTo(sys.issued, id) <= IssuedTo(AfterCall(sys, c).issued, id)
    ensures id in sys.ledger.entries && id in AfterCall(sys, c).ledger.entries ==>
              AfterCall(sys, c).ledger.entries[id].snapshot.redisCorrection == sys.ledger.entries[id].snapshot.redisCorrection ==>
                IssuedTo(AfterCall(sys, c).issued, id) == IssuedTo(sys.issued, id)
  {
    var all, after := IssuedTo(sys.issued, id), AfterCall(sys, c);
    forall i | 0 <= i < |all| ensures all[i].operationId in after.ledger.operations {
      R.OperationsAreKept(sys.ledger, c, all[i].operationId);
    }
    if id in sys.ledger.entries {
      CallCorrects(sys.ledger, c, id);
    } else if id in after.ledger.entries {
      NewEntriesAreFresh(sys.ledger, c, id);
    }
    hide L.Step;
  }

  lemma FollowsExtended(m: Q.Marker, all: seq<Q.Correction>, more: seq<Q.Correction>)
    requires MarkerFollows(m, all) && all <= more
    ensures MarkerFollows(m, more)
  {
    if m.state.SETTLED? {
      forall op | op in m.corrections ensures exists i :: 0 <= i < m.correctionVersion && more[i].operationId == op {
        var i :| 0 <= i < m.correctionVersion && all[i].operationId == op;
        assert more[i].operationId == op;
      }
    }
  }

  /** A synchronisation relies only on what a call cannot change. */
  lemma SyncSurvives(entries: map<nat, L.Entry>, after: map<nat, L.Entry>, mirror: Q.Mirror, run: Sync,
                     all: seq<Q.Correction>, more: seq<Q.Correction>)
    requires SyncOk(entries, mirror, run, all) && all <= more
    requires run.requestId in after && Moves(entries[run.requestId], after[run.requestId])
    ensures SyncOk(after, mirror, run, more)
  {
    hide Delivered;
  }

  lemma CallKeepsSync(sys: System, c: L.Command, run: Sync)
    requires Inv(sys) && !c.FinishSync?
    requires SyncOk(sys.ledger.entries, sys.mirror, run, IssuedTo(sys.issued, run.requestId))
    ensures SyncOk(AfterCall(sys, c).ledger.entries, sys.mirror, run, IssuedTo(AfterCall(sys, c).issued, run.requestId))
  {
    var id := run.requestId;
    assert C.EntryOk(id, sys.ledger.entries[id], L.FindLog(sys.ledger, id));
    assert AfterCall(sys, c).ledger == L.Step(sys.ledger, c).state;
    InvRequest(sys, id);
    hide L.Step, C.EntryOk, Inv, Delivered, AfterCall, CorrectionsOk, Moves, OwnMarkers, SyncedOk, SyncOk;
    CallMoves(sys.ledger, c, id);
    CallIssues(sys, c, id);
    SyncSurvives(sys.ledger.entries, AfterCall(sys, c).ledger.entries, sys.mirror, run,
                 IssuedTo(sys.issued, id), IssuedTo(AfterCall(sys, c).issued, id));
  }

  lemma CallKeepsSynced(sys: System, c: L.Command, id: nat)
    requires Inv(sys) && Possible(Call(c)) && id in AfterCall(sys, c).ledger.entries
    ensures SyncedOk(sys.mirror, AfterCall(sys, c).ledger.entries[id], IssuedTo(AfterCall(sys, c).issued, id))
    ensures OwnMarkers(id, AfterCall(sys, c).ledger.entries[id])
  {
    assert AfterCall(sys, c).ledger == L.Step(sys.ledger, c).state;
    if id in sys.ledger.entries {
      assert C.EntryOk(id, sys.ledger.entries[id], L.FindLog(sys.ledger, id));
      assert OwnMarkers(id, sys.ledger.entries[id]) && SyncedOk(sys.mirror, sys.ledger.entries[id], IssuedTo(sys.issued, id));
      CallMoves(sys.ledger, c, id);
      CallIssues(sys, c, id);
      hide L.Step, C.EntryOk, Inv, Delivered, AfterCall, CorrectionsOk;
    } else {
      NewEntriesAreFresh(sys.ledger, c, id);
      hide L.Step, Inv, AfterCall;
    }
  }

  lemma CallKeepsInv(sys: System, c: L.Command)
    requires Inv(sys) && Possible(Call(c))
    ensures Inv(AfterCall(sys, c))
  {
    var after := AfterCall(sys, c);
    assert after.ledger == L.Step(sys.ledger, c).state && after.mirror == sys.mirror && after.syncs == sys.syncs;
    hide Inv, L.Step, AfterCall, CorrectionsOk, MarkerFollows, SyncOk, SyncedOk, OwnMarkers, C.Coherent, Q.WellFormed;
    InvCoherent(sys);
    C.StepKeepsCoherent(sys.ledger, c);
    InvSyncs(sys);
    InvMirror(sys);
    forall id ensures CorrectionsOk(after.ledger, id, IssuedTo(after.issued, id)) {
      CallIssues(sys, c, id);
    }
    forall k | k in after.mirror.markers
      ensures MarkerFollows(after.mirror.markers[k], IssuedTo(after.issued, k.requestId))
    {
      CallIssues(sys, c, k.requestId);
      FollowsExtended(sys.mirror.markers[k], IssuedTo(sys.issued, k.requestId), IssuedTo(after.issued, k.requestId));
    }
    forall n | n in after.syncs
      ensures SyncOk(after.ledger.entries, after.mirror, after.syncs[n], IssuedTo(after.issued, after.syncs[n].requestId))
    {
      CallKeepsSync(sys, c, sys.syncs[n]);
    }
    forall id | id in after.ledger.entries
      ensures SyncedOk(after.mirror, after.ledger.entries[id], IssuedTo(after.issued, id))
      ensures OwnMarkers(id, after.ledger.entries[id])
    {
      CallKeepsSynced(sys, c, id);
    }
    Assemble(after);
  }

  // ----- a change of the mirror

  lemma DeliveredStays(before: Q.Mirror, after: Q.Mirror, r: Q.Reservation, actual: Q.Amounts, version: nat)
    requires Delivered(before, r, actual, version)
    requires r.markerKey in after.markers && Q.Evolves(before.markers[r.markerKey], after.markers[r.markerKey])
    ensures Delivered(after, r, actual, version)
  {
  }

  ghost predicate MirrorEvolves(before: Q.Mirror, after: Q.Mirror) {
    forall k :: k in before.markers ==> k in after.markers && Q.Evolves(before.markers[k], after.markers[k])
  }

  ghost predicate MarkersFollow(mirror: Q.Mirror, issued: map<nat, seq<Q.Correction>>) {
    forall k :: k in mirror.markers ==> MarkerFollows(mirror.markers[k], IssuedTo(issued, k.requestId))
  }

  lemma SyncStays(entries: map<nat, L.Entry>, before: Q.Mirror, after: Q.Mirror, run: Sync, all: seq<Q.Correction>)
    requires MirrorEvolves(before, after) && SyncOk(entries, before, run, all)
    ensures SyncOk(entries, after, run, all)
  {
    var reservations := Reservations(entries[run.requestId]);
    forall r, version | Delivered(before, r, Amount(run.actual), version) ensures Delivered(after, r, Amount(run.actual), version) {
      DeliveredStays(before, after, r, Amount(run.actual), version);
    }
    hide Delivered, MirrorEvolves, Q.Evolves;
  }

  lemma SyncedStays(before: Q.Mirror, after: Q.Mirror, e: L.Entry, all: seq<Q.Correction>)
    requires MirrorEvolves(before, after) && SyncedOk(before, e, all)
    ensures SyncedOk(after, e, all)
  {
    if e.snapshot.redisSynced {
      forall r | r in Reservations(e) ensures Delivered(after, r, Amount(e.snapshot.redisActual), |all|) {
        DeliveredStays(before, after, r, Amount(e.snapshot.redisActual), |all|);
      }
    }
  }

  /** Markers that only evolve keep every delivery that any synchronisation counts on. */
  lemma MirrorKeepsInv(sys: System, mirror: Q.Mirror)
    requires Inv(sys) && Q.WellFormed(mirror)
    requires MirrorEvolves(sys.mirror, mirror) && MarkersFollow(mirror, sys.issued)
    ensures Inv(sys.(mirror := mirror))
  {
    hide MarkerFollows, OwnMarkers, CorrectionsOk, C.Coherent, Q.WellFormed, MirrorEvolves, SyncOk, SyncedOk;
    forall n | n in sys.syncs
      ensures SyncOk(sys.ledger.entries, mirror, sys.syncs[n], IssuedTo(sys.issued, sys.syncs[n].requestId))
    {
      SyncStays(sys.ledger.entries, sys.mirror, mirror, sys.syncs[n], IssuedTo(sys.issued, sys.syncs[n].requestId));
    }
    forall id | id in sys.ledger.entries ensures SyncedOk(mirror, sys.ledger.entries[id], IssuedTo(sys.issued, id)) {
      SyncedStays(sys.mirror, mirror, sys.ledger.entries[id], IssuedTo(sys.issued, id));
    }
  }

  // Reading one fact off the invariant.

  lemma InvSyncs(sys: System)
    requires Inv(sys)
    ensures forall n :: n in sys.syncs ==>
              SyncOk(sys.ledger.entries, sys.mirror, sys.syncs[n], IssuedTo(sys.issued, sys.syncs[n].requestId))
  {
    hide SyncOk, SyncedOk, OwnMarkers, CorrectionsOk, MarkerFollows;
  }

  lemma InvRequest(sys: System, id: nat)
    requires Inv(sys)
    ensures CorrectionsOk(sys.ledger, id, IssuedTo(sys.issued, id))
    ensures id in sys.ledger.entries ==>
              OwnMarkers(id, sys.ledger.entries[id]) && sys.ledger.entries[id].periodId in sys.ledger.terms
              && SyncedOk(sys.mirror, sys.ledger.entries[id], IssuedTo(sys.issued, id))
  {
    hide SyncOk, SyncedOk, OwnMarkers, CorrectionsOk, MarkerFollows, C.EntryOk;
  }

  lemma InvMirror(sys: System)
    requires Inv(sys)
    ensures Q.WellFormed(sys.mirror) && MarkersFollow(sys.mirror, sys.issued)
  {
    hide SyncOk, SyncedOk, OwnMarkers, CorrectionsOk, MarkerFollows, Q.WellFormed;
  }

  lemma ScriptFollows(mirror: Q.Mirror, script: Q.Script, k: Q.MarkerKey, all: seq<Q.Correction>)
    requires Q.WellFormed(mirror) && !script.Correct? && k in Q.Eval(mirror, script).mirror.markers
    requires k in mirror.markers ==> MarkerFollows(mirror.markers[k], all)
    ensures MarkerFollows(Q.Eval(mirror, script).mirror.markers[k], all)
  {
    Q.ScriptWritesOneMarker(mirror, script, k);
    assert k in mirror.markers ==> Q.MarkerOk(k, mirror.markers[k]);
    hide Q.WellFormed, Q.Verify, Q.Exceeded;
  }

  lemma ScriptEvolves(mirror: Q.Mirror, script: Q.Script)
    requires Q.WellFormed(mirror)
    ensures MirrorEvolves(mirror, Q.Eval(mirror, script).mirror)
  {
    hide Q.Eval, Q.Evolves, Q.WellFormed;
    forall k | k in mirror.markers
      ensures k in Q.Eval(mirror, script).mirror.markers
              && Q.Evolves(mirror.markers[k], Q.Eval(mirror, script).mirror.markers[k])
    {
      Q.SettledIsFinal(mirror, script, k);
    }
  }

  lemma ScriptKeepsInv(sys: System, script: Q.Script)
    requires Inv(sys) && !script.Correct?
    ensures Inv(sys.(mirror := Q.Eval(sys.mirror, script).mirror))
  {
    var mirror := Q.Eval(sys.mirror, script).mirror;
    InvMirror(sys);
    hide Q.Eval, Inv, MarkerFollows, Q.Evolves, Q.WellFormed;
    Q.EvalKeepsWellFormed(sys.mirror, script);
    ScriptEvolves(sys.mirror, script);
    forall k | k in mirror.markers ensures MarkerFollows(mirror.markers[k], IssuedTo(sys.issued, k.requestId)) {
      ScriptFollows(sys.mirror, script, k, IssuedTo(sys.issued, k.requestId));
    }
    hide MirrorEvolves;
    MirrorKeepsInv(sys, mirror);
  }

  // ----- the steps of a synchronisation

  lemma SyncsKeepInv(sys: System, syncs: map<nat, Sync>)
    requires Inv(sys)
    requires forall n :: n in syncs ==>
               SyncOk(sys.ledger.entries, sys.mirror, syncs[n], IssuedTo(sys.issued, syncs[n].requestId))
    ensures Inv(sys.(syncs := syncs))
  {
    hide CorrectionsOk, MarkerFollows, OwnMarkers, C.Coherent, Q.WellFormed, SyncOk, SyncedOk;
  }

  lemma BeginIsOk(sys: System, id: nat, all: seq<Q.Correction>)
    requires id in sys.ledger.entries && !L.IsOpen(sys.ledger.entries[id].status) && CorrectionsOk(sys.ledger, id, all)
    ensures var e := sys.ledger.entries[id];
            SyncOk(sys.ledger.entries, sys.mirror, Sync(id, e.snapshot.redisActual, e.snapshot.redisCorrection, 0, false), all)
  {
  }

  lemma BeginKeepsInv(sys: System, sync: nat, id: nat)
    requires Inv(sys)
    ensures Inv(AfterBegin(sys, sync, id))
  {
    var after := AfterBegin(sys, sync, id);
    if after != sys {
      InvRequest(sys, id);
      InvSyncs(sys);
      BeginIsOk(sys, id, IssuedTo(sys.issued, id));
      hide Inv, SyncOk, CorrectionsOk, SyncedOk;
      SyncsKeepInv(sys, after.syncs);
    }
  }

  lemma CrashKeepsInv(sys: System, sync: nat)
    requires Inv(sys)
    ensures Inv(sys.(syncs := sys.syncs - {sync}))
  {
    InvSyncs(sys);
    hide Inv, SyncOk;
    SyncsKeepInv(sys, sys.syncs - {sync});
  }

  /** An accepted settlement has delivered the amounts. */
  lemma SettleDelivers(mirror: Q.Mirror, r: Q.Reservation, actual: Q.Amounts)
    requires Q.WellFormed(mirror) && !Q.SettleStep(mirror, r, actual).outcome.Refused?
    ensures Delivered(Q.SettleStep(mirror, r, actual).mirror, r, actual, 0)
  {
    assert Q.MarkerOk(r.markerKey, mirror.markers[r.markerKey]);
    hide Q.WellFormed, Q.Exceeded;
  }

  /** A correction of a settled marker is never refused and leaves it at that version or a later one. */
  lemma CorrectDelivers(mirror: Q.Mirror, r: Q.Reservation, actual: Q.Amounts, all: seq<Q.Correction>, version: nat)
    requires Q.WellFormed(mirror) && Delivered(mirror, r, actual, 0) && Q.Issued(all) && 1 <= version <= |all|
    requires MarkerFollows(mirror.markers[r.markerKey], all)
    ensures var c := all[version - 1];
            var reply := Q.CorrectStep(mirror, r, c.cost, c.operationId, c.version);
            reply.outcome.Ok? && Delivered(reply.mirror, r, actual, version)
            && MarkerFollows(reply.mirror.markers[r.markerKey], all)
  {
    assert Q.MarkerOk(r.markerKey, mirror.markers[r.markerKey]);
    Q.DeliverOne(mirror.markers[r.markerKey], all, version);
    hide Q.WellFormed, Q.Issued, Q.Consistent;
  }

  /** The settlement half of one step. */
  lemma AdvanceSettles(sys: System, r: Q.Reservation, actual: Q.Amounts)
    requires Inv(sys)
    ensures var reply := Q.SettleStep(sys.mirror, r, actual);
            Inv(sys.(mirror := reply.mirror)) && (!reply.outcome.Refused? ==> Delivered(reply.mirror, r, actual, 0))
  {
    InvMirror(sys);
    assert Q.Eval(sys.mirror, Q.Script.Settle(r, actual)) == Q.SettleStep(sys.mirror, r, actual);
    hide Inv, Q.SettleStep, Delivered, Q.Eval, Q.WellFormed;
    ScriptKeepsInv(sys, Q.Script.Settle(r, actual));
    if !Q.SettleStep(sys.mirror, r, actual).outcome.Refused? { SettleDelivers(sys.mirror, r, actual); }
  }

  /** Delivering an issued correction keeps every marker in line with the corrections of its own request. */
  lemma CorrectFollows(mirror: Q.Mirror, issued: map<nat, seq<Q.Correction>>, r: Q.Reservation, actual: Q.Amounts, version: nat)
    requires Q.WellFormed(mirror) && MarkersFollow(mirror, issued) && Delivered(mirror, r, actual, 0)
    requires var all := IssuedTo(issued, r.markerKey.requestId); Q.Issued(all) && 1 <= version <= |all|
    ensures var c := IssuedTo(issued, r.markerKey.requestId)[version - 1];
            var reply := Q.CorrectStep(mirror, r, c.cost, c.operationId, c.version);
            reply.outcome.Ok? && Delivered(reply.mirror, r, actual, version) && MarkersFollow(reply.mirror, issued)
  {
    var all := IssuedTo(issued, r.markerKey.requestId);
    var c := all[version - 1];
    var script := Q.Correct(r, c.cost, c.operationId, c.version);
    assert Q.Eval(mirror, script) == Q.CorrectStep(mirror, r, c.cost, c.operationId, c.version);
    var after := Q.CorrectStep(mirror, r, c.cost, c.operationId, c.version).mirror;
    assert MarkerFollows(mirror.markers[r.markerKey], all);
    hide Q.CorrectStep, Q.Eval, Q.WellFormed, MarkerFollows, Q.Issued;
    CorrectDelivers(mirror, r, actual, all, version);
    forall k | k in after.markers ensures MarkerFollows(after.markers[k], IssuedTo(issued, k.requestId)) {
      if k != r.markerKey {
        Q.ScriptWritesOneMarker(mirror, script, k);
        assert MarkerFollows(mirror.markers[k], IssuedTo(issued, k.requestId));
      }
    }
  }

  /** The correction half: the request's own marker, already settled, takes a correction issued to that request. */
  lemma AdvanceCorrects(sys: System, r: Q.Reservation, actual: Q.Amounts, version: nat)
    requires Inv(sys) && Delivered(sys.mirror, r, actual, 0)
    requires 1 <= version <= |IssuedTo(sys.issued, r.markerKey.requestId)|
    ensures var c := IssuedTo(sys.issued, r.markerKey.requestId)[version - 1];
            var reply := Q.CorrectStep(sys.mirror, r, c.cost, c.operationId, c.version);
            Inv(sys.(mirror := reply.mirror)) && reply.outcome.Ok? && Delivered(reply.mirror, r, actual, version)
  {
    hide Inv, MarkersFollow, Q.WellFormed, Delivered, Q.CorrectStep, Q.Issued, SyncedOk, OwnMarkers, MirrorEvolves;
    InvMirror(sys);
    InvRequest(sys, r.markerKey.requestId);
    var c := IssuedTo(sys.issued, r.markerKey.requestId)[version - 1];
    var script := Q.Correct(r, c.cost, c.operationId, c.version);
    assert Q.Eval(sys.mirror, script) == Q.CorrectStep(sys.mirror, r, c.cost, c.operationId, c.version);
    assert Q.Issued(IssuedTo(sys.issued, r.markerKey.requestId));
    hide Q.Eval, CorrectionsOk;
    CorrectFollows(sys.mirror, sys.issued, r, actual, version);
    Q.EvalKeepsWellFormed(sys.mirror, script);
    ScriptEvolves(sys.mirror, script);
    MirrorKeepsInv(sys, Q.CorrectStep(sys.mirror, r, c.cost, c.operationId, c.version).mirror);
  }

  /** One call to the mirror keeps the invariant, and a call that is not refused delivers what it brings. */
  lemma CallToMirror(sys: System, run: Sync)
    requires Inv(sys) && SyncOk(sys.ledger.entries, sys.mirror, run, IssuedTo(sys.issued, run.requestId))
    requires run.done < |Reservations(sys.ledger.entries[run.requestId])|
    ensures var r := Reservations(sys.ledger.entries[run.requestId])[run.done];
            var reply := Delivery(sys.mirror, r, run);
            Inv(sys.(mirror := reply.mirror))
            && (!reply.outcome.Refused? ==>
                  Delivered(reply.mirror, r, Amount(run.actual), if run.settled then Version(run.correction) else 0))
  {
    hide Inv, Q.SettleStep, Q.CorrectStep, CorrectionsOk, SyncedOk;
    InvRequest(sys, run.requestId);
    var r := Reservations(sys.ledger.entries[run.requestId])[run.done];
    assert r.markerKey.requestId == run.requestId by {
      hide SyncOk, Delivered;
      assert r in Reservations(sys.ledger.entries[run.requestId]);
    }
    assert run.settled ==> Delivered(sys.mirror, r, Amount(run.actual), 0);
    assert run.correction.Some? ==>
             1 <= run.correction.value.version <= |IssuedTo(sys.issued, run.requestId)|
             && IssuedTo(sys.issued, run.requestId)[run.correction.value.version - 1] == run.correction.value;
    hide SyncOk, Delivered, OwnMarkers;
    if run.settled && run.correction.Some? {
      AdvanceCorrects(sys, r, Amount(run.actual), run.correction.value.version);
    } else {
      AdvanceSettles(sys, r, Amount(run.actual));
    }
  }

  lemma AdvanceKeepsInv(sys: System, sync: nat)
    requires Inv(sys)
    ensures Inv(AfterAdvance(sys, sync))
  {
    hide Inv, Delivered, Delivery, SyncOk;
    InvSyncs(sys);
    var after := AfterAdvance(sys, sync);
    if after != sys {
      var run := sys.syncs[sync];
      CallToMirror(sys, run);
      if sync !in after.syncs {
        CrashKeepsInv(sys, sync);
      } else {
        var moved := sys.(mirror := after.mirror);
        InvSyncs(moved);
        assert SyncOk(moved.ledger.entries, moved.mirror, moved.syncs[sync], IssuedTo(moved.issued, run.requestId));
        AdvanceKeepsSync(moved, run, after.syncs[sync]);
        SyncsKeepInv(moved, after.syncs);
      }
    }
  }

  /** The program counter moves past a marker only once that marker has everything this synchronisation brings. */
  lemma AdvanceKeepsSync(sys: System, run: Sync, next: Sync)
    requires SyncOk(sys.ledger.entries, sys.mirror, run, IssuedTo(sys.issued, run.requestId))
    requires run.done < |Reservations(sys.ledger.entries[run.requestId])|
    requires next == if run.settled || run.correction.None? then run.(done := run.done + 1, settled := false)
                     else run.(settled := true)
    requires Delivered(sys.mirror, Reservations(sys.ledger.entries[run.requestId])[run.done], Amount(run.actual),
                       if run.settled then Version(run.correction) else 0)
    ensures SyncOk(sys.ledger.entries, sys.mirror, next, IssuedTo(sys.issued, next.requestId))
  {
    hide Delivered;
  }

  /** An unchanged correction is the last one issued, and every marker has seen it. */
  lemma FinishIsSynced(mirror: Q.Mirror, s: L.State, run: Sync, all: seq<Q.Correction>)
    requires SyncOk(s.entries, mirror, run, all) && CorrectionsOk(s, run.requestId, all)
    requires run.done == |Reservations(s.entries[run.requestId])|
    requires s.entries[run.requestId].snapshot.redisCorrection == run.correction
    ensures var e := s.entries[run.requestId];
            SyncedOk(mirror, e.(snapshot := e.snapshot.(redisSynced := true)), all)
  {
    hide Delivered;
    assert Version(run.correction) == |all|;
  }

  /** Marking an entry changes nothing any other synchronisation has read. */
  lemma FinishKeepsInv(sys: System, sync: nat)
    requires Inv(sys)
    ensures Inv(AfterFinish(sys, sync))
  {
    var after := AfterFinish(sys, sync);
    if after != sys {
      var run := sys.syncs[sync];
      var id := run.requestId;
      var all := IssuedTo(sys.issued, id);
      InvSyncs(sys);
      InvRequest(sys, id);
      assert SyncOk(sys.ledger.entries, sys.mirror, run, all);
      var e := sys.ledger.entries[id];
      var ref := L.Ref(id, e.periodId);
      if e.snapshot.redisCorrection == run.correction {
        FinishIsSynced(sys.mirror, sys.ledger, run, all);
        hide Inv, SyncOk, CorrectionsOk, SyncedOk, OwnMarkers, L.FinishSyncStep;
        MarkKeepsInv(sys, id, run.correction);
      }
      hide Inv, SyncOk, CorrectionsOk, SyncedOk, OwnMarkers;
      assert after == sys.(ledger := after.ledger, syncs := sys.syncs - {sync});
      CrashKeepsInv(sys.(ledger := after.ledger), sync);
    }
  }

  lemma InvCoherent(sys: System)
    requires Inv(sys)
    ensures C.Coherent(sys.ledger)
  {
    hide SyncOk, SyncedOk, OwnMarkers, CorrectionsOk, MarkerFollows, C.Coherent, Q.WellFormed;
  }

  lemma Assemble(sys: System)
    requires C.Coherent(sys.ledger) && Q.WellFormed(sys.mirror) && MarkersFollow(sys.mirror, sys.issued)
    requires forall id :: CorrectionsOk(sys.ledger, id, IssuedTo(sys.issued, id))
    requires forall id :: id in sys.ledger.entries ==> OwnMarkers(id, sys.ledger.entries[id])
    requires forall id :: id in sys.ledger.entries ==> SyncedOk(sys.mirror, sys.ledger.entries[id], IssuedTo(sys.issued, id))
    requires forall n :: n in sys.syncs ==>
               SyncOk(sys.ledger.entries, sys.mirror, sys.syncs[n], IssuedTo(sys.issued, sys.syncs[n].requestId))
    ensures Inv(sys)
  {
    hide SyncOk, SyncedOk, OwnMarkers, CorrectionsOk, MarkerFollows, C.Coherent, Q.WellFormed;
  }

  lemma MarkKeepsInv(sys: System, id: nat, seen: Option<Q.Correction>)
    requires Inv(sys) && id in sys.ledger.entries && sys.ledger.entries[id].snapshot.redisCorrection == seen
    requires var e := sys.ledger.entries[id];
             SyncedOk(sys.mirror, e.(snapshot := e.snapshot.(redisSynced := true)), IssuedTo(sys.issued, id))
    ensures var ref := L.Ref(id, sys.ledger.entries[id].periodId);
            Inv(sys.(ledger := L.FinishSyncStep(sys.ledger, ref, seen).state))
  {
    var ref := L.Ref(id, sys.ledger.entries[id].periodId);
    var after := L.FinishSyncStep(sys.ledger, ref, seen).state;
    hide Inv;
    InvRequest(sys, id);
    InvSyncs(sys);
    InvMirror(sys);
    assert C.Coherent(after) by {
      InvCoherent(sys);
      hide C.Coherent;
      C.FinishSyncKeepsCoherent(sys.ledger, ref, seen);
    }
    hide C.Coherent, Q.WellFormed, SyncOk, SyncedOk, MarkersFollow;
    hide CorrectionsOk, OwnMarkers;
    forall n | n in sys.syncs
      ensures SyncOk(after.entries, sys.mirror, sys.syncs[n], IssuedTo(sys.issued, sys.syncs[n].requestId))
    {
      MarkedSync(sys.ledger.entries, after.entries, sys.mirror, sys.syncs[n], IssuedTo(sys.issued, sys.syncs[n].requestId), id);
    }
    forall j
      ensures CorrectionsOk(after, j, IssuedTo(sys.issued, j))
      ensures j in after.entries ==>
                OwnMarkers(j, after.entries[j]) && SyncedOk(sys.mirror, after.entries[j], IssuedTo(sys.issued, j))
    {
      MarkedRequest(sys, id, seen, j);
    }
    Assemble(sys.(ledger := after));
  }

  lemma MarkedRequest(sys: System, id: nat, seen: Option<Q.Correction>, j: nat)
    requires Inv(sys) && id in sys.ledger.entries && sys.ledger.entries[id].snapshot.redisCorrection == seen
    requires var e := sys.ledger.entries[id];
             SyncedOk(sys.mirror, e.(snapshot := e.snapshot.(redisSynced := true)), IssuedTo(sys.issued, id))
    ensures var after := L.FinishSyncStep(sys.ledger, L.Ref(id, sys.ledger.entries[id].periodId), seen).state;
            && CorrectionsOk(after, j, IssuedTo(sys.issued, j))
            && (j in after.entries ==>
                  OwnMarkers(j, after.entries[j]) && SyncedOk(sys.mirror, after.entries[j], IssuedTo(sys.issued, j)))
  {
    hide Inv, C.Coherent, Q.Issued, SyncedOk;
    InvRequest(sys, j);
  }

  lemma MarkedSync(entries: map<nat, L.Entry>, after: map<nat, L.Entry>, mirror: Q.Mirror, run: Sync, all: seq<Q.Correction>, id: nat)
    requires SyncOk(entries, mirror, run, all) && id in entries
    requires var e := entries[id]; after == entries[id := e.(snapshot := e.snapshot.(redisSynced := true))]
    ensures SyncOk(after, mirror, run, all)
  {
    hide Delivered;
  }

  lemma NextKeepsInv(sys: System, event: Event)
    requires Inv(sys) && Possible(event)
    ensures Inv(Next(sys, event))
  {
    hide Inv;
    match event
    case Call(c) => CallKeepsInv(sys, c);
    case Script(script) => ScriptKeepsInv(sys, script);
    case Begin(sync, id) => BeginKeepsInv(sys, sync, id);
    case Advance(sync) => AdvanceKeepsInv(sys, sync);
    case Finish(sync) => FinishKeepsInv(sys, sync);
    case Crash(sync) => CrashKeepsInv(sys, sync);
  }

  lemma {:induction false} RunKeepsInv(sys: System, events: seq<Event>)
    requires Inv(sys) && forall event :: event in events ==> Possible(event)
    ensures Inv(Run(sys, events))
    decreases events
  {
    if events != [] {
      NextKeepsInv(sys, events[0]);
      hide Inv, Next, Possible;
      RunKeepsInv(Next(sys, events[0]), events[1..]);
    }
  }

  lemma InvSynced(sys: System, id: nat, r: Q.Reservation)
    requires Inv(sys) && id in sys.ledger.entries && sys.ledger.entries[id].snapshot.redisSynced
    requires r in Reservations(sys.ledger.entries[id])
    ensures var e := sys.ledger.entries[id];
            Delivered(sys.mirror, r, Amount(e.snapshot.redisActual), 0)
            && Q.CostOf(sys.mirror.markers[r.markerKey])
               == if e.snapshot.redisCorrection.Some? then e.snapshot.redisCorrection.value.cost
                  else Amount(e.snapshot.redisActual).cost
  {
    hide Inv;
    InvRequest(sys, id);
    InvMirror(sys);
    hide Q.WellFormed, Q.Issued;
    var all := IssuedTo(sys.issued, id);
    assert r.markerKey.requestId == id && Delivered(sys.mirror, r, Amount(sys.ledger.entries[id].snapshot.redisActual), |all|);
    hide OwnMarkers, SyncedOk;
    assert MarkerFollows(sys.mirror.markers[r.markerKey], all);
    hide MarkersFollow;
    Q.ConsistentCost(sys.mirror.markers[r.markerKey], all);
  }

  // ----- the ledger's amounts

  lemma NextCarries(sys: System, event: Event, id: nat)
    requires Inv(sys) && M.CarriesAt(sys.ledger, id)
    ensures M.CarriesAt(Next(sys, event).ledger, id)
  {
    InvCoherent(sys);
    hide Inv, C.Coherent, M.CarriesAt, L.Step, Delivery;
    match event
    case Call(c) => M.StepCarries(sys.ledger, c, id);
    case Finish(sync) =>
      if sync in sys.syncs && sys.syncs[sync].requestId in sys.ledger.entries {
        var run := sys.syncs[sync];
        var c := L.Command.FinishSync(L.Ref(run.requestId, sys.ledger.entries[run.requestId].periodId), run.correction);
        M.StepCarries(sys.ledger, c, id);
        FinishIsAStep(sys.ledger, c);
      }
    case _ =>
  }

  lemma FinishIsAStep(s: L.State, c: L.Command)
    requires c.FinishSync?
    ensures L.Step(s, c) == L.FinishSyncStep(s, c.ref, c.seen)
  {
  }

  lemma {:induction false} RunCarries(sys: System, events: seq<Event>, id: nat)
    requires Inv(sys) && M.CarriesAt(sys.ledger, id)
    requires forall event :: event in events ==> Possible(event)
    ensures M.CarriesAt(Run(sys, events).ledger, id)
    decreases events
  {
    if events != [] {
      assert events[0] in events;
      NextKeepsInv(sys, events[0]);
      NextCarries(sys, events[0], id);
      hide Inv, Next, Possible, M.CarriesAt;
      RunCarries(Next(sys, events[0]), events[1..], id);
    }
  }

  function LoggedTokens(s: L.State, id: nat): nat {
    if id in s.logs then s.logs[id].inputTokens + s.logs[id].outputTokens else 0
  }

  /** What an entry that is no longer open has its markers settled at. */
  lemma MirroredAmounts(sys: System, id: nat)
    requires Inv(sys) && M.CarriesAt(sys.ledger, id) && id in sys.ledger.entries && !L.IsOpen(sys.ledger.entries[id].status)
    ensures var e := sys.ledger.entries[id];
            && Amount(e.snapshot.redisActual).tokens == LoggedTokens(sys.ledger, id)
            && (if e.snapshot.redisCorrection.Some? then e.snapshot.redisCorrection.value.cost
                else Amount(e.snapshot.redisActual).cost) == Micro(e.settled)
  {
    InvCoherent(sys);
    hide Inv;
    assert C.EntryOk(id, sys.ledger.entries[id], L.FindLog(sys.ledger, id));
    hide C.Coherent;
  }

  lemma SyncedIsClosed(sys: System, id: nat)
    requires Inv(sys) && id in sys.ledger.entries && sys.ledger.entries[id].snapshot.redisSynced
    ensures !L.IsOpen(sys.ledger.entries[id].status)
  {
    hide Inv;
    InvRequest(sys, id);
  }

  /**
   * Convergence: whatever is interleaved with it, an entry marked as synchronised has every one of its markers settled,
   * counting the tokens of its usage log and costing what the entry has settled.
   */
  lemma SynchronisedMeansConverged(groups: map<nat, L.Group>, events: seq<Event>, id: nat, r: Q.Reservation)
    requires forall event :: event in events ==> Possible(event)
    ensures var sys := Run(Start(groups), events);
            id in sys.ledger.entries && sys.ledger.entries[id].snapshot.redisSynced && r in Reservations(sys.ledger.entries[id]) ==>
              && r.markerKey in sys.mirror.markers
              && var marker := sys.mirror.markers[r.markerKey];
                 && marker.state.SETTLED?
                 && marker.actual == Amount(sys.ledger.entries[id].snapshot.redisActual)
                 && Q.TokensOf(marker) == LoggedTokens(sys.ledger, id)
                 && Q.CostOf(marker) == Micro(sys.ledger.entries[id].settled)
  {
    StartHolds(groups);
    assert M.CarriesAt(Start(groups).ledger, id);
    hide Inv, Run, M.CarriesAt;
    RunKeepsInv(Start(groups), events);
    RunCarries(Start(groups), events, id);
    var sys := Run(Start(groups), events);
    if id in sys.ledger.entries && sys.ledger.entries[id].snapshot.redisSynced && r in Reservations(sys.ledger.entries[id]) {
      InvSynced(sys, id, r);
      SyncedIsClosed(sys, id);
      MirroredAmounts(sys, id);
    }
  }
}
