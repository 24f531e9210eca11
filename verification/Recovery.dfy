/** The recovery of requests whose lease has run out: what a sweep looks for, and what it leaves behind. */
module Recovery {
  import opened Money
  import opened LedgerSpec
  import opened LedgerCoherence

  /** How many entries one sweep takes on. */
  const BATCH: nat := 100

  predicate Expired(e: Entry, now: int) {
    e.status.RESERVED? && e.leaseUntil.Some? && e.leaseUntil.value <= now
  }

  function ExpiredIds(entries: map<RequestId, Entry>, now: int): set<RequestId> {
    set id | id in entries && Expired(entries[id], now)
  }

  function BatchIds(batch: seq<Ref>): set<RequestId> {
    set ref | ref in batch :: ref.requestId
  }

  predicate DistinctRequests(batch: seq<Ref>) {
    forall i, j :: 0 <= i < j < |batch| ==> batch[i].requestId != batch[j].requestId
  }

  predicate NamesExpired(entries: map<RequestId, Entry>, ref: Ref, now: int) {
    ref.requestId in entries && Expired(entries[ref.requestId], now) && ref.periodId == entries[ref.requestId].periodId
  }

  /** The entries whose leases ran out first, in that order, and as many as there are or a sweep takes on. */
  ghost predicate IsBatch(entries: map<RequestId, Entry>, batch: seq<Ref>, now: int) {
    && DistinctRequests(batch)
    && (forall ref :: ref in batch ==> NamesExpired(entries, ref, now))
    && |batch| == (if |ExpiredIds(entries, now)| < BATCH then |ExpiredIds(entries, now)| else BATCH)
    && InOrder(entries, batch, ExpiredIds(entries, now) - BatchIds(batch))
  }

  function LeaseOf(entries: map<RequestId, Entry>, id: RequestId): int {
    if id in entries && entries[id].leaseUntil.Some? then entries[id].leaseUntil.value else 0
  }

  lemma Member<T>(values: set<T>) returns (v: T)
    requires values != {}
    ensures v in values
  {
    v :| v in values;
  }

  method Earliest(entries: map<RequestId, Entry>, ids: set<RequestId>) returns (earliest: RequestId)
    requires ids != {}
    ensures earliest in ids && forall id :: id in ids ==> LeaseOf(entries, earliest) <= LeaseOf(entries, id)
  {
    ghost var some := Member(ids);
    earliest :| earliest in ids;
    var rest := ids - {earliest};
    while rest != {}
      invariant rest <= ids && earliest in ids
      invariant forall id :: id in ids ==> id in rest || LeaseOf(entries, earliest) <= LeaseOf(entries, id)
      decreases |rest|
    {
      ghost var other := Member(rest);
      var id :| id in rest;
      if LeaseOf(entries, id) < LeaseOf(entries, earliest) { earliest := id; }
      rest := rest - {id};
    }
  }

  /** The batch is in the order of its leases, none of which is later than those of the rest. */
  ghost predicate InOrder(entries: map<RequestId, Entry>, batch: seq<Ref>, rest: set<RequestId>) {
    && (forall i, j :: 0 <= i < j < |batch| ==> LeaseOf(entries, batch[i].requestId) <= LeaseOf(entries, batch[j].requestId))
    && (forall ref, id :: ref in batch && id in rest ==> LeaseOf(entries, ref.requestId) <= LeaseOf(entries, id))
  }

  /** The batch so far took the earliest leases; rest are the expired entries it did not take. */
  ghost predicate Taken(entries: map<RequestId, Entry>, batch: seq<Ref>, rest: set<RequestId>, now: int) {
    && DistinctRequests(batch)
    && (forall ref :: ref in batch ==> NamesExpired(entries, ref, now))
    && rest == ExpiredIds(entries, now) - BatchIds(batch)
    && |rest| == |ExpiredIds(entries, now)| - |batch|
    && InOrder(entries, batch, rest)
  }

  lemma NextInOrder(entries: map<RequestId, Entry>, batch: seq<Ref>, rest: set<RequestId>, ref: Ref)
    requires InOrder(entries, batch, rest) && ref.requestId in rest
    requires forall id :: id in rest ==> LeaseOf(entries, ref.requestId) <= LeaseOf(entries, id)
    ensures InOrder(entries, batch + [ref], rest - {ref.requestId})
  {
    hide LeaseOf;
    assert forall i :: 0 <= i < |batch| ==> batch[i] in batch;
  }

  lemma TakeOneMore(entries: map<RequestId, Entry>, batch: seq<Ref>, rest: set<RequestId>, now: int, ref: Ref)
    requires Taken(entries, batch, rest, now) && ref.requestId in rest && NamesExpired(entries, ref, now)
    requires forall id :: id in rest ==> LeaseOf(entries, ref.requestId) <= LeaseOf(entries, id)
    ensures Taken(entries, batch + [ref], rest - {ref.requestId}, now)
  {
    hide NamesExpired, LeaseOf, ExpiredIds, InOrder, DistinctRequests, BatchIds;
    NextInOrder(entries, batch, rest, ref);
    Appended(batch, ref);
    assert rest - {ref.requestId} == ExpiredIds(entries, now) - BatchIds(batch + [ref]);
  }

  lemma Appended(batch: seq<Ref>, ref: Ref)
    requires DistinctRequests(batch) && ref.requestId !in BatchIds(batch)
    ensures DistinctRequests(batch + [ref]) && BatchIds(batch + [ref]) == BatchIds(batch) + {ref.requestId}
  {
    assert forall i :: 0 <= i < |batch| ==> batch[i] in batch && batch[i].requestId in BatchIds(batch);
  }

  lemma NothingTaken(entries: map<RequestId, Entry>, now: int)
    ensures Taken(entries, [], ExpiredIds(entries, now), now)
  {
    hide ExpiredIds;
    assert BatchIds([]) == {};
  }

  method FindExpired(entries: map<RequestId, Entry>, now: int) returns (batch: seq<Ref>)
    ensures IsBatch(entries, batch, now)
  {
    var rest := ExpiredIds(entries, now);
    batch := [];
    hide Taken, LeaseOf, InOrder, IsBatch;
    NothingTaken(entries, now);
    while rest != {} && |batch| < BATCH
      invariant Taken(entries, batch, rest, now) && rest <= ExpiredIds(entries, now) && |batch| <= BATCH
      decreases |rest|
    {
      var id := Earliest(entries, rest);
      TakeOneMore(entries, batch, rest, now, Ref(id, entries[id].periodId));
      batch := batch + [Ref(id, entries[id].periodId)];
      rest := rest - {id};
    }
    TakenIsBatch(entries, batch, rest, now);
  }

  lemma TakenIsBatch(entries: map<RequestId, Entry>, batch: seq<Ref>, rest: set<RequestId>, now: int)
    requires Taken(entries, batch, rest, now) && (rest == {} || |batch| == BATCH) && |batch| <= BATCH
    ensures IsBatch(entries, batch, now)
  {
    hide NamesExpired, InOrder, ExpiredIds, DistinctRequests;
  }

  // ----- a sweep

  datatype Sweep = Sweep(state: State, released: nat, uncertain: nat) {
    function Plus(more: nat, uncertainMore: nat): Sweep {
      Sweep(state, released + more, uncertain + uncertainMore)
    }
  }

  function Recoveries(batch: seq<Ref>, now: int): seq<Command> {
    if batch == [] then [] else [Command.RecoverExpired(batch[0], now)] + Recoveries(batch[1..], now)
  }

  function RecoverAll(s: State, batch: seq<Ref>, now: int): Sweep
    decreases batch
  {
    if batch == [] then Sweep(s, 0, 0)
    else
      var r := RecoverStep(s, batch[0], now);
      RecoverAll(r.state, batch[1..], now).Plus(
        if r.outcome == Recovered(RELEASED) then 1 else 0,
        if r.outcome == Recovered(RECONCILIATION_REQUIRED) then 1 else 0)
  }

  /** A sweep is nothing but single recoveries one after the other. */
  lemma {:induction false} SweepIsARun(s: State, batch: seq<Ref>, now: int)
    ensures RecoverAll(s, batch, now).state == Run(s, Recoveries(batch, now))
    decreases batch
  {
    if batch != [] {
      var recovered := RecoverStep(s, batch[0], now).state;
      assert Step(s, Command.RecoverExpired(batch[0], now)).state == recovered;
      hide Step, RecoverStep;
      assert Recoveries(batch, now)[1..] == Recoveries(batch[1..], now);
      SweepIsARun(recovered, batch[1..], now);
    }
  }

  /** A sweep looks for exactly the entries that recovery acts on. */
  lemma FindsWhatRecovers(s: State, id: RequestId, now: int)
    requires id in s.entries && s.entries[id].periodId in s.terms
    ensures id in ExpiredIds(s.entries, now) <==> RecoverStep(s, Ref(id, s.entries[id].periodId), now).outcome.Recovered?
  {
  }

  /** What becomes of an expired entry: one that was sent is left to be reconciled, any other given back. */
  predicate IsRecovered(e: Entry, after: Entry) {
    after == if e.dispatched then e.(status := RECONCILIATION_REQUIRED, leaseUntil := None) else ReleasedEntry(e)
  }

  lemma RecoversOne(s: State, ref: Ref, now: int)
    requires NamesExpired(s.entries, ref, now) && ref.periodId in s.terms
    ensures var r := RecoverStep(s, ref, now);
            && r.state.entries.Keys == s.entries.Keys && r.state.terms == s.terms
            && IsRecovered(s.entries[ref.requestId], r.state.entries[ref.requestId])
            && (forall id :: id in s.entries && id != ref.requestId ==> r.state.entries[id] == s.entries[id])
            && r.outcome == Recovered(r.state.entries[ref.requestId].status)
            && (r.outcome == Recovered(RELEASED) || r.outcome == Recovered(RECONCILIATION_REQUIRED))
  {
  }

  lemma RestStaysExpired(s: State, next: State, batch: seq<Ref>, now: int)
    requires batch != [] && DistinctRequests(batch) && next.entries.Keys == s.entries.Keys && next.terms == s.terms
    requires forall ref :: ref in batch ==> NamesExpired(s.entries, ref, now) && ref.periodId in s.terms
    requires forall id :: id in s.entries && id != batch[0].requestId ==> next.entries[id] == s.entries[id]
    ensures forall ref :: ref in batch[1..] ==> NamesExpired(next.entries, ref, now) && ref.periodId in next.terms
  {
    hide Expired;
    forall ref | ref in batch[1..] ensures NamesExpired(next.entries, ref, now) && ref.periodId in next.terms {
      assert ref in batch;
      var j :| 1 <= j < |batch| && batch[j] == ref;
      assert batch[0].requestId != batch[j].requestId;
    }
  }

  /** A sweep right after its search recovers all it found, counts each once, and touches nothing else. */
  lemma {:induction false} SweepRecovers(s: State, batch: seq<Ref>, now: int)
    requires DistinctRequests(batch)
    requires forall ref :: ref in batch ==> NamesExpired(s.entries, ref, now) && ref.periodId in s.terms
    ensures var sweep := RecoverAll(s, batch, now);
            && sweep.released + sweep.uncertain == |batch| && sweep.state.entries.Keys == s.entries.Keys
            && (forall id :: id in BatchIds(batch) ==> id in s.entries && IsRecovered(s.entries[id], sweep.state.entries[id]))
            && (forall id :: id in s.entries && id !in BatchIds(batch) ==> sweep.state.entries[id] == s.entries[id])
    decreases batch
  {
    if batch != [] {
      var next := RecoverStep(s, batch[0], now).state;
      RecoversOne(s, batch[0], now);
      hide RecoverStep, IsRecovered, NamesExpired;
      assert batch == [batch[0]] + batch[1..];
      assert BatchIds(batch) == {batch[0].requestId} + BatchIds(batch[1..]);
      RestStaysExpired(s, next, batch, now);
      assert batch[0].requestId !in BatchIds(batch[1..]);
      SweepRecovers(next, batch[1..], now);
    }
  }

  lemma RecoveredIsNotExpired(e: Entry, after: Entry, now: int)
    requires IsRecovered(e, after)
    ensures !Expired(after, now)
  {
  }

  /** So the entries still expired after a sweep are those it had no room for. */
  lemma SweepClears(s: State, batch: seq<Ref>, now: int)
    requires Coherent(s) && IsBatch(s.entries, batch, now)
    ensures var sweep := RecoverAll(s, batch, now);
            && sweep.released + sweep.uncertain == (if |ExpiredIds(s.entries, now)| < 100 then |ExpiredIds(s.entries, now)| else 100)
            && ExpiredIds(sweep.state.entries, now) == ExpiredIds(s.entries, now) - BatchIds(batch)
            && (|ExpiredIds(s.entries, now)| <= 100 ==> ExpiredIds(sweep.state.entries, now) == {})
  {
    var after := RecoverAll(s, batch, now).state;
    var all := ExpiredIds(s.entries, now);
    forall ref | ref in batch ensures NamesExpired(s.entries, ref, now) && ref.periodId in s.terms {
    }
    hide Coherent, RecoverAll, Expired;
    SweepRecovers(s, batch, now);
    forall id ensures id in ExpiredIds(after.entries, now) <==> id in all - BatchIds(batch) {
      if id in BatchIds(batch) { RecoveredIsNotExpired(s.entries[id], after.entries[id], now); }
    }
    CountBatch(batch);
    if |all| <= BATCH {
      assert BatchIds(batch) <= all;
      assert |all - BatchIds(batch)| == |all| - |BatchIds(batch)|;
    }
  }

  lemma {:induction false} CountBatch(batch: seq<Ref>)
    requires DistinctRequests(batch)
    ensures |BatchIds(batch)| == |batch|
    decreases batch
  {
    if batch != [] {
      var front, last := batch[..|batch| - 1], batch[|batch| - 1];
      CountBatch(front);
      assert batch == front + [last];
      assert BatchIds(batch) == BatchIds(front) + {last.requestId};
      assert last.requestId !in BatchIds(front);
    }
  }
}
