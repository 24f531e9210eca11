/** What the history of a request says about its fetches: what the ledger holds of a request at the moment it is sent. */
module DispatchHistory {
  import opened Money
  import opened LedgerSpec
  import opened RequestSafety
  import opened GroupRequest
  import C = LedgerCoherence
  import S = LedgerSafety
  import Routes = LedgerRoutes

  // ----- from the dispatch mark to the fetch

  /** What others did since the last event of the request itself. */
  function Interlude(trace: seq<Event>): seq<Command> {
    if trace != [] && trace[|trace| - 1].Others? then Interlude(trace[..|trace| - 1]) + trace[|trace| - 1].commands else []
  }

  /** The last dispatch mark of a marked history; since then there were only others' calls. */
  lemma {:induction false} LastMark(start: State, trace: seq<Event>, ref: Ref) returns (j: nat)
    requires Marked(start, trace, ref)
    ensures j < |trace| && IsMark(start, trace, ref, j) && (forall k :: j < k < |trace| ==> trace[k].Others?)
    decreases trace
  {
    var last: nat := |trace| - 1;
    hide IsMark;
    if IsMark(start, trace, ref, last) {
      j := last;
    } else {
      var front := trace[..last];
      assert Marked(start, front, ref);
      hide Marked;
      j := LastMark(start, front, ref);
      MarkStays(start, trace, ref, j);
    }
  }

  lemma {:induction false} InterludeRuns(start: State, trace: seq<Event>, j: nat)
    requires j < |trace| && !trace[j].Others? && forall k :: j < k < |trace| ==> trace[k].Others?
    ensures Replay(start, trace) == Run(Replay(start, trace[..j + 1]), Interlude(trace))
    decreases trace
  {
    var last: nat := |trace| - 1;
    hide Step;
    if j == last {
      assert trace[..last + 1] == trace;
    } else {
      var front := trace[..last];
      InterludeRuns(start, front, j);
      assert front[..j + 1] == trace[..j + 1];
      C.RunAppends(Replay(start, trace[..j + 1]), Interlude(front), trace[last].commands);
      hide Run;
    }
  }

  lemma {:induction false} InterludeIsForeign(start: State, trace: seq<Event>, ref: Ref, covered: bool)
    requires Safe(start, trace, ref, covered)
    ensures AllForeign(Interlude(trace), ref.requestId)
    decreases trace
  {
    hide EventSafe, Foreign;
    if trace != [] && trace[|trace| - 1].Others? {
      SafeFront(start, trace, ref, covered);
      OthersAreForeign(start, trace, ref, covered);
      hide Safe;
      InterludeIsForeign(start, trace[..|trace| - 1], ref, covered);
    }
  }

  lemma OthersAreForeign(start: State, trace: seq<Event>, ref: Ref, covered: bool)
    requires trace != [] && Safe(start, trace, ref, covered) && trace[|trace| - 1].Others?
    ensures AllForeign(trace[|trace| - 1].commands, ref.requestId)
  {
    assert EventSafe(start, trace[..|trace| - 1], trace[|trace| - 1], ref, covered);
  }

  lemma MarkStays(start: State, trace: seq<Event>, ref: Ref, j: nat)
    requires trace != [] && j < |trace| - 1
    ensures trace[..|trace| - 1][..j + 1] == trace[..j + 1]
    ensures IsMark(start, trace[..|trace| - 1], ref, j) <==> IsMark(start, trace, ref, j)
  {
    assert trace[..|trace| - 1][..j] == trace[..j];
  }

  lemma SafeFront(start: State, trace: seq<Event>, ref: Ref, covered: bool)
    requires trace != [] && Safe(start, trace, ref, covered)
    ensures Safe(start, trace[..|trace| - 1], ref, covered)
  {
    var front := trace[..|trace| - 1];
    hide EventSafe;
    forall i | 0 <= i < |front| ensures EventSafe(start, front[..i], front[i], ref, covered) {
      assert front[..i] == trace[..i] && front[i] == trace[i];
    }
  }

  lemma {:induction false} SafePrefix(start: State, trace: seq<Event>, ref: Ref, covered: bool, n: nat)
    requires n <= |trace| && Safe(start, trace, ref, covered)
    ensures Safe(start, trace[..n], ref, covered)
  {
    hide EventSafe;
    forall i | 0 <= i < n ensures EventSafe(start, trace[..n][..i], trace[..n][i], ref, covered) {
      assert trace[..n][..i] == trace[..i] && trace[..n][i] == trace[i];
    }
  }

  // ----- what others can do to a request that was marked

  /** Sent, with its hold as it was, and open unless an administrator has decided. */
  predicate SentEntry(e: Entry, reserved: nat) {
    e.dispatched && e.reserved == reserved && (e.snapshot.manualFinal || IsOpen(e.status))
  }

  predicate Sent(s: State, id: RequestId, reserved: nat) {
    id in s.entries && SentEntry(s.entries[id], reserved)
  }

  lemma ForeignKeepsSent(s: State, c: Command, id: RequestId, reserved: nat)
    requires Foreign(c, id) && Sent(s, id, reserved)
    ensures Sent(Step(s, c).state, id, reserved)
  {
    hide Used, AllocationNames, AllCny, Allocated, Raised, SumOfCosts, ReconciledLog;
    if Target(c) != Some(id) { S.OnlyTheTargetMoves(s, c, id); }
  }

  lemma {:induction false} ForeignRunKeepsSent(s: State, commands: seq<Command>, id: RequestId, reserved: nat)
    requires AllForeign(commands, id) && Sent(s, id, reserved)
    ensures Sent(Run(s, commands), id, reserved)
    decreases commands
  {
    if commands != [] {
      ForeignKeepsSent(s, commands[0], id, reserved);
      hide Step, Sent;
      ForeignRunKeepsSent(Step(s, commands[0]).state, commands[1..], id, reserved);
    }
  }

  /** Doubt about the request, or a recovery once its lease ran out. */
  predicate Loses(ref: Ref, lease: int, c: Command) {
    (c.MarkUncertain? && c.ref == ref) || (c.RecoverExpired? && c.ref == ref && lease <= c.now)
  }

  function LeaseAfter(ref: Ref, lease: int, c: Command): int {
    if c.MarkDispatched? && c.ref == ref then c.leaseUntil else lease
  }

  predicate LeaseLost(ref: Ref, lease: int, commands: seq<Command>)
    decreases commands
  {
    commands != []
    && (Loses(ref, lease, commands[0]) || LeaseLost(ref, LeaseAfter(ref, lease, commands[0]), commands[1..]))
  }

  predicate Leased(s: State, ref: Ref, lease: int) {
    Known(s, ref) && s.entries[ref.requestId].status.RESERVED? && s.entries[ref.requestId].dispatched
    && s.entries[ref.requestId].leaseUntil == Some(lease)
  }

  predicate Unreserved(s: State, id: RequestId) {
    id in s.entries && !s.entries[id].status.RESERVED?
  }

  lemma ForeignLeases(s: State, c: Command, ref: Ref, lease: int)
    requires Foreign(c, ref.requestId) && Leased(s, ref, lease)
    ensures if Loses(ref, lease, c) then Unreserved(Step(s, c).state, ref.requestId)
            else Leased(Step(s, c).state, ref, LeaseAfter(ref, lease, c))
  {
    hide ReserveStep, ExtendStep, MarkDispatchedStep, HoldStep, SettleStep, ReleaseStep, MarkUncertainStep, RecoverStep,
         ReconcileStep, AdjustStep, FinishSyncStep;
    if Target(c) != Some(ref.requestId) {
      S.OnlyTheTargetMoves(s, c, ref.requestId);
      S.TermsAfter(s, c, ref.periodId);
    } else {
      match c
      case Reconcile(groupId, actor, id, input, authorized) => ReconcilingLeases(s, c, ref, lease);
      case _ => MarkingLeases(s, c, ref, lease);
    }
  }

  lemma ReconcilingLeases(s: State, c: Command, ref: Ref, lease: int)
    requires c.Reconcile? && c.requestId == ref.requestId && Leased(s, ref, lease)
    ensures Step(s, c).state == s
  {
    hide Used, AllocationNames, AllCny, Allocated, Raised, SumOfCosts, Reconciliation;
  }

  lemma MarkingLeases(s: State, c: Command, ref: Ref, lease: int)
    requires c.MarkDispatched? || c.MarkUncertain? || c.RecoverExpired? || c.FinishSync?
    requires c.ref.requestId == ref.requestId && Leased(s, ref, lease)
    ensures if Loses(ref, lease, c) then Unreserved(Step(s, c).state, ref.requestId)
            else Leased(Step(s, c).state, ref, LeaseAfter(ref, lease, c))
  {
    hide ReserveStep, ExtendStep, HoldStep, SettleStep, ReconcileStep, AdjustStep;
  }

  lemma ForeignNeverReserves(s: State, c: Command, id: RequestId)
    requires Foreign(c, id) && Unreserved(s, id)
    ensures Unreserved(Step(s, c).state, id)
  {
    hide Used, AllocationNames, AllCny, Allocated, Raised, SumOfCosts, ReconciledLog;
    if Target(c) != Some(id) { S.OnlyTheTargetMoves(s, c, id); }
  }

  lemma {:induction false} ForeignRunNeverReserves(s: State, commands: seq<Command>, id: RequestId)
    requires AllForeign(commands, id) && Unreserved(s, id)
    ensures Unreserved(Run(s, commands), id)
    decreases commands
  {
    if commands != [] {
      ForeignNeverReserves(s, commands[0], id);
      hide Step, Unreserved;
      ForeignRunNeverReserves(Step(s, commands[0]).state, commands[1..], id);
    }
  }

  /** A marked request stays reserved exactly until its lease is lost. */
  lemma {:induction false} ReservedUntilLeaseLost(s: State, commands: seq<Command>, ref: Ref, lease: int)
    requires AllForeign(commands, ref.requestId) && Leased(s, ref, lease)
    ensures ref.requestId in Run(s, commands).entries
    ensures Run(s, commands).entries[ref.requestId].status.RESERVED? <==> !LeaseLost(ref, lease, commands)
    decreases commands
  {
    if commands != [] {
      var c := commands[0];
      ForeignLeases(s, c, ref, lease);
      hide Step, Leased, Loses, LeaseAfter;
      if Loses(ref, lease, c) {
        ForeignRunNeverReserves(Step(s, c).state, commands[1..], ref.requestId);
      } else {
        ReservedUntilLeaseLost(Step(s, c).state, commands[1..], ref, LeaseAfter(ref, lease, c));
      }
    } else {
      assert Leased(s, ref, lease);
    }
  }

  // ----- the fetch

  lemma MarkLeases(s: State, ref: Ref, leaseUntil: int)
    requires S.Accepted(Step(s, Command.MarkDispatched(ref, leaseUntil)).outcome)
    ensures ref.requestId in s.entries && s.entries[ref.requestId].status.RESERVED?
    ensures var after := Step(s, Command.MarkDispatched(ref, leaseUntil)).state;
            Leased(after, ref, leaseUntil) && Sent(after, ref.requestId, s.entries[ref.requestId].reserved)
  {
    S.DispatchNeedsAReservation(s, ref, leaseUntil);
    assert Step(s, Command.MarkDispatched(ref, leaseUntil)) == MarkDispatchedStep(s, ref, leaseUntil);
  }

  lemma SinceTheMark(start: State, before: seq<Event>, ref: Ref, j: nat)
    requires j < |before| && IsMark(start, before, ref, j) && AllForeign(Interlude(before), ref.requestId)
    requires Replay(start, before) == Run(Replay(start, before[..j + 1]), Interlude(before))
    ensures var marked, s := Replay(start, before[..j]), Replay(start, before);
            && ref.requestId in marked.entries && marked.entries[ref.requestId].status.RESERVED?
            && Sent(s, ref.requestId, marked.entries[ref.requestId].reserved)
            && (s.entries[ref.requestId].status.RESERVED? <==> !LeaseLost(ref, before[j].c.leaseUntil, Interlude(before)))
  {
    var marked, lease := Replay(start, before[..j]), before[j].c.leaseUntil;
    MarkLeases(marked, ref, lease);
    assert before[..j + 1][..j] == before[..j];
    assert Replay(start, before[..j + 1]) == Step(marked, before[j].c).state;
    hide Step, Replay, Run, Interlude, LeaseLost, Leased;
    ForeignRunKeepsSent(Replay(start, before[..j + 1]), Interlude(before), ref.requestId, marked.entries[ref.requestId].reserved);
    ReservedUntilLeaseLost(Replay(start, before[..j + 1]), Interlude(before), ref, lease);
  }

  lemma AfterTheMark(start: State, before: seq<Event>, ref: Ref, covered: bool) returns (j: nat)
    requires Safe(start, before, ref, covered) && Marked(start, before, ref)
    ensures j < |before| && IsMark(start, before, ref, j) && (forall k :: j < k < |before| ==> before[k].Others?)
    ensures var marked, s := Replay(start, before[..j]), Replay(start, before);
            && ref.requestId in marked.entries && marked.entries[ref.requestId].status.RESERVED?
            && Sent(s, ref.requestId, marked.entries[ref.requestId].reserved)
            && (s.entries[ref.requestId].status.RESERVED? <==> !LeaseLost(ref, before[j].c.leaseUntil, Interlude(before)))
  {
    j := LastMark(start, before, ref);
    assert before[j].Own?;
    hide Step, Safe, Run, Marked, Interlude, LeaseLost, Sent, Replay, IsMark;
    InterludeIsForeign(start, before, ref, covered);
    InterludeRuns(start, before, j);
    SinceTheMark(start, before, ref, j);
  }

  lemma MarkOfPrefix(start: State, trace: seq<Event>, ref: Ref, i: nat, j: nat)
    requires j < i <= |trace| && IsMark(start, trace[..i], ref, j)
    ensures IsMark(start, trace, ref, j) && trace[..i][..j] == trace[..j]
  {
    assert trace[..i][..j] == trace[..j];
  }

  /**
   * Every fetch follows an accepted dispatch mark of a reserved entry, with only others' calls in between. At the fetch
   * the entry is dispatched and holds what it held at the mark, open unless an administrator has decided; and it is still
   * reserved exactly if none of those calls lost its lease.
   */
  lemma FetchedAfterMark(start: State, trace: seq<Event>, ref: Ref, covered: bool, i: nat) returns (j: nat)
    requires Safe(start, trace, ref, covered) && i < |trace| && trace[i].Fetch?
    ensures j < i && IsMark(start, trace, ref, j) && (forall k :: j < k < i ==> trace[k].Others?)
    ensures var before, s := Replay(start, trace[..j]), Replay(start, trace[..i]);
            && ref.requestId in before.entries && before.entries[ref.requestId].status.RESERVED?
            && Sent(s, ref.requestId, before.entries[ref.requestId].reserved)
            && (s.entries[ref.requestId].status.RESERVED?
                <==> !LeaseLost(ref, trace[j].c.leaseUntil, Interlude(trace[..i])))
  {
    assert EventSafe(start, trace[..i], trace[i], ref, covered);
    hide Step, Safe, Marked, Interlude, LeaseLost, Sent, Replay, IsMark;
    SafePrefix(start, trace, ref, covered, i);
    j := AfterTheMark(start, trace[..i], ref, covered);
    MarkOfPrefix(start, trace, ref, i, j);
    assert forall k :: j <= k < i ==> trace[..i][k] == trace[k];
  }

  // ----- a fetch after recovery

  /** Whenever a lease runs out right after the mark, recovery can come before the fetch. */
  lemma RecoveryMayComeFirst(start: State, trace: seq<Event>, ref: Ref, covered: bool)
    requires Safe(start, trace, ref, covered) && trace != [] && IsMark(start, trace, ref, |trace| - 1)
    ensures var recovery := Command.RecoverExpired(ref, trace[|trace| - 1].c.leaseUntil);
            var recovered := trace + [Others([recovery])];
            var s := Replay(start, recovered);
            && Safe(start, recovered + [Fetch(Fetches(trace))], ref, covered)
            && ref.requestId in s.entries && s.entries[ref.requestId].dispatched
            && s.entries[ref.requestId].status.RECONCILIATION_REQUIRED?
  {
    var last: nat := |trace| - 1;
    var recovery := Command.RecoverExpired(ref, trace[last].c.leaseUntil);
    var recovered := trace + [Others([recovery])];
    var marked := Replay(start, trace);
    MarkLeases(Replay(start, trace[..last]), ref, trace[last].c.leaseUntil);
    assert Leased(marked, ref, trace[last].c.leaseUntil);
    RecoveryWins(marked, ref, trace[last].c.leaseUntil);
    assert Marked(start, trace, ref);
    hide Step, Safe, Replay, IsMark, Run;
    SafeExtended(start, trace, Others([recovery]), ref, covered);
    assert recovered[..|trace|] == trace;
    assert Marked(start, recovered, ref);
    SafeExtended(start, recovered, Fetch(Fetches(trace)), ref, covered);
  }

  lemma RecoveryWins(s: State, ref: Ref, lease: int)
    requires Leased(s, ref, lease)
    ensures var after := Run(s, [Command.RecoverExpired(ref, lease)]);
            ref.requestId in after.entries && after.entries[ref.requestId].dispatched
            && after.entries[ref.requestId].status.RECONCILIATION_REQUIRED?
  {
    var c := Command.RecoverExpired(ref, lease);
    var after := RecoverStep(s, ref, lease).state;
    assert Step(s, c).state == after;
    hide Step;
    assert [c][1..] == [];
    assert Run(s, [c]) == Run(after, []);
  }

  /** The history of a request that is reserved, marked, recovered by another when its lease ran out, and only then sent. */
  function RecoveredFirst(reserve: Command, ref: Ref, lease: int): seq<Event> {
    [Own(reserve), Own(Command.MarkDispatched(ref, lease)), Others([Command.RecoverExpired(ref, lease)])]
  }

  lemma TwoSafeEvents(start: State, reserve: Command, ref: Ref, lease: int)
    requires reserve.Reserve? && S.Accepted(Step(Step(start, reserve).state, Command.MarkDispatched(ref, lease)).outcome)
    ensures var two := [Own(reserve), Own(Command.MarkDispatched(ref, lease))];
            Safe(start, two, ref, true) && IsMark(start, two, ref, 1) && Fetches(two) == 0
  {
    var mark := Command.MarkDispatched(ref, lease);
    OnlyChargesOverrun(start, reserve);
    OnlyChargesOverrun(Step(start, reserve).state, mark);
    hide Step, Harmless;
    assert Replay(start, []) == start && Safe(start, [], ref, true);
    SafeExtended(start, [], Own(reserve), ref, true);
    assert [] + [Own(reserve)] == [Own(reserve)];
    SafeExtended(start, [Own(reserve)], Own(mark), ref, true);
    assert [Own(reserve)] + [Own(mark)] == [Own(reserve), Own(mark)];
    assert [Own(reserve), Own(mark)][..1] == [Own(reserve)];
  }

  lemma SentAfterRecovery(start: State, reserve: Command, ref: Ref, lease: int)
    requires reserve.Reserve? && S.Accepted(Step(Step(start, reserve).state, Command.MarkDispatched(ref, lease)).outcome)
    ensures var s := Replay(start, RecoveredFirst(reserve, ref, lease));
            && Safe(start, RecoveredFirst(reserve, ref, lease) + [Fetch(0)], ref, true)
            && ref.requestId in s.entries && s.entries[ref.requestId].dispatched
            && s.entries[ref.requestId].status.RECONCILIATION_REQUIRED?
  {
    hide Step, Safe, Replay, IsMark, Fetches;
    var two := [Own(reserve), Own(Command.MarkDispatched(ref, lease))];
    TwoSafeEvents(start, reserve, ref, lease);
    RecoveryMayComeFirst(start, two, ref, true);
    assert two + [Others([Command.RecoverExpired(ref, lease)])] == RecoveredFirst(reserve, ref, lease);
  }

  /** From the empty ledger: at the fetch the entry waits for reconciliation already. */
  lemma RecoveredBeforeTheFetch()
    ensures var history := RecoveredFirst(Routes.RESERVE, Routes.REF, 60_000);
            var s := Replay(S.Empty(Routes.GROUPS), history);
            && Safe(S.Empty(Routes.GROUPS), history + [Fetch(0)], Routes.REF, true)
            && Routes.REF.requestId in s.entries && s.entries[Routes.REF.requestId].dispatched
            && s.entries[Routes.REF.requestId].status.RECONCILIATION_REQUIRED?
  {
    hide Step, Safe, Replay, RecoveredFirst;
    Routes.ReservedRow(S.Empty(Routes.GROUPS));
    MarkOnRow(Step(S.Empty(Routes.GROUPS), Routes.RESERVE).state, NewEntry(Routes.RESERVE.input, Routes.REF.periodId, 10, 0));
    SentAfterRecovery(S.Empty(Routes.GROUPS), Routes.RESERVE, Routes.REF, 60_000);
  }

  lemma MarkOnRow(s: State, e: Entry)
    requires Routes.OneRow(s, e, None) && e.status.RESERVED?
    ensures S.Accepted(Step(s, Command.MarkDispatched(Routes.REF, 60_000)).outcome)
  {
    assert Step(s, Command.MarkDispatched(Routes.REF, 60_000)) == MarkDispatchedStep(s, Routes.REF, 60_000);
  }

  // ----- after the fetch

  predicate IsDispatched(s: State, id: RequestId) {
    id in s.entries && s.entries[id].dispatched
  }

  lemma {:induction false} DispatchedStays(s: State, commands: seq<Command>, id: RequestId)
    requires C.Coherent(s) && IsDispatched(s, id)
    ensures IsDispatched(Run(s, commands), id)
    decreases commands
  {
    hide C.Coherent, Step;
    if commands != [] {
      if s.entries[id].status.RELEASED? {
        S.ReleasedStays(s, commands[0], id);
      } else {
        S.DispatchedReleasesOnlyByReconcile(s, commands[0], id);
      }
      C.StepKeepsCoherent(s, commands[0]);
      DispatchedStays(Step(s, commands[0]).state, commands[1..], id);
    }
  }

  /** Once anything was sent upstream, whatever happens later, the request is released by an administrator or not at all. */
  lemma {:induction false} SentIsNeverSilentlyReleased(start: State, trace: seq<Event>, ref: Ref, covered: bool, since: seq<Command>)
    requires C.Coherent(start) && Safe(start, trace, ref, covered) && Fetches(trace) > 0
    ensures var s := Run(Replay(start, trace), since);
            IsDispatched(s, ref.requestId)
            && (s.entries[ref.requestId].status.RELEASED? ==> s.entries[ref.requestId].snapshot.manualFinal)
  {
    SafeHistoryIsCoherent(start, trace);
    SentIsDispatched(start, trace, ref, covered);
    DispatchedStays(Replay(start, trace), since, ref.requestId);
    C.RunKeepsCoherent(Replay(start, trace), since);
    var s := Run(Replay(start, trace), since);
    assert C.EntryOk(ref.requestId, s.entries[ref.requestId], FindLog(s, ref.requestId));
  }

  lemma {:induction false} SentIsDispatched(start: State, trace: seq<Event>, ref: Ref, covered: bool)
    requires C.Coherent(start) && Safe(start, trace, ref, covered) && Fetches(trace) > 0
    ensures IsDispatched(Replay(start, trace), ref.requestId)
    decreases trace
  {
    var last: nat := |trace| - 1;
    var front := trace[..last];
    if trace[last].Fetch? {
      var j := FetchedAfterMark(start, trace, ref, covered, last);
    } else {
      assert Safe(start, front, ref, covered) by {
        hide EventSafe;
        forall i | 0 <= i < last ensures EventSafe(start, front[..i], front[i], ref, covered) {
          assert front[..i] == trace[..i] && front[i] == trace[i];
        }
      }
      SentIsDispatched(start, front, ref, covered);
      SafeHistoryIsCoherent(start, front);
      hide C.Coherent, Step, Safe;
      match trace[last]
      case Own(c) =>
        var before := Replay(start, front);
        DispatchedStays(before, [c], ref.requestId);
        assert Run(before, [c]) == Step(before, c).state by { assert Run(Step(before, c).state, []) == Step(before, c).state; }
      case Others(commands) => DispatchedStays(Replay(start, front), commands, ref.requestId);
    }
  }
}
