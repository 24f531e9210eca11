/** What a request can rely on while others use the ledger too: the hold it has, and what its commit does to it. */
module RequestSafety {
  import opened Money
  import opened LedgerSpec
  import C = LedgerCoherence
  import S = LedgerSafety
  import R = LedgerReplay
  import Routes = LedgerRoutes
  import Relay

  /** What others may do to this request: dispatch heartbeats, recovery, doubt, reconciliation and synchronisation. */
  predicate Foreign(c: Command, id: RequestId) {
    Target(c) == Some(id) ==>
      c.MarkDispatched? || c.MarkUncertain? || c.RecoverExpired? || c.Reconcile? || c.FinishSync?
  }

  predicate AllForeign(commands: seq<Command>, id: RequestId) {
    forall c :: c in commands ==> Foreign(c, id)
  }

  /** The entry is this request's, nothing is charged to it, and while it is open it holds at least that much. */
  predicate SecuredEntry(e: Entry, ref: Ref, owner: Owner, least: nat, most: nat, extensions: nat) {
    && e.periodId == ref.periodId && e.owner == owner
    && e.snapshot.hold.None?
    && (e.snapshot.manualFinal || (!e.status.SETTLED? && e.settled == 0))
    && (IsOpen(e.status) ==> least <= e.reserved <= most)
    && (forall k :: k in e.snapshot.extensions ==> k <= extensions)
  }

  predicate Secured(s: State, ref: Ref, owner: Owner, least: nat, most: nat, extensions: nat) {
    ref.requestId in s.entries && SecuredEntry(s.entries[ref.requestId], ref, owner, least, most, extensions)
  }

  /** The one charge of a request has taken effect, or an administrator has overruled it. */
  predicate ChargedEntry(e: Entry, commit: Command)
    requires commit.Settle? || commit.Hold?
  {
    || e.snapshot.manualFinal
    || (commit.Settle? && e.status.SETTLED? && e.settled == commit.actual
        && e.snapshot.settlement == Some(commit.usage.(cost := commit.actual)))
    || (commit.Hold? && e.status.RECONCILIATION_REQUIRED? && e.snapshot.hold == Some(commit.hold)
        && e.settled == commit.hold.actual && e.reserved == commit.hold.unresolved)
  }

  predicate Charged(s: State, commit: Command)
    requires commit.Settle? || commit.Hold?
  {
    commit.ref.requestId in s.entries && ChargedEntry(s.entries[commit.ref.requestId], commit)
  }

  // ----- what others leave alone

  lemma ForeignKeepsAbsent(s: State, c: Command, id: RequestId)
    requires Foreign(c, id) && id !in s.entries
    ensures id !in Step(s, c).state.entries
  {
    hide Used, OverLimit, CanAfford;
    if Target(c) != Some(id) { S.OnlyTheTargetMoves(s, c, id); }
  }

  /** How another's call can change the row of a request. */
  predicate Drifts(e: Entry, after: Entry) {
    && after.periodId == e.periodId && after.owner == e.owner && after.reserved == e.reserved
    && after.snapshot.hold == e.snapshot.hold && after.snapshot.extensions == e.snapshot.extensions
    && after.snapshot.settlement == e.snapshot.settlement
    && (IsOpen(after.status) ==> IsOpen(e.status))
    && (after.snapshot.manualFinal || (after.settled == e.settled && after.status.SETTLED? == e.status.SETTLED?))
    && (e.status.RECONCILIATION_REQUIRED? && !after.snapshot.manualFinal ==> after.status.RECONCILIATION_REQUIRED?)
    && (e.snapshot.manualFinal ==> after.snapshot.manualFinal)
  }

  lemma SameDrifts(e: Entry)
    ensures Drifts(e, e)
  {
  }

  lemma ReconcilingDrifts(s: State, groupId: nat, actor: nat, id: RequestId, input: ReconcileInput, authorized: bool)
    requires id in s.entries
    ensures var after := ReconcileStep(s, groupId, actor, id, input, authorized).state;
            id in after.entries && Drifts(s.entries[id], after.entries[id])
  {
    hide Used, AllocationNames, AllCny, Allocated, Raised, SumOfCosts, ReconciledLog, ReconciledEntry, Drifts;
    var e := s.entries[id];
    SameDrifts(e);
    if IsCny(input.actual) {
      ReconciledDrifts(e, input, FindLog(s, id));
    }
  }

  lemma ReconciledDrifts(e: Entry, input: ReconcileInput, log: Option<Log>)
    requires IsCny(input.actual)
    ensures Drifts(e, ReconciledEntry(e, input, input.actual, log))
  {
  }

  lemma MarkingDrifts(s: State, ref: Ref, at: int, seen: Option<Correction>)
    requires ref.requestId in s.entries
    ensures forall after ::
              after in {MarkDispatchedStep(s, ref, at).state, MarkUncertainStep(s, ref).state, RecoverStep(s, ref, at).state,
                        FinishSyncStep(s, ref, seen).state} ==>
                ref.requestId in after.entries && Drifts(s.entries[ref.requestId], after.entries[ref.requestId])
  {
  }

  lemma ForeignDrifts(s: State, c: Command, id: RequestId)
    requires Foreign(c, id) && id in s.entries
    ensures id in Step(s, c).state.entries && Drifts(s.entries[id], Step(s, c).state.entries[id])
  {
    hide Drifts, ReserveStep, ExtendStep, MarkDispatchedStep, HoldStep, SettleStep, ReleaseStep, MarkUncertainStep, RecoverStep,
         ReconcileStep, AdjustStep, FinishSyncStep;
    if Target(c) != Some(id) {
      S.OnlyTheTargetMoves(s, c, id);
      SameDrifts(s.entries[id]);
    } else {
      match c
      case Reconcile(groupId, actor, _, input, authorized) => ReconcilingDrifts(s, groupId, actor, id, input, authorized);
      case MarkDispatched(ref, leaseUntil) => MarkingDrifts(s, ref, leaseUntil, None);
      case MarkUncertain(ref) => MarkingDrifts(s, ref, 0, None);
      case RecoverExpired(ref, now) => MarkingDrifts(s, ref, now, None);
      case FinishSync(ref, seen) => MarkingDrifts(s, ref, 0, seen);
    }
  }

  lemma ForeignKeepsSecured(s: State, c: Command, ref: Ref, owner: Owner, least: nat, most: nat, extensions: nat)
    requires Foreign(c, ref.requestId) && Secured(s, ref, owner, least, most, extensions)
    ensures Secured(Step(s, c).state, ref, owner, least, most, extensions)
  {
    ForeignDrifts(s, c, ref.requestId);
    hide Step;
  }

  lemma ForeignKeepsCharged(s: State, c: Command, commit: Command)
    requires commit.Settle? || commit.Hold?
    requires Foreign(c, commit.ref.requestId) && Charged(s, commit)
    ensures Charged(Step(s, c).state, commit)
  {
    ForeignDrifts(s, c, commit.ref.requestId);
    hide Step;
  }

  lemma {:induction false} ForeignRunKeepsAbsent(s: State, commands: seq<Command>, id: RequestId)
    requires AllForeign(commands, id) && id !in s.entries
    ensures id !in Run(s, commands).entries
    decreases commands
  {
    if commands != [] {
      ForeignKeepsAbsent(s, commands[0], id);
      hide Step;
      ForeignRunKeepsAbsent(Step(s, commands[0]).state, commands[1..], id);
    }
  }

  lemma {:induction false} ForeignRunKeepsSecured(
      s: State, commands: seq<Command>, ref: Ref, owner: Owner, least: nat, most: nat, extensions: nat)
    requires AllForeign(commands, ref.requestId) && Secured(s, ref, owner, least, most, extensions)
    ensures Secured(Run(s, commands), ref, owner, least, most, extensions)
    decreases commands
  {
    if commands != [] {
      ForeignKeepsSecured(s, commands[0], ref, owner, least, most, extensions);
      hide Step, Secured;
      ForeignRunKeepsSecured(Step(s, commands[0]).state, commands[1..], ref, owner, least, most, extensions);
    }
  }

  lemma {:induction false} ForeignRunKeepsCharged(s: State, commands: seq<Command>, commit: Command)
    requires commit.Settle? || commit.Hold?
    requires AllForeign(commands, commit.ref.requestId) && Charged(s, commit)
    ensures Charged(Run(s, commands), commit)
    decreases commands
  {
    if commands != [] {
      ForeignKeepsCharged(s, commands[0], commit);
      hide Step, Charged;
      ForeignRunKeepsCharged(Step(s, commands[0]).state, commands[1..], commit);
    }
  }

  // ----- the request's own calls

  lemma ReserveSecures(s: State, input: ReserveInput, periodKey: nat, now: int, authorized: bool)
    requires input.requestId !in s.entries
    requires S.Accepted(ReserveStep(s, input, periodKey, now, authorized).outcome)
    ensures var ref := Ref(input.requestId, PeriodId(input.owner.groupId, periodKey));
            input.estimate >= 0
            && Secured(ReserveStep(s, input, periodKey, now, authorized).state, ref, input.owner, input.estimate, input.estimate, 0)
  {
    hide Used, CanAfford;
  }

  /** A new extension adds exactly its amount to the hold. */
  lemma ExtendSecures(s: State, ref: Ref, owner: Owner, held: nat, amount: nat, attempt: AttemptSnapshot)
    requires attempt.attemptId > 0 && Secured(s, ref, owner, held, held, attempt.attemptId - 1)
    ensures var r := ExtendStep(s, ref, amount, attempt);
            if S.Accepted(r.outcome) then Secured(r.state, ref, owner, held + amount, held + amount, attempt.attemptId)
            else r.state == s
  {
    hide Used, CanAfford;
  }

  lemma SecuredWeaker(s: State, ref: Ref, owner: Owner, least: nat, most: nat, extensions: nat, low: nat, high: nat, more: nat)
    requires Secured(s, ref, owner, least, most, extensions) && low <= least && most <= high && extensions <= more
    ensures Secured(s, ref, owner, low, high, more)
  {
  }

  lemma ReleaseKeepsSecured(s: State, ref: Ref, owner: Owner, least: nat, most: nat, extensions: nat)
    requires Secured(s, ref, owner, least, most, extensions)
    ensures Secured(ReleaseStep(s, ref).state, ref, owner, least, most, extensions)
  {
  }

  // ----- overruns

  /** The call takes nothing from any period beyond what its request had on hold there. */
  ghost predicate Harmless(s: State, c: Command) {
    forall p :: S.Overrun(s, c, p) == 0
  }

  lemma IdleIsHarmless(s: State, c: Command)
    requires Step(s, c).state == s
    ensures Harmless(s, c)
  {
    hide Step;
  }

  lemma OnlyChargesOverrun(s: State, c: Command)
    requires !c.Settle? && !c.Hold? && !c.Reconcile?
    ensures Harmless(s, c)
  {
    hide Step;
  }

  function Charge(commit: Command): int
    requires commit.Settle? || commit.Hold?
  {
    if commit.Settle? then commit.actual else commit.hold.actual + commit.hold.unresolved
  }

  lemma ClosedRefusesCharges(s: State, commit: Command)
    requires commit.Settle? || commit.Hold?
    requires commit.ref.requestId in s.entries && s.entries[commit.ref.requestId].snapshot.hold.None?
    requires var e := s.entries[commit.ref.requestId]; !IsOpen(e.status) && (e.snapshot.manualFinal || !e.status.SETTLED?)
    ensures S.Accepted(Step(s, commit).outcome) == false && Step(s, commit).state == s
  {
    hide Used, OverLimit;
  }

  /** A charge that the hold covers is harmless, and it takes effect in full or not at all. */
  lemma CommitOnSecured(s: State, commit: Command, owner: Owner, least: nat, most: nat, extensions: nat)
    requires C.Coherent(s) && (commit.Settle? || commit.Hold?)
    requires Secured(s, commit.ref, owner, least, most, extensions)
    ensures S.Accepted(Step(s, commit).outcome) ==> Charged(Step(s, commit).state, commit)
    ensures !S.Accepted(Step(s, commit).outcome) ==> Step(s, commit).state == s
    ensures Charge(commit) <= least ==> Harmless(s, commit)
  {
    var e := s.entries[commit.ref.requestId];
    if Charge(commit) <= least {
      if IsOpen(e.status) {
        forall p ensures S.Overrun(s, commit, p) == 0 { S.ChargeWithinTheHold(s, commit, p); }
      } else {
        ClosedRefusesCharges(s, commit);
        IdleIsHarmless(s, commit);
      }
    }
    if !S.Accepted(Step(s, commit).outcome) { S.RejectionChangesNothing(s, commit); }
    hide Used, OverLimit, C.Coherent, S.Overrun, Harmless;
  }

  /** Committing again after the charge took effect changes nothing. */
  lemma CommitOnCharged(s: State, commit: Command)
    requires C.Coherent(s) && (commit.Settle? || commit.Hold?) && Charged(s, commit)
    ensures Step(s, commit).state == s && Harmless(s, commit)
  {
    assert C.EntryOk(commit.ref.requestId, s.entries[commit.ref.requestId], FindLog(s, commit.ref.requestId));
    assert Step(s, commit).state == s by {
      hide Used, OverLimit, C.Coherent;
    }
    IdleIsHarmless(s, commit);
  }

  // ----- one call of the request after others had their turn

  lemma ReserveAfterOthers(s: State, others: seq<Command>, input: ReserveInput, periodKey: nat, now: int, authorized: bool)
    requires AllForeign(others, input.requestId) && input.requestId !in s.entries
    ensures var c := Command.Reserve(input, periodKey, now, authorized);
            var ref := Ref(input.requestId, PeriodId(input.owner.groupId, periodKey));
            var mid := Run(s, others);
            Harmless(mid, c) && input.requestId !in mid.entries
            && if S.Accepted(Step(mid, c).outcome) then
                 input.estimate >= 0 && Secured(Step(mid, c).state, ref, input.owner, input.estimate, input.estimate, 0)
               else Step(mid, c).state == mid
  {
    var c := Command.Reserve(input, periodKey, now, authorized);
    var mid := Run(s, others);
    ForeignRunKeepsAbsent(s, others, input.requestId);
    OnlyChargesOverrun(mid, c);
    var r := ReserveStep(mid, input, periodKey, now, authorized);
    assert r == Step(mid, c);
    hide Run, Harmless, ReserveStep, Secured;
    if S.Accepted(r.outcome) {
      ReserveSecures(mid, input, periodKey, now, authorized);
    } else {
      S.RejectionChangesNothing(mid, c);
    }
  }

  lemma ExtendAfterOthers(s: State, others: seq<Command>, ref: Ref, owner: Owner, held: nat, amount: nat, attempt: AttemptSnapshot)
    requires AllForeign(others, ref.requestId)
    requires attempt.attemptId > 0 && Secured(s, ref, owner, held, held, attempt.attemptId - 1)
    ensures var c := Command.Extend(ref, amount, attempt);
            var mid := Run(s, others);
            Harmless(mid, c)
            && Secured(mid, ref, owner, held, held + amount, attempt.attemptId)
            && Secured(Step(mid, c).state, ref, owner, held, held + amount, attempt.attemptId)
            && (S.Accepted(Step(mid, c).outcome) ==>
                  Secured(Step(mid, c).state, ref, owner, held + amount, held + amount, attempt.attemptId))
  {
    var c := Command.Extend(ref, amount, attempt);
    var mid := Run(s, others);
    ForeignRunKeepsSecured(s, others, ref, owner, held, held, attempt.attemptId - 1);
    OnlyChargesOverrun(mid, c);
    ExtendSecures(mid, ref, owner, held, amount, attempt);
    assert Step(mid, c) == ExtendStep(mid, ref, amount, attempt);
    var after := Step(mid, c).state;
    hide Run, Harmless, ExtendStep, Secured, Step;
    SecuredWeaker(mid, ref, owner, held, held, attempt.attemptId - 1, held, held + amount, attempt.attemptId);
    if after != mid {
      SecuredWeaker(after, ref, owner, held + amount, held + amount, attempt.attemptId, held, held + amount, attempt.attemptId);
    }
  }

  lemma PassingAfterOthers(s: State, others: seq<Command>, c: Command, ref: Ref, owner: Owner, least: nat, most: nat, extensions: nat)
    requires AllForeign(others, ref.requestId) && Secured(s, ref, owner, least, most, extensions)
    requires c.MarkDispatched? || c.MarkUncertain? || (c.Release? && c.ref == ref)
    ensures var mid := Run(s, others);
            Harmless(mid, c) && Secured(mid, ref, owner, least, most, extensions)
            && Secured(Step(mid, c).state, ref, owner, least, most, extensions)
  {
    var mid := Run(s, others);
    ForeignRunKeepsSecured(s, others, ref, owner, least, most, extensions);
    OnlyChargesOverrun(mid, c);
    hide Run, Harmless, Secured;
    if c.Release? {
      assert Step(mid, c) == ReleaseStep(mid, ref);
      hide Step, ReleaseStep;
      ReleaseKeepsSecured(mid, ref, owner, least, most, extensions);
    } else {
      hide Step;
      ForeignKeepsSecured(mid, c, ref, owner, least, most, extensions);
    }
  }

  /** Not yet charged and secured, or charged already. */
  predicate Committable(s: State, commit: Command, owner: Owner, least: nat, most: nat, extensions: nat)
    requires commit.Settle? || commit.Hold?
  {
    Charged(s, commit) || Secured(s, commit.ref, owner, least, most, extensions)
  }

  /** One try of the commit: harmless when the hold covers it, and charged once it is accepted, now or before. */
  lemma CommitAfterOthers(s: State, others: seq<Command>, commit: Command, owner: Owner, least: nat, most: nat, extensions: nat)
    requires C.Coherent(s) && (commit.Settle? || commit.Hold?) && AllForeign(others, commit.ref.requestId)
    requires Committable(s, commit, owner, least, most, extensions)
    ensures var mid := Run(s, others);
            (Charge(commit) <= least ==> Harmless(mid, commit))
            && Committable(mid, commit, owner, least, most, extensions)
            && Committable(Step(mid, commit).state, commit, owner, least, most, extensions)
            && (S.Accepted(Step(mid, commit).outcome) ==> Charged(Step(mid, commit).state, commit))
  {
    hide Step, Run, C.Coherent, Harmless, Secured, Charged;
    C.RunKeepsCoherent(s, others);
    var mid := Run(s, others);
    if Charged(s, commit) {
      ForeignRunKeepsCharged(s, others, commit);
      CommitOnCharged(mid, commit);
    } else {
      ForeignRunKeepsSecured(s, others, commit.ref, owner, least, most, extensions);
      CommitOnSecured(mid, commit, owner, least, most, extensions);
    }
  }

  lemma DoubtAfterOthers(s: State, others: seq<Command>, commit: Command, owner: Owner, least: nat, most: nat, extensions: nat)
    requires (commit.Settle? || commit.Hold?) && AllForeign(others, commit.ref.requestId)
    requires Committable(s, commit, owner, least, most, extensions)
    ensures var mid := Run(s, others);
            var doubt := Command.MarkUncertain(commit.ref);
            Harmless(mid, doubt)
            && Committable(mid, commit, owner, least, most, extensions)
            && Committable(Step(mid, doubt).state, commit, owner, least, most, extensions)
  {
    hide Step, Run, Harmless, Secured, Charged;
    var mid := Run(s, others);
    var doubt := Command.MarkUncertain(commit.ref);
    OnlyChargesOverrun(mid, doubt);
    if Charged(s, commit) {
      ForeignRunKeepsCharged(s, others, commit);
      ForeignKeepsCharged(mid, doubt, commit);
    } else {
      PassingAfterOthers(s, others, doubt, commit.ref, owner, least, most, extensions);
    }
  }
}
