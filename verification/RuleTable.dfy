/** The price rules of one channel model, and how creating, updating, archiving and restoring keeps them free of conflicts. */
module RuleTable {
  import opened Money
  import opened CostSchedule
  import R = CostResolution

  datatype RuleInput = RuleInput(
    priority: int, days: seq<int>, startMinute: int, endMinute: int, validFrom: int, validUntil: Option<int>)

  /** A change to a rule: what is not given stays. */
  datatype RulePatch = RulePatch(
    priority: Option<int>, days: Option<seq<int>>, startMinute: Option<int>, endMinute: Option<int>,
    validFrom: Option<int>, validUntil: Option<Option<int>>, enabled: Option<bool>)

  datatype Outcome = Done | NotFound | Archived | BadRange | BadRule | LegacyCurrency | Conflicting(ids: set<nat>)

  function Given<T>(change: Option<T>, current: T): T {
    if change.Some? then change.value else current
  }

  function Merged(r: Rule, patch: RulePatch): Rule {
    r.(priority := Given(patch.priority, r.priority), days := Given(patch.days, r.days),
       startMinute := Given(patch.startMinute, r.startMinute), endMinute := Given(patch.endMinute, r.endMinute),
       validFrom := Given(patch.validFrom, r.validFrom), validUntil := Given(patch.validUntil, r.validUntil),
       enabled := Given(patch.enabled, r.enabled))
  }

  function NewRule(id: nat, input: RuleInput, createdAt: int): Rule {
    Rule(id, input.priority, input.days, input.startMinute, input.endMinute, input.validFrom, input.validUntil, createdAt,
         true, false, true)
  }

  predicate ValidRange(r: Rule) {
    r.validUntil.Some? ==> r.validUntil.value > r.validFrom
  }

  predicate Live(r: Rule) {
    r.enabled && !r.archived
  }

  /** The live rules of a candidate's priority, other than the rule itself. */
  predicate Rival(rules: map<nat, Rule>, id: nat, candidate: Rule) {
    id in rules && id != candidate.id && Live(rules[id]) && rules[id].priority == candidate.priority
  }

  ghost function Conflicts(rules: map<nat, Rule>, candidate: Rule): set<nat> {
    set id | id in rules && Rival(rules, id, candidate) && Overlap(rules[id], candidate)
  }

  ghost predicate NoConflicts(rules: map<nat, Rule>) {
    forall a, b | a in rules && b in rules && a != b && Live(rules[a]) && Live(rules[b]) ::
      rules[a].priority == rules[b].priority ==> !Overlap(rules[a], rules[b])
  }

  /** What a rule about to be written must pass. */
  ghost predicate Passes(rules: map<nat, Rule>, candidate: Rule) {
    && ValidRange(candidate) && ValidRule(candidate)
    && (candidate.enabled ==>
          Conflicts(rules, candidate) == {} && forall id :: Rival(rules, id, candidate) ==> ValidRule(rules[id]))
  }

  /** The times of a rule that may be written: days of the week, minutes of the day, and an end after its beginning. */
  predicate ProperTimes(r: Rule) {
    && r.cny && r.days != [] && (forall i :: 0 <= i < |r.days| ==> 1 <= r.days[i] <= 7)
    && 0 <= r.startMinute < 1440 && 0 <= r.endMinute < 1440 && (r.validUntil.Some? ==> r.validFrom < r.validUntil.value)
  }

  /**
   * A rule passes exactly when its times are proper and, if it is enabled, every other rule of its priority that is
   * enabled and not archived is valid, ends before it begins or begins after it ends, or matches no minute it matches.
   */
  lemma PassesExactly(rules: map<nat, Rule>, candidate: Rule)
    ensures Passes(rules, candidate) <==>
              && ProperTimes(candidate)
              && (candidate.enabled ==>
                    forall id :: id in rules && id != candidate.id && rules[id].enabled && !rules[id].archived
                                 && rules[id].priority == candidate.priority ==>
                      && ValidRule(rules[id])
                      && (|| (rules[id].validUntil.Some? && rules[id].validUntil.value <= candidate.validFrom)
                          || (candidate.validUntil.Some? && candidate.validUntil.value <= rules[id].validFrom)
                          || forall w: nat :: w < 10080 ==> !(Matches(rules[id], w) && Matches(candidate, w))))
  {
    hide Matches;
    if ProperTimes(candidate) {
      assert forall d :: d in candidate.days ==> exists i :: 0 <= i < |candidate.days| && candidate.days[i] == d;
    }
    hide ValidRule;
    assert ValidRule(candidate) && ValidRange(candidate) <==> ProperTimes(candidate) by { ProperIsValid(candidate); }
    assert Conflicts(rules, candidate) == {} <==> forall id :: id in rules && Rival(rules, id, candidate) ==> !Overlap(rules[id], candidate)
    by {
      assert forall id :: id in Conflicts(rules, candidate) <==> id in rules && Rival(rules, id, candidate) && Overlap(rules[id], candidate);
    }
  }

  lemma ProperIsValid(r: Rule)
    ensures ValidRule(r) && ValidRange(r) <==> ProperTimes(r)
  {
    if ValidRule(r) {
      forall i | 0 <= i < |r.days| ensures 1 <= r.days[i] <= 7 { assert r.days[i] in r.days; }
    }
    if ProperTimes(r) {
      forall d | d in r.days ensures 1 <= d <= 7 { var i :| 0 <= i < |r.days| && r.days[i] == d; }
    }
  }

  /** A change sets what it gives and leaves the rest, who the rule is and when it was made among it. */
  lemma MergedMeans(r: Rule, patch: RulePatch)
    ensures var m := Merged(r, patch);
            && (patch.priority.Some? ==> m.priority == patch.priority.value) && (patch.priority.None? ==> m.priority == r.priority)
            && (patch.days.Some? ==> m.days == patch.days.value) && (patch.days.None? ==> m.days == r.days)
            && (patch.startMinute.Some? ==> m.startMinute == patch.startMinute.value)
            && (patch.startMinute.None? ==> m.startMinute == r.startMinute)
            && (patch.endMinute.Some? ==> m.endMinute == patch.endMinute.value) && (patch.endMinute.None? ==> m.endMinute == r.endMinute)
            && (patch.validFrom.Some? ==> m.validFrom == patch.validFrom.value) && (patch.validFrom.None? ==> m.validFrom == r.validFrom)
            && (patch.validUntil.Some? ==> m.validUntil == patch.validUntil.value)
            && (patch.validUntil.None? ==> m.validUntil == r.validUntil)
            && (patch.enabled.Some? ==> m.enabled == patch.enabled.value) && (patch.enabled.None? ==> m.enabled == r.enabled)
            && m.id == r.id && m.createdAt == r.createdAt && m.archived == r.archived && m.cny == r.cny
  {
  }

  /** A new rule is what was given, enabled from the start. */
  lemma NewRuleMeans(id: nat, input: RuleInput, createdAt: int)
    ensures var r := NewRule(id, input, createdAt);
            && r.id == id && r.priority == input.priority && r.days == input.days && r.startMinute == input.startMinute
            && r.endMinute == input.endMinute && r.validFrom == input.validFrom && r.validUntil == input.validUntil
            && r.createdAt == createdAt && r.enabled && !r.archived && r.cny
  {
  }

  lemma OverlapIsSymmetric(left: Rule, right: Rule)
    requires Overlap(left, right)
    ensures Overlap(right, left)
  {
    hide Matches;
  }

  /** Writing a rule that is not live, or that conflicts with no rival, keeps the table free of conflicts. */
  lemma WriteKeepsNoConflicts(rules: map<nat, Rule>, id: nat, r: Rule)
    requires NoConflicts(rules) && r.id == id
    requires Live(r) ==> Conflicts(rules, r) == {}
    ensures NoConflicts(rules[id := r])
  {
    hide Overlap;
    var after := rules[id := r];
    assert forall x :: x in rules && Rival(rules, x, r) && Overlap(rules[x], r) ==> x in Conflicts(rules, r);
    forall a, b | a in after && b in after && a != b && Live(after[a]) && Live(after[b]) && after[a].priority == after[b].priority
      ensures !Overlap(after[a], after[b])
    {
      if Overlap(after[a], after[b]) {
        OverlapIsSymmetric(after[a], after[b]);
      }
    }
  }

  /** A listing of the rules of a table that are not archived, each once, in any order. */
  predicate Lists(listing: seq<Rule>, rules: map<nat, Rule>) {
    R.DistinctIds(listing)
    && forall r :: r in listing ==> r.id in rules && rules[r.id] == r && !r.archived
  }

  lemma ListingIsConflictFree(listing: seq<Rule>, rules: map<nat, Rule>)
    requires NoConflicts(rules) && Lists(listing, rules)
    ensures R.ConflictFree(listing)
  {
    hide Matches;
    forall r, s | r in listing && s in listing && r != s && r.priority == s.priority ensures !Overlap(r, s) {
      assert r.id != s.id;
    }
  }

  /** At any moment at most one listed rule of a priority is active, and the highest of those sets the price. */
  lemma TablePricesByPriority(listing: seq<Rule>, rules: map<nat, Rule>, r: Rule, at: int, offsetMinutes: int)
    requires NoConflicts(rules) && Lists(listing, rules) && r in listing && Active(r, at, offsetMinutes)
    ensures forall s :: s in listing && s != r && s.priority == r.priority ==> !Active(s, at, offsetMinutes)
    ensures R.FindActive(R.SortRules(listing), at, offsetMinutes) == Some(r)
            <==> forall s :: s in listing && Active(s, at, offsetMinutes) ==> s.priority <= r.priority
  {
    ListingIsConflictFree(listing, rules);
    hide Active, Overlap, R.FindActive, R.SortRules, Lists, NoConflicts;
    R.HighestPriorityPrices(listing, r, at, offsetMinutes);
    forall s | s in listing && s != r && s.priority == r.priority ensures !Active(s, at, offsetMinutes) {
      if Active(s, at, offsetMinutes) { NoOverlapNeverTogether(s, r, at, offsetMinutes); }
    }
  }

  class RuleTable {
    var rules: map<nat, Rule>
    var parentArchived: bool

    ghost predicate Valid()
      reads this
    {
      NoConflicts(rules) && forall id :: id in rules ==> rules[id].id == id && (rules[id].archived ==> !rules[id].enabled)
    }

    constructor ()
      ensures Valid() && rules == map[] && !parentArchived
    {
      rules, parentArchived := map[], false;
    }

    /** The rivals a candidate conflicts with; None when one of them is itself no valid rule. */
    method FindConflicts(candidate: Rule) returns (conflicts: Option<set<nat>>)
      requires ValidRule(candidate)
      ensures conflicts.None? <==> exists id :: Rival(rules, id, candidate) && !ValidRule(rules[id])
      ensures conflicts.Some? ==> conflicts.value == Conflicts(rules, candidate)
    {
      hide ValidRule, Overlap;
      var remaining := rules.Keys;
      var found: set<nat> := {};
      while remaining != {}
        invariant remaining <= rules.Keys
        invariant forall id :: id in rules && id !in remaining && Rival(rules, id, candidate) ==> ValidRule(rules[id])
        invariant found == Conflicts(rules, candidate) - remaining
        decreases |remaining|
      {
        var id :| id in remaining;
        if id != candidate.id && Live(rules[id]) && rules[id].priority == candidate.priority {
          var overlap := CostRulesOverlap(rules[id], candidate);
          if overlap.None? {
            assert Rival(rules, id, candidate);
            return None;
          }
          if overlap.value { found := found + {id}; }
        }
        remaining := remaining - {id};
      }
      conflicts := Some(found);
    }

    ghost predicate Acceptable(candidate: Rule)
      reads this
    {
      Passes(rules, candidate)
    }

    method Check(candidate: Rule) returns (outcome: Outcome)
      ensures outcome.Done? <==> Acceptable(candidate)
      ensures outcome.Conflicting? ==> candidate.enabled && outcome.ids == Conflicts(rules, candidate) != {}
      ensures outcome in {Done, BadRange, BadRule} || outcome.Conflicting?
    {
      hide ValidRule, Overlap;
      if !ValidRange(candidate) { return BadRange; }
      if !ValidRule(candidate) { return BadRule; }
      if !candidate.enabled { return Done; }
      var conflicts := FindConflicts(candidate);
      if conflicts.None? { return BadRule; }
      if conflicts.value != {} { return Conflicting(conflicts.value); }
      outcome := Done;
    }

    method CreateCostRule(id: nat, input: RuleInput, createdAt: int) returns (outcome: Outcome)
      requires Valid() && id !in rules
      modifies this`rules
      ensures Valid()
      ensures outcome.Done? <==> !parentArchived && old(Acceptable(NewRule(id, input, createdAt)))
      ensures rules == if outcome.Done? then old(rules)[id := NewRule(id, input, createdAt)] else old(rules)
    {
      if parentArchived { return Archived; }
      var candidate := NewRule(id, input, createdAt);
      outcome := Check(candidate);
      if !outcome.Done? { return; }
      hide Overlap, ValidRule;
      WriteKeepsNoConflicts(rules, id, candidate);
      rules := rules[id := candidate];
    }

    method UpdateCostRule(id: nat, patch: RulePatch) returns (outcome: Outcome)
      requires Valid()
      modifies this`rules
      ensures Valid()
      ensures outcome.Done? <==>
                id in old(rules) && !old(rules)[id].archived && !parentArchived && old(Acceptable(Merged(rules[id], patch)))
      ensures rules == if outcome.Done? then old(rules)[id := Merged(old(rules)[id], patch)] else old(rules)
    {
      if id !in rules { return NotFound; }
      if rules[id].archived || parentArchived { return Archived; }
      var merged := Merged(rules[id], patch);
      outcome := Check(merged);
      if !outcome.Done? { return; }
      hide Overlap, ValidRule;
      WriteKeepsNoConflicts(rules, id, merged);
      rules := rules[id := merged];
    }

    method ArchiveCostRule(id: nat) returns (outcome: Outcome)
      requires Valid()
      modifies this`rules
      ensures Valid()
      ensures outcome.Done? <==> id in old(rules)
      ensures rules == if outcome.Done? then old(rules)[id := old(rules)[id].(archived := true, enabled := false)] else old(rules)
    {
      hide Overlap;
      if id !in rules { return NotFound; }
      if !rules[id].archived {
        WriteKeepsNoConflicts(rules, id, rules[id].(archived := true, enabled := false));
        rules := rules[id := rules[id].(archived := true, enabled := false)];
      } else {
        assert rules == rules[id := rules[id].(archived := true, enabled := false)];
      }
      outcome := Done;
    }

    /** A restored rule comes back disabled, so that only an update, with its check, can make it live again. */
    method RestoreCostRule(id: nat) returns (outcome: Outcome)
      requires Valid()
      modifies this`rules
      ensures Valid()
      ensures outcome.Done? <==> id in old(rules) && !parentArchived && (old(rules)[id].archived ==> old(rules)[id].cny)
      ensures rules == if outcome.Done? && old(rules)[id].archived
                       then old(rules)[id := old(rules)[id].(archived := false, enabled := false)] else old(rules)
    {
      hide Overlap;
      if id !in rules { return NotFound; }
      if parentArchived { return Archived; }
      if !rules[id].archived { return Done; }
      if !rules[id].cny { return LegacyCurrency; }
      WriteKeepsNoConflicts(rules, id, rules[id].(archived := false, enabled := false));
      rules := rules[id := rules[id].(archived := false, enabled := false)];
      outcome := Done;
    }
  }
}
