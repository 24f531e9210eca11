/** Which rule prices a moment: order of precedence, the first active rule, and why the order of the list does not matter. */
module CostResolution {
  import opened Money
  import opened CostSchedule

  /** The effective cost is told apart by its source and its id. */
  datatype Cost = ChannelRule(id: nat) | PublicFallback(id: nat)

  /** Higher priority first, then the later start of validity, then the later creation, then the smaller id. */
  predicate Precedes(l: Rule, r: Rule) {
    if l.priority != r.priority then l.priority > r.priority
    else if l.validFrom != r.validFrom then l.validFrom > r.validFrom
    else if l.createdAt != r.createdAt then l.createdAt > r.createdAt
    else l.id <= r.id
  }

  function Insert(r: Rule, sorted: seq<Rule>): seq<Rule> {
    if sorted == [] || Precedes(r, sorted[0]) then [r] + sorted
    else [sorted[0]] + Insert(r, sorted[1..])
  }

  function SortRules(rules: seq<Rule>): seq<Rule> {
    if rules == [] then [] else Insert(rules[0], SortRules(rules[1..]))
  }

  predicate Sorted(rules: seq<Rule>) {
    forall i, j :: 0 <= i < j < |rules| ==> Precedes(rules[i], rules[j])
  }

  lemma {:induction false} InsertAdds(r: Rule, sorted: seq<Rule>)
    ensures multiset(Insert(r, sorted)) == multiset{r} + multiset(sorted)
    decreases sorted
  {
    hide Precedes;
    if sorted != [] {
      InsertAdds(r, sorted[1..]);
      assert sorted == [sorted[0]] + sorted[1..];
    }
  }

  lemma {:induction false} InsertSorts(r: Rule, sorted: seq<Rule>)
    requires Sorted(sorted)
    ensures Sorted(Insert(r, sorted))
    decreases sorted
  {
    if sorted != [] && !Precedes(r, sorted[0]) {
      var rest := Insert(r, sorted[1..]);
      InsertSorts(r, sorted[1..]);
      InsertAdds(r, sorted[1..]);
      assert Precedes(sorted[0], r);
      hide Precedes;
      forall j | 0 <= j < |rest| ensures Precedes(sorted[0], rest[j]) {
        assert rest[j] in multiset(rest);
        assert rest[j] == r || rest[j] in sorted[1..];
      }
    }
  }

  lemma {:induction false} SortRulesSorts(rules: seq<Rule>)
    ensures Sorted(SortRules(rules)) && multiset(SortRules(rules)) == multiset(rules)
    decreases rules
  {
    if rules != [] {
      SortRulesSorts(rules[1..]);
      InsertSorts(rules[0], SortRules(rules[1..]));
      InsertAdds(rules[0], SortRules(rules[1..]));
      assert rules == [rules[0]] + rules[1..];
    }
  }

  function FindActive(rules: seq<Rule>, at: int, offsetMinutes: int): Option<Rule>
    decreases rules
  {
    if rules == [] then None
    else if Active(rules[0], at, offsetMinutes) then Some(rules[0])
    else FindActive(rules[1..], at, offsetMinutes)
  }

  function ResolvePrepared(prepared: seq<Rule>, fallback: Option<nat>, at: int, offsetMinutes: int): Option<Cost> {
    var rule := FindActive(prepared, at, offsetMinutes);
    if rule.Some? then Some(ChannelRule(rule.value.id))
    else if fallback.Some? then Some(PublicFallback(fallback.value))
    else None
  }

  /** None for rules that are not valid; otherwise the cost, if any rule or the fallback gives one. */
  function ResolveChannelCostWithFallback(
      rules: seq<Rule>, fallback: Option<nat>, at: int, offsetMinutes: int): Option<Option<Cost>>
  {
    if exists r :: r in rules && !ValidRule(r) then None
    else Some(ResolvePrepared(SortRules(rules), fallback, at, offsetMinutes))
  }

  // ----- the winner

  /** The rule is active and takes precedence over every other active one. */
  predicate Wins(r: Rule, rules: seq<Rule>, at: int, offsetMinutes: int) {
    && r in rules && Active(r, at, offsetMinutes)
    && forall s :: s in rules && Active(s, at, offsetMinutes) ==> Precedes(r, s)
  }

  lemma {:induction false} FindActiveWins(rules: seq<Rule>, at: int, offsetMinutes: int)
    requires Sorted(rules)
    ensures var found := FindActive(rules, at, offsetMinutes);
            if found.Some? then Wins(found.value, rules, at, offsetMinutes)
            else forall s :: s in rules ==> !Active(s, at, offsetMinutes)
    decreases rules
  {
    hide Active;
    if rules != [] && !Active(rules[0], at, offsetMinutes) {
      FindActiveWins(rules[1..], at, offsetMinutes);
      assert rules == [rules[0]] + rules[1..];
    }
  }

  lemma ResolvedWins(rules: seq<Rule>, at: int, offsetMinutes: int)
    ensures var found := FindActive(SortRules(rules), at, offsetMinutes);
            if found.Some? then Wins(found.value, rules, at, offsetMinutes)
            else forall s :: s in rules ==> !Active(s, at, offsetMinutes)
  {
    hide Active, FindActive, Sorted;
    var sorted := SortRules(rules);
    SortRulesSorts(rules);
    FindActiveWins(sorted, at, offsetMinutes);
    forall r ensures r in rules <==> r in sorted {
      assert r in rules <==> r in multiset(rules);
      assert r in sorted <==> r in multiset(sorted);
    }
  }

  predicate DistinctIds(rules: seq<Rule>) {
    forall i, j :: 0 <= i < j < |rules| ==> rules[i].id != rules[j].id
  }

  /** Rules of one priority that are not archived never conflict: what maintaining the rule table guarantees. */
  ghost predicate ConflictFree(rules: seq<Rule>) {
    forall r, s :: r in rules && s in rules && r != s && r.priority == s.priority ==> !Overlap(r, s)
  }

  lemma TiesAreEqual(r: Rule, s: Rule, rules: seq<Rule>)
    requires DistinctIds(rules) && r in rules && s in rules && Precedes(r, s) && Precedes(s, r)
    ensures r == s
  {
    var i :| 0 <= i < |rules| && rules[i] == r;
    var j :| 0 <= j < |rules| && rules[j] == s;
  }

  /** Two listings of the same rules price every moment alike. */
  lemma ResolutionIgnoresOrder(left: seq<Rule>, right: seq<Rule>, fallback: Option<nat>, at: int, offsetMinutes: int)
    requires multiset(left) == multiset(right)
    requires DistinctIds(left) || ConflictFree(left)
    ensures ResolveChannelCostWithFallback(left, fallback, at, offsetMinutes)
            == ResolveChannelCostWithFallback(right, fallback, at, offsetMinutes)
  {
    hide Active, FindActive, Overlap, ValidRule, SortRules;
    forall r ensures r in left <==> r in right {
      assert r in left <==> r in multiset(left);
      assert r in right <==> r in multiset(right);
    }
    ResolvedWins(left, at, offsetMinutes);
    ResolvedWins(right, at, offsetMinutes);
    var l := FindActive(SortRules(left), at, offsetMinutes);
    var r := FindActive(SortRules(right), at, offsetMinutes);
    if l.Some? && r.Some? {
      assert Precedes(l.value, r.value) && Precedes(r.value, l.value);
      if DistinctIds(left) {
        TiesAreEqual(l.value, r.value, left);
      } else if l.value != r.value {
        NoOverlapNeverTogether(l.value, r.value, at, offsetMinutes);
      }
    }
  }

  /** Of two rules the first is preferred: by priority, then the later start of validity, then the later creation, then the smaller id. */
  predicate Preferred(r: Rule, s: Rule) {
    || r.priority > s.priority
    || (r.priority == s.priority && r.validFrom > s.validFrom)
    || (r.priority == s.priority && r.validFrom == s.validFrom && r.createdAt > s.createdAt)
    || (r.priority == s.priority && r.validFrom == s.validFrom && r.createdAt == s.createdAt && r.id < s.id)
  }

  /** Whatever the listing, a rule prices a moment exactly if it is active and preferred to every other active rule. */
  lemma PreferredPrices(rules: seq<Rule>, r: Rule, at: int, offsetMinutes: int)
    requires DistinctIds(rules) && r in rules
    ensures FindActive(SortRules(rules), at, offsetMinutes) == Some(r)
            <==> Active(r, at, offsetMinutes)
                 && forall s :: s in rules && s != r && Active(s, at, offsetMinutes) ==> Preferred(r, s)
  {
    hide Active, FindActive, SortRules;
    ResolvedWins(rules, at, offsetMinutes);
    forall s, t | s in rules && t in rules && s != t ensures s.id != t.id {
      var i :| 0 <= i < |rules| && rules[i] == s;
      var j :| 0 <= j < |rules| && rules[j] == t;
    }
  }

  /** What a moment costs: the price of the rule found, without one the fallback's, and nothing without either. */
  lemma ResolutionMeans(rules: seq<Rule>, fallback: Option<nat>, at: int, offsetMinutes: int)
    ensures var cost := ResolveChannelCostWithFallback(rules, fallback, at, offsetMinutes);
            && (cost.None? <==> exists r :: r in rules && !ValidRule(r))
            && (cost.Some? && (forall r :: r in rules ==> !Active(r, at, offsetMinutes)) ==>
                  cost.value == if fallback.Some? then Some(PublicFallback(fallback.value)) else None)
            && (cost.Some? && (exists r :: r in rules && Active(r, at, offsetMinutes)) ==>
                  exists r :: r in rules && Active(r, at, offsetMinutes) && cost.value == Some(ChannelRule(r.id)))
  {
    hide Active, FindActive, SortRules, ValidRule;
    ResolvedWins(rules, at, offsetMinutes);
  }

  /** Without conflicts the price of a moment is that of the one active rule of the highest active priority. */
  lemma HighestPriorityPrices(rules: seq<Rule>, r: Rule, at: int, offsetMinutes: int)
    requires ConflictFree(rules) && r in rules
    ensures FindActive(SortRules(rules), at, offsetMinutes) == Some(r)
            <==> Active(r, at, offsetMinutes)
                 && forall s :: s in rules && s != r && Active(s, at, offsetMinutes) ==> s.priority < r.priority
  {
    hide Active, FindActive, Overlap, SortRules;
    ResolvedWins(rules, at, offsetMinutes);
    var found := FindActive(SortRules(rules), at, offsetMinutes);
    if found == Some(r) {
      forall s | s in rules && s != r && Active(s, at, offsetMinutes) ensures s.priority < r.priority {
        if s.priority == r.priority { NoOverlapNeverTogether(r, s, at, offsetMinutes); }
      }
    }
  }

  // ----- what resolution depends on

  /** Resolution sees of a moment only which rules are active. */
  lemma {:induction false} SameActiveSameCost(prepared: seq<Rule>, fallback: Option<nat>, x: int, y: int, offsetMinutes: int)
    requires forall r :: r in prepared ==> (Active(r, x, offsetMinutes) <==> Active(r, y, offsetMinutes))
    ensures ResolvePrepared(prepared, fallback, x, offsetMinutes) == ResolvePrepared(prepared, fallback, y, offsetMinutes)
    decreases prepared
  {
    hide Active;
    if prepared != [] {
      assert prepared[0] in prepared;
      SameActiveSameCost(prepared[1..], fallback, x, y, offsetMinutes);
    }
  }
}
