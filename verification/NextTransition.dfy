/** The search for the next change of price: minute by minute through windows that start at validity boundaries. */
module NextTransition {
  import opened Money
  import opened CostSchedule
  import opened CostResolution

  /** The length of a scanned window: eight days, although its name in the source says a week. */
  const WINDOW: nat := 8 * DAY

  datatype Answer = Invalid | Never | Change(at: int, cost: Option<Cost>)

  /** The effective cost of a moment. */
  function CostAt(rules: seq<Rule>, fallback: Option<nat>, x: int, offsetMinutes: int): Option<Cost> {
    ResolvePrepared(SortRules(rules), fallback, x, offsetMinutes)
  }

  predicate IsBoundary(rules: seq<Rule>, b: int) {
    exists r :: r in rules && (r.validFrom == b || r.validUntil == Some(b))
  }

  /** Nothing becomes valid or invalid after x up to and including y. */
  ghost predicate NoBoundary(rules: seq<Rule>, x: int, y: int) {
    forall b :: x < b <= y ==> !IsBoundary(rules, b)
  }

  ghost predicate Constant(rules: seq<Rule>, fallback: Option<nat>, offsetMinutes: int, from: int, to: int) {
    forall x :: from <= x <= to ==> CostAt(rules, fallback, x, offsetMinutes) == CostAt(rules, fallback, from, offsetMinutes)
  }

  // ----- when the cost cannot change

  lemma SortedMembers(rules: seq<Rule>, r: Rule)
    ensures r in SortRules(rules) <==> r in rules
  {
    SortRulesSorts(rules);
    assert r in rules <==> r in multiset(rules);
    assert r in SortRules(rules) <==> r in multiset(SortRules(rules));
  }

  lemma SameValidity(rules: seq<Rule>, r: Rule, x: int, y: int)
    requires x <= y && NoBoundary(rules, x, y) && r in rules
    ensures ValidAt(r, x) <==> ValidAt(r, y)
  {
    assert IsBoundary(rules, r.validFrom);
    assert r.validUntil.Some? ==> IsBoundary(rules, r.validUntil.value);
  }

  /** Two moments at the same minute of the week with no boundary between them cost the same. */
  lemma SameMinuteSameCost(rules: seq<Rule>, fallback: Option<nat>, x: int, y: int, offsetMinutes: int)
    requires x <= y && NoBoundary(rules, x, y) && WeekMinute(x, offsetMinutes) == WeekMinute(y, offsetMinutes)
    ensures CostAt(rules, fallback, x, offsetMinutes) == CostAt(rules, fallback, y, offsetMinutes)
  {
    hide NoBoundary, Matches, WeekMinute, SortRules, ResolvePrepared, ValidAt;
    forall r | r in SortRules(rules) ensures Active(r, x, offsetMinutes) <==> Active(r, y, offsetMinutes) {
      SortedMembers(rules, r);
      SameValidity(rules, r, x, y);
    }
    SameActiveSameCost(SortRules(rules), fallback, x, y, offsetMinutes);
  }

  /** Between two minute ticks and boundaries nothing changes. */
  lemma ConstantBetween(rules: seq<Rule>, fallback: Option<nat>, x: int, y: int, offsetMinutes: int)
    requires x <= y && forall v :: x < v <= y ==> v % MINUTE != 0 && !IsBoundary(rules, v)
    ensures CostAt(rules, fallback, x, offsetMinutes) == CostAt(rules, fallback, y, offsetMinutes)
  {
    assert x / MINUTE == y / MINUTE by {
      var tick := y / MINUTE * MINUTE;
      assert tick % MINUTE == 0 && tick <= y;
    }
    hide CostAt, IsBoundary;
    SameMinuteSameCost(rules, fallback, x, y, offsetMinutes);
  }

  /** What held through all the minutes of a week without a boundary goes on as long as there is none. */
  lemma WeekGoesOn(rules: seq<Rule>, fallback: Option<nat>, offsetMinutes: int, at: int, p: int, h: int, y: int)
    requires at <= p <= h <= y && p / MINUTE + WEEK_MINUTES - 1 <= h / MINUTE
    requires Constant(rules, fallback, offsetMinutes, at, h) && NoBoundary(rules, p, y)
    ensures CostAt(rules, fallback, y, offsetMinutes) == CostAt(rules, fallback, at, offsetMinutes)
  {
    hide CostAt, IsBoundary, WeekMinute;
    var k := (y - h + WEEK - 1) / WEEK;
    var z := y - k * WEEK;
    assert h - WEEK < z <= h;
    WeeklyPeriod(z, k, offsetMinutes);
    var seen := if z >= p then z else if z / MINUTE == p / MINUTE then p else h;
    assert WeekMinute(seen, offsetMinutes) == WeekMinute(z, offsetMinutes) by {
      if z < p && z / MINUTE != p / MINUTE {
        assert z / MINUTE == h / MINUTE - WEEK_MINUTES;
        WeeklyPeriod(z, 1, offsetMinutes);
        SameMinute(z + WEEK, h, offsetMinutes);
      } else {
        SameMinute(seen, z, offsetMinutes);
      }
    }
    SameMinuteSameCost(rules, fallback, seen, y, offsetMinutes);
  }

  lemma SameMinute(x: int, y: int, offsetMinutes: int)
    requires x / MINUTE == y / MINUTE
    ensures WeekMinute(x, offsetMinutes) == WeekMinute(y, offsetMinutes)
  {
  }

  lemma NoneValidIsFallback(rules: seq<Rule>, fallback: Option<nat>, x: int, offsetMinutes: int)
    requires forall r :: r in rules && r.enabled ==> !ValidAt(r, x)
    ensures CostAt(rules, fallback, x, offsetMinutes) == (if fallback.Some? then Some(PublicFallback(fallback.value)) else None)
  {
    hide Matches, WeekMinute;
    ResolvedWins(rules, x, offsetMinutes);
  }

  // ----- the early exits

  predicate DistinctDays(r: Rule) {
    forall i, j :: 0 <= i < j < |r.days| ==> r.days[i] != r.days[j]
  }

  /** The exit for schedules taken to be the same all week. */
  predicate LooksStatic(r: Rule) {
    r.startMinute == r.endMinute && |r.days| == 7
  }

  ghost function DaysIn(days: seq<int>): set<int> {
    set d | d in days
  }

  lemma {:induction false} CountDays(days: seq<int>)
    ensures |DaysIn(days)| <= |days|
    ensures (forall i, j :: 0 <= i < j < |days| ==> days[i] != days[j]) <==> |DaysIn(days)| == |days|
    decreases days
  {
    if days != [] {
      var front, last := days[..|days| - 1], days[|days| - 1];
      CountDays(front);
      assert days == front + [last];
      assert DaysIn(days) == DaysIn(front) + {last};
      if last in front {
        assert DaysIn(days) == DaysIn(front);
        var i :| 0 <= i < |front| && front[i] == last;
        assert days[i] == days[|days| - 1];
      } else {
        assert |DaysIn(days)| == |DaysIn(front)| + 1;
      }
    }
  }

  ghost function DaysUpTo(n: nat): (days: set<int>)
    ensures |days| == n && forall d :: d in days <==> 1 <= d <= n
  {
    if n == 0 then {} else DaysUpTo(n - 1) + {n as int}
  }

  lemma FullSetOfDays(days: set<int>, n: nat)
    requires forall d :: d in days ==> 1 <= d <= n
    ensures |days| == n <==> forall d :: 1 <= d <= n ==> d in days
  {
    var all := DaysUpTo(n);
    hide DaysUpTo;
    assert days <= all;
    assert |all - days| == |all| - |days|;
    if |days| == n {
      assert all - days == {};
    }
    if forall d :: 1 <= d <= n ==> d in days {
      assert days == all;
    }
  }

  lemma WholeWeekOfDays(r: Rule)
    requires ValidTimes(r) && |r.days| == 7
    ensures DistinctDays(r) <==> forall d :: 1 <= d <= 7 ==> d in r.days
  {
    CountDays(r.days);
    FullSetOfDays(DaysIn(r.days), 7);
    assert forall d :: d in DaysIn(r.days) <==> d in r.days;
  }

  /** The exit is right about a rule exactly when its seven listed days are seven different days. */
  lemma StaticExactly(r: Rule)
    requires ValidTimes(r) && LooksStatic(r)
    ensures DistinctDays(r) <==> forall w: nat :: w < WEEK_MINUTES ==> Matches(r, w)
  {
    WholeWeekOfDays(r);
    if DistinctDays(r) {
    } else {
      var d :| 1 <= d <= 7 && d !in r.days;
      assert !Matches(r, (d - 1) * DAY_MINUTES) by { assert (d - 1) * DAY_MINUTES / DAY_MINUTES == d - 1; }
    }
  }

  /** When the search ends before it begins: nothing will start or stop being valid, and every enabled rule looks static. */
  ghost predicate StaticExit(rules: seq<Rule>, at: int) {
    (forall b :: b > at ==> !IsBoundary(rules, b)) && forall r :: r in rules && r.enabled ==> LooksStatic(r)
  }

  function FirstValid(prepared: seq<Rule>, at: int): Option<Rule>
    decreases prepared
  {
    if prepared == [] then None
    else if prepared[0].enabled && ValidAt(prepared[0], at) then Some(prepared[0])
    else FirstValid(prepared[1..], at)
  }

  /** Only the days of the rule that comes first matter. */
  predicate ExitIsRight(rules: seq<Rule>, at: int) {
    var first := FirstValid(SortRules(rules), at);
    first.Some? ==> DistinctDays(first.value)
  }

  lemma {:induction false} FirstValidFound(prepared: seq<Rule>, at: int)
    ensures var first := FirstValid(prepared, at);
            if first.Some? then first.value in prepared && first.value.enabled && ValidAt(first.value, at)
            else forall r :: r in prepared && r.enabled ==> !ValidAt(r, at)
    decreases prepared
  {
    hide ValidAt;
    if prepared != [] && !(prepared[0].enabled && ValidAt(prepared[0], at)) {
      FirstValidFound(prepared[1..], at);
      assert prepared == [prepared[0]] + prepared[1..];
    }
  }

  /** Where nothing starts or stops being valid, the first valid rule prices exactly the minutes it matches. */
  lemma {:induction false} FirstValidPrices(prepared: seq<Rule>, at: int, x: int, offsetMinutes: int)
    requires forall r :: r in prepared ==> (ValidAt(r, x) <==> ValidAt(r, at))
    ensures var first := FirstValid(prepared, at);
            var found := FindActive(prepared, x, offsetMinutes);
            && (first.None? ==> found.None?)
            && (first.Some? && Matches(first.value, WeekMinute(x, offsetMinutes)) ==> found == first)
            && (first.Some? && !Matches(first.value, WeekMinute(x, offsetMinutes)) ==> found != first)
            && (found.Some? ==> found.value in prepared && Matches(found.value, WeekMinute(x, offsetMinutes)))
    decreases prepared
  {
    hide ValidAt, Matches, WeekMinute;
    if prepared != [] {
      assert prepared[0] in prepared;
      FirstValidPrices(prepared[1..], at, x, offsetMinutes);
      assert prepared == [prepared[0]] + prepared[1..];
    }
  }

  lemma StaysValid(rules: seq<Rule>, at: int, x: int)
    requires x >= at && forall b :: b > at ==> !IsBoundary(rules, b)
    ensures forall r :: r in SortRules(rules) ==> (ValidAt(r, x) <==> ValidAt(r, at))
  {
    hide IsBoundary, ValidAt, SortRules;
    forall r | r in SortRules(rules) ensures ValidAt(r, x) <==> ValidAt(r, at) {
      SortedMembers(rules, r);
      SameValidity(rules, r, at, x);
    }
  }

  /** The exit is right when the first rule lists seven different days or no rule is valid. */
  lemma RightExitForever(rules: seq<Rule>, fallback: Option<nat>, offsetMinutes: int, at: int)
    requires (forall r :: r in rules ==> ValidRule(r)) && StaticExit(rules, at) && ExitIsRight(rules, at)
    ensures Forever(rules, fallback, offsetMinutes, at)
  {
    hide FindActive, FirstValid, SortRules, WeekMinute, IsBoundary, Matches, ValidAt, LooksStatic, DistinctDays;
    var sorted := SortRules(rules);
    var first := FirstValid(sorted, at);
    FirstValidFound(sorted, at);
    if first.Some? {
      SortedMembers(rules, first.value);
      StaticExactly(first.value);
    }
    forall x | x >= at ensures CostAt(rules, fallback, x, offsetMinutes) == CostAt(rules, fallback, at, offsetMinutes) {
      StaysValid(rules, at, x);
      FirstValidPrices(sorted, at, x, offsetMinutes);
      FirstValidPrices(sorted, at, at, offsetMinutes);
      WeekMinuteInRange(x, offsetMinutes);
      WeekMinuteInRange(at, offsetMinutes);
    }
  }

  /** Otherwise there is a minute the first rule prices and one it does not. */
  lemma WrongExitChanges(rules: seq<Rule>, fallback: Option<nat>, offsetMinutes: int, at: int)
    requires (forall r :: r in rules ==> ValidRule(r)) && DistinctIds(rules)
    requires StaticExit(rules, at) && !ExitIsRight(rules, at)
    ensures !Forever(rules, fallback, offsetMinutes, at)
  {
    hide FindActive, FirstValid, SortRules, WeekMinute, IsBoundary, Matches, ValidAt, DistinctDays;
    var sorted := SortRules(rules);
    var first := FirstValid(sorted, at).value;
    FirstValidFound(sorted, at);
    SortedMembers(rules, first);
    StaticExactly(first);
    var unlisted: nat :| unlisted < WEEK_MINUTES && !Matches(first, unlisted);
    var listed := (first.days[0] - 1) * DAY_MINUTES;
    ListedDayMatches(first);
    var x := MinuteComesUp(at, listed, offsetMinutes);
    var y := MinuteComesUp(at, unlisted, offsetMinutes);
    StaysValid(rules, at, x);
    StaysValid(rules, at, y);
    FirstValidPrices(sorted, at, x, offsetMinutes);
    FirstValidPrices(sorted, at, y, offsetMinutes);
    assert CostAt(rules, fallback, x, offsetMinutes) == Some(ChannelRule(first.id));
    var found := FindActive(sorted, y, offsetMinutes);
    assert CostAt(rules, fallback, y, offsetMinutes) != Some(ChannelRule(first.id)) by {
      if found.Some? && found.value.id == first.id {
        SortedMembers(rules, found.value);
        OneRulePerId(rules, found.value, first);
      }
    }
  }

  lemma ListedDayMatches(r: Rule)
    requires ValidTimes(r) && LooksStatic(r)
    ensures 0 <= (r.days[0] - 1) * DAY_MINUTES < WEEK_MINUTES && Matches(r, (r.days[0] - 1) * DAY_MINUTES)
  {
    assert r.days[0] in r.days;
    var w := (r.days[0] - 1) * DAY_MINUTES;
    assert w / DAY_MINUTES + 1 == r.days[0];
  }

  lemma OneRulePerId(rules: seq<Rule>, r: Rule, s: Rule)
    requires DistinctIds(rules) && r in rules && s in rules && r.id == s.id
    ensures r == s
  {
    var i :| 0 <= i < |rules| && rules[i] == r;
    var j :| 0 <= j < |rules| && rules[j] == s;
  }

  /** The early exit answers that the cost never changes: it is right exactly when its condition holds. */
  lemma StaticExitExactly(rules: seq<Rule>, fallback: Option<nat>, offsetMinutes: int, at: int)
    requires (forall r :: r in rules ==> ValidRule(r)) && DistinctIds(rules) && StaticExit(rules, at)
    ensures Forever(rules, fallback, offsetMinutes, at) <==> ExitIsRight(rules, at)
  {
    if ExitIsRight(rules, at) {
      RightExitForever(rules, fallback, offsetMinutes, at);
    } else {
      WrongExitChanges(rules, fallback, offsetMinutes, at);
    }
  }

  const Mondays: Rule := Rule(1, 0, [1, 1, 1, 1, 1, 1, 1], 0, 0, 0, None, 0, true, false, true)

  lemma MondaysCost()
    ensures CostAt([Mondays], None, 4 * DAY, 0) == Some(ChannelRule(1)) && CostAt([Mondays], None, 5 * DAY, 0) == None
  {
    assert SortRules([Mondays]) == [Mondays];
    assert WeekMinute(4 * DAY, 0) == 0 && WeekMinute(5 * DAY, 0) == DAY_MINUTES;
    assert Active([Mondays][0], 4 * DAY, 0) && !Active([Mondays][0], 5 * DAY, 0);
    assert [Mondays][1..] == [];
    assert FindActive([Mondays], 5 * DAY, 0) == FindActive([], 5 * DAY, 0);
  }

  /** A rule listing Monday seven times takes the exit, yet prices Mondays only. */
  lemma RepeatedDaysFoolTheExit()
    ensures ValidRule(Mondays) && StaticExit([Mondays], 4 * DAY) && !Forever([Mondays], None, 0, 4 * DAY)
    ensures CostAt([Mondays], None, 4 * DAY, 0) == Some(ChannelRule(1)) && CostAt([Mondays], None, 5 * DAY, 0) == None
  {
    hide CostAt;
    MondaysCost();
  }

  // ----- candidates

  predicate Ascending(s: seq<int>) {
    forall i, j :: 0 <= i < j < |s| ==> s[i] < s[j]
  }

  lemma Member<T>(values: set<T>) returns (v: T)
    requires values != {}
    ensures v in values
  {
    v :| v in values;
  }

  method Least(values: set<int>) returns (least: int)
    requires values != {}
    ensures least in values && forall v :: v in values ==> least <= v
  {
    ghost var some := Member(values);
    least :| least in values;
    var rest := values - {least};
    while rest != {}
      invariant rest <= values && least in values
      invariant forall v :: v in values ==> v in rest || least <= v
      decreases |rest|
    {
      ghost var other := Member(rest);
      var v :| v in rest;
      if v < least { least := v; }
      rest := rest - {v};
    }
  }

  method SortAscending(values: set<int>) returns (s: seq<int>)
    ensures Ascending(s) && forall v :: v in s <==> v in values
  {
    s := [];
    var rest := values;
    while rest != {}
      invariant rest <= values && Ascending(s)
      invariant forall v :: v in s <==> v in values && v !in rest
      invariant forall v, i :: v in rest && 0 <= i < |s| ==> s[i] < v
      decreases |rest|
    {
      var least := Least(rest);
      ghost var before := s;
      s := s + [least];
      rest := rest - {least};
      forall v ensures v in s <==> v in values && v !in rest {
        assert v in s <==> v in before || v == least;
      }
    }
  }

  /** The boundaries still to come, in order; boundaries that coincide are kept once. */
  method FutureBoundaries(rules: seq<Rule>, at: int) returns (boundaries: seq<int>)
    ensures Ascending(boundaries) && forall b :: b in boundaries <==> b > at && IsBoundary(rules, b)
  {
    var values: set<int> := {};
    var i := 0;
    while i < |rules|
      invariant 0 <= i <= |rules|
      invariant forall b :: b in values <==> b > at && IsBoundary(rules[..i], b)
    {
      assert rules[..i + 1] == rules[..i] + [rules[i]];
      if rules[i].validFrom > at { values := values + {rules[i].validFrom}; }
      if rules[i].validUntil.Some? && rules[i].validUntil.value > at { values := values + {rules[i].validUntil.value}; }
      i := i + 1;
    }
    assert rules[..i] == rules;
    boundaries := SortAscending(values);
  }

  method TransitionCandidates(from: int, until: int, boundaries: seq<int>) returns (candidates: seq<int>)
    ensures Ascending(candidates)
    ensures forall v :: v in candidates <==> from < v <= until && (v % MINUTE == 0 || v in boundaries)
  {
    var values: set<int> := {};
    var firstMinute := from / MINUTE * MINUTE + MINUTE;
    var value := firstMinute;
    while value <= until
      invariant value % MINUTE == 0 && value > from
      invariant forall v :: v in values <==> from < v < value && v <= until && v % MINUTE == 0
      decreases until - value
    {
      values := values + {value};
      value := value + MINUTE;
    }
    var i := 0;
    while i < |boundaries|
      invariant 0 <= i <= |boundaries|
      invariant forall v :: v in values <==> from < v <= until && (v % MINUTE == 0 || v in boundaries[..i])
    {
      assert boundaries[..i + 1] == boundaries[..i] + [boundaries[i]];
      if from < boundaries[i] <= until { values := values + {boundaries[i]}; }
      i := i + 1;
    }
    assert boundaries[..i] == boundaries;
    candidates := SortAscending(values);
  }

  // ----- scanning a window

  /** Up to the next candidate the cost stays what it was at the last one. */
  lemma ConstantUpToNext(rules: seq<Rule>, fallback: Option<nat>, offsetMinutes: int, from: int, p: int, next: int)
    requires from <= p && Constant(rules, fallback, offsetMinutes, from, p)
    requires forall v :: p < v < next ==> v % MINUTE != 0 && !IsBoundary(rules, v)
    ensures forall x :: from <= x < next ==>
              CostAt(rules, fallback, x, offsetMinutes) == CostAt(rules, fallback, from, offsetMinutes)
  {
    hide CostAt, IsBoundary;
    forall x | p <= x < next ensures CostAt(rules, fallback, x, offsetMinutes) == CostAt(rules, fallback, p, offsetMinutes) {
      ConstantBetween(rules, fallback, p, x, offsetMinutes);
    }
  }

  /** The boundaries a search knows of are all there are in the window. */
  ghost predicate Knows(rules: seq<Rule>, boundaries: seq<int>, from: int) {
    forall b :: b > from ==> (b in boundaries <==> IsBoundary(rules, b))
  }

  /** Looks through one window; finds the first change of cost in it, or none because there is none. */
  method Scan(ghost rules: seq<Rule>, prepared: seq<Rule>, fallback: Option<nat>, offsetMinutes: int,
              cursor: int, horizon: int, boundaries: seq<int>) returns (hit: Option<int>)
    requires prepared == SortRules(rules) && cursor <= horizon && Knows(rules, boundaries, cursor)
    ensures hit.None? ==> Constant(rules, fallback, offsetMinutes, cursor, horizon)
    ensures hit.Some? ==>
              cursor < hit.value <= horizon && Constant(rules, fallback, offsetMinutes, cursor, hit.value - 1)
              && CostAt(rules, fallback, hit.value, offsetMinutes) != CostAt(rules, fallback, cursor, offsetMinutes)
  {
    var current := ResolvePrepared(prepared, fallback, cursor, offsetMinutes);
    assert current == CostAt(rules, fallback, cursor, offsetMinutes);
    var candidates := TransitionCandidates(cursor, horizon, boundaries);
    hide IsBoundary, ResolvePrepared, SortRules;
    var i := 0;
    ghost var p := cursor;
    while i < |candidates|
      invariant 0 <= i <= |candidates| && p == (if i == 0 then cursor else candidates[i - 1]) && cursor <= p
      invariant Constant(rules, fallback, offsetMinutes, cursor, p)
      invariant current == CostAt(rules, fallback, cursor, offsetMinutes)
    {
      var candidate := candidates[i];
      assert candidate in candidates;
      NothingBetween(rules, candidates, cursor, horizon, boundaries, i, p);
      ConstantUpToNext(rules, fallback, offsetMinutes, cursor, p, candidate);
      var next := ResolvePrepared(prepared, fallback, candidate, offsetMinutes);
      assert next == CostAt(rules, fallback, candidate, offsetMinutes);
      if current != next { return Some(candidate); }
      current := next;
      p := candidate;
      i := i + 1;
    }
    NothingBetween(rules, candidates, cursor, horizon, boundaries, i, p);
    ConstantUpToNext(rules, fallback, offsetMinutes, cursor, p, horizon + 1);
    hit := None;
  }

  lemma NotAmong(s: seq<int>, i: nat, v: int)
    requires i <= |s| && Ascending(s) && (i > 0 ==> s[i - 1] < v) && (i < |s| ==> v < s[i])
    ensures v !in s
  {
    forall j | 0 <= j < |s| ensures s[j] != v {
      if j < i { assert s[j] <= s[i - 1]; } else { assert s[i] <= s[j]; }
    }
  }

  lemma NothingBetween(rules: seq<Rule>, candidates: seq<int>, cursor: int, horizon: int, boundaries: seq<int>, i: nat, p: int)
    requires i <= |candidates| && Ascending(candidates) && Knows(rules, boundaries, cursor)
    requires forall v :: v in candidates <==> cursor < v <= horizon && (v % MINUTE == 0 || v in boundaries)
    requires p == (if i == 0 then cursor else candidates[i - 1]) && cursor <= p
    ensures forall v :: p < v < (if i < |candidates| then candidates[i] else horizon + 1) ==>
              v % MINUTE != 0 && !IsBoundary(rules, v)
  {
    hide IsBoundary;
    var next := if i < |candidates| then candidates[i] else horizon + 1;
    assert i < |candidates| ==> candidates[i] in candidates;
    forall v | p < v < next ensures v % MINUTE != 0 && !IsBoundary(rules, v) {
      NotAmong(candidates, i, v);
    }
  }

  // ----- what the search answers

  predicate ValidNow(rules: seq<Rule>, at: int) {
    exists r :: r in rules && r.enabled && ValidAt(r, at)
  }

  /** Where the first window begins: here, or at the first boundary when no rule is valid yet. */
  ghost predicate StartsAt(rules: seq<Rule>, at: int, s: int) {
    if ValidNow(rules, at) || (forall b :: b > at ==> !IsBoundary(rules, b)) then s == at
    else s > at && IsBoundary(rules, s) && NoBoundary(rules, at, s - 1)
  }

  /** The boundaries to come. */
  ghost function Coming(rules: seq<Rule>, at: int): (coming: set<int>)
    ensures forall b :: b in coming <==> b > at && IsBoundary(rules, b)
  {
    var starts := set r | r in rules && r.validFrom > at :: r.validFrom;
    var ends := set r | r in rules && r.validUntil.Some? && r.validUntil.value > at :: r.validUntil.value;
    starts + ends
  }

  ghost function After(coming: set<int>, s: int): set<int> {
    set b | b in coming && b > s
  }

  lemma {:induction false} LeastOf(values: set<int>) returns (least: int)
    requires values != {}
    ensures least in values && forall v :: v in values ==> least <= v
    decreases values
  {
    least := Member(values);
    var rest := values - {least};
    assert values == rest + {least};
    if rest != {} {
      var other := LeastOf(rest);
      if other < least { least := other; }
    }
  }

  ghost predicate IsNext(coming: set<int>, s: int, t: int) {
    t in coming && t > s + WINDOW && forall c :: c in coming ==> c <= s + WINDOW || c >= t
  }

  lemma NextExists(coming: set<int>, s: int)
    requires exists c :: c in coming && c > s + WINDOW
    ensures exists t :: IsNext(coming, s, t)
  {
    var c :| c in coming && c > s + WINDOW;
    assert c in After(coming, s + WINDOW);
    var t := LeastOf(After(coming, s + WINDOW));
    assert forall d :: d in coming && d > s + WINDOW ==> d in After(coming, s + WINDOW);
    assert IsNext(coming, s, t);
  }

  /** The window after the one at s begins at the first boundary the latter does not reach. */
  ghost function NextStart(coming: set<int>, s: int): (next: Option<int>)
    ensures next.Some? ==> IsNext(coming, s, next.value) && After(coming, next.value) < After(coming, s)
    ensures next.None? ==> forall c :: c in coming ==> c <= s + WINDOW
  {
    if exists c :: c in coming && c > s + WINDOW then
      NextExists(coming, s);
      var t :| IsNext(coming, s, t);
      assert t in After(coming, s) && t !in After(coming, t);
      Some(t)
    else None
  }

  /** The answer of a search that goes on with the window at s, knowing the cost at the cursor. */
  ghost predicate Answers(rules: seq<Rule>, fallback: Option<nat>, offsetMinutes: int, coming: set<int>, cursor: int, s: int,
                          answer: Answer)
    decreases After(coming, s)
  {
    if Constant(rules, fallback, offsetMinutes, cursor, s + WINDOW) then
      var next := NextStart(coming, s);
      if next.None? then answer == Never
      else Answers(rules, fallback, offsetMinutes, coming, next.value - 1, next.value, answer)
    else
      && answer.Change? && cursor < answer.at <= s + WINDOW
      && Constant(rules, fallback, offsetMinutes, cursor, answer.at - 1)
      && answer.cost == CostAt(rules, fallback, answer.at, offsetMinutes)
      && answer.cost != CostAt(rules, fallback, cursor, offsetMinutes)
  }

  /** The cost never changes again. */
  ghost predicate Forever(rules: seq<Rule>, fallback: Option<nat>, offsetMinutes: int, at: int) {
    forall x :: x >= at ==> CostAt(rules, fallback, x, offsetMinutes) == CostAt(rules, fallback, at, offsetMinutes)
  }

  /** What an answer should be: the earliest change, or none because there will never be one. */
  ghost predicate IsRight(rules: seq<Rule>, fallback: Option<nat>, offsetMinutes: int, at: int, answer: Answer) {
    match answer
    case Invalid => false
    case Never => Forever(rules, fallback, offsetMinutes, at)
    case Change(x, cost) =>
      && at < x && Constant(rules, fallback, offsetMinutes, at, x - 1)
      && cost == CostAt(rules, fallback, x, offsetMinutes) && cost != CostAt(rules, fallback, at, offsetMinutes)
  }

  // ----- what windows leave out

  /** A boundary after which the window shows less than all the minutes of a week. */
  predicate Late(s: int, b: int) {
    s < b <= s + WINDOW && b / MINUTE > s / MINUTE + DAY_MINUTES + 1
  }

  /** The first whole minute a window does not reach. */
  function TickAfter(s: int): int {
    (s + WINDOW) / MINUTE * MINUTE + MINUTE
  }

  /** The window has a late boundary, and the next window begins after a minute that none of the two looks at. */
  ghost predicate Blind(coming: set<int>, s: int) {
    && (exists b :: b in coming && Late(s, b))
    && forall c :: c in coming ==> !(s + WINDOW < c <= TickAfter(s))
  }

  /** No window of the search is blind. */
  ghost predicate Spaced(coming: set<int>, s: int)
    decreases After(coming, s)
  {
    var next := NextStart(coming, s);
    !Blind(coming, s) && (next.Some? ==> Spaced(coming, next.value))
  }

  /** The search begins where no window from there on is blind. */
  ghost predicate WellSpaced(rules: seq<Rule>, at: int) {
    forall s :: StartsAt(rules, at, s) ==> Spaced(Coming(rules, at), s)
  }

  /** Before the first boundary a schedule with no valid rule stays at its fallback. */
  lemma ConstantUntilFirst(rules: seq<Rule>, fallback: Option<nat>, offsetMinutes: int, at: int, first: int)
    requires !ValidNow(rules, at) && at < first && NoBoundary(rules, at, first - 1)
    ensures Constant(rules, fallback, offsetMinutes, at, first - 1)
  {
    hide CostAt, IsBoundary, NoBoundary, ValidAt;
    forall x | at <= x <= first - 1
      ensures CostAt(rules, fallback, x, offsetMinutes) == CostAt(rules, fallback, at, offsetMinutes)
    {
      forall r | r in rules && r.enabled ensures !ValidAt(r, x) && !ValidAt(r, at) {
        assert NoBoundary(rules, at, x) by { NoBoundaryWithin(rules, at, first - 1, at, x); }
        SameValidity(rules, r, at, x);
      }
      NoneValidIsFallback(rules, fallback, x, offsetMinutes);
      NoneValidIsFallback(rules, fallback, at, offsetMinutes);
    }
  }

  lemma NoBoundaryWithin(rules: seq<Rule>, x: int, y: int, from: int, until: int)
    requires NoBoundary(rules, x, y) && x <= from && until <= y
    ensures NoBoundary(rules, from, until)
  {
  }

  /** After a window without a late boundary that kept its cost, the cost is kept up to the next boundary. */
  lemma ConstantToNext(rules: seq<Rule>, fallback: Option<nat>, offsetMinutes: int, at: int, s: int, until: int)
    requires at <= s && s + WINDOW <= until && Constant(rules, fallback, offsetMinutes, at, s + WINDOW)
    requires NoBoundary(rules, s + WINDOW, until) && forall b :: IsBoundary(rules, b) ==> !Late(s, b)
    ensures Constant(rules, fallback, offsetMinutes, at, until)
  {
    hide CostAt, IsBoundary;
    var horizon := s + WINDOW;
    var p := (s / MINUTE + DAY_MINUTES + 1) * MINUTE + MINUTE - 1;
    assert p / MINUTE == s / MINUTE + DAY_MINUTES + 1;
    assert s <= p <= horizon && horizon / MINUTE == s / MINUTE + 8 * DAY_MINUTES;
    assert NoBoundary(rules, p, until) by {
      forall b | p < b <= until ensures !IsBoundary(rules, b) {
        if b <= horizon { assert b / MINUTE > p / MINUTE; }
      }
    }
    forall x | horizon <= x <= until
      ensures CostAt(rules, fallback, x, offsetMinutes) == CostAt(rules, fallback, at, offsetMinutes)
    {
      WeekGoesOn(rules, fallback, offsetMinutes, at, p, horizon, x);
    }
  }

  /** Between windows that leave no whole minute between them nothing changes. */
  lemma ConstantOverTheGap(rules: seq<Rule>, fallback: Option<nat>, offsetMinutes: int, at: int, s: int, t: int)
    requires at <= s && Constant(rules, fallback, offsetMinutes, at, s + WINDOW)
    requires s + WINDOW < t <= TickAfter(s) && NoBoundary(rules, s + WINDOW, t - 1)
    ensures Constant(rules, fallback, offsetMinutes, at, t - 1)
  {
    hide CostAt, IsBoundary;
    forall x | s + WINDOW <= x <= t - 1
      ensures CostAt(rules, fallback, x, offsetMinutes) == CostAt(rules, fallback, at, offsetMinutes)
    {
      ConstantBetween(rules, fallback, s + WINDOW, x, offsetMinutes);
    }
  }

  lemma Join(rules: seq<Rule>, fallback: Option<nat>, offsetMinutes: int, from: int, mid: int, to: int)
    requires from <= mid && Constant(rules, fallback, offsetMinutes, from, mid) && Constant(rules, fallback, offsetMinutes, mid, to)
    ensures Constant(rules, fallback, offsetMinutes, from, to)
  {
    hide CostAt;
  }

  /** A window that is not blind and shows no change leaves no change before the next window either. */
  lemma WindowKept(rules: seq<Rule>, fallback: Option<nat>, offsetMinutes: int, at: int, s: int, until: int)
    requires at <= s && s + WINDOW <= until && Constant(rules, fallback, offsetMinutes, at, s + WINDOW)
    requires NoBoundary(rules, s + WINDOW, until) && !Blind(Coming(rules, at), s)
    requires until < TickAfter(s) || forall c :: c in Coming(rules, at) ==> !(s + WINDOW < c <= TickAfter(s))
    ensures Constant(rules, fallback, offsetMinutes, at, until)
  {
    hide CostAt, IsBoundary, NoBoundary, Constant;
    if until < TickAfter(s) {
      ConstantOverTheGap(rules, fallback, offsetMinutes, at, s, until + 1);
    } else {
      ConstantToNext(rules, fallback, offsetMinutes, at, s, until);
    }
  }

  /** Windows none of which is blind lead to the right answer. */
  lemma {:induction false} SpacedIsRight(rules: seq<Rule>, fallback: Option<nat>, offsetMinutes: int, at: int, cursor: int, s: int,
                                         answer: Answer)
    requires at <= cursor <= s && Constant(rules, fallback, offsetMinutes, at, cursor) && Spaced(Coming(rules, at), s)
    requires Answers(rules, fallback, offsetMinutes, Coming(rules, at), cursor, s, answer)
    ensures IsRight(rules, fallback, offsetMinutes, at, answer)
    decreases After(Coming(rules, at), s)
  {
    hide CostAt, IsBoundary, Blind, Constant;
    var coming := Coming(rules, at);
    var next := NextStart(coming, s);
    if !Constant(rules, fallback, offsetMinutes, cursor, s + WINDOW) {
      Join(rules, fallback, offsetMinutes, at, cursor, answer.at - 1);
      ConstantMeans(rules, fallback, offsetMinutes, at, cursor, cursor);
    } else {
      Join(rules, fallback, offsetMinutes, at, cursor, s + WINDOW);
      if next.Some? {
        NoneBeforeNext(rules, at, s, next.value);
        WindowKept(rules, fallback, offsetMinutes, at, s, next.value - 1);
        SpacedIsRight(rules, fallback, offsetMinutes, at, next.value - 1, next.value, answer);
      } else {
        forall x | x >= at ensures CostAt(rules, fallback, x, offsetMinutes) == CostAt(rules, fallback, at, offsetMinutes) {
          if x > s + WINDOW {
            WindowKept(rules, fallback, offsetMinutes, at, s, x);
            ConstantMeans(rules, fallback, offsetMinutes, at, x, x);
          } else {
            ConstantMeans(rules, fallback, offsetMinutes, at, s + WINDOW, x);
          }
        }
      }
    }
  }

  lemma ConstantMeans(rules: seq<Rule>, fallback: Option<nat>, offsetMinutes: int, at: int, to: int, x: int)
    requires at <= x <= to && Constant(rules, fallback, offsetMinutes, at, to)
    ensures CostAt(rules, fallback, x, offsetMinutes) == CostAt(rules, fallback, at, offsetMinutes)
  {
  }

  lemma NoneBeforeNext(rules: seq<Rule>, at: int, s: int, t: int)
    requires at <= s && IsNext(Coming(rules, at), s, t)
    ensures NoBoundary(rules, s + WINDOW, t - 1)
  {
    hide IsBoundary;
  }

  /** A change found is a change, from one moment to the next, and none is missed in the first window. */
  lemma {:induction false} ChangeIsAChange(rules: seq<Rule>, fallback: Option<nat>, offsetMinutes: int, coming: set<int>, cursor: int,
                                           s: int, answer: Answer)
    requires cursor <= s && Answers(rules, fallback, offsetMinutes, coming, cursor, s, answer)
    ensures !answer.Invalid?
    ensures answer.Change? ==>
              cursor < answer.at && answer.cost == CostAt(rules, fallback, answer.at, offsetMinutes)
              && CostAt(rules, fallback, answer.at - 1, offsetMinutes) != answer.cost
    ensures answer.Change? && answer.at <= s + WINDOW ==> Constant(rules, fallback, offsetMinutes, cursor, answer.at - 1)
    ensures answer.Change? && Constant(rules, fallback, offsetMinutes, cursor, s + WINDOW) ==>
              exists b :: b > s + WINDOW && b in coming
    decreases After(coming, s)
  {
    hide CostAt;
    var next := NextStart(coming, s);
    if Constant(rules, fallback, offsetMinutes, cursor, s + WINDOW) && next.Some? {
      ChangeIsAChange(rules, fallback, offsetMinutes, coming, next.value - 1, next.value, answer);
    }
  }

  lemma {:induction false} ForeverAnswersNever(rules: seq<Rule>, fallback: Option<nat>, offsetMinutes: int, coming: set<int>, at: int,
                                               cursor: int, s: int)
    requires at <= cursor <= s && Forever(rules, fallback, offsetMinutes, at)
    ensures Answers(rules, fallback, offsetMinutes, coming, cursor, s, Never)
    decreases After(coming, s)
  {
    hide CostAt;
    var next := NextStart(coming, s);
    if next.Some? { ForeverAnswersNever(rules, fallback, offsetMinutes, coming, at, next.value - 1, next.value); }
  }

  // ----- the search

  method FirstAfter(boundaries: seq<int>, horizon: int) returns (first: Option<int>)
    requires Ascending(boundaries)
    ensures first.None? ==> forall b :: b in boundaries ==> b <= horizon
    ensures first.Some? ==> first.value in boundaries && first.value > horizon
    ensures first.Some? ==> forall b :: b in boundaries ==> b <= horizon || b >= first.value
  {
    var i := 0;
    while i < |boundaries|
      invariant 0 <= i <= |boundaries| && forall j :: 0 <= j < i ==> boundaries[j] <= horizon
    {
      if boundaries[i] > horizon { return Some(boundaries[i]); }
      i := i + 1;
    }
    first := None;
  }

  lemma NoneEnabledForever(rules: seq<Rule>, fallback: Option<nat>, offsetMinutes: int, at: int)
    requires forall r :: r in rules ==> !r.enabled
    ensures Forever(rules, fallback, offsetMinutes, at)
  {
    hide CostAt, ValidAt;
    forall x | x >= at ensures CostAt(rules, fallback, x, offsetMinutes) == CostAt(rules, fallback, at, offsetMinutes) {
      NoneValidIsFallback(rules, fallback, x, offsetMinutes);
      NoneValidIsFallback(rules, fallback, at, offsetMinutes);
    }
  }

  lemma FirstBoundary(rules: seq<Rule>, boundaries: seq<int>, at: int)
    requires boundaries != [] && Ascending(boundaries) && forall b :: b in boundaries <==> b > at && IsBoundary(rules, b)
    ensures boundaries[0] > at && IsBoundary(rules, boundaries[0]) && NoBoundary(rules, at, boundaries[0] - 1)
  {
    hide IsBoundary;
    assert boundaries[0] in boundaries;
  }

  lemma OnlyOneStart(rules: seq<Rule>, boundaries: seq<int>, at: int, s: int)
    requires Ascending(boundaries) && forall b :: b in boundaries <==> b > at && IsBoundary(rules, b)
    requires s == if !ValidNow(rules, at) && boundaries != [] then boundaries[0] else at
    ensures forall t :: StartsAt(rules, at, t) ==> t == s
  {
    hide IsBoundary, ValidNow;
    if boundaries != [] {
      assert boundaries[0] in boundaries;
    } else {
      assert forall b :: b > at ==> !IsBoundary(rules, b) by {
        forall b | b > at ensures !IsBoundary(rules, b) { assert b !in boundaries; }
      }
    }
  }

  lemma ConstantHere(rules: seq<Rule>, fallback: Option<nat>, offsetMinutes: int, at: int)
    ensures Constant(rules, fallback, offsetMinutes, at, at)
  {
  }

  lemma CostIsPrepared(rules: seq<Rule>, fallback: Option<nat>, x: int, offsetMinutes: int)
    ensures CostAt(rules, fallback, x, offsetMinutes) == ResolvePrepared(SortRules(rules), fallback, x, offsetMinutes)
  {
  }

  lemma EmptyMeansNone(rules: seq<Rule>, at: int, boundaries: seq<int>)
    requires forall b :: b in boundaries <==> b > at && IsBoundary(rules, b)
    ensures boundaries == [] <==> forall b :: b > at ==> !IsBoundary(rules, b)
  {
    hide IsBoundary;
    if boundaries != [] {
      assert boundaries[0] in boundaries;
      assert boundaries[0] > at && IsBoundary(rules, boundaries[0]);
    } else {
      forall b | b > at ensures !IsBoundary(rules, b) { assert b !in boundaries; }
    }
  }

  lemma ForeverIsRight(rules: seq<Rule>, fallback: Option<nat>, offsetMinutes: int, at: int)
    requires Forever(rules, fallback, offsetMinutes, at)
    ensures IsRight(rules, fallback, offsetMinutes, at, Never)
  {
  }

  lemma HitAnswers(rules: seq<Rule>, fallback: Option<nat>, offsetMinutes: int, coming: set<int>, cursor: int, s: int, answer: Answer)
    requires answer.Change? && cursor < answer.at <= s + WINDOW
    requires Constant(rules, fallback, offsetMinutes, cursor, answer.at - 1)
    requires answer.cost == ResolvePrepared(SortRules(rules), fallback, answer.at, offsetMinutes)
    requires CostAt(rules, fallback, answer.at, offsetMinutes) != CostAt(rules, fallback, cursor, offsetMinutes)
    ensures Answers(rules, fallback, offsetMinutes, coming, cursor, s, answer)
  {
    CostIsPrepared(rules, fallback, answer.at, offsetMinutes);
    hide CostAt;
  }

  lemma MissAnswers(rules: seq<Rule>, fallback: Option<nat>, offsetMinutes: int, coming: set<int>, cursor: int, s: int)
    requires Constant(rules, fallback, offsetMinutes, cursor, s + WINDOW)
    ensures var next := NextStart(coming, s);
            forall a :: Answers(rules, fallback, offsetMinutes, coming, cursor, s, a)
              <==> if next.None? then a == Never
                   else Answers(rules, fallback, offsetMinutes, coming, next.value - 1, next.value, a)
  {
    hide Constant;
  }

  lemma NextIsNext(boundaries: seq<int>, coming: set<int>, s: int, next: Option<int>)
    requires forall b :: b in boundaries <==> b in coming
    requires next.None? ==> forall b :: b in boundaries ==> b <= s + WINDOW
    requires next.Some? ==> next.value in boundaries && next.value > s + WINDOW
    requires next.Some? ==> forall b :: b in boundaries ==> b <= s + WINDOW || b >= next.value
    ensures next == NextStart(coming, s)
  {
  }

  /** What follows from the answer of a search about the schedule. */
  lemma AnswerMeans(rules: seq<Rule>, fallback: Option<nat>, offsetMinutes: int, at: int, cursor: int, s: int, answer: Answer)
    requires at <= cursor <= s && Constant(rules, fallback, offsetMinutes, at, cursor)
    requires Answers(rules, fallback, offsetMinutes, Coming(rules, at), cursor, s, answer)
    ensures !answer.Invalid?
    ensures answer.Change? ==>
              answer.at > at && answer.cost == CostAt(rules, fallback, answer.at, offsetMinutes)
              && CostAt(rules, fallback, answer.at - 1, offsetMinutes) != answer.cost
              && !Forever(rules, fallback, offsetMinutes, at)
    ensures answer.Change? && answer.at <= s + WINDOW ==> Constant(rules, fallback, offsetMinutes, at, answer.at - 1)
    ensures answer.Change? && Constant(rules, fallback, offsetMinutes, at, s + WINDOW) ==>
              exists b :: b > s + WINDOW && IsBoundary(rules, b)
    ensures Spaced(Coming(rules, at), s) ==> IsRight(rules, fallback, offsetMinutes, at, answer)
  {
    hide CostAt, IsBoundary, Spaced, Answers;
    var coming := Coming(rules, at);
    ChangeIsAChange(rules, fallback, offsetMinutes, coming, cursor, s, answer);
    if answer.Change? && answer.at <= s + WINDOW { Join(rules, fallback, offsetMinutes, at, cursor, answer.at - 1); }
    if answer.Change? && Constant(rules, fallback, offsetMinutes, at, s + WINDOW) {
      assert Constant(rules, fallback, offsetMinutes, cursor, s + WINDOW);
      var b :| b > s + WINDOW && b in coming;
      assert IsBoundary(rules, b);
    }
    if Spaced(coming, s) { SpacedIsRight(rules, fallback, offsetMinutes, at, cursor, s, answer); }
  }

  /** Where a search from here begins to look. */
  ghost predicate Begins(rules: seq<Rule>, at: int, cursor: int, s: int) {
    StartsAt(rules, at, s) && cursor == if s == at then at else s - 1
  }

  /** Goes through the windows from the one at start on. */
  method Search(rules: seq<Rule>, prepared: seq<Rule>, fallback: Option<nat>, offsetMinutes: int, ghost at: int,
                boundaries: seq<int>, from: int, start: int) returns (answer: Answer)
    requires prepared == SortRules(rules) && at <= from <= start
    requires Ascending(boundaries) && forall b :: b in boundaries <==> b > at && IsBoundary(rules, b)
    ensures Answers(rules, fallback, offsetMinutes, Coming(rules, at), from, start, answer)
  {
    ghost var coming := Coming(rules, at);
    hide CostAt, IsBoundary, Constant, Answers, Coming, SortRules, ResolvePrepared;
    var cursor, horizon := from, start + WINDOW;
    ghost var s := start;
    while true
      invariant at <= cursor <= s && horizon == s + WINDOW
      invariant forall a :: Answers(rules, fallback, offsetMinutes, coming, cursor, s, a) ==>
                  Answers(rules, fallback, offsetMinutes, coming, from, start, a)
      decreases if boundaries == [] then 0 else Max(0, boundaries[|boundaries| - 1] - horizon)
    {
      var hit := Scan(rules, prepared, fallback, offsetMinutes, cursor, horizon, boundaries);
      if hit.Some? {
        answer := Change(hit.value, ResolvePrepared(prepared, fallback, hit.value, offsetMinutes));
        HitAnswers(rules, fallback, offsetMinutes, coming, cursor, s, answer);
        return;
      }
      var next := FirstAfter(boundaries, horizon);
      NextIsNext(boundaries, coming, s, next);
      MissAnswers(rules, fallback, offsetMinutes, coming, cursor, s);
      if next.None? { return Never; }
      cursor, horizon, s := next.value - 1, next.value + WINDOW, next.value;
    }
  }

  /**
   * The next change of the effective cost. A hit is always a genuine change, and one in the first window is the
   * earliest. When the first rule of a static schedule lists seven different days, or no window of any other is blind,
   * the answer is right: the earliest change, or none because there will never be one.
   */
  method NextCostTransition(rules: seq<Rule>, fallback: Option<nat>, at: int, offsetMinutes: int) returns (answer: Answer)
    ensures answer.Invalid? <==> exists r :: r in rules && !ValidRule(r)
    ensures !answer.Invalid? && StaticExit(rules, at) ==> answer.Never?
    ensures !answer.Invalid? && !StaticExit(rules, at) ==>
              forall cursor, s :: Begins(rules, at, cursor, s) ==>
                Answers(rules, fallback, offsetMinutes, Coming(rules, at), cursor, s, answer)
    ensures answer.Change? ==>
              answer.at > at && answer.cost == CostAt(rules, fallback, answer.at, offsetMinutes)
              && CostAt(rules, fallback, answer.at - 1, offsetMinutes) != answer.cost
              && !Forever(rules, fallback, offsetMinutes, at)
    ensures answer.Change? ==>
              forall s :: StartsAt(rules, at, s) && answer.at <= s + WINDOW ==>
                Constant(rules, fallback, offsetMinutes, at, answer.at - 1)
    ensures answer.Change? ==>
              forall s :: StartsAt(rules, at, s) && Constant(rules, fallback, offsetMinutes, at, s + WINDOW) ==>
                exists b :: b > s + WINDOW && IsBoundary(rules, b)
    ensures !answer.Invalid? && (if StaticExit(rules, at) then ExitIsRight(rules, at) else WellSpaced(rules, at)) ==>
              IsRight(rules, fallback, offsetMinutes, at, answer)
  {
    hide CostAt, IsBoundary, ValidRule, NoBoundary, Spaced, Forever, Constant, IsRight, ExitIsRight, SortRules, LooksStatic, ValidAt;
    if exists r :: r in rules && !ValidRule(r) { return Invalid; }
    var prepared := SortRules(rules);
    var boundaries := FutureBoundaries(rules, at);
    assert boundaries == [] <==> forall b :: b > at ==> !IsBoundary(rules, b) by { EmptyMeansNone(rules, at, boundaries); }
    if boundaries == [] && forall r :: r in rules && r.enabled ==> LooksStatic(r) {
      assert StaticExit(rules, at);
      if ExitIsRight(rules, at) {
        RightExitForever(rules, fallback, offsetMinutes, at);
        ForeverIsRight(rules, fallback, offsetMinutes, at);
      }
      return Never;
    }
    assert !StaticExit(rules, at);
    var cursor, s := at, at;
    if !ValidNow(rules, at) && boundaries != [] {
      cursor, s := boundaries[0] - 1, boundaries[0];
      FirstBoundary(rules, boundaries, at);
      ConstantUntilFirst(rules, fallback, offsetMinutes, at, s);
    } else {
      ConstantHere(rules, fallback, offsetMinutes, at);
    }
    ghost var coming := Coming(rules, at);
    assert StartsAt(rules, at, s) && forall t :: StartsAt(rules, at, t) ==> t == s by {
      OnlyOneStart(rules, boundaries, at, s);
    }
    hide StartsAt, Answers, StaticExit, Coming;
    if forall r :: r in rules ==> !r.enabled {
      NoneEnabledForever(rules, fallback, offsetMinutes, at);
      ForeverAnswersNever(rules, fallback, offsetMinutes, coming, at, cursor, s);
      AnswerMeans(rules, fallback, offsetMinutes, at, cursor, s, Never);
      return Never;
    }
    answer := Search(rules, prepared, fallback, offsetMinutes, at, boundaries, cursor, s);
    AnswerMeans(rules, fallback, offsetMinutes, at, cursor, s, answer);
  }

  lemma TwoRules(low: Rule, high: Rule)
    requires !Precedes(low, high)
    ensures SortRules([low, high]) == [high, low]
    ensures forall x :: FindActive([high, low], x, 0)
                        == if Active(high, x, 0) then Some(high) else if Active(low, x, 0) then Some(low) else None
  {
    hide Active;
    assert [low, high][1..] == [high] && [high][1..] == [] && [high, low][1..] == [low] && [low][1..] == [];
    assert SortRules([high]) == [high];
    assert Insert(low, [high]) == [high] + Insert(low, [high][1..]);
    assert Insert(low, []) == [low];
    forall x ensures FindActive([low], x, 0) == if Active(low, x, 0) then Some(low) else None {
      assert FindActive([], x, 0) == None;
    }
  }

  /**
   * A boundary late in a window can hide a change. Rule 2 becomes valid on a Monday, a day before the window ends, and
   * takes over on Wednesdays: the window is over before the first of them, and no boundary opens another.
   */
  lemma LateBoundaryHidesAChange()
    ensures var always := Rule(1, 0, [1, 2, 3, 4, 5, 6, 7], 0, 0, 0, None, 0, true, false, true);
            var at := 4 * DAY;
            var wednesdays := Rule(2, 1, [3], 0, 0, at + WEEK, None, 0, true, false, true);
            var rules := [always, wednesdays];
            Begins(rules, at, at, at) && !StaticExit(rules, at) && Constant(rules, None, 0, at, at + WINDOW)
            && !(exists b :: b > at + WINDOW && IsBoundary(rules, b))
            && Answers(rules, None, 0, Coming(rules, at), at, at, Never)
            && CostAt(rules, None, at + 9 * DAY, 0) != CostAt(rules, None, at, 0)
  {
    var always := Rule(1, 0, [1, 2, 3, 4, 5, 6, 7], 0, 0, 0, None, 0, true, false, true);
    var at := 4 * DAY;
    var wednesdays := Rule(2, 1, [3], 0, 0, at + WEEK, None, 0, true, false, true);
    var rules := [always, wednesdays];
    TwoRules(always, wednesdays);
    assert rules[0] == always && rules[1] == wednesdays;
    hide SortRules, FindActive;
    forall x | at <= x <= at + WINDOW ensures CostAt(rules, None, x, 0) == Some(ChannelRule(1)) {
      assert Active(always, x, 0);
      assert !Active(wednesdays, x, 0);
    }
    assert Active(wednesdays, at + 9 * DAY, 0);
  }
}
