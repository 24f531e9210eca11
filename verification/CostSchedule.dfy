/** Weekly price rules: which minutes of the week they match, on paper and on the grid, and when two of them conflict. */
module CostSchedule {
  import opened Money

  const DAY_MINUTES: nat := 1440
  const WEEK_MINUTES: nat := 10080
  const MINUTE: nat := 60_000
  const DAY: nat := 86_400_000
  const WEEK: nat := 604_800_000

  /** Times are milliseconds since the epoch; days are ISO weekdays, minutes count from midnight. */
  datatype Rule = Rule(
    id: nat, priority: int, days: seq<int>, startMinute: int, endMinute: int,
    validFrom: int, validUntil: Option<int>, createdAt: int, enabled: bool, archived: bool, cny: bool)

  predicate ValidTimes(r: Rule) {
    && r.days != []
    && (forall d :: d in r.days ==> 1 <= d <= 7)
    && 0 <= r.startMinute < DAY_MINUTES && 0 <= r.endMinute < DAY_MINUTES
  }

  /** Amounts are nonnegative by their type. */
  predicate ValidRule(r: Rule) {
    r.cny && ValidTimes(r)
  }

  // ----- matching

  predicate MatchesLocalTime(r: Rule, weekday: int, minute: int) {
    if r.startMinute == r.endMinute then weekday in r.days
    else if r.startMinute < r.endMinute then weekday in r.days && r.startMinute <= minute < r.endMinute
    else
      var previousWeekday := if weekday == 1 then 7 else weekday - 1;
      (weekday in r.days && minute >= r.startMinute) || (previousWeekday in r.days && minute < r.endMinute)
  }

  /** Minute w of the week, counted from Monday midnight. */
  predicate Matches(r: Rule, w: nat) {
    MatchesLocalTime(r, w / DAY_MINUTES + 1, w % DAY_MINUTES)
  }

  /** The local minute of the week at a fixed distance from UTC; the epoch was a Thursday. */
  function WeekMinute(at: int, offsetMinutes: int): nat {
    (at / MINUTE + offsetMinutes + 3 * DAY_MINUTES) % WEEK_MINUTES
  }

  predicate ValidAt(r: Rule, at: int) {
    r.validFrom <= at && (r.validUntil.None? || r.validUntil.value > at)
  }

  predicate Active(r: Rule, at: int, offsetMinutes: int) {
    r.enabled && ValidAt(r, at) && Matches(r, WeekMinute(at, offsetMinutes))
  }

  /** The same local time comes back after a week. */
  lemma WeeklyPeriod(at: int, weeks: int, offsetMinutes: int)
    ensures WeekMinute(at + weeks * WEEK, offsetMinutes) == WeekMinute(at, offsetMinutes)
  {
    var minutes := at / MINUTE + offsetMinutes + 3 * DAY_MINUTES;
    assert (at + weeks * WEEK) / MINUTE == at / MINUTE + weeks * WEEK_MINUTES;
    ModPeriod(minutes, weeks, WEEK_MINUTES);
  }

  lemma ModPeriod(a: int, k: int, m: nat)
    requires m > 0
    ensures (a + k * m) % m == a % m
  {
    var q := a / m;
    assert a + k * m == (q + k) * m + a % m;
    DivModUnique(a + k * m, m, q + k, a % m);
  }

  lemma DivModUnique(n: int, m: nat, q: int, r: int)
    requires m > 0 && n == q * m + r && 0 <= r < m
    ensures n % m == r
  {
    var d := n / m - q;
    assert d * m == r - n % m;
    assert d * m < m && d * m > 0 - m;
    SmallMultipleIsZero(d, m);
  }

  lemma SmallMultipleIsZero(d: int, m: nat)
    requires 0 - m < d * m < m
    ensures d == 0
  {
    MultipleIsLarge(d, m);
  }

  lemma MultipleIsLarge(d: int, m: nat)
    ensures d >= 1 ==> d * m >= m
    ensures d <= -1 ==> d * m <= 0 - m
  {
  }

  // ----- the grid

  /** The minutes of the week that one listed day of a rule contributes, past midnight into the next day if need be. */
  predicate DayCovers(r: Rule, day: int, w: int) {
    var offset := (day - 1) * DAY_MINUTES;
    if r.startMinute == r.endMinute then offset <= w < offset + DAY_MINUTES
    else if r.startMinute < r.endMinute then offset + r.startMinute <= w < offset + r.endMinute
    else
      var next := (if day == 7 then 0 else day) * DAY_MINUTES;
      offset + r.startMinute <= w < offset + DAY_MINUTES || next <= w < next + r.endMinute
  }

  /** Matching looks back to the day before; marking looks ahead to the day after: they agree. */
  lemma MatchesIsCovered(r: Rule, w: nat)
    requires ValidTimes(r) && w < WEEK_MINUTES
    ensures Matches(r, w) <==> exists i :: 0 <= i < |r.days| && DayCovers(r, r.days[i], w)
  {
    var weekday := w / DAY_MINUTES + 1;
    var previous := if weekday == 1 then 7 else weekday - 1;
    if Matches(r, w) {
      if weekday in r.days && DayCovers(r, weekday, w) {
        var i :| 0 <= i < |r.days| && r.days[i] == weekday;
      } else {
        var i :| 0 <= i < |r.days| && r.days[i] == previous;
        assert DayCovers(r, r.days[i], w);
      }
    }
    if i :| 0 <= i < |r.days| && DayCovers(r, r.days[i], w) {
      assert r.days[i] in r.days;
    }
  }

  method Mark(grid: array<bool>, weekday: int, from: int, until: int)
    requires grid.Length == WEEK_MINUTES && 1 <= weekday <= 7 && 0 <= from <= DAY_MINUTES && 0 <= until <= DAY_MINUTES
    modifies grid
    ensures forall w :: 0 <= w < WEEK_MINUTES ==>
              grid[w] == (old(grid[w]) || (weekday - 1) * DAY_MINUTES + from <= w < (weekday - 1) * DAY_MINUTES + until)
  {
    var offset := (weekday - 1) * DAY_MINUTES;
    var minute := from;
    while minute < until
      invariant from <= minute && (minute <= until || minute == from)
      invariant forall w :: 0 <= w < WEEK_MINUTES ==> grid[w] == (old(grid[w]) || offset + from <= w < offset + minute)
    {
      grid[offset + minute] := true;
      minute := minute + 1;
    }
  }

  /** Adds one rule's minutes to the grid. */
  method MarkRule(grid: array<bool>, r: Rule)
    requires grid.Length == WEEK_MINUTES && ValidTimes(r)
    modifies grid
    ensures forall w :: 0 <= w < WEEK_MINUTES ==> grid[w] == (old(grid[w]) || Matches(r, w))
  {
    hide Matches;
    var d := 0;
    while d < |r.days|
      invariant 0 <= d <= |r.days|
      invariant forall w :: 0 <= w < WEEK_MINUTES ==>
                  grid[w] == (old(grid[w]) || exists i :: 0 <= i < d && DayCovers(r, r.days[i], w))
    {
      var day := r.days[d];
      assert day in r.days;
      MarkDay(grid, r, day);
      d := d + 1;
    }
    forall w | 0 <= w < WEEK_MINUTES ensures grid[w] == (old(grid[w]) || Matches(r, w)) { MatchesIsCovered(r, w); }
  }

  method MarkDay(grid: array<bool>, r: Rule, day: int)
    requires grid.Length == WEEK_MINUTES && ValidTimes(r) && 1 <= day <= 7
    modifies grid
    ensures forall w :: 0 <= w < WEEK_MINUTES ==> grid[w] == (old(grid[w]) || DayCovers(r, day, w))
  {
    if r.startMinute == r.endMinute {
      Mark(grid, day, 0, DAY_MINUTES);
    } else if r.startMinute < r.endMinute {
      Mark(grid, day, r.startMinute, r.endMinute);
    } else {
      Mark(grid, day, r.startMinute, DAY_MINUTES);
      Mark(grid, if day == 7 then 1 else day + 1, 0, r.endMinute);
    }
  }

  /** The grid of a rule is true exactly where the rule matches. */
  method WeeklyMinutes(r: Rule) returns (grid: array<bool>)
    requires ValidTimes(r)
    ensures fresh(grid) && grid.Length == WEEK_MINUTES
    ensures forall w :: 0 <= w < WEEK_MINUTES ==> grid[w] == Matches(r, w)
  {
    grid := new bool[WEEK_MINUTES](_ => false);
    MarkRule(grid, r);
  }

  // ----- conflicts

  predicate WindowsMeet(left: Rule, right: Rule) {
    && !(left.validUntil.Some? && left.validUntil.value <= right.validFrom)
    && !(right.validUntil.Some? && right.validUntil.value <= left.validFrom)
  }

  ghost predicate ShareMinute(left: Rule, right: Rule) {
    exists w: nat :: w < WEEK_MINUTES && Matches(left, w) && Matches(right, w)
  }

  ghost predicate Overlap(left: Rule, right: Rule) {
    left.enabled && right.enabled && WindowsMeet(left, right) && ShareMinute(left, right)
  }

  /** Whether two rules conflict, found on their grids; None for a rule that is no valid rule at all. */
  method CostRulesOverlap(left: Rule, right: Rule) returns (overlap: Option<bool>)
    ensures overlap.None? <==> !ValidRule(left) || !ValidRule(right)
    ensures overlap.Some? ==> (overlap.value <==> Overlap(left, right))
  {
    if !ValidRule(left) || !ValidRule(right) { return None; }
    if !left.enabled || !right.enabled { return Some(false); }
    if !WindowsMeet(left, right) { return Some(false); }
    hide Matches;
    var leftMinutes := WeeklyMinutes(left);
    var rightMinutes := WeeklyMinutes(right);
    var w := 0;
    while w < WEEK_MINUTES
      invariant 0 <= w <= WEEK_MINUTES
      invariant forall v: nat :: v < w ==> !(Matches(left, v) && Matches(right, v))
    {
      if leftMinutes[w] && rightMinutes[w] { return Some(true); }
      w := w + 1;
    }
    overlap := Some(false);
  }

  /** Rules without a conflict are never active at the same time. */
  lemma NoOverlapNeverTogether(left: Rule, right: Rule, at: int, offsetMinutes: int)
    requires Active(left, at, offsetMinutes) && Active(right, at, offsetMinutes)
    ensures Overlap(left, right)
  {
    var w := WeekMinute(at, offsetMinutes);
    hide Matches;
    assert w < WEEK_MINUTES && Matches(left, w) && Matches(right, w);
  }

  /** The last validity start and the first validity end of two rules, when their windows are of at least a week in common. */
  predicate ShareAWeek(left: Rule, right: Rule) {
    var from := Max(left.validFrom, right.validFrom);
    (left.validUntil.None? || from + WEEK <= left.validUntil.value)
    && (right.validUntil.None? || from + WEEK <= right.validUntil.value)
  }

  /** From any moment, every minute of the week comes up within the week. */
  lemma MinuteComesUp(from: int, w: nat, offsetMinutes: int) returns (at: int)
    requires w < WEEK_MINUTES
    ensures from <= at < from + WEEK && WeekMinute(at, offsetMinutes) == w
  {
    var minute := from / MINUTE;
    var now := WeekMinute(from, offsetMinutes);
    var ahead := if w >= now then w - now else w + WEEK_MINUTES - now;
    at := from + ahead * MINUTE;
    assert at / MINUTE == minute + ahead;
    var minutes := minute + offsetMinutes + 3 * DAY_MINUTES;
    var q := minutes / WEEK_MINUTES;
    DivModUnique(minutes + ahead, WEEK_MINUTES, if w >= now then q else q + 1, w);
  }

  /** For rules that are valid together for a week or more, a reported conflict is exactly a time when both are active. */
  lemma OverlapMeansTogether(left: Rule, right: Rule, offsetMinutes: int)
    requires ShareAWeek(left, right)
    ensures Overlap(left, right) <==> exists at :: Active(left, at, offsetMinutes) && Active(right, at, offsetMinutes)
  {
    hide Matches, WeekMinute;
    if Overlap(left, right) {
      var w: nat :| w < WEEK_MINUTES && Matches(left, w) && Matches(right, w);
      var at := MinuteComesUp(Max(left.validFrom, right.validFrom), w, offsetMinutes);
      assert Active(left, at, offsetMinutes) && Active(right, at, offsetMinutes);
    }
    if at :| Active(left, at, offsetMinutes) && Active(right, at, offsetMinutes) {
      NoOverlapNeverTogether(left, right, at, offsetMinutes);
    }
  }

  // ----- coverage

  predicate AnyMatches(rules: seq<Rule>, w: nat) {
    exists i :: 0 <= i < |rules| && Matches(rules[i], w)
  }

  ghost function CoveredMinutes(rules: seq<Rule>): set<nat> {
    set w: nat | w < WEEK_MINUTES && AnyMatches(rules, w)
  }

  datatype Coverage = Coverage(channelRuleMinutes: int, fallbackMinutes: int, uncoveredMinutes: int)

  /** Counts the minutes of the week that some rule matches; the three counts make up the week. */
  method WeeklyCoverage(rules: seq<Rule>, hasFallback: bool) returns (coverage: Coverage)
    requires forall r :: r in rules ==> ValidTimes(r)
    ensures coverage.channelRuleMinutes == |CoveredMinutes(rules)|
    ensures coverage.channelRuleMinutes + coverage.fallbackMinutes + coverage.uncoveredMinutes == WEEK_MINUTES
    ensures coverage.channelRuleMinutes >= 0 && coverage.fallbackMinutes >= 0 && coverage.uncoveredMinutes >= 0
    ensures if hasFallback then coverage.uncoveredMinutes == 0 else coverage.fallbackMinutes == 0
  {
    hide Matches;
    var covered := new bool[WEEK_MINUTES](_ => false);
    var i := 0;
    while i < |rules|
      invariant 0 <= i <= |rules|
      invariant forall w :: 0 <= w < WEEK_MINUTES ==> covered[w] == AnyMatches(rules[..i], w)
    {
      assert rules[i] in rules;
      MarkRule(covered, rules[i]);
      OneMoreMatches(rules, i);
      i := i + 1;
    }
    assert rules[..i] == rules;
    var count := CountTrue(covered);
    ghost var marked := set w: nat | w < WEEK_MINUTES && covered[w];
    assert marked == CoveredMinutes(rules);
    var remaining := WEEK_MINUTES - count;
    coverage := Coverage(count, if hasFallback then remaining else 0, if hasFallback then 0 else remaining);
  }

  lemma OneMoreMatches(rules: seq<Rule>, i: nat)
    requires i < |rules|
    ensures forall w: nat :: AnyMatches(rules[..i + 1], w) <==> AnyMatches(rules[..i], w) || Matches(rules[i], w)
  {
    hide Matches;
    assert rules[..i + 1] == rules[..i] + [rules[i]];
    forall w: nat | AnyMatches(rules[..i], w) || Matches(rules[i], w) ensures AnyMatches(rules[..i + 1], w) {
      if AnyMatches(rules[..i], w) {
        var k :| 0 <= k < i && Matches(rules[..i][k], w);
        assert Matches(rules[..i + 1][k], w);
      } else {
        assert Matches(rules[..i + 1][i], w);
      }
    }
  }

  method CountTrue(grid: array<bool>) returns (count: int)
    ensures count == |set w: nat | w < grid.Length && grid[w]| && 0 <= count <= grid.Length
  {
    count := 0;
    var i := 0;
    while i < grid.Length
      invariant 0 <= i <= grid.Length && 0 <= count <= i
      invariant count == |set w: nat | w < i && grid[w]|
    {
      ghost var before := set w: nat | w < i && grid[w];
      ghost var after := set w: nat | w < i + 1 && grid[w];
      assert after == if grid[i] then before + {i} else before;
      if grid[i] { count := count + 1; }
      i := i + 1;
    }
  }

  datatype CostStatus = DISABLED | CHANNEL_RULE_ACTIVE | PARTIAL_FALLBACK | UPCOMING | FALLBACK_ONLY | NO_COST

  function StatusFor(disabled: bool, coverage: Coverage, hasFallback: bool, futureRules: nat): CostStatus {
    if disabled then DISABLED
    else if coverage.channelRuleMinutes == WEEK_MINUTES then CHANNEL_RULE_ACTIVE
    else if coverage.channelRuleMinutes > 0 && hasFallback then PARTIAL_FALLBACK
    else if coverage.channelRuleMinutes == 0 && futureRules > 0 then UPCOMING
    else if coverage.channelRuleMinutes == 0 && hasFallback then FALLBACK_ONLY
    else NO_COST
  }

  ghost function MinutesBelow(n: nat): (minutes: set<nat>)
    ensures |minutes| == n && forall w: nat :: w in minutes <==> w < n
  {
    if n == 0 then {} else MinutesBelow(n - 1) + {n - 1}
  }

  /** A count of the whole week is nothing less than every single minute. */
  lemma FullCountIsEveryMinute(rules: seq<Rule>)
    ensures |CoveredMinutes(rules)| == WEEK_MINUTES <==> forall w: nat :: w < WEEK_MINUTES ==> AnyMatches(rules, w)
  {
    hide AnyMatches, MinutesBelow;
    var week := MinutesBelow(WEEK_MINUTES);
    var covered := CoveredMinutes(rules);
    if w: nat :| w < WEEK_MINUTES && !AnyMatches(rules, w) {
      SubsetIsSmaller(covered, week - {w});
    } else {
      assert covered == week;
    }
  }

  lemma {:induction false} SubsetIsSmaller(a: set<nat>, b: set<nat>)
    requires a <= b
    ensures |a| <= |b|
    decreases a
  {
    if a != {} {
      var x :| x in a;
      SubsetIsSmaller(a - {x}, b - {x});
    }
  }

  /** An enabled model shows rules for the whole week exactly when at every moment one of them matches. */
  lemma RuleActiveMeansAlwaysMatched(rules: seq<Rule>, coverage: Coverage, hasFallback: bool, futureRules: nat, offsetMinutes: int)
    requires coverage.channelRuleMinutes == |CoveredMinutes(rules)|
    ensures StatusFor(false, coverage, hasFallback, futureRules) == CHANNEL_RULE_ACTIVE
            <==> forall at :: AnyMatches(rules, WeekMinute(at, offsetMinutes))
  {
    FullCountIsEveryMinute(rules);
    hide AnyMatches, WeekMinute;
    if forall at :: AnyMatches(rules, WeekMinute(at, offsetMinutes)) {
      if w: nat :| w < WEEK_MINUTES && !AnyMatches(rules, w) {
        var at := MinuteComesUp(0, w, offsetMinutes);
        assert false;
      }
    } else {
      var at :| !AnyMatches(rules, WeekMinute(at, offsetMinutes));
      WeekMinuteInRange(at, offsetMinutes);
    }
  }

  lemma WeekMinuteInRange(at: int, offsetMinutes: int)
    ensures WeekMinute(at, offsetMinutes) < WEEK_MINUTES
  {
  }
}
