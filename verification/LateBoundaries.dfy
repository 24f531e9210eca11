/** Which boundaries make the search for the next change go wrong: exactly those that leave a window blind. */
module LateBoundaries {
  import opened Money
  import opened CostSchedule
  import opened CostResolution
  import opened NextTransition

  /** Schedules between which a search sees no difference but in their prices: the same boundaries to come, the same start. */
  ghost predicate SameOutline(rules: seq<Rule>, others: seq<Rule>, at: int) {
    && (forall r :: r in others ==> ValidRule(r))
    && (DistinctIds(rules) ==> DistinctIds(others))
    && Coming(others, at) == Coming(rules, at)
    && (ValidNow(others, at) <==> ValidNow(rules, at))
  }

  /** Whatever such a schedule prices, what the search answers about it is right. */
  ghost predicate AlwaysRight(rules: seq<Rule>, at: int, offsetMinutes: int) {
    forall others, fallback, cursor, s, answer ::
      SameOutline(rules, others, at) && !StaticExit(others, at) && Begins(others, at, cursor, s)
      && Answers(others, fallback, offsetMinutes, Coming(others, at), cursor, s, answer)
      ==> IsRight(others, fallback, offsetMinutes, at, answer)
  }

  // ----- a schedule that changes where the search does not look

  function Disabled(rules: seq<Rule>): seq<Rule> {
    seq(|rules|, i requires 0 <= i < |rules| => rules[i].(enabled := false))
  }

  function UnusedId(rules: seq<Rule>): (id: nat)
    ensures forall r :: r in rules ==> r.id < id
  {
    if rules == [] then 0 else Max(rules[0].id + 1, UnusedId(rules[1..]))
  }

  function AllWeek(id: nat, from: int): Rule {
    Rule(id, 0, [1, 2, 3, 4, 5, 6, 7], 0, 0, from, None, 0, true, false, true)
  }

  function OneMinute(id: nat, from: int, w: nat): Rule {
    Rule(id, 1, [w / DAY_MINUTES + 1], w % DAY_MINUTES, (w % DAY_MINUTES + 1) % DAY_MINUTES, from, None, 0, true, false, true)
  }

  lemma AllWeekMatches(id: nat, from: int, v: nat)
    requires v < WEEK_MINUTES
    ensures ValidRule(AllWeek(id, from)) && Matches(AllWeek(id, from), v)
  {
  }

  lemma OneMinuteMatches(id: nat, from: int, w: nat, v: nat)
    requires w < WEEK_MINUTES && v < WEEK_MINUTES
    ensures var r := OneMinute(id, from, w);
            ValidRule(r) && r.startMinute != r.endMinute && (Matches(r, v) <==> v == w)
  {
    var day, minute := w / DAY_MINUTES + 1, w % DAY_MINUTES;
    assert 1 <= day <= 7;
    if minute == DAY_MINUTES - 1 {
      assert (minute + 1) % DAY_MINUTES == 0;
    } else {
      assert (minute + 1) % DAY_MINUTES == minute + 1;
    }
    assert v == w <==> v / DAY_MINUTES + 1 == day && v % DAY_MINUTES == minute;
  }

  /** The schedule's boundaries without its prices; one rule for all the time if some rule is valid now; one for a single minute. */
  function Trap(rules: seq<Rule>, at: int, b: int, w: nat): seq<Rule> {
    var id := UnusedId(rules);
    Disabled(rules) + (if ValidNow(rules, at) then [AllWeek(id, at)] else []) + [OneMinute(id + 1, b, w)]
  }

  lemma TrapMembers(rules: seq<Rule>, at: int, b: int, w: nat, r: Rule)
    ensures var id := UnusedId(rules);
            r in Trap(rules, at, b, w)
            <==> r in Disabled(rules) || (ValidNow(rules, at) && r == AllWeek(id, at)) || r == OneMinute(id + 1, b, w)
  {
  }

  lemma DisabledBoundaries(rules: seq<Rule>, x: int)
    ensures IsBoundary(Disabled(rules), x) <==> IsBoundary(rules, x)
  {
    if r :| r in rules && (r.validFrom == x || r.validUntil == Some(x)) {
      var i :| 0 <= i < |rules| && rules[i] == r;
      assert Disabled(rules)[i] in Disabled(rules);
    }
  }

  lemma TrapBoundaries(rules: seq<Rule>, at: int, b: int, w: nat, x: int)
    requires IsBoundary(rules, b) && x > at
    ensures IsBoundary(Trap(rules, at, b, w), x) <==> IsBoundary(rules, x)
  {
    DisabledBoundaries(rules, x);
    var trap := Trap(rules, at, b, w);
    if IsBoundary(rules, x) {
      var r :| r in Disabled(rules) && (r.validFrom == x || r.validUntil == Some(x));
      assert r in trap;
    }
  }

  lemma TrapComing(rules: seq<Rule>, at: int, b: int, w: nat)
    requires IsBoundary(rules, b)
    ensures Coming(Trap(rules, at, b, w), at) == Coming(rules, at)
  {
    hide IsBoundary, Trap, Coming;
    forall x ensures x in Coming(Trap(rules, at, b, w), at) <==> x in Coming(rules, at) {
      if x > at { TrapBoundaries(rules, at, b, w, x); }
    }
  }

  lemma TrapIds(rules: seq<Rule>, at: int, b: int, w: nat)
    requires DistinctIds(rules)
    ensures DistinctIds(Trap(rules, at, b, w))
  {
    hide ValidNow;
    var trap, n, id := Trap(rules, at, b, w), |rules|, UnusedId(rules);
    forall i, j | 0 <= i < j < |trap| ensures trap[i].id != trap[j].id {
      if i < n {
        assert trap[i].id == rules[i].id && rules[i] in rules;
      }
    }
  }

  lemma TrapValid(rules: seq<Rule>, at: int, b: int, w: nat)
    requires (forall r :: r in rules ==> ValidRule(r)) && w < WEEK_MINUTES
    ensures forall r :: r in Trap(rules, at, b, w) ==> ValidRule(r)
  {
    hide Trap, ValidNow;
    var id := UnusedId(rules);
    AllWeekMatches(id, at, 0);
    OneMinuteMatches(id + 1, b, w, 0);
    forall r | r in Trap(rules, at, b, w) ensures ValidRule(r) {
      TrapMembers(rules, at, b, w, r);
      if r in Disabled(rules) {
        var i :| 0 <= i < |rules| && r == rules[i].(enabled := false);
        assert rules[i] in rules;
      }
    }
  }

  lemma TrapStart(rules: seq<Rule>, at: int, b: int, w: nat)
    requires b > at
    ensures ValidNow(Trap(rules, at, b, w), at) <==> ValidNow(rules, at)
  {
    hide Trap;
    var trap, id := Trap(rules, at, b, w), UnusedId(rules);
    if ValidNow(rules, at) {
      TrapMembers(rules, at, b, w, AllWeek(id, at));
      assert ValidAt(AllWeek(id, at), at);
    } else {
      forall r | r in trap && r.enabled ensures !ValidAt(r, at) { TrapMembers(rules, at, b, w, r); }
    }
  }

  lemma TrapOutline(rules: seq<Rule>, at: int, b: int, w: nat)
    requires (forall r :: r in rules ==> ValidRule(r)) && b > at && IsBoundary(rules, b) && w < WEEK_MINUTES
    ensures SameOutline(rules, Trap(rules, at, b, w), at)
  {
    hide IsBoundary, Coming, DistinctIds, Trap, ValidRule, ValidNow;
    TrapValid(rules, at, b, w);
    TrapComing(rules, at, b, w);
    if DistinctIds(rules) { TrapIds(rules, at, b, w); }
    TrapStart(rules, at, b, w);
  }

  /** What the trap costs: the minute's own price from the boundary on, and one price at any other time. */
  lemma TrapCost(rules: seq<Rule>, at: int, b: int, w: nat, x: int, offsetMinutes: int)
    requires at < b && at <= x && w < WEEK_MINUTES
    ensures var id := UnusedId(rules);
            CostAt(Trap(rules, at, b, w), None, x, offsetMinutes)
            == if x >= b && WeekMinute(x, offsetMinutes) == w then Some(ChannelRule(id + 1))
               else if ValidNow(rules, at) then Some(ChannelRule(id)) else None
  {
    hide WeekMinute, Matches, SortRules, FindActive, ValidNow;
    var trap, id := Trap(rules, at, b, w), UnusedId(rules);
    var all, one := AllWeek(id, at), OneMinute(id + 1, b, w);
    var v := WeekMinute(x, offsetMinutes);
    WeekMinuteInRange(x, offsetMinutes);
    AllWeekMatches(id, at, v);
    OneMinuteMatches(id + 1, b, w, v);
    ResolvedWins(trap, x, offsetMinutes);
    var found := FindActive(SortRules(trap), x, offsetMinutes);
    TrapMembers(rules, at, b, w, all);
    TrapMembers(rules, at, b, w, one);
    if found.Some? {
      TrapMembers(rules, at, b, w, found.value);
    }
  }

  // ----- the search falls into the trap

  /** The windows of a search from one start on include the one at s. */
  ghost predicate Reaches(coming: set<int>, from: int, s: int)
    decreases After(coming, from)
  {
    var next := NextStart(coming, from);
    from == s || (next.Some? && Reaches(coming, next.value, s))
  }

  lemma {:induction false} ReachesUp(coming: set<int>, from: int, s: int)
    requires Reaches(coming, from, s)
    ensures from <= s
    decreases After(coming, from)
  {
    var next := NextStart(coming, from);
    if from != s { ReachesUp(coming, next.value, s); }
  }

  lemma {:induction false} BlindWindow(coming: set<int>, from: int) returns (s: int)
    requires !Spaced(coming, from)
    ensures Reaches(coming, from, s) && Blind(coming, s)
    decreases After(coming, from)
  {
    hide Blind;
    if Blind(coming, from) { return from; }
    s := BlindWindow(coming, NextStart(coming, from).value);
  }

  /** Where nothing changes up to the end of a blind window, nothing is found up to the minute after it. */
  lemma {:induction false} NothingFound(rules: seq<Rule>, offsetMinutes: int, at: int, coming: set<int>, cursor: int, from: int, s: int,
                                        answer: Answer)
    requires at <= cursor <= from && Reaches(coming, from, s) && forall c :: c in coming ==> c > at
    requires Constant(rules, None, offsetMinutes, at, s + WINDOW)
    requires forall c :: c in coming ==> !(s + WINDOW < c <= TickAfter(s))
    requires Answers(rules, None, offsetMinutes, coming, cursor, from, answer)
    ensures answer.Never? || (answer.Change? && answer.at > TickAfter(s))
    decreases After(coming, from)
  {
    hide CostAt;
    ReachesUp(coming, from, s);
    assert Constant(rules, None, offsetMinutes, cursor, from + WINDOW);
    var next := NextStart(coming, from);
    if next.Some? {
      hide Constant;
      if from == s {
        ChangeIsAChange(rules, None, offsetMinutes, coming, next.value - 1, next.value, answer);
      } else {
        NothingFound(rules, offsetMinutes, at, coming, next.value - 1, next.value, s, answer);
      }
    }
  }

  lemma OtherMinute(x: int, y: int, offsetMinutes: int)
    requires 0 < y / MINUTE - x / MINUTE < WEEK_MINUTES
    ensures WeekMinute(x, offsetMinutes) != WeekMinute(y, offsetMinutes)
  {
  }

  lemma TrapIsConstant(rules: seq<Rule>, at: int, b: int, s: int, offsetMinutes: int)
    requires at < b && at <= s && Late(s, b)
    ensures var tick := TickAfter(s);
            var trap := Trap(rules, at, b, WeekMinute(tick, offsetMinutes));
            Constant(trap, None, offsetMinutes, at, tick - 1)
            && CostAt(trap, None, tick, offsetMinutes) != CostAt(trap, None, at, offsetMinutes)
  {
    var tick := TickAfter(s);
    var w := WeekMinute(tick, offsetMinutes);
    WeekMinuteInRange(tick, offsetMinutes);
    var trap := Trap(rules, at, b, w);
    assert tick / MINUTE == s / MINUTE + 8 * DAY_MINUTES + 1 && tick > s + WINDOW;
    hide CostAt, Trap, WeekMinute, ValidNow;
    TrapCost(rules, at, b, w, at, offsetMinutes);
    TrapCost(rules, at, b, w, tick, offsetMinutes);
    forall x | at <= x <= tick - 1 ensures CostAt(trap, None, x, offsetMinutes) == CostAt(trap, None, at, offsetMinutes) {
      TrapCost(rules, at, b, w, x, offsetMinutes);
      if x >= b { OtherMinute(x, tick, offsetMinutes); }
    }
  }

  /** From a start with a blind window ahead, some schedule of this outline is answered wrongly, whatever the answer. */
  lemma BlindIsWrong(rules: seq<Rule>, at: int, offsetMinutes: int, cursor: int, from: int) returns (trap: seq<Rule>)
    requires (forall r :: r in rules ==> ValidRule(r)) && Begins(rules, at, cursor, from) && !Spaced(Coming(rules, at), from)
    ensures SameOutline(rules, trap, at) && Begins(trap, at, cursor, from) && !StaticExit(trap, at)
    ensures forall answer :: Answers(trap, None, offsetMinutes, Coming(trap, at), cursor, from, answer) ==>
              !IsRight(trap, None, offsetMinutes, at, answer)
  {
    hide CostAt, IsBoundary, ValidRule, Spaced, Constant, Trap, Answers, Forever, ValidNow;
    var coming := Coming(rules, at);
    var s := BlindWindow(coming, from);
    ReachesUp(coming, from, s);
    var b :| b in coming && Late(s, b);
    var tick := TickAfter(s);
    var w := WeekMinute(tick, offsetMinutes);
    WeekMinuteInRange(tick, offsetMinutes);
    trap := Trap(rules, at, b, w);
    TrapOutline(rules, at, b, w);
    SameStart(rules, trap, at, from);
    TrapIsConstant(rules, at, b, s, offsetMinutes);
    Shorter(trap, offsetMinutes, at, tick - 1, s + WINDOW);
    forall answer | Answers(trap, None, offsetMinutes, coming, cursor, from, answer)
      ensures !IsRight(trap, None, offsetMinutes, at, answer)
    {
      NothingFound(trap, offsetMinutes, at, coming, cursor, from, s, answer);
      NotRightPast(trap, offsetMinutes, at, tick, answer);
    }
  }

  lemma Shorter(rules: seq<Rule>, offsetMinutes: int, at: int, to: int, sooner: int)
    requires sooner <= to && Constant(rules, None, offsetMinutes, at, to)
    ensures Constant(rules, None, offsetMinutes, at, sooner)
  {
  }

  lemma NotRightPast(rules: seq<Rule>, offsetMinutes: int, at: int, tick: int, answer: Answer)
    requires at <= tick && CostAt(rules, None, tick, offsetMinutes) != CostAt(rules, None, at, offsetMinutes)
    requires answer.Never? || (answer.Change? && answer.at > tick)
    ensures !IsRight(rules, None, offsetMinutes, at, answer)
  {
    hide CostAt;
  }

  lemma SameStart(rules: seq<Rule>, others: seq<Rule>, at: int, s: int)
    requires SameOutline(rules, others, at)
    ensures StartsAt(rules, at, s) <==> StartsAt(others, at, s)
  {
    hide IsBoundary, ValidNow, DistinctIds, ValidRule;
    forall x | x > at ensures IsBoundary(rules, x) <==> IsBoundary(others, x) {
      assert x in Coming(rules, at) <==> x in Coming(others, at);
    }
  }

  // ----- every search has an answer

  lemma {:induction false} FirstChange(rules: seq<Rule>, fallback: Option<nat>, offsetMinutes: int, from: int, to: int) returns (x: int)
    requires !Constant(rules, fallback, offsetMinutes, from, to)
    ensures from < x <= to && Constant(rules, fallback, offsetMinutes, from, x - 1)
    ensures CostAt(rules, fallback, x, offsetMinutes) != CostAt(rules, fallback, from, offsetMinutes)
    decreases (to - from)
  {
    hide CostAt;
    var other :| from <= other <= to && CostAt(rules, fallback, other, offsetMinutes) != CostAt(rules, fallback, from, offsetMinutes);
    assert from < other;
    if Constant(rules, fallback, offsetMinutes, from, to - 1) {
      x := to;
    } else {
      x := FirstChange(rules, fallback, offsetMinutes, from, to - 1);
    }
  }

  lemma {:induction false} SomeAnswer(rules: seq<Rule>, fallback: Option<nat>, offsetMinutes: int, coming: set<int>, cursor: int, s: int)
      returns (answer: Answer)
    ensures Answers(rules, fallback, offsetMinutes, coming, cursor, s, answer)
    decreases After(coming, s)
  {
    hide Constant, CostAt;
    if !Constant(rules, fallback, offsetMinutes, cursor, s + WINDOW) {
      var x := FirstChange(rules, fallback, offsetMinutes, cursor, s + WINDOW);
      return Change(x, CostAt(rules, fallback, x, offsetMinutes));
    }
    var next := NextStart(coming, s);
    if next.None? { return Never; }
    answer := SomeAnswer(rules, fallback, offsetMinutes, coming, next.value - 1, next.value);
  }

  lemma SpacedAlwaysRight(rules: seq<Rule>, at: int, offsetMinutes: int, cursor: int, s: int, fallback: Option<nat>, answer: Answer)
    requires Begins(rules, at, cursor, s) && Spaced(Coming(rules, at), s)
    requires Answers(rules, fallback, offsetMinutes, Coming(rules, at), cursor, s, answer)
    ensures IsRight(rules, fallback, offsetMinutes, at, answer)
  {
    hide Spaced, Answers, IsRight, IsBoundary, Coming, Constant, NoBoundary;
    if s == at {
      ConstantHere(rules, fallback, offsetMinutes, at);
    } else {
      ConstantUntilFirst(rules, fallback, offsetMinutes, at, s);
    }
    AnswerMeans(rules, fallback, offsetMinutes, at, cursor, s, answer);
  }

  lemma OneStart(rules: seq<Rule>, at: int, s: int, t: int)
    requires StartsAt(rules, at, s) && StartsAt(rules, at, t)
    ensures s == t
  {
    hide IsBoundary, ValidNow;
  }

  /** The search is right about every schedule with these boundaries if and only if none of its windows is blind. */
  lemma SpacingExactly(rules: seq<Rule>, at: int, offsetMinutes: int, cursor: int, start: int)
    requires (forall r :: r in rules ==> ValidRule(r)) && Begins(rules, at, cursor, start)
    ensures AlwaysRight(rules, at, offsetMinutes) <==> Spaced(Coming(rules, at), start)
  {
    hide Spaced, Answers, IsRight, StartsAt, Coming, DistinctIds, ValidNow, ValidRule, StaticExit;
    if !Spaced(Coming(rules, at), start) {
      var trap := BlindIsWrong(rules, at, offsetMinutes, cursor, start);
      var answer := SomeAnswer(trap, None, offsetMinutes, Coming(trap, at), cursor, start);
      assert !IsRight(trap, None, offsetMinutes, at, answer);
    } else {
      forall others, fallback, c, s, answer |
        SameOutline(rules, others, at) && !StaticExit(others, at) && Begins(others, at, c, s)
        && Answers(others, fallback, offsetMinutes, Coming(others, at), c, s, answer)
        ensures IsRight(others, fallback, offsetMinutes, at, answer)
      {
        SameStart(rules, others, at, s);
        OneStart(rules, at, s, start);
        SpacedAlwaysRight(others, at, offsetMinutes, c, s, fallback, answer);
      }
    }
  }
}
