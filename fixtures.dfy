/**
 * The fixture scheduler: round-robin pairing generation, the weekday
 * resolver, and the greedy period-by-period date assignment.
 *
 * A date is its proleptic Gregorian ordinal (the value of Python's
 * `date.toordinal()`: 0001-01-01, a Monday, is day 1), so adding a
 * `timedelta` of `w` weeks is adding `7 * w` days and the weekday is
 * `(d + 6) % 7`, Monday = 0 .. Sunday = 6.
 */
module Fixtures {
  import opened Results
  import opened League

  type Date = int

  /** Monday = 0 .. Sunday = 6, like `date.weekday()`. */
  function Weekday(d: Date): (w: int)
    ensures 0 <= w < 7
  {
    (d + 6) % 7
  }

  /** A (team_a, team_b) tuple: home team first. */
  datatype Pairing = Pairing(teamA: TeamId, teamB: TeamId)

  /** The same fixture with home and away exchanged. */
  function Swap(p: Pairing): Pairing {
    Pairing(p.teamB, p.teamA)
  }

  /** The dictionary the scheduler emits for one fixture. */
  datatype ScheduledMatch = ScheduledMatch(teamA: TeamId, teamB: TeamId, matchDate: Date, status: MatchStatus)

  /** Configuration errors raised (as `ValueError`) before any scheduling. */
  datatype ConfigError = WrongLength | NoWeekdayAllowed

  // ---------------------------------------------------------------------
  // Pairing generator
  // ---------------------------------------------------------------------

  /** Row `i` of the nested loop: `t[i]` against every team after it. */
  function Row(t: seq<TeamId>, i: nat): seq<Pairing>
    requires i < |t|
  {
    seq(|t| - i - 1, k requires 0 <= k < |t| - i - 1 => Pairing(t[i], t[i + 1 + k]))
  }

  /** Rows `i`, `i + 1`, ... of the nested loop, in order. */
  function RowsFrom(t: seq<TeamId>, i: nat): seq<Pairing>
    requires i <= |t|
    decreases |t| - i
  {
    if i == |t| then [] else Row(t, i) + RowsFrom(t, i + 1)
  }

  /** The single round-robin: every pair (t[i], t[j]) with i < j, in nested-loop order. */
  function SingleRoundRobin(t: seq<TeamId>): seq<Pairing> {
    RowsFrom(t, 0)
  }

  /** Every fixture of `s` with home and away exchanged, in the same order. */
  function Swapped(s: seq<Pairing>): (r: seq<Pairing>)
    ensures |r| == |s|
    ensures forall k :: 0 <= k < |s| ==> r[k] == Swap(s[k])
  {
    seq(|s|, k requires 0 <= k < |s| => Swap(s[k]))
  }

  /** Where row `i` starts inside `RowsFrom(t, i0)`, for a team list of length `n`. */
  function RowOffset(n: nat, i0: nat, i: nat): nat
    requires i0 <= i < n
    decreases i - i0
  {
    if i == i0 then 0 else (n - i0 - 1) + RowOffset(n, i0 + 1, i)
  }

  /** The position of the pair (t[i], t[j]) in the single round-robin. */
  function PairIndex(n: nat, i: nat, j: nat): nat
    requires i < j < n
  {
    RowOffset(n, 0, i) + (j - i - 1)
  }

  /** 0 + 1 + ... + (m - 1): the pairs among m teams. */
  function Triangle(m: nat): nat {
    if m == 0 then 0 else (m - 1) + Triangle(m - 1)
  }

  lemma {:induction false} TriangleClosed(m: nat)
    ensures 2 * Triangle(m) == m * (m - 1)
  {
    if m > 0 {
      TriangleClosed(m - 1);
      assert (m - 1) * (m - 2) + 2 * (m - 1) == m * (m - 1);
    }
  }

  lemma {:induction false} RowsFromLength(t: seq<TeamId>, i: nat)
    requires i <= |t|
    ensures |RowsFrom(t, i)| == Triangle(|t| - i)
    decreases |t| - i
  {
    if i < |t| {
      RowsFromLength(t, i + 1);
      assert |RowsFrom(t, i)| == (|t| - i - 1) + |RowsFrom(t, i + 1)|;
    }
  }

  /** n teams give n(n-1)/2 single round-robin pairings. */
  lemma RoundRobinLength(t: seq<TeamId>)
    ensures 2 * |SingleRoundRobin(t)| == |t| * (|t| - 1)
  {
    RowsFromLength(t, 0);
    TriangleClosed(|t|);
  }

  lemma {:induction false} RowsFromAt(t: seq<TeamId>, i0: nat, i: nat, j: nat)
    requires i0 <= i < j < |t|
    ensures RowOffset(|t|, i0, i) + (j - i - 1) < |RowsFrom(t, i0)|
    ensures RowsFrom(t, i0)[RowOffset(|t|, i0, i) + (j - i - 1)] == Pairing(t[i], t[j])
    decreases i - i0
  {
    var row := Row(t, i0);
    assert RowsFrom(t, i0) == row + RowsFrom(t, i0 + 1);
    if i > i0 {
      RowsFromAt(t, i0 + 1, i, j);
    }
  }

  /** The pair of positions i < j sits at `PairIndex(n, i, j)`: nested-loop order. */
  lemma RoundRobinOrder(t: seq<TeamId>, i: nat, j: nat)
    requires i < j < |t|
    ensures PairIndex(|t|, i, j) < |SingleRoundRobin(t)|
    ensures SingleRoundRobin(t)[PairIndex(|t|, i, j)] == Pairing(t[i], t[j])
  {
    RowsFromAt(t, 0, i, j);
  }

  lemma {:induction false} RowsFromOnlyPairs(t: seq<TeamId>, i0: nat, k: nat)
    requires i0 <= |t| && k < |RowsFrom(t, i0)|
    ensures exists i, j :: i0 <= i < j < |t| && RowsFrom(t, i0)[k] == Pairing(t[i], t[j])
    decreases |t| - i0
  {
    var row := Row(t, i0);
    assert RowsFrom(t, i0) == row + RowsFrom(t, i0 + 1);
    if k < |row| {
      assert RowsFrom(t, i0)[k] == Pairing(t[i0], t[i0 + 1 + k]);
    } else {
      RowsFromOnlyPairs(t, i0 + 1, k - |row|);
    }
  }

  /** Nothing but pairs (t[i], t[j]) with i < j appears in the single round-robin. */
  lemma RoundRobinOnlyPairs(t: seq<TeamId>, k: nat)
    requires k < |SingleRoundRobin(t)|
    ensures exists i, j :: 0 <= i < j < |t| && SingleRoundRobin(t)[k] == Pairing(t[i], t[j])
  {
    RowsFromOnlyPairs(t, 0, k);
  }

  lemma RowPrefixStep(t: seq<TeamId>, i: nat, j: nat)
    requires i < j < |t|
    ensures Row(t, i)[..j - i] == Row(t, i)[..j - i - 1] + [Pairing(t[i], t[j])]
  {
  }

  lemma RowsFromStep(before: seq<Pairing>, t: seq<TeamId>, i: nat)
    requires i < |t|
    ensures before + Row(t, i)[..|t| - i - 1] + RowsFrom(t, i + 1) == before + RowsFrom(t, i)
  {
    assert Row(t, i)[..|t| - i - 1] == Row(t, i);
  }

  /**
   * `generate_round_robin`: the nested loops append (t[i], t[j]) for i < j;
   * with `double` the swapped list is appended after it.
   */
  method GenerateRoundRobin(teamIds: seq<TeamId>, double: bool) returns (matches: seq<Pairing>)
    ensures var single := SingleRoundRobin(teamIds);
      matches == if double then single + Swapped(single) else single
    ensures double ==> |matches| == |teamIds| * (|teamIds| - 1)
    ensures !double ==> 2 * |matches| == |teamIds| * (|teamIds| - 1)
    ensures var m := |SingleRoundRobin(teamIds)|;
      double ==> forall k :: 0 <= k < m ==> matches[m + k] == Swap(matches[k])
  {
    var n := |teamIds|;
    matches := [];
    for i := 0 to n
      invariant matches + RowsFrom(teamIds, i) == SingleRoundRobin(teamIds)
    {
      ghost var before := matches;
      for j := i + 1 to n
        invariant matches == before + Row(teamIds, i)[..j - i - 1]
      {
        RowPrefixStep(teamIds, i, j);
        matches := matches + [Pairing(teamIds[i], teamIds[j])];
      }
      RowsFromStep(before, teamIds, i);
    }
    assert matches == SingleRoundRobin(teamIds);
    if double {
      var reverse := seq(|matches|, k requires 0 <= k < |matches| => Swap(matches[k]));
      assert reverse == Swapped(matches);
      matches := matches + reverse;
    }
    DoubleRoundRobin(teamIds, double);
  }

  /** The lengths of both variants, and the second half mirroring the first. */
  lemma DoubleRoundRobin(t: seq<TeamId>, double: bool)
    ensures var single := SingleRoundRobin(t);
      var all := if double then single + Swapped(single) else single;
      && (double ==> |all| == |t| * (|t| - 1))
      && (!double ==> 2 * |all| == |t| * (|t| - 1))
      && (double ==> forall k :: 0 <= k < |single| ==> all[|single| + k] == Swap(all[k]))
  {
    RoundRobinLength(t);
  }

  // ---------------------------------------------------------------------
  // Weekday constraint resolver
  // ---------------------------------------------------------------------

  /** `allowed_weekdays[d.weekday()]` is truthy. */
  predicate IsAllowed(allowed: seq<int>, d: Date)
    requires |allowed| == 7
  {
    allowed[Weekday(d)] != 0
  }

  /** Python's `any(allowed_weekdays)`. */
  predicate AnyAllowed(allowed: seq<int>) {
    exists i :: 0 <= i < |allowed| && allowed[i] != 0
  }

  /** Every weekday occurs among the seven days starting at `d`. */
  lemma WeekCovers(d: Date, w: int) returns (k: nat)
    requires 0 <= w < 7
    ensures k < 7 && Weekday(d + k) == w
  {
    k := (w - Weekday(d) + 7) % 7;
    assert (d + 6) % 7 + (w - (d + 6) % 7 + 7) % 7 == w || (d + 6) % 7 + (w - (d + 6) % 7 + 7) % 7 == w + 7;
  }

  /** An allow-list with a truthy entry allows one of any seven consecutive days. */
  lemma AllowedDayWithinWeek(d: Date, allowed: seq<int>)
    requires |allowed| == 7
    ensures AnyAllowed(allowed) ==> exists e :: d <= e < d + 7 && IsAllowed(allowed, e)
  {
    if AnyAllowed(allowed) {
      var w :| 0 <= w < 7 && allowed[w] != 0;
      var k := WeekCovers(d, w);
      assert IsAllowed(allowed, d + k);
    }
  }

  /** Scans `d + k`, ..., `d + 6` for an allowed day; `d` when there is none. */
  function ScanFrom(d: Date, allowed: seq<int>, k: nat): (r: Date)
    requires |allowed| == 7 && k <= 7
    ensures d <= r <= d + 6
    ensures (exists e :: d + k <= e < d + 7 && IsAllowed(allowed, e)) ==>
      d + k <= r && IsAllowed(allowed, r) && forall e :: d + k <= e < r ==> !IsAllowed(allowed, e)
    ensures (forall e :: d + k <= e < d + 7 ==> !IsAllowed(allowed, e)) ==> r == d
    decreases 7 - k
  {
    if k == 7 then d
    else if IsAllowed(allowed, d + k) then d + k
    else ScanFrom(d, allowed, k + 1)
  }

  /**
   * The earliest day of `d .. d + 6` whose weekday is allowed, or `d`
   * itself when the list allows no weekday at all.
   */
  function NextAllowedDay(d: Date, allowed: seq<int>): (r: Date)
    requires |allowed| == 7
    ensures d <= r <= d + 6
    ensures AnyAllowed(allowed) ==>
      IsAllowed(allowed, r) && forall e :: d <= e < r ==> !IsAllowed(allowed, e)
    ensures IsAllowed(allowed, d) ==> r == d
    ensures !AnyAllowed(allowed) ==> r == d
  {
    AllowedDayWithinWeek(d, allowed);
    ScanFrom(d, allowed, 0)
  }

  /** `_get_next_allowed_weekday`: try up to seven consecutive days. */
  method NextAllowedWeekday(date: Date, allowed: seq<int>) returns (r: Date)
    requires |allowed| == 7
    ensures r == NextAllowedDay(date, allowed)
  {
    var current := date;
    for k := 0 to 7
      invariant current == date + k
      invariant ScanFrom(date, allowed, k) == ScanFrom(date, allowed, 0)
    {
      if allowed[Weekday(current)] != 0 {
        return current;
      }
      current := current + 1;
    }
    return date;
  }

  // ---------------------------------------------------------------------
  // Period scheduler
  // ---------------------------------------------------------------------

  /** `teams_played_this_period.get(team, 0)`. */
  function Played(played: map<TeamId, int>, t: TeamId): int {
    if t in played then played[t] else 0
  }

  /** Both teams are still under the per-period cap. */
  predicate Eligible(p: Pairing, played: map<TeamId, int>, cap: int) {
    Played(played, p.teamA) < cap && Played(played, p.teamB) < cap
  }

  /** The two counter writes, in the order the source makes them. */
  function Bump(played: map<TeamId, int>, p: Pairing): map<TeamId, int> {
    var ca, cb := Played(played, p.teamA), Played(played, p.teamB);
    played[p.teamA := ca + 1][p.teamB := cb + 1]
  }

  /** The pairings one pass over `rem` selects, given the counters so far. */
  function Pick(rem: seq<Pairing>, played: map<TeamId, int>, cap: int): seq<Pairing> {
    if rem == [] then []
    else if Eligible(rem[0], played, cap) then [rem[0]] + Pick(rem[1..], Bump(played, rem[0]), cap)
    else Pick(rem[1..], played, cap)
  }

  /** The selected pairings are a sub-multiset of those on offer. */
  lemma {:induction false} PickSub(rem: seq<Pairing>, played: map<TeamId, int>, cap: int)
    ensures multiset(Pick(rem, played, cap)) <= multiset(rem)
    ensures |Pick(rem, played, cap)| <= |rem|
  {
    if rem != [] {
      assert rem == [rem[0]] + rem[1..];
      PickSub(rem[1..], Bump(played, rem[0]), cap);
      PickSub(rem[1..], played, cap);
    }
  }

  /**
   * `list.remove(x)`: drops the first occurrence of `x`. Python raises
   * `ValueError` when `x` is absent; the scheduler only removes pairings it
   * has just selected (`PickSub`), so that case is given the value `s`.
   */
  function RemoveFirst(s: seq<Pairing>, x: Pairing): seq<Pairing> {
    if s == [] then []
    else if s[0] == x then s[1..]
    else [s[0]] + RemoveFirst(s[1..], x)
  }

  /** `for m in xs: s.remove(m)`. */
  function RemoveAll(s: seq<Pairing>, xs: seq<Pairing>): seq<Pairing>
    decreases |xs|
  {
    if xs == [] then s
    else RemoveAll(RemoveFirst(s, xs[0]), xs[1..])
  }

  /** Removing a present element takes exactly one copy of it away. */
  lemma {:induction false} RemoveFirstCount(s: seq<Pairing>, x: Pairing)
    requires x in s
    ensures multiset(RemoveFirst(s, x)) == multiset(s) - multiset{x}
    ensures |RemoveFirst(s, x)| == |s| - 1
  {
    assert s == [s[0]] + s[1..];
    if s[0] != x {
      RemoveFirstCount(s[1..], x);
    }
  }

  /** Removing a sub-multiset takes exactly those copies away. */
  lemma RemoveAllCount(s: seq<Pairing>, xs: seq<Pairing>)
    requires multiset(xs) <= multiset(s)
    ensures multiset(RemoveAll(s, xs)) == multiset(s) - multiset(xs)
    ensures |RemoveAll(s, xs)| == |s| - |xs|
  {
    RemoveAllMultiset(s, xs);
    assert |RemoveAll(s, xs)| == |multiset(RemoveAll(s, xs))|;
  }

  lemma {:induction false} RemoveAllMultiset(s: seq<Pairing>, xs: seq<Pairing>)
    requires multiset(xs) <= multiset(s)
    ensures multiset(RemoveAll(s, xs)) == multiset(s) - multiset(xs)
    decreases |xs|
  {
    if xs != [] {
      var x, rest := xs[0], xs[1..];
      assert xs == [x] + rest;
      var s' := RemoveFirst(s, x);
      assert multiset(xs) == multiset{x} + multiset(rest);
      assert x in multiset(s);
      RemoveFirstCount(s, x);
      assert multiset(rest) <= multiset(s');
      RemoveAllMultiset(s', rest);
      assert RemoveAll(s, xs) == RemoveAll(s', rest);
      SubtractInTurn(multiset(s), x, multiset(rest));
    }
  }

  /** Taking away one copy of `x` and then `rest` is taking away both at once. */
  lemma SubtractInTurn(whole: multiset<Pairing>, x: Pairing, rest: multiset<Pairing>)
    ensures (whole - multiset{x}) - rest == whole - (multiset{x} + rest)
  {
  }

  /** The pairings dated in one period, with that period's index. */
  datatype Round = Round(period: nat, pairings: seq<Pairing>)

  /**
   * The periods of `assign_match_dates`, starting at `period`: each picks
   * greedily under the cap; a period that picks nothing sends every
   * remaining pairing to the next period index and ends the schedule.
   */
  function Rounds(rem: seq<Pairing>, period: nat, cap: int): seq<Round>
    decreases |rem|
  {
    if rem == [] then []
    else
      var picked := Pick(rem, map[], cap);
      PickSub(rem, map[], cap);
      RemoveAllCount(rem, picked);
      if picked == [] then [Round(period + 1, rem)]
      else [Round(period, picked)] + Rounds(RemoveAll(rem, picked), period + 1, cap)
  }

  /** `start_date + timedelta(weeks=period * weeks_between_matches)`. */
  function PeriodStart(start: Date, weeksBetween: int, period: nat): Date {
    start + 7 * (period * weeksBetween)
  }

  /** The fixtures of one period, all on the period's first allowed day. */
  function DateRound(r: Round, start: Date, weeksBetween: int, allowed: seq<int>): seq<ScheduledMatch>
    requires |allowed| == 7
  {
    var date := NextAllowedDay(PeriodStart(start, weeksBetween, r.period), allowed);
    seq(|r.pairings|, k requires 0 <= k < |r.pairings| =>
      ScheduledMatch(r.pairings[k].teamA, r.pairings[k].teamB, date, SCHEDULED))
  }

  /** The fixtures of all `rounds`, period after period. */
  function Dated(rounds: seq<Round>, start: Date, weeksBetween: int, allowed: seq<int>): seq<ScheduledMatch>
    requires |allowed| == 7
  {
    if rounds == [] then []
    else DateRound(rounds[0], start, weeksBetween, allowed) + Dated(rounds[1..], start, weeksBetween, allowed)
  }

  /** The (team_a, team_b) tuples of a list of fixtures. */
  function Pairings(out: seq<ScheduledMatch>): (r: seq<Pairing>)
    ensures |r| == |out|
  {
    seq(|out|, k requires 0 <= k < |out| => Pairing(out[k].teamA, out[k].teamB))
  }

  /** `None` stands for all seven days. */
  function AllowedOrDefault(allowedWeekdays: Option<seq<int>>): seq<int> {
    if allowedWeekdays.None? then [1, 1, 1, 1, 1, 1, 1] else allowedWeekdays.value
  }

  /**
   * What `assign_match_dates` returns: a configuration error, or one
   * fixture per input pairing, each with status SCHEDULED on the first
   * allowed weekday of the period the greedy selection gave it.
   */
  function Schedule(matches: seq<Pairing>, start: Date, cap: int, weeksBetween: int,
                    allowedWeekdays: Option<seq<int>>): (r: Result<seq<ScheduledMatch>, ConfigError>)
    ensures var allowed := AllowedOrDefault(allowedWeekdays);
      && (r == Err(WrongLength) <==> |allowed| != 7)
      && (r == Err(NoWeekdayAllowed) <==> |allowed| == 7 && !AnyAllowed(allowed))
    ensures r.Ok? ==> multiset(Pairings(r.value)) == multiset(matches)
    ensures r.Ok? ==> var periods := FixturePeriods(Rounds(matches, 0, cap));
      && |periods| == |r.value|
      && forall k :: 0 <= k < |r.value| ==>
           WellDated(r.value[k], start, weeksBetween, AllowedOrDefault(allowedWeekdays), periods[k])
  {
    var allowed := AllowedOrDefault(allowedWeekdays);
    if |allowed| != 7 then Err(WrongLength)
    else if !AnyAllowed(allowed) then Err(NoWeekdayAllowed)
    else
      var rounds := Rounds(matches, 0, cap);
      RoundsPermutation(matches, 0, cap);
      DatedPairings(rounds, start, weeksBetween, allowed);
      DatedDates(rounds, start, weeksBetween, allowed);
      Ok(Dated(rounds, start, weeksBetween, allowed))
  }

  lemma ScheduleOk(matches: seq<Pairing>, start: Date, cap: int, weeksBetween: int,
                    allowedWeekdays: Option<seq<int>>)
    requires |AllowedOrDefault(allowedWeekdays)| == 7 && AnyAllowed(AllowedOrDefault(allowedWeekdays))
    ensures Schedule(matches, start, cap, weeksBetween, allowedWeekdays)
         == Ok(Dated(Rounds(matches, 0, cap), start, weeksBetween, AllowedOrDefault(allowedWeekdays)))
  {
  }

  /** The pairings of all rounds, concatenated. */
  function Flatten(rounds: seq<Round>): seq<Pairing> {
    if rounds == [] then [] else rounds[0].pairings + Flatten(rounds[1..])
  }

  lemma {:induction false} RoundsPermutation(rem: seq<Pairing>, period: nat, cap: int)
    ensures multiset(Flatten(Rounds(rem, period, cap))) == multiset(rem)
    decreases |rem|
  {
    if rem != [] {
      var picked := Pick(rem, map[], cap);
      var rounds := Rounds(rem, period, cap);
      if picked == [] {
        assert Flatten(rounds) == rem + Flatten([]);
      } else {
        var rest := RemoveAll(rem, picked);
        PickSub(rem, map[], cap);
        RemoveAllCount(rem, picked);
        RoundsPermutation(rest, period + 1, cap);
        assert rounds[1..] == Rounds(rest, period + 1, cap);
        assert Flatten(rounds) == picked + Flatten(Rounds(rest, period + 1, cap));
      }
    }
  }

  lemma {:induction false} DatedPairings(rounds: seq<Round>, start: Date, weeksBetween: int, allowed: seq<int>)
    requires |allowed| == 7
    ensures Pairings(Dated(rounds, start, weeksBetween, allowed)) == Flatten(rounds)
    decreases |rounds|
  {
    if rounds != [] {
      DatedPairings(rounds[1..], start, weeksBetween, allowed);
      var head := DateRound(rounds[0], start, weeksBetween, allowed);
      var tail := Dated(rounds[1..], start, weeksBetween, allowed);
      assert Pairings(head) == rounds[0].pairings;
      assert Pairings(head + tail) == Pairings(head) + Pairings(tail);
    }
  }

  /**
   * A fixture as the scheduler emits it for period `period`: status
   * SCHEDULED, on the first allowed weekday on or after the period's start
   * `start + 7 * period * weeksBetween`, hence at most six days after it.
   */
  ghost predicate WellDated(m: ScheduledMatch, start: Date, weeksBetween: int, allowed: seq<int>, period: nat)
    requires |allowed| == 7
  {
    var base := PeriodStart(start, weeksBetween, period);
    && m.status == SCHEDULED
    && m.matchDate == NextAllowedDay(base, allowed)
    && IsAllowed(allowed, m.matchDate)
    && base <= m.matchDate <= base + 6
  }

  /** The period of each fixture of `rounds`, fixture by fixture. */
  function FixturePeriods(rounds: seq<Round>): seq<nat> {
    if rounds == [] then []
    else seq(|rounds[0].pairings|, _ => rounds[0].period) + FixturePeriods(rounds[1..])
  }

  lemma DateRoundWellDated(r: Round, start: Date, weeksBetween: int, allowed: seq<int>, k: nat)
    requires |allowed| == 7 && AnyAllowed(allowed)
    requires k < |DateRound(r, start, weeksBetween, allowed)|
    ensures WellDated(DateRound(r, start, weeksBetween, allowed)[k], start, weeksBetween, allowed, r.period)
  {
    var base := PeriodStart(start, weeksBetween, r.period);
    assert DateRound(r, start, weeksBetween, allowed)[k].matchDate == NextAllowedDay(base, allowed);
  }

  /** Every fixture is dated in its own round's period. */
  lemma {:induction false} DatedDates(rounds: seq<Round>, start: Date, weeksBetween: int, allowed: seq<int>)
    requires |allowed| == 7 && AnyAllowed(allowed)
    ensures |FixturePeriods(rounds)| == |Dated(rounds, start, weeksBetween, allowed)|
    ensures forall k :: 0 <= k < |Dated(rounds, start, weeksBetween, allowed)| ==>
      WellDated(Dated(rounds, start, weeksBetween, allowed)[k], start, weeksBetween, allowed, FixturePeriods(rounds)[k])
    decreases |rounds|
  {
    if rounds != [] {
      DatedDates(rounds[1..], start, weeksBetween, allowed);
      var head := DateRound(rounds[0], start, weeksBetween, allowed);
      var tail := Dated(rounds[1..], start, weeksBetween, allowed);
      var hp := seq(|rounds[0].pairings|, _ => rounds[0].period);
      var tp := FixturePeriods(rounds[1..]);
      assert FixturePeriods(rounds) == hp + tp;
      forall k | 0 <= k < |head + tail|
        ensures WellDated((head + tail)[k], start, weeksBetween, allowed, (hp + tp)[k])
      {
        if k < |head| {
          DateRoundWellDated(rounds[0], start, weeksBetween, allowed, k);
          assert (hp + tp)[k] == rounds[0].period;
        } else {
          var x := tail[k - |head|];
          assert WellDated(x, start, weeksBetween, allowed, tp[k - |head|]);
          assert (head + tail)[k] == x && (hp + tp)[k] == tp[k - |head|];
        }
      }
    }
  }

  /** `ps` never decreases, and nothing in it is below `lo`. */
  ghost predicate PeriodsFrom(ps: seq<nat>, lo: nat) {
    forall i, j :: 0 <= i <= j < |ps| ==> lo <= ps[i] <= ps[j]
  }

  lemma PeriodsPrepend(n: nat, p: nat, tp: seq<nat>)
    requires PeriodsFrom(tp, p + 1)
    ensures PeriodsFrom(seq(n, _ => p) + tp, p)
  {
    var hp := seq(n, _ => p);
    forall i, j | 0 <= i <= j < |hp + tp|
      ensures p <= (hp + tp)[i] <= (hp + tp)[j]
    {
      if j >= |hp| {
        assert (hp + tp)[j] == tp[j - |hp|];
        assert p + 1 <= tp[j - |hp|] <= tp[j - |hp|];
        if i >= |hp| {
          assert (hp + tp)[i] == tp[i - |hp|];
        }
      }
    }
  }

  /**
   * The scheduler emits its fixtures period by period: every period is at
   * least the one the loop starts from, and they never go back.
   */
  lemma {:induction false} FixturePeriodsSorted(rem: seq<Pairing>, period: nat, cap: int)
    ensures PeriodsFrom(FixturePeriods(Rounds(rem, period, cap)), period)
    decreases |rem|
  {
    if rem != [] {
      var picked := Pick(rem, map[], cap);
      var rounds := Rounds(rem, period, cap);
      PickSub(rem, map[], cap);
      RemoveAllCount(rem, picked);
      if picked == [] {
        assert rounds == [Round(period + 1, rem)];
        assert FixturePeriods(rounds) == seq(|rem|, _ => period + 1) + FixturePeriods([]);
      } else {
        var rest := RemoveAll(rem, picked);
        FixturePeriodsSorted(rest, period + 1, cap);
        assert rounds[1..] == Rounds(rest, period + 1, cap);
        PeriodsPrepend(|picked|, period, FixturePeriods(Rounds(rest, period + 1, cap)));
        assert FixturePeriods(rounds) == seq(|picked|, _ => period) + FixturePeriods(Rounds(rest, period + 1, cap));
      }
    }
  }

  lemma DatedCons(r: Round, rest: seq<Round>, start: Date, weeksBetween: int, allowed: seq<int>)
    requires |allowed| == 7
    ensures Dated([r] + rest, start, weeksBetween, allowed)
         == DateRound(r, start, weeksBetween, allowed) + Dated(rest, start, weeksBetween, allowed)
  {
    assert ([r] + rest)[1..] == rest;
  }

  lemma DateRoundAppend(period: nat, ps: seq<Pairing>, m: Pairing, start: Date, weeksBetween: int, allowed: seq<int>)
    requires |allowed| == 7
    ensures DateRound(Round(period, ps + [m]), start, weeksBetween, allowed)
         == DateRound(Round(period, ps), start, weeksBetween, allowed)
            + [ScheduledMatch(m.teamA, m.teamB, NextAllowedDay(PeriodStart(start, weeksBetween, period), allowed), SCHEDULED)]
  {
  }

  lemma PickStep(rem: seq<Pairing>, idx: nat, played: map<TeamId, int>, cap: int, acc: seq<Pairing>)
    requires idx < |rem|
    requires acc + Pick(rem[idx..], played, cap) == Pick(rem, map[], cap)
    ensures Eligible(rem[idx], played, cap) ==>
      (acc + [rem[idx]]) + Pick(rem[idx + 1..], Bump(played, rem[idx]), cap) == Pick(rem, map[], cap)
    ensures !Eligible(rem[idx], played, cap) ==>
      acc + Pick(rem[idx + 1..], played, cap) == Pick(rem, map[], cap)
  {
    assert rem[idx..][0] == rem[idx] && rem[idx..][1..] == rem[idx + 1..];
  }

  /** The invariant of the selection pass, after `idx` pairings. */
  ghost predicate SelectionSoFar(remaining: seq<Pairing>, idx: nat, played: map<TeamId, int>, cap: int,
                                 toRemove: seq<Pairing>, fixtures: seq<ScheduledMatch>,
                                 start: Date, weeksBetween: int, period: nat, allowed: seq<int>)
    requires idx <= |remaining| && |allowed| == 7
  {
    && toRemove + Pick(remaining[idx..], played, cap) == Pick(remaining, map[], cap)
    && fixtures == DateRound(Round(period, toRemove), start, weeksBetween, allowed)
  }

  lemma SelectionStep(remaining: seq<Pairing>, idx: nat, played: map<TeamId, int>, cap: int,
                      toRemove: seq<Pairing>, fixtures: seq<ScheduledMatch>,
                      start: Date, weeksBetween: int, period: nat, allowed: seq<int>)
    requires idx < |remaining| && |allowed| == 7
    requires SelectionSoFar(remaining, idx, played, cap, toRemove, fixtures, start, weeksBetween, period, allowed)
    ensures var m := remaining[idx];
      var date := NextAllowedDay(PeriodStart(start, weeksBetween, period), allowed);
      if Eligible(m, played, cap) then
        SelectionSoFar(remaining, idx + 1, Bump(played, m), cap, toRemove + [m],
                       fixtures + [ScheduledMatch(m.teamA, m.teamB, date, SCHEDULED)],
                       start, weeksBetween, period, allowed)
      else
        SelectionSoFar(remaining, idx + 1, played, cap, toRemove, fixtures, start, weeksBetween, period, allowed)
  {
    PickStep(remaining, idx, played, cap, toRemove);
    DateRoundAppend(period, toRemove, remaining[idx], start, weeksBetween, allowed);
  }

  /**
   * One pass of the period loop over `remaining`: the pairings whose two
   * teams are both under the cap are dated at the period's first allowed
   * day and collected for removal.
   */
  method SelectForPeriod(remaining: seq<Pairing>, cap: int, start: Date, weeksBetween: int, period: nat,
                         allowed: seq<int>)
    returns (fixtures: seq<ScheduledMatch>, toRemove: seq<Pairing>)
    requires |allowed| == 7
    ensures toRemove == Pick(remaining, map[], cap)
    ensures fixtures == DateRound(Round(period, toRemove), start, weeksBetween, allowed)
  {
    var played: map<TeamId, int> := map[];
    fixtures, toRemove := [], [];
    for idx := 0 to |remaining|
      invariant SelectionSoFar(remaining, idx, played, cap, toRemove, fixtures, start, weeksBetween, period, allowed)
    {
      SelectionStep(remaining, idx, played, cap, toRemove, fixtures, start, weeksBetween, period, allowed);
      var m := remaining[idx];
      var ca := Played(played, m.teamA);
      var cb := Played(played, m.teamB);
      if ca < cap && cb < cap {
        var base := PeriodStart(start, weeksBetween, period);
        var date := NextAllowedWeekday(base, allowed);
        fixtures := fixtures + [ScheduledMatch(m.teamA, m.teamB, date, SCHEDULED)];
        played := played[m.teamA := ca + 1][m.teamB := cb + 1];
        toRemove := toRemove + [m];
      }
    }
    assert remaining[|remaining|..] == [];
  }

  lemma RemoveAllStep(s: seq<Pairing>, xs: seq<Pairing>, k: nat)
    requires k < |xs| && multiset(xs[k..]) <= multiset(s)
    ensures xs[k] in s
    ensures multiset(xs[k + 1..]) <= multiset(RemoveFirst(s, xs[k]))
    ensures RemoveAll(s, xs[k..]) == RemoveAll(RemoveFirst(s, xs[k]), xs[k + 1..])
  {
    assert xs[k..] == [xs[k]] + xs[k + 1..];
    assert xs[k] in multiset(xs[k..]);
    assert xs[k] in multiset(s);
    RemoveFirstCount(s, xs[k]);
  }

  /** `for match in matches_to_remove: remaining_matches.remove(match)`. */
  method RemoveEach(remaining0: seq<Pairing>, toRemove: seq<Pairing>) returns (remaining: seq<Pairing>)
    requires multiset(toRemove) <= multiset(remaining0)
    ensures remaining == RemoveAll(remaining0, toRemove)
    ensures toRemove == [] ==> remaining == remaining0
  {
    remaining := remaining0;
    for k := 0 to |toRemove|
      invariant multiset(toRemove[k..]) <= multiset(remaining)
      invariant RemoveAll(remaining, toRemove[k..]) == RemoveAll(remaining0, toRemove)
    {
      RemoveAllStep(remaining, toRemove, k);
      remaining := RemoveFirst(remaining, toRemove[k]);
    }
  }

  /** The fallback: date every remaining pairing in `period`, ignoring the cap. */
  method DateAllRemaining(remaining: seq<Pairing>, start: Date, weeksBetween: int, period: nat, allowed: seq<int>)
    returns (fixtures: seq<ScheduledMatch>)
    requires |allowed| == 7
    ensures fixtures == DateRound(Round(period, remaining), start, weeksBetween, allowed)
  {
    fixtures := [];
    for idx := 0 to |remaining|
      invariant fixtures == DateRound(Round(period, remaining[..idx]), start, weeksBetween, allowed)
    {
      var m := remaining[idx];
      var base := PeriodStart(start, weeksBetween, period);
      var date := NextAllowedWeekday(base, allowed);
      assert remaining[..idx + 1] == remaining[..idx] + [m];
      DateRoundAppend(period, remaining[..idx], m, start, weeksBetween, allowed);
      fixtures := fixtures + [ScheduledMatch(m.teamA, m.teamB, date, SCHEDULED)];
    }
    assert remaining[..|remaining|] == remaining;
  }

  /** A period that selects something: the loop goes on with the rest. */
  lemma PeriodStep(scheduled: seq<ScheduledMatch>, remaining0: seq<Pairing>, period0: nat, cap: int,
                   fixtures: seq<ScheduledMatch>, toRemove: seq<Pairing>, remaining: seq<Pairing>,
                   target: seq<ScheduledMatch>, start: Date, weeksBetween: int, allowed: seq<int>)
    requires |allowed| == 7 && remaining0 != [] && toRemove != []
    requires scheduled + Dated(Rounds(remaining0, period0, cap), start, weeksBetween, allowed) == target
    requires toRemove == Pick(remaining0, map[], cap)
    requires fixtures == DateRound(Round(period0, toRemove), start, weeksBetween, allowed)
    requires remaining == RemoveAll(remaining0, toRemove)
    ensures scheduled + fixtures + Dated(Rounds(remaining, period0 + 1, cap), start, weeksBetween, allowed) == target
  {
    var rest := Rounds(remaining, period0 + 1, cap);
    assert Rounds(remaining0, period0, cap) == [Round(period0, toRemove)] + rest;
    DatedCons(Round(period0, toRemove), rest, start, weeksBetween, allowed);
    var later := Dated(rest, start, weeksBetween, allowed);
    assert Dated(Rounds(remaining0, period0, cap), start, weeksBetween, allowed) == fixtures + later;
    assert scheduled + (fixtures + later) == scheduled + fixtures + later;
  }

  /** A period that selects nothing: the fallback is the last round. */
  lemma FallbackStep(scheduled: seq<ScheduledMatch>, remaining: seq<Pairing>, period0: nat, cap: int,
                     target: seq<ScheduledMatch>, start: Date, weeksBetween: int, allowed: seq<int>)
    requires |allowed| == 7 && remaining != []
    requires scheduled + Dated(Rounds(remaining, period0, cap), start, weeksBetween, allowed) == target
    requires Pick(remaining, map[], cap) == []
    ensures scheduled + DateRound(Round(period0 + 1, remaining), start, weeksBetween, allowed) == target
  {
    assert Rounds(remaining, period0, cap) == [Round(period0 + 1, remaining)];
    DatedCons(Round(period0 + 1, remaining), [], start, weeksBetween, allowed);
  }

  /**
   * `assign_match_dates`: validate the allow-list, then run periods until no
   * pairing remains, removing the selected pairings from `remaining` in place.
   */
  method AssignMatchDates(matches: seq<Pairing>, start: Date, cap: int, weeksBetween: int,
                          allowedWeekdays: Option<seq<int>>)
    returns (r: Result<seq<ScheduledMatch>, ConfigError>)
    ensures r == Schedule(matches, start, cap, weeksBetween, allowedWeekdays)
  {
    var allowed := AllowedOrDefault(allowedWeekdays);
    if |allowed| != 7 {
      assert Schedule(matches, start, cap, weeksBetween, allowedWeekdays) == Err(WrongLength);
      return Err(WrongLength);
    }
    if !AnyAllowed(allowed) {
      assert Schedule(matches, start, cap, weeksBetween, allowedWeekdays) == Err(NoWeekdayAllowed);
      return Err(NoWeekdayAllowed);
    }
    ScheduleOk(matches, start, cap, weeksBetween, allowedWeekdays);
    ghost var target := Dated(Rounds(matches, 0, cap), start, weeksBetween, allowed);
    var scheduled: seq<ScheduledMatch> := [];
    var remaining := matches;
    var period: nat := 0;
    while remaining != []
      invariant scheduled + Dated(Rounds(remaining, period, cap), start, weeksBetween, allowed) == target
      decreases |remaining|
    {
      ghost var scheduled0, remaining0 := scheduled, remaining;
      var fixtures, toRemove := SelectForPeriod(remaining, cap, start, weeksBetween, period, allowed);
      scheduled := scheduled + fixtures;
      PickSub(remaining, map[], cap);
      RemoveAllCount(remaining, toRemove);
      remaining := RemoveEach(remaining, toRemove);
      period := period + 1;
      if toRemove == [] && remaining != [] {
        FallbackStep(scheduled0, remaining, period - 1, cap, target, start, weeksBetween, allowed);
        assert fixtures == [] && scheduled == scheduled0;
        var rest := DateAllRemaining(remaining, start, weeksBetween, period, allowed);
        scheduled := scheduled + rest;
        assert scheduled == target;
        return Ok(scheduled);
      }
      assert toRemove != [];
      PeriodStep(scheduled0, remaining0, period - 1, cap, fixtures, toRemove, remaining, target, start, weeksBetween, allowed);
    }
    assert scheduled + [] == scheduled;
    assert scheduled == target;
    return Ok(scheduled);
  }

  // ---------------------------------------------------------------------
  // Properties of the schedule
  // ---------------------------------------------------------------------

  /** How many of `ps` involve team `t` (a self-pairing counts once). */
  function Involving(ps: seq<Pairing>, t: TeamId): nat {
    if ps == [] then 0
    else (if ps[0].teamA == t || ps[0].teamB == t then 1 else 0) + Involving(ps[1..], t)
  }

  function Max(a: int, b: int): int {
    if a < b then b else a
  }

  /** Greedy selection never takes a team past the cap (or past the count it already had). */
  lemma {:induction false} PickRespectsCap(rem: seq<Pairing>, played: map<TeamId, int>, cap: int, t: TeamId)
    ensures Played(played, t) + Involving(Pick(rem, played, cap), t) <= Max(cap, Played(played, t))
  {
    if rem != [] {
      var p := rem[0];
      if Eligible(p, played, cap) {
        var played' := Bump(played, p);
        PickRespectsCap(rem[1..], played', cap, t);
        var picked := Pick(rem, played, cap);
        assert picked[1..] == Pick(rem[1..], played', cap);
        if p.teamA == t || p.teamB == t {
          assert Played(played', t) == Played(played, t) + 1;
        } else {
          assert Played(played', t) == Played(played, t);
        }
      } else {
        PickRespectsCap(rem[1..], played, cap, t);
      }
    }
  }

  /** With a cap of at least one, the first remaining pairing is always selected. */
  lemma FirstAlwaysPicked(rem: seq<Pairing>, cap: int)
    requires cap >= 1 && rem != []
    ensures Pick(rem, map[], cap) != [] && Pick(rem, map[], cap)[0] == rem[0]
  {
  }

  /**
   * With a cap of at least one the fallback never fires: round `i` is
   * period `period + i`, and within it every team plays at most `cap` times.
   */
  lemma {:induction false} RoundsRespectCap(rem: seq<Pairing>, period: nat, cap: int)
    requires cap >= 1
    ensures forall i :: 0 <= i < |Rounds(rem, period, cap)| ==>
      && Rounds(rem, period, cap)[i].period == period + i
      && Rounds(rem, period, cap)[i].pairings != []
      && forall t :: Involving(Rounds(rem, period, cap)[i].pairings, t) <= cap
    decreases |rem|
  {
    if rem != [] {
      var picked := Pick(rem, map[], cap);
      FirstAlwaysPicked(rem, cap);
      PickSub(rem, map[], cap);
      RemoveAllCount(rem, picked);
      var rest := RemoveAll(rem, picked);
      RoundsRespectCap(rest, period + 1, cap);
      var rounds := Rounds(rem, period, cap);
      assert rounds == [Round(period, picked)] + Rounds(rest, period + 1, cap);
      forall t ensures Involving(picked, t) <= cap {
        PickRespectsCap(rem, map[], cap, t);
      }
      forall i | 0 <= i < |rounds|
        ensures rounds[i].period == period + i && rounds[i].pairings != [] &&
                forall t :: Involving(rounds[i].pairings, t) <= cap
      {
        if i > 0 {
          assert rounds[i] == Rounds(rest, period + 1, cap)[i - 1];
        }
      }
    }
  }

  lemma {:induction false} PickNothing(rem: seq<Pairing>, cap: int)
    requires cap <= 0
    ensures Pick(rem, map[], cap) == []
  {
    if rem != [] {
      PickNothing(rem[1..], cap);
    }
  }

  /**
   * With a cap of zero or less nothing is eligible, so the fallback dates
   * every pairing, in input order, in period 1 (one past the empty period 0).
   */
  lemma FallbackSchedulesAllAtPeriodOne(matches: seq<Pairing>, cap: int)
    requires cap <= 0 && matches != []
    ensures Rounds(matches, 0, cap) == [Round(1, matches)]
  {
    PickNothing(matches, cap);
  }

  // ---------------------------------------------------------------------
  // Worked examples
  // ---------------------------------------------------------------------

  /** 2025-09-01, a Monday. */
  const SEPT_1_2025: Date := 739495

  /** Four teams, one round-robin: (1,2),(1,3),(1,4),(2,3),(2,4),(3,4). */
  lemma FourTeamPairings()
    ensures SingleRoundRobin([1, 2, 3, 4]) ==
      [Pairing(1, 2), Pairing(1, 3), Pairing(1, 4), Pairing(2, 3), Pairing(2, 4), Pairing(3, 4)]
  {
    var t := [1, 2, 3, 4];
    assert Row(t, 0) == [Pairing(1, 2), Pairing(1, 3), Pairing(1, 4)];
    assert Row(t, 1) == [Pairing(2, 3), Pairing(2, 4)];
    assert Row(t, 2) == [Pairing(3, 4)];
    assert Row(t, 3) == [];
    assert RowsFrom(t, 4) == [];
  }

  /** One step of `Pick` on an eligible head. */
  lemma PickTake(p: Pairing, rest: seq<Pairing>, played: map<TeamId, int>, cap: int)
    requires Eligible(p, played, cap)
    ensures Pick([p] + rest, played, cap) == [p] + Pick(rest, Bump(played, p), cap)
  {
    assert ([p] + rest)[1..] == rest;
  }

  /** One step of `Pick` on a head that would exceed the cap. */
  lemma PickSkip(p: Pairing, rest: seq<Pairing>, played: map<TeamId, int>, cap: int)
    requires !Eligible(p, played, cap)
    ensures Pick([p] + rest, played, cap) == Pick(rest, played, cap)
  {
    assert ([p] + rest)[1..] == rest;
  }

  /** Period 0 of the four-team example: (1,2) blocks teams 1 and 2 until (3,4). */
  lemma FourTeamPeriod0()
    ensures Pick([Pairing(1, 2), Pairing(1, 3), Pairing(1, 4), Pairing(2, 3), Pairing(2, 4), Pairing(3, 4)], map[], 1)
         == [Pairing(1, 2), Pairing(3, 4)]
  {
    var m := Bump(map[], Pairing(1, 2));
    var m' := Bump(m, Pairing(3, 4));
    PickTake(Pairing(3, 4), [], m, 1);
    PickSkip(Pairing(2, 4), [Pairing(3, 4)], m, 1);
    PickSkip(Pairing(2, 3), [Pairing(2, 4), Pairing(3, 4)], m, 1);
    PickSkip(Pairing(1, 4), [Pairing(2, 3), Pairing(2, 4), Pairing(3, 4)], m, 1);
    PickSkip(Pairing(1, 3), [Pairing(1, 4), Pairing(2, 3), Pairing(2, 4), Pairing(3, 4)], m, 1);
    PickTake(Pairing(1, 2), [Pairing(1, 3), Pairing(1, 4), Pairing(2, 3), Pairing(2, 4), Pairing(3, 4)], map[], 1);
  }

  /** Period 1 of the four-team example: (1,3) blocks teams 1 and 3 until (2,4). */
  lemma FourTeamPeriod1()
    ensures Pick([Pairing(1, 3), Pairing(1, 4), Pairing(2, 3), Pairing(2, 4)], map[], 1)
         == [Pairing(1, 3), Pairing(2, 4)]
  {
    var m := Bump(map[], Pairing(1, 3));
    PickTake(Pairing(2, 4), [], m, 1);
    PickSkip(Pairing(2, 3), [Pairing(2, 4)], m, 1);
    PickSkip(Pairing(1, 4), [Pairing(2, 3), Pairing(2, 4)], m, 1);
    PickTake(Pairing(1, 3), [Pairing(1, 4), Pairing(2, 3), Pairing(2, 4)], map[], 1);
  }

  /** Period 2 of the four-team example: the two disjoint pairings left both fit. */
  lemma FourTeamPeriod2()
    ensures Pick([Pairing(1, 4), Pairing(2, 3)], map[], 1) == [Pairing(1, 4), Pairing(2, 3)]
  {
    var m := Bump(map[], Pairing(1, 4));
    PickTake(Pairing(2, 3), [], m, 1);
    PickTake(Pairing(1, 4), [Pairing(2, 3)], map[], 1);
  }

  /** What is left after each period of the four-team example. */
  lemma FourTeamRemovals()
    ensures RemoveAll([Pairing(1, 2), Pairing(1, 3), Pairing(1, 4), Pairing(2, 3), Pairing(2, 4), Pairing(3, 4)],
                      [Pairing(1, 2), Pairing(3, 4)])
         == [Pairing(1, 3), Pairing(1, 4), Pairing(2, 3), Pairing(2, 4)]
    ensures RemoveAll([Pairing(1, 3), Pairing(1, 4), Pairing(2, 3), Pairing(2, 4)], [Pairing(1, 3), Pairing(2, 4)])
         == [Pairing(1, 4), Pairing(2, 3)]
    ensures RemoveAll([Pairing(1, 4), Pairing(2, 3)], [Pairing(1, 4), Pairing(2, 3)]) == []
  {
    var all := [Pairing(1, 2), Pairing(1, 3), Pairing(1, 4), Pairing(2, 3), Pairing(2, 4), Pairing(3, 4)];
    var rest1 := [Pairing(1, 3), Pairing(1, 4), Pairing(2, 3), Pairing(2, 4)];
    var rest2 := [Pairing(1, 4), Pairing(2, 3)];
    assert RemoveFirst(all, Pairing(1, 2)) == all[1..];
    assert RemoveFirst([Pairing(3, 4)], Pairing(3, 4)) == [];
    assert RemoveFirst([Pairing(2, 4), Pairing(3, 4)], Pairing(3, 4)) == [Pairing(2, 4)];
    assert RemoveFirst([Pairing(2, 3), Pairing(2, 4), Pairing(3, 4)], Pairing(3, 4)) == [Pairing(2, 3), Pairing(2, 4)];
    assert RemoveFirst(all[1..], Pairing(3, 4)) == rest1;
    assert RemoveFirst(rest1, Pairing(1, 3)) == rest1[1..];
    assert RemoveFirst([Pairing(2, 4)], Pairing(2, 4)) == [];
    assert RemoveFirst(rest1[1..], Pairing(2, 4)) == rest2;
    assert RemoveFirst(rest2, Pairing(1, 4)) == [Pairing(2, 3)];
    assert RemoveFirst([Pairing(2, 3)], Pairing(2, 3)) == [];
  }

  /**
   * Weekly, cap one: period 0 is (1,2),(3,4), period 1 is (1,3),(2,4),
   * period 2 is (1,4),(2,3).
   */
  lemma FourTeamRounds()
    ensures Rounds([Pairing(1, 2), Pairing(1, 3), Pairing(1, 4), Pairing(2, 3), Pairing(2, 4), Pairing(3, 4)], 0, 1) ==
      [Round(0, [Pairing(1, 2), Pairing(3, 4)]),
       Round(1, [Pairing(1, 3), Pairing(2, 4)]),
       Round(2, [Pairing(1, 4), Pairing(2, 3)])]
  {
    var all := [Pairing(1, 2), Pairing(1, 3), Pairing(1, 4), Pairing(2, 3), Pairing(2, 4), Pairing(3, 4)];
    var p0 := [Pairing(1, 2), Pairing(3, 4)];
    var rest1 := [Pairing(1, 3), Pairing(1, 4), Pairing(2, 3), Pairing(2, 4)];
    var p1 := [Pairing(1, 3), Pairing(2, 4)];
    var rest2 := [Pairing(1, 4), Pairing(2, 3)];
    FourTeamPeriod0();
    FourTeamPeriod1();
    FourTeamPeriod2();
    FourTeamRemovals();
    assert Rounds([], 3, 1) == [];
    assert Rounds(rest2, 2, 1) == [Round(2, rest2)];
    assert Rounds(rest1, 1, 1) == [Round(1, p1), Round(2, rest2)];
  }

  /** The three periods of that example fall on 2025-09-01, -08 and -15. */
  lemma FourTeamDates()
    ensures var all := AllowedOrDefault(None);
      && NextAllowedDay(PeriodStart(SEPT_1_2025, 1, 0), all) == SEPT_1_2025
      && NextAllowedDay(PeriodStart(SEPT_1_2025, 1, 1), all) == SEPT_1_2025 + 7
      && NextAllowedDay(PeriodStart(SEPT_1_2025, 1, 2), all) == SEPT_1_2025 + 14
  {
  }

  /** Weekend-only list: a Monday period start is pushed to Saturday, five days later. */
  lemma WeekendOnlyPushesMondayToSaturday(d: Date)
    requires Weekday(d) == 0
    ensures NextAllowedDay(d, [0, 0, 0, 0, 0, 1, 1]) == d + 5
    ensures Weekday(d + 5) == 5
  {
    var allowed := [0, 0, 0, 0, 0, 1, 1];
    assert AnyAllowed(allowed) by { assert allowed[5] != 0; }
    assert IsAllowed(allowed, d + 5);
    forall e | d <= e < d + 5 ensures !IsAllowed(allowed, e) {
      assert Weekday(e) == e - d;
    }
  }
}
