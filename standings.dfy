/**
 * The standings engine: the `LeagueStandings` ledger keyed by
 * (season, team), the match-result processor that credits both teams of a
 * finished match and marks it processed, the season recalculation that
 * wipes and replays a season, and the season initialisation.
 *
 * The SQL tables become maps held by the class `LeagueDb`; every operation
 * is also given as a function on a `Tables` value, and each method is proved
 * to leave the store in the state that function describes. Each call is one
 * sequential step: no transaction, no concurrency.
 */
module Standings {
  import opened Results
  import opened League

  /** The primary key of a `LeagueStandings` row. */
  type Key = (SeasonId, TeamId)

  /** A `LeagueStandings` row. */
  datatype Standing = Standing(matchesPlayed: int, wins: int, losses: int, setsWon: int, setsLost: int,
                               pointsWon: int, pointsLost: int, leaguePoints: int)

  /** The row `initialise_season_standings` inserts. */
  const ZeroStanding := Standing(0, 0, 0, 0, 0, 0, 0, 0)

  /** The counter deltas one call of `update_team_standing` adds. */
  datatype Delta = Delta(wins: int, losses: int, setsWon: int, setsLost: int,
                         pointsWon: int, pointsLost: int, leaguePoints: int)

  /** One more match played, and every counter moved by its delta. */
  function Add(s: Standing, d: Delta): Standing {
    Standing(s.matchesPlayed + 1, s.wins + d.wins, s.losses + d.losses, s.setsWon + d.setsWon,
             s.setsLost + d.setsLost, s.pointsWon + d.pointsWon, s.pointsLost + d.pointsLost,
             s.leaguePoints + d.leaguePoints)
  }

  function SumDeltas(d1: Delta, d2: Delta): Delta {
    Delta(d1.wins + d2.wins, d1.losses + d2.losses, d1.setsWon + d2.setsWon, d1.setsLost + d2.setsLost,
          d1.pointsWon + d2.pointsWon, d1.pointsLost + d2.pointsLost, d1.leaguePoints + d2.leaguePoints)
  }

  /** The row stored under `k`, or all zeroes when there is none. */
  function Prior(st: map<Key, Standing>, k: Key): Standing {
    if k in st then st[k] else ZeroStanding
  }

  // ---------------------------------------------------------------------
  // Ledger: update_team_standing and update_match_status
  // ---------------------------------------------------------------------

  /**
   * `INSERT ... VALUES (1, deltas) ON CONFLICT DO UPDATE SET counter =
   * counter + delta`: a missing row is created as if it had been all
   * zeroes, so in both cases the new row is the old (or zero) row plus one
   * match and the deltas; no other row changes.
   */
  function Upsert(st: map<Key, Standing>, k: Key, d: Delta): (r: map<Key, Standing>)
    ensures r.Keys == st.Keys + {k}
    ensures r[k] == Add(Prior(st, k), d)
    ensures forall k' :: k' in st && k' != k ==> r[k'] == st[k']
  {
    if k in st then st[k := Add(st[k], d)]
    else st[k := Standing(1, d.wins, d.losses, d.setsWon, d.setsLost, d.pointsWon, d.pointsLost, d.leaguePoints)]
  }

  /** A fresh row counts one match and holds exactly the deltas. */
  lemma UpsertInserts(st: map<Key, Standing>, k: Key, d: Delta)
    requires k !in st
    ensures var row := Upsert(st, k, d)[k];
      && row.matchesPlayed == 1
      && row.wins == d.wins && row.losses == d.losses
      && row.setsWon == d.setsWon && row.setsLost == d.setsLost
      && row.pointsWon == d.pointsWon && row.pointsLost == d.pointsLost
      && row.leaguePoints == d.leaguePoints
  {
  }

  /**
   * Two upserts of one key leave the row one upsert of the summed deltas
   * would, plus one more match played.
   */
  lemma UpsertTwice(st: map<Key, Standing>, k: Key, d1: Delta, d2: Delta)
    ensures Upsert(Upsert(st, k, d1), k, d2)[k]
         == Upsert(st, k, SumDeltas(d1, d2))[k].(matchesPlayed := Prior(st, k).matchesPlayed + 2)
  {
  }

  /** The order of two upserts does not matter, whichever keys they touch. */
  lemma UpsertCommutes(st: map<Key, Standing>, k1: Key, d1: Delta, k2: Key, d2: Delta)
    ensures Upsert(Upsert(st, k1, d1), k2, d2) == Upsert(Upsert(st, k2, d2), k1, d1)
  {
    var a := Upsert(Upsert(st, k1, d1), k2, d2);
    var b := Upsert(Upsert(st, k2, d2), k1, d1);
    assert a.Keys == b.Keys;
    forall k | k in a
      ensures a[k] == b[k]
    {
      if k == k1 && k == k2 {
        assert a[k] == Add(Add(Prior(st, k), d1), d2);
        assert b[k] == Add(Add(Prior(st, k), d2), d1);
      }
    }
  }

  /** A `Matches` row: the columns the engine reads. */
  datatype MatchRow = MatchRow(seasonId: SeasonId, homeTeamId: TeamId, awayTeamId: TeamId,
                               winnerTeamId: Option<TeamId>, homeSetsWon: int, awaySetsWon: int,
                               status: MatchStatus, matchDatetime: Option<int>)

  /** `UPDATE "Matches" SET status = s WHERE match_id = id`: a missing id updates nothing. */
  function SetStatus(ms: map<MatchId, MatchRow>, id: MatchId, s: MatchStatus): (r: map<MatchId, MatchRow>)
    ensures r.Keys == ms.Keys
    ensures id in ms ==> r[id].status == s && r[id].(status := ms[id].status) == ms[id]
    ensures forall id' :: id' in ms && id' != id ==> r[id'] == ms[id']
  {
    if id in ms then ms[id := ms[id].(status := s)] else ms
  }

  // ---------------------------------------------------------------------
  // process_match_result
  // ---------------------------------------------------------------------

  /** A `Sets` row: the two teams' scores in one set. */
  datatype SetScore = SetScore(homeTeamScore: int, awayTeamScore: int)

  /** The four tables the engine touches. */
  datatype Tables = Tables(standings: map<Key, Standing>, matches: map<MatchId, MatchRow>,
                           sets: map<MatchId, seq<SetScore>>, seasonTeams: set<Key>)

  /** `SELECT ... FROM "Sets" WHERE match_id = id`: no rows when none were recorded. */
  function SetsOf(sets: map<MatchId, seq<SetScore>>, id: MatchId): seq<SetScore> {
    if id in sets then sets[id] else []
  }

  /** `sum(s['home_team_score'] for s in sets)`. */
  function HomePoints(sets: seq<SetScore>): int {
    if sets == [] then 0 else sets[0].homeTeamScore + HomePoints(sets[1..])
  }

  /** `sum(s['away_team_score'] for s in sets)`. */
  function AwayPoints(sets: seq<SetScore>): int {
    if sets == [] then 0 else sets[0].awayTeamScore + AwayPoints(sets[1..])
  }

  /** The deltas for the home and the away team. */
  datatype Sides = Sides(home: Delta, away: Delta)

  /**
   * The deltas of a match with a recorded winner: summed set scores, the
   * stored set counters, and 3 league points for the winner. Any winner id
   * other than the home team's credits the away team.
   */
  function MatchDeltas(m: MatchRow, sets: seq<SetScore>): (r: Sides)
    requires m.winnerTeamId.Some?
    ensures r.home.wins + r.away.wins == 1 && r.home.losses + r.away.losses == 1
    ensures r.home.leaguePoints + r.away.leaguePoints == 3
    ensures r.home.wins == 1 <==> m.winnerTeamId.value == m.homeTeamId
    ensures r.home.wins == r.away.losses && r.away.wins == r.home.losses
    ensures r.home.leaguePoints == 3 * r.home.wins && r.away.leaguePoints == 3 * r.away.wins
    ensures r.home.setsWon == m.homeSetsWon == r.away.setsLost
    ensures r.home.setsLost == m.awaySetsWon == r.away.setsWon
    ensures r.home.pointsWon == HomePoints(sets) == r.away.pointsLost
    ensures r.home.pointsLost == AwayPoints(sets) == r.away.pointsWon
  {
    var hp, ap := HomePoints(sets), AwayPoints(sets);
    var hs, aws := m.homeSetsWon, m.awaySetsWon;
    if m.winnerTeamId.value == m.homeTeamId then
      Sides(Delta(1, 0, hs, aws, hp, ap, 3), Delta(0, 1, aws, hs, ap, hp, 0))
    else
      Sides(Delta(0, 1, hs, aws, hp, ap, 0), Delta(1, 0, aws, hs, ap, hp, 3))
  }

  /** The two upserts of a processed match: home first, then away. */
  function Credit(st: map<Key, Standing>, m: MatchRow, sets: seq<SetScore>): map<Key, Standing>
    requires m.winnerTeamId.Some?
  {
    var d := MatchDeltas(m, sets);
    Upsert(Upsert(st, (m.seasonId, m.homeTeamId), d.home), (m.seasonId, m.awayTeamId), d.away)
  }

  /** `TeamStandingUpdate`. */
  datatype TeamUpdate = TeamUpdate(wins: int, sets: int, points: int, leaguePoints: int)

  /** `MatchProcessingResult`. */
  datatype ProcessingResult = ProcessingResult(matchId: MatchId, seasonId: SeasonId, homeTeamId: TeamId,
                                               awayTeamId: TeamId, winnerTeamId: TeamId,
                                               homeUpdates: TeamUpdate, awayUpdates: TeamUpdate)

  /** The three `ValueError`s of `process_match_result`. */
  datatype ProcessError = MatchNotFound | NoWinner | NotFinished(status: MatchStatus)

  /** The tables after an operation, and what it returned or raised. */
  datatype Outcome<T> = Outcome(db: Tables, result: Result<T, ProcessError>)

  /** The summary a delta reports: wins, sets won, points won, league points. */
  function Summary(d: Delta): TeamUpdate {
    TeamUpdate(d.wins, d.setsWon, d.pointsWon, d.leaguePoints)
  }

  /**
   * `process_match_result`: a missing match, a match without a winner and a
   * match not FINISHED are rejected, in that order, and change nothing;
   * otherwise both teams are credited and the match becomes PROCESSED.
   */
  function Process(db: Tables, id: MatchId): (r: Outcome<ProcessingResult>)
    ensures r.result.Err? <==>
      id !in db.matches || db.matches[id].winnerTeamId.None? || db.matches[id].status != FINISHED
    ensures r.result.Err? ==> r.db == db
    ensures r.result.Ok? ==>
      && r.db.sets == db.sets && r.db.seasonTeams == db.seasonTeams
      && r.db.matches == SetStatus(db.matches, id, PROCESSED)
      && r.db.standings == Credit(db.standings, db.matches[id], SetsOf(db.sets, id))
  {
    if id !in db.matches then Outcome(db, Err(MatchNotFound))
    else
      var m := db.matches[id];
      if m.winnerTeamId.None? then Outcome(db, Err(NoWinner))
      else if m.status != FINISHED then Outcome(db, Err(NotFinished(m.status)))
      else
        var d := MatchDeltas(m, SetsOf(db.sets, id));
        var st := Credit(db.standings, m, SetsOf(db.sets, id));
        Outcome(db.(standings := st, matches := SetStatus(db.matches, id, PROCESSED)),
                Ok(ProcessingResult(id, m.seasonId, m.homeTeamId, m.awayTeamId, m.winnerTeamId.value,
                                    Summary(d.home), Summary(d.away))))
  }

  /**
   * A successful call changes only the two teams' rows of that season,
   * each by its side's deltas, and reports exactly those deltas.
   */
  lemma ProcessCredits(db: Tables, id: MatchId)
    requires Process(db, id).result.Ok?
    ensures var m := db.matches[id];
      var d := MatchDeltas(m, SetsOf(db.sets, id));
      var hk, ak := (m.seasonId, m.homeTeamId), (m.seasonId, m.awayTeamId);
      var st := Process(db, id).db.standings;
      var res := Process(db, id).result.value;
      && st.Keys == db.standings.Keys + {hk, ak}
      && (forall k :: k in db.standings && k != hk && k != ak ==> st[k] == db.standings[k])
      && (hk != ak ==> st[hk] == Add(Prior(db.standings, hk), d.home))
      && (hk != ak ==> st[ak] == Add(Prior(db.standings, ak), d.away))
      && (hk == ak ==> st[hk] == Add(Add(Prior(db.standings, hk), d.home), d.away))
      && res.homeUpdates == Summary(d.home) && res.awayUpdates == Summary(d.away)
      && res.winnerTeamId == m.winnerTeamId.value
  {
  }

  /** The status guard makes processing one-shot: a second call on the same match fails. */
  lemma ProcessTwiceFails(db: Tables, id: MatchId)
    requires Process(db, id).result.Ok?
    ensures Process(Process(db, id).db, id) == Outcome(Process(db, id).db, Err(NotFinished(PROCESSED)))
  {
  }

  /**
   * Two sets, 25-20 and 25-18, won by the home team, credited to a season
   * that has no rows yet: 3 league points to 0, points 50-38, sets 2-0.
   */
  lemma TwoSetHomeWin()
    ensures var m := MatchRow(1, 10, 20, Some(10), 2, 0, FINISHED, None);
      var db := Tables(map[], map[7 := m], map[7 := [SetScore(25, 20), SetScore(25, 18)]], {});
      var out := Process(db, 7);
      && out.result.Ok?
      && out.db.standings[(1, 10)] == Standing(1, 1, 0, 2, 0, 50, 38, 3)
      && out.db.standings[(1, 20)] == Standing(1, 0, 1, 0, 2, 38, 50, 0)
      && out.db.matches[7].status == PROCESSED
  {
    var sets := [SetScore(25, 20), SetScore(25, 18)];
    assert HomePoints(sets) == 50 by { assert sets[1..] == [SetScore(25, 18)]; }
    assert AwayPoints(sets) == 38 by { assert sets[1..] == [SetScore(25, 18)]; }
  }

  // ---------------------------------------------------------------------
  // recalculate_season_standings
  // ---------------------------------------------------------------------

  /** `DELETE FROM "LeagueStandings" WHERE season_id = season`: other seasons keep their rows. */
  function Purge(st: map<Key, Standing>, season: SeasonId): (r: map<Key, Standing>)
    ensures forall k :: k in r <==> k in st && k.0 != season
    ensures forall k :: k in r ==> r[k] == st[k]
  {
    map k | k in st && k.0 != season :: st[k]
  }

  /** The statuses the replay selects: FINISHED, and with `includeProcessed` also PROCESSED. */
  predicate Replayable(s: MatchStatus, includeProcessed: bool) {
    s == FINISHED || (includeProcessed && s == PROCESSED)
  }

  /** Ascending `match_datetime`, a missing datetime sorting last. */
  predicate NotLater(a: Option<int>, b: Option<int>) {
    match a
    case None => b.None?
    case Some(x) => b.None? || x <= b.value
  }

  /**
   * `order` is what the recalculation's SELECT returns: each selected match
   * of the season once, by ascending datetime (ties in any order).
   */
  ghost predicate IsReplayOrder(ms: map<MatchId, MatchRow>, season: SeasonId, order: seq<MatchId>, includeProcessed: bool) {
    && (forall i, j :: 0 <= i < j < |order| ==> order[i] != order[j])
    && (forall id :: id in order <==> id in ms && ms[id].seasonId == season && Replayable(ms[id].status, includeProcessed))
    && (forall i, j :: 0 <= i < j < |order| && order[i] in ms && order[j] in ms ==>
          NotLater(ms[order[i]].matchDatetime, ms[order[j]].matchDatetime))
  }

  /**
   * The replay loop from `ids` on, `count` matches already replayed: force
   * the status to FINISHED, process, count; the first error ends the loop
   * with everything done so far kept.
   */
  function Replay(db: Tables, ids: seq<MatchId>, count: nat): Outcome<nat>
    decreases |ids|
  {
    if ids == [] then Outcome(db, Ok(count))
    else
      var reset := db.(matches := SetStatus(db.matches, ids[0], FINISHED));
      var step := Process(reset, ids[0]);
      if step.result.Err? then Outcome(step.db, Err(step.result.error))
      else Replay(step.db, ids[1..], count + 1)
  }

  /** `{'season_id': ..., 'matches_processed': ...}`. */
  datatype RecalcSummary = RecalcSummary(seasonId: SeasonId, matchesProcessed: nat)

  /** `recalculate_season_standings`, the matches to replay given as `order`. */
  function Recalculate(db: Tables, season: SeasonId, order: seq<MatchId>): Outcome<RecalcSummary> {
    var out := Replay(db.(standings := Purge(db.standings, season)), order, 0);
    Outcome(out.db, if out.result.Ok? then Ok(RecalcSummary(season, out.result.value)) else Err(out.result.error))
  }

  /** Every id of `ids` names a stored match. */
  predicate AllIn(ms: map<MatchId, MatchRow>, ids: seq<MatchId>) {
    forall i :: 0 <= i < |ids| ==> ids[i] in ms
  }

  /** Every id of `ids` names a stored match with a recorded winner. */
  predicate AllWon(ms: map<MatchId, MatchRow>, ids: seq<MatchId>) {
    forall i :: 0 <= i < |ids| ==> ids[i] in ms && ms[ids[i]].winnerTeamId.Some?
  }

  /** The standings after crediting the matches `ids`, one after the other. */
  function Fold(st: map<Key, Standing>, ms: map<MatchId, MatchRow>, sets: map<MatchId, seq<SetScore>>,
                ids: seq<MatchId>): map<Key, Standing>
    requires AllWon(ms, ids)
    decreases |ids|
  {
    if ids == [] then st
    else Fold(Credit(st, ms[ids[0]], SetsOf(sets, ids[0])), ms, sets, ids[1..])
  }

  /** Every match of `ids` with its status set to `s`. */
  function Mark(ms: map<MatchId, MatchRow>, ids: seq<MatchId>, s: MatchStatus): map<MatchId, MatchRow> {
    map id | id in ms :: if id in ids then ms[id].(status := s) else ms[id]
  }

  /** Two match rows that differ at most in their status. */
  predicate SameButStatus(a: MatchRow, b: MatchRow) {
    a.(status := SCHEDULED) == b.(status := SCHEDULED)
  }

  /** Crediting reads every column of the match but its status. */
  lemma {:induction false} FoldIgnoresStatus(st: map<Key, Standing>, ms1: map<MatchId, MatchRow>,
                                             ms2: map<MatchId, MatchRow>, sets: map<MatchId, seq<SetScore>>,
                                             ids: seq<MatchId>)
    requires AllWon(ms1, ids) && AllIn(ms2, ids)
    requires forall i :: 0 <= i < |ids| ==> SameButStatus(ms1[ids[i]], ms2[ids[i]])
    ensures AllWon(ms2, ids)
    ensures Fold(st, ms1, sets, ids) == Fold(st, ms2, sets, ids)
    decreases |ids|
  {
    if ids != [] {
      var m1, m2 := ms1[ids[0]], ms2[ids[0]];
      assert SameButStatus(m1, m2);
      assert m1.seasonId == m2.seasonId && m1.homeTeamId == m2.homeTeamId && m1.awayTeamId == m2.awayTeamId;
      assert m1.winnerTeamId == m2.winnerTeamId;
      assert m1.homeSetsWon == m2.homeSetsWon && m1.awaySetsWon == m2.awaySetsWon;
      FoldIgnoresStatus(Credit(st, m1, SetsOf(sets, ids[0])), ms1, ms2, sets, ids[1..]);
    }
  }

  /** One replayed match with a winner: credited, then PROCESSED. */
  lemma ReplayStep(db: Tables, ids: seq<MatchId>, count: nat)
    requires ids != [] && ids[0] in db.matches && db.matches[ids[0]].winnerTeamId.Some?
    ensures Replay(db, ids, count) ==
      Replay(db.(standings := Credit(db.standings, db.matches[ids[0]], SetsOf(db.sets, ids[0])),
                 matches := SetStatus(db.matches, ids[0], PROCESSED)), ids[1..], count + 1)
  {
    var id := ids[0];
    var reset := db.(matches := SetStatus(db.matches, id, FINISHED));
    assert SameButStatus(reset.matches[id], db.matches[id]);
    assert SetStatus(reset.matches, id, PROCESSED) == SetStatus(db.matches, id, PROCESSED);
  }

  /** Marking one match and then the rest is marking them all. */
  lemma MarkStep(ms: map<MatchId, MatchRow>, ids: seq<MatchId>)
    requires ids != []
    ensures Mark(SetStatus(ms, ids[0], PROCESSED), ids[1..], PROCESSED) == Mark(ms, ids, PROCESSED)
  {
    var a := Mark(SetStatus(ms, ids[0], PROCESSED), ids[1..], PROCESSED);
    var b := Mark(ms, ids, PROCESSED);
    forall id | id in ms
      ensures a[id] == b[id]
    {
      assert id in ids <==> id == ids[0] || id in ids[1..];
    }
  }

  /** `AllWon` on a non-empty list: the head, then the rest. */
  lemma AllWonCons(ms: map<MatchId, MatchRow>, ids: seq<MatchId>)
    requires ids != []
    ensures AllWon(ms, ids) <==> ids[0] in ms && ms[ids[0]].winnerTeamId.Some? && AllWon(ms, ids[1..])
  {
    if ids[0] in ms && ms[ids[0]].winnerTeamId.Some? && AllWon(ms, ids[1..]) {
      forall i | 0 <= i < |ids|
        ensures ids[i] in ms && ms[ids[i]].winnerTeamId.Some?
      {
        if i > 0 {
          assert ids[i] == ids[1..][i - 1];
        }
      }
    }
  }

  /** Whether every match has a winner does not depend on the statuses. */
  lemma AllWonIgnoresStatus(ms1: map<MatchId, MatchRow>, ms2: map<MatchId, MatchRow>, ids: seq<MatchId>)
    requires AllIn(ms1, ids) && AllIn(ms2, ids)
    requires forall i :: 0 <= i < |ids| ==> SameButStatus(ms1[ids[i]], ms2[ids[i]])
    ensures AllWon(ms1, ids) <==> AllWon(ms2, ids)
  {
    assert forall i :: 0 <= i < |ids| ==> ms1[ids[i]].winnerTeamId == ms2[ids[i]].winnerTeamId;
  }

  /** Replaying stored matches succeeds exactly when all of them have a winner. */
  lemma {:induction false} ReplaySucceedsIff(db: Tables, ids: seq<MatchId>, count: nat)
    requires AllIn(db.matches, ids)
    ensures Replay(db, ids, count).result.Ok? <==> AllWon(db.matches, ids)
    decreases |ids|
  {
    if ids != [] {
      var id := ids[0];
      AllWonCons(db.matches, ids);
      if db.matches[id].winnerTeamId.Some? {
        var next := db.(standings := Credit(db.standings, db.matches[id], SetsOf(db.sets, id)),
                        matches := SetStatus(db.matches, id, PROCESSED));
        ReplayStep(db, ids, count);
        SetStatusKeepsTail(db.matches, ids, PROCESSED);
        ReplaySucceedsIff(next, ids[1..], count + 1);
      } else {
        ReplayNoWinner(db, ids, count);
      }
    }
  }

  /** A replayed match without a winner stops the replay with an error. */
  lemma ReplayNoWinner(db: Tables, ids: seq<MatchId>, count: nat)
    requires ids != [] && ids[0] in db.matches && db.matches[ids[0]].winnerTeamId.None?
    ensures Replay(db, ids, count).result.Err?
  {
    var reset := db.(matches := SetStatus(db.matches, ids[0], FINISHED));
    assert Process(reset, ids[0]).result.Err?;
  }

  /** Setting the status of the head leaves the rest stored, and with a winner exactly when before. */
  lemma SetStatusKeepsTail(ms: map<MatchId, MatchRow>, ids: seq<MatchId>, s: MatchStatus)
    requires AllIn(ms, ids) && ids != []
    ensures AllIn(ms, ids[1..]) && AllIn(SetStatus(ms, ids[0], s), ids[1..])
    ensures AllWon(SetStatus(ms, ids[0], s), ids[1..]) <==> AllWon(ms, ids[1..])
  {
    var ms2 := SetStatus(ms, ids[0], s);
    var tail := ids[1..];
    assert forall i :: 0 <= i < |tail| ==> tail[i] == ids[i + 1];
    assert forall i :: 0 <= i < |tail| ==> SameButStatus(ms2[tail[i]], ms[tail[i]]);
    AllWonIgnoresStatus(ms2, ms, tail);
  }

  /**
   * A replay of stored matches that all have a winner credits them in
   * order, leaves them all PROCESSED and counts them.
   */
  lemma {:induction false} ReplayShape(db: Tables, ids: seq<MatchId>, count: nat)
    requires AllWon(db.matches, ids)
    ensures Replay(db, ids, count).result.Ok?
    ensures Replay(db, ids, count).result.value == count + |ids|
    ensures Replay(db, ids, count).db ==
      db.(standings := Fold(db.standings, db.matches, db.sets, ids), matches := Mark(db.matches, ids, PROCESSED))
    decreases |ids|
  {
    if ids == [] {
      assert Mark(db.matches, ids, PROCESSED) == db.matches;
    } else {
      var id := ids[0];
      var next := db.(standings := Credit(db.standings, db.matches[id], SetsOf(db.sets, id)),
                      matches := SetStatus(db.matches, id, PROCESSED));
      ReplayStep(db, ids, count);
      AllWonCons(db.matches, ids);
      assert forall i :: 0 <= i < |ids[1..]| ==> SameButStatus(db.matches[ids[1..][i]], next.matches[ids[1..][i]]);
      FoldIgnoresStatus(next.standings, db.matches, next.matches, db.sets, ids[1..]);
      ReplayShape(next, ids[1..], count + 1);
      MarkStep(db.matches, ids);
      assert Fold(db.standings, db.matches, db.sets, ids) == Fold(next.standings, next.matches, next.sets, ids[1..]);
    }
  }

  /** Crediting matches of one season touches no row of another season. */
  lemma {:induction false} FoldStaysInSeason(st: map<Key, Standing>, ms: map<MatchId, MatchRow>,
                                             sets: map<MatchId, seq<SetScore>>, ids: seq<MatchId>, season: SeasonId)
    requires AllWon(ms, ids)
    requires forall i :: 0 <= i < |ids| ==> ms[ids[i]].seasonId == season
    ensures Purge(Fold(st, ms, sets, ids), season) == Purge(st, season)
    decreases |ids|
  {
    if ids != [] {
      var next := Credit(st, ms[ids[0]], SetsOf(sets, ids[0]));
      assert Fold(st, ms, sets, ids) == Fold(next, ms, sets, ids[1..]);
      CreditStaysInSeason(st, ms[ids[0]], SetsOf(sets, ids[0]));
      AllWonCons(ms, ids);
      assert forall i :: 0 <= i < |ids[1..]| ==> ids[1..][i] == ids[i + 1];
      FoldStaysInSeason(next, ms, sets, ids[1..], season);
    }
  }

  /** Marking twice is marking once. */
  lemma MarkTwice(ms: map<MatchId, MatchRow>, ids: seq<MatchId>, st: MatchStatus)
    ensures Mark(Mark(ms, ids, st), ids, st) == Mark(ms, ids, st)
  {
  }

  /** After marking the selected matches PROCESSED the same order is still a valid replay order. */
  lemma MarkKeepsOrder(ms: map<MatchId, MatchRow>, season: SeasonId, order: seq<MatchId>)
    requires IsReplayOrder(ms, season, order, true)
    ensures IsReplayOrder(Mark(ms, order, PROCESSED), season, order, true)
  {
    var marked := Mark(ms, order, PROCESSED);
    forall id
      ensures id in order <==> id in marked && marked[id].seasonId == season && Replayable(marked[id].status, true)
    {
      if id in marked && id !in order {
        assert marked[id] == ms[id];
      }
    }
  }

  /** Purging twice is purging once. */
  lemma PurgeTwice(st: map<Key, Standing>, season: SeasonId)
    ensures Purge(Purge(st, season), season) == Purge(st, season)
  {
  }

  /**
   * A recalculation whose selected matches all have a winner succeeds,
   * counts every selected match, rebuilds the season from the purged ledger
   * and leaves the selected matches PROCESSED; otherwise it fails.
   */
  lemma RecalcShape(db: Tables, season: SeasonId, order: seq<MatchId>, includeProcessed: bool)
    requires IsReplayOrder(db.matches, season, order, includeProcessed)
    ensures Recalculate(db, season, order).result.Ok? <==> AllWon(db.matches, order)
    ensures AllWon(db.matches, order) ==>
      && Recalculate(db, season, order).result.value == RecalcSummary(season, |order|)
      && Recalculate(db, season, order).db ==
           db.(standings := Fold(Purge(db.standings, season), db.matches, db.sets, order),
               matches := Mark(db.matches, order, PROCESSED))
  {
    var purged := db.(standings := Purge(db.standings, season));
    OrderedAreInSeason(db.matches, season, order, includeProcessed);
    ReplaySucceedsIff(purged, order, 0);
    if AllWon(db.matches, order) {
      ReplayShape(purged, order, 0);
    }
  }

  /**
   * With both FINISHED and PROCESSED matches replayed, recalculation is
   * idempotent: the order it was given is still valid afterwards, and a
   * second run leaves identical tables and reports the same count.
   */
  lemma RecalcIdempotent(db: Tables, season: SeasonId, order: seq<MatchId>)
    requires IsReplayOrder(db.matches, season, order, true)
    requires Recalculate(db, season, order).result.Ok?
    ensures IsReplayOrder(Recalculate(db, season, order).db.matches, season, order, true)
    ensures Recalculate(Recalculate(db, season, order).db, season, order).db == Recalculate(db, season, order).db
    ensures Recalculate(Recalculate(db, season, order).db, season, order).result.Ok?
    ensures Recalculate(Recalculate(db, season, order).db, season, order).result.value
         == Recalculate(db, season, order).result.value
  {
    RecalcShape(db, season, order, true);
    var folded := Fold(Purge(db.standings, season), db.matches, db.sets, order);
    var marked := Mark(db.matches, order, PROCESSED);
    var db1 := db.(standings := folded, matches := marked);
    assert Recalculate(db, season, order).db == db1;
    MarkKeepsOrder(db.matches, season, order);
    RefoldSeason(db.standings, db.matches, db.sets, season, order);
    RecalcShape(db1, season, order, true);
    MarkTwice(db.matches, order, PROCESSED);
  }

  /**
   * Purging a rebuilt season and crediting the same matches again, now
   * marked PROCESSED, rebuilds the same rows.
   */
  lemma RefoldSeason(st: map<Key, Standing>, ms: map<MatchId, MatchRow>, sets: map<MatchId, seq<SetScore>>,
                     season: SeasonId, order: seq<MatchId>)
    requires IsReplayOrder(ms, season, order, true)
    requires AllWon(ms, order)
    ensures AllWon(Mark(ms, order, PROCESSED), order)
    ensures var folded := Fold(Purge(st, season), ms, sets, order);
      Fold(Purge(folded, season), Mark(ms, order, PROCESSED), sets, order) == folded
  {
    var purged := Purge(st, season);
    var marked := Mark(ms, order, PROCESSED);
    OrderedAreInSeason(ms, season, order, true);
    assert forall i :: 0 <= i < |order| ==> order[i] in order;
    assert forall i :: 0 <= i < |order| ==> SameButStatus(ms[order[i]], marked[order[i]]);
    FoldIgnoresStatus(purged, ms, marked, sets, order);
    FoldStaysInSeason(purged, ms, sets, order, season);
    PurgeTwice(st, season);
  }

  /**
   * As written, recalculation selects FINISHED matches only: right after a
   * successful run none is left, so a second run replays nothing, reports 0
   * and leaves the season without any standings row.
   */
  lemma RecalcAsWrittenTwice(db: Tables, season: SeasonId, order: seq<MatchId>, order2: seq<MatchId>)
    requires IsReplayOrder(db.matches, season, order, false)
    requires Recalculate(db, season, order).result.Ok?
    requires IsReplayOrder(Recalculate(db, season, order).db.matches, season, order2, false)
    ensures order2 == []
    ensures Recalculate(Recalculate(db, season, order).db, season, order2).result.Ok?
    ensures Recalculate(Recalculate(db, season, order).db, season, order2).result.value.matchesProcessed == 0
    ensures forall k :: k in Recalculate(Recalculate(db, season, order).db, season, order2).db.standings ==> k.0 != season
  {
    RecalcShape(db, season, order, false);
    var marked := Mark(db.matches, order, PROCESSED);
    assert Recalculate(db, season, order).db.matches == marked;
    forall id | id in marked && marked[id].seasonId == season
      ensures marked[id].status != FINISHED
    {
      if id !in order {
        assert marked[id] == db.matches[id];
      }
    }
    NoMembersEmpty(order2);
  }

  /** A list without members is empty. */
  lemma NoMembersEmpty(ids: seq<MatchId>)
    requires forall id :: id !in ids
    ensures ids == []
  {
    assert ids == [] || First(ids) in ids;
  }

  /** The first id of a list, or 0 for an empty one. */
  function First(ids: seq<MatchId>): MatchId {
    if ids == [] then 0 else ids[0]
  }

  /** The two upserts of one match touch only rows of the match's season. */
  lemma CreditStaysInSeason(st: map<Key, Standing>, m: MatchRow, sets: seq<SetScore>)
    requires m.winnerTeamId.Some?
    ensures Purge(Credit(st, m, sets), m.seasonId) == Purge(st, m.seasonId)
  {
  }

  /**
   * Replaying matches of one season, whether it completes or stops at an
   * error, leaves the rows of every other season, the sets and the season
   * rosters as they were.
   */
  lemma {:induction false} ReplayStaysInSeason(db: Tables, ids: seq<MatchId>, count: nat, season: SeasonId)
    requires forall i :: 0 <= i < |ids| ==> ids[i] in db.matches && db.matches[ids[i]].seasonId == season
    ensures Purge(Replay(db, ids, count).db.standings, season) == Purge(db.standings, season)
    ensures Replay(db, ids, count).db.sets == db.sets
    ensures Replay(db, ids, count).db.seasonTeams == db.seasonTeams
    decreases |ids|
  {
    if ids != [] {
      var id := ids[0];
      var reset := db.(matches := SetStatus(db.matches, id, FINISHED));
      var step := Process(reset, id);
      if step.result.Ok? {
        CreditStaysInSeason(db.standings, reset.matches[id], SetsOf(db.sets, id));
        assert forall i :: 0 <= i < |ids[1..]| ==> ids[1..][i] == ids[i + 1];
        ReplayStaysInSeason(step.db, ids[1..], count + 1, season);
      }
    }
  }

  /** Every id of a replay order names a stored match of the season. */
  lemma OrderedAreInSeason(ms: map<MatchId, MatchRow>, season: SeasonId, order: seq<MatchId>, includeProcessed: bool)
    requires IsReplayOrder(ms, season, order, includeProcessed)
    ensures forall i :: 0 <= i < |order| ==> order[i] in ms && ms[order[i]].seasonId == season
  {
    forall i | 0 <= i < |order|
      ensures order[i] in ms && ms[order[i]].seasonId == season
    {
      var id := order[i];
      assert id in order;
    }
  }

  /** Recalculating a season deletes and rebuilds that season's rows only. */
  lemma RecalcKeepsOtherSeasons(db: Tables, season: SeasonId, order: seq<MatchId>, includeProcessed: bool)
    requires IsReplayOrder(db.matches, season, order, includeProcessed)
    ensures var st := Recalculate(db, season, order).db.standings;
      && (forall k: Key :: k.0 != season ==> (k in st <==> k in db.standings))
      && (forall k :: k in st && k.0 != season ==> st[k] == db.standings[k])
    ensures Recalculate(db, season, order).db.sets == db.sets
    ensures Recalculate(db, season, order).db.seasonTeams == db.seasonTeams
  {
    var purged := db.(standings := Purge(db.standings, season));
    OrderedAreInSeason(db.matches, season, order, includeProcessed);
    ReplayStaysInSeason(purged, order, 0, season);
    PurgeTwice(db.standings, season);
    var st := Recalculate(db, season, order).db.standings;
    forall k: Key | k.0 != season
      ensures k in st <==> k in db.standings
      ensures k in st ==> st[k] == db.standings[k]
    {
      assert k in st <==> k in Purge(st, season);
    }
  }

  /** The tables of `TwoSetHomeWin` once its match has been processed. */
  function ProcessedExample(): Tables {
    Tables(map[(1, 10) := Standing(1, 1, 0, 2, 0, 50, 38, 3), (1, 20) := Standing(1, 0, 1, 0, 2, 38, 50, 0)],
           map[7 := MatchRow(1, 10, 20, Some(10), 2, 0, PROCESSED, None)],
           map[7 := [SetScore(25, 20), SetScore(25, 18)]],
           {})
  }

  lemma ProcessedExampleIsProcessed()
    ensures var m := MatchRow(1, 10, 20, Some(10), 2, 0, FINISHED, None);
      var db0 := Tables(map[], map[7 := m], map[7 := [SetScore(25, 20), SetScore(25, 18)]], {});
      Process(db0, 7).db == ProcessedExample()
  {
    TwoSetHomeWin();
  }

  /**
   * As written, the processed match of that example is not selected
   * (it is no longer FINISHED), so recalculation wipes the season and
   * reports 0 matches.
   */
  lemma RecalcAsWrittenErasesProcessedMatch()
    ensures IsReplayOrder(ProcessedExample().matches, 1, [], false)
    ensures Recalculate(ProcessedExample(), 1, []).result == Ok(RecalcSummary(1, 0))
    ensures Recalculate(ProcessedExample(), 1, []).db.standings == map[]
  {
    ExamplePurged();
  }

  /** Replaying FINISHED and PROCESSED matches restores exactly what processing produced. */
  lemma RecalcRestoresProcessedMatch()
    ensures IsReplayOrder(ProcessedExample().matches, 1, [7], true)
    ensures Recalculate(ProcessedExample(), 1, [7]).result.Ok?
    ensures Recalculate(ProcessedExample(), 1, [7]).db == ProcessedExample()
  {
    var db := ProcessedExample();
    ExampleOrder();
    ExampleFold();
    ExamplePurged();
    ExampleMarked();
    RecalcShape(db, 1, [7], true);
  }

  lemma ExampleOrder()
    ensures IsReplayOrder(ProcessedExample().matches, 1, [7], true)
    ensures AllWon(ProcessedExample().matches, [7])
  {
  }

  lemma ExampleFold()
    ensures Fold(map[], ProcessedExample().matches, ProcessedExample().sets, [7]) == ProcessedExample().standings
  {
    var db := ProcessedExample();
    var sets := db.sets[7];
    var m := db.matches[7];
    assert HomePoints(sets) == 50 by { assert sets[1..] == [SetScore(25, 18)]; }
    assert AwayPoints(sets) == 38 by { assert sets[1..] == [SetScore(25, 18)]; }
    var home, away := Delta(1, 0, 2, 0, 50, 38, 3), Delta(0, 1, 0, 2, 38, 50, 0);
    assert MatchDeltas(m, sets) == Sides(home, away);
    var once := Upsert(map[], (1, 10), home);
    assert once == map[(1, 10) := Standing(1, 1, 0, 2, 0, 50, 38, 3)];
    assert Upsert(once, (1, 20), away) == db.standings;
    assert Fold(map[], db.matches, db.sets, [7]) == Credit(map[], m, sets) by {
      assert [7][1..] == [];
    }
  }

  lemma ExamplePurged()
    ensures Purge(ProcessedExample().standings, 1) == map[]
  {
    assert ProcessedExample().standings.Keys == {(1, 10), (1, 20)};
  }

  lemma ExampleMarked()
    ensures Mark(ProcessedExample().matches, [7], PROCESSED) == ProcessedExample().matches
  {
  }

  // ---------------------------------------------------------------------
  // initialise_season_standings
  // ---------------------------------------------------------------------

  /** The season's teams that have no standings row yet. */
  function Missing(st: map<Key, Standing>, teams: set<Key>, season: SeasonId): set<Key> {
    set k | k in teams && k.0 == season && k !in st
  }

  /**
   * `INSERT ... SELECT ... FROM "SeasonTeams" ON CONFLICT DO NOTHING`:
   * every team of the season ends with a row, existing rows are untouched,
   * and the rows added are all zero.
   */
  function Initialise(st: map<Key, Standing>, teams: set<Key>, season: SeasonId): (r: map<Key, Standing>)
    ensures r.Keys == st.Keys + Missing(st, teams, season)
    ensures forall k :: k in teams && k.0 == season ==> k in r
    ensures forall k :: k in st ==> r[k] == st[k]
    ensures forall k :: k in r && k !in st ==> r[k] == ZeroStanding
  {
    st + map k | k in Missing(st, teams, season) :: ZeroStanding
  }

  /** The number of rows inserted is exactly how much the table grows. */
  lemma InitialiseGrowth(st: map<Key, Standing>, teams: set<Key>, season: SeasonId)
    ensures |Initialise(st, teams, season)| == |st| + |Missing(st, teams, season)|
  {
    var r := Initialise(st, teams, season);
    var missing := Missing(st, teams, season);
    assert st.Keys * missing == {};
    assert |r.Keys| == |st.Keys + missing|;
  }

  /** A second initialisation inserts nothing and changes nothing. */
  lemma InitialiseTwice(st: map<Key, Standing>, teams: set<Key>, season: SeasonId)
    ensures Missing(Initialise(st, teams, season), teams, season) == {}
    ensures Initialise(Initialise(st, teams, season), teams, season) == Initialise(st, teams, season)
  {
  }

  // ---------------------------------------------------------------------
  // The store, updated in place
  // ---------------------------------------------------------------------

  /** The database connection the engine's functions are handed: four tables updated in place. */
  class LeagueDb {
    var standings: map<Key, Standing>
    var matches: map<MatchId, MatchRow>
    var sets: map<MatchId, seq<SetScore>>
    var seasonTeams: set<Key>

    /** The current contents of the four tables. */
    function Snapshot(): Tables
      reads this
    {
      Tables(standings, matches, sets, seasonTeams)
    }

    /** `update_team_standing`: insert the row, or add the deltas to it. */
    method UpdateTeamStanding(seasonId: SeasonId, teamId: TeamId, d: Delta)
      modifies this
      ensures standings == Upsert(old(standings), (seasonId, teamId), d)
      ensures matches == old(matches) && sets == old(sets) && seasonTeams == old(seasonTeams)
    {
      var k := (seasonId, teamId);
      if k in standings {
        var row := standings[k];
        standings := standings[k := Standing(row.matchesPlayed + 1, row.wins + d.wins, row.losses + d.losses,
                                             row.setsWon + d.setsWon, row.setsLost + d.setsLost,
                                             row.pointsWon + d.pointsWon, row.pointsLost + d.pointsLost,
                                             row.leaguePoints + d.leaguePoints)];
      } else {
        standings := standings[k := Standing(1, d.wins, d.losses, d.setsWon, d.setsLost,
                                             d.pointsWon, d.pointsLost, d.leaguePoints)];
      }
    }

    /** `update_match_status`: overwrite one match's status, if that match exists. */
    method UpdateMatchStatus(matchId: MatchId, status: MatchStatus)
      modifies this
      ensures matches == SetStatus(old(matches), matchId, status)
      ensures standings == old(standings) && sets == old(sets) && seasonTeams == old(seasonTeams)
    {
      if matchId in matches {
        matches := matches[matchId := matches[matchId].(status := status)];
      }
    }

    /** `process_match_result`. */
    method ProcessMatchResult(matchId: MatchId) returns (r: Result<ProcessingResult, ProcessError>)
      modifies this
      ensures Snapshot() == Process(old(Snapshot()), matchId).db
      ensures r == Process(old(Snapshot()), matchId).result
    {
      if matchId !in matches {
        return Err(MatchNotFound);
      }
      var m := matches[matchId];
      if m.winnerTeamId.None? {
        return Err(NoWinner);
      }
      if m.status != FINISHED {
        return Err(NotFinished(m.status));
      }
      var setRows := SetsOf(sets, matchId);
      var deltas := MatchDeltas(m, setRows);
      UpdateTeamStanding(m.seasonId, m.homeTeamId, deltas.home);
      UpdateTeamStanding(m.seasonId, m.awayTeamId, deltas.away);
      UpdateMatchStatus(matchId, PROCESSED);
      return Ok(ProcessingResult(matchId, m.seasonId, m.homeTeamId, m.awayTeamId, m.winnerTeamId.value,
                                 Summary(deltas.home), Summary(deltas.away)));
    }

    /**
     * `recalculate_season_standings`: delete the season's rows, then replay
     * `order` (what the selection query returns) one match at a time. With
     * `includeProcessed` false, `order` is what the query selects as written
     * (FINISHED matches only); with it true, the corrected selection of
     * FINISHED and PROCESSED matches.
     */
    method RecalculateSeasonStandings(seasonId: SeasonId, order: seq<MatchId>, ghost includeProcessed: bool)
      returns (r: Result<RecalcSummary, ProcessError>)
      requires IsReplayOrder(matches, seasonId, order, includeProcessed)
      modifies this
      ensures Snapshot() == Recalculate(old(Snapshot()), seasonId, order).db
      ensures r == Recalculate(old(Snapshot()), seasonId, order).result
    {
      standings := Purge(standings, seasonId);
      ghost var start := Snapshot();
      var processedCount: nat := 0;
      for i := 0 to |order|
        invariant Replay(Snapshot(), order[i..], processedCount) == Replay(start, order, 0)
      {
        ReplayUnfold(Snapshot(), order[i..], processedCount);
        assert order[i..][1..] == order[i + 1..];
        UpdateMatchStatus(order[i], FINISHED);
        var res := ProcessMatchResult(order[i]);
        if res.Err? {
          return Err(res.error);
        }
        processedCount := processedCount + 1;
      }
      return Ok(RecalcSummary(seasonId, processedCount));
    }

    /** `initialise_season_standings`: the number of rows inserted. */
    method InitialiseSeasonStandings(seasonId: SeasonId) returns (rowsInserted: nat)
      modifies this
      ensures standings == Initialise(old(standings), old(seasonTeams), seasonId)
      ensures rowsInserted == |Missing(old(standings), old(seasonTeams), seasonId)|
      ensures matches == old(matches) && sets == old(sets) && seasonTeams == old(seasonTeams)
    {
      var missing := set k | k in seasonTeams && k.0 == seasonId && k !in standings;
      standings := standings + map k | k in missing :: ZeroStanding;
      rowsInserted := |missing|;
    }
  }

  /** One step of `Replay`, spelled out for the loop that implements it. */
  lemma ReplayUnfold(db: Tables, ids: seq<MatchId>, count: nat)
    requires ids != []
    ensures var step := Process(db.(matches := SetStatus(db.matches, ids[0], FINISHED)), ids[0]);
      Replay(db, ids, count) ==
        if step.result.Err? then Outcome(step.db, Err(step.result.error))
        else Replay(step.db, ids[1..], count + 1)
  {
  }
}
