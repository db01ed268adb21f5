# League management core, modelled in Dafny

This project models four sequential parts of a volleyball league
management back end and proves properties of them:

- **Fixture scheduler** (`fixtures.dfy`, module `Fixtures`):
  - `generate_round_robin` builds every pairing of an ordered team list, in nested-loop order; with `double` it also appends the home/away swaps;
  - `assign_match_dates` dates the pairings greedily, period by period, under a per-team cap and a seven-entry weekday allow-list;
  - when a period selects nothing, a fallback dates everything left;
  - `_get_next_allowed_weekday` moves a date forward to the first allowed weekday.

  Dates are day numbers: the proleptic Gregorian ordinal, where day 1 is Monday 0001-01-01. So the weekday is `(d + 6) % 7`, and `timedelta(weeks=w)` adds `7 * w`. The scheduler exists in two copies, `api/services/fixture_generator.py` and `api/core/fixture_generator.py`. Their code is the same apart from comments, so one model serves both.
- **Standings ledger and match processor** (`standings.dfy`, module `Standings`). These are the tables `LeagueStandings`, `Matches`, `Sets` and `SeasonTeams`:
  - as maps held by the class `LeagueDb`, whose methods update them in place;
  - as the value `Tables`, on which each operation is also a function. Each method is proved to leave the store as that function says.

  The operations are:
  - `update_team_standing`, an additive upsert;
  - `update_match_status`;
  - `process_match_result`, which validates a match, derives both sides' deltas, applies them and marks the match PROCESSED;
  - `recalculate_season_standings`, which wipes the season and replays its matches;
  - `initialise_season_standings`.
- **Registration request validation** (`registration.dfy`, module `Registration`):
  - the `RegisterRequest` field bounds: username 3..50, password at most 128, full name at most 100, and the role literal;
  - `_strip_strings`, which trims username, email and full name and refuses blanks;
  - `_validate_password`: at least 8 characters, then a lowercase letter, an uppercase letter and a digit.

  The model is declared three times in the application. `api/models/schemas.py` and `api/core/models.py` carry the password rule; `api/routes/register.py` does not. `PasswordPolicy` selects between them.
- **Daily invitation codes** (`invitation_codes.dfy`, module `InvitationCodes`). The message `"<id>:<YYYY-MM-DD>"` is signed with HMAC-SHA256. The first four digest bytes are read big-endian, reduced modulo 1,000,000 and written as six zero-padded digits. Validation derives the code again and compares with `hmac.compare_digest`. The user engine (`api/services/invitation_code_engine.py`) and the team engine (`api/services/team_invitation_code_engine.py`) share `generate_code` and `validate_code`, which differ only in the secret key. So both engines are `GenerateCode` / `ValidateCode` with a key parameter. Only the user engine has `validate_code_for_date`, which is `ValidateCodeForDate`.

`results.dfy` holds the `Result` and `Option` types. `league.dfy` holds the shared identifiers and the match status.

`recalculate_season_standings` selects FINISHED matches only (`api/services/standings_engine.py:108`), although its docstring promises a recalculation "from scratch" (line 96) and its loop first resets each selected match to FINISHED (lines 116-123), which changes nothing on a row already FINISHED. `LeagueDb.RecalculateSeasonStandings` takes the selection as a parameter, so it runs on the order the query as written returns as well as on the corrected one. The discrepancy is listed under Findings.

## Model

| member | source | states |
|---|---|---|
| Fixtures.GenerateRoundRobin | api/services/fixture_generator.py:7-18 | The result is the nested-loop list of all pairs (t[i], t[j]) with i < j. With `double`, that list is followed by its home/away swaps. The length is n(n-1)/2, or n(n-1) when doubled, and entry m+k is the swap of entry k. |
| Fixtures.RoundRobinOrder | api/services/fixture_generator.py:10-12 | For every i < j, the pair (t[i], t[j]) is in the single round-robin at its nested-loop position. |
| Fixtures.RoundRobinOnlyPairs | api/services/fixture_generator.py:10-12 | Every entry of the single round-robin is some (t[i], t[j]) with i < j. |
| Fixtures.RoundRobinLength | api/services/fixture_generator.py:10-12 | Twice the single round-robin's length is n(n-1). |
| Fixtures.DoubleRoundRobin | api/services/fixture_generator.py:14-16 | Doubling gives length n(n-1), and its second half mirrors the first entry by entry. |
| Fixtures.NextAllowedWeekday | api/services/fixture_generator.py:89-106 | The seven-step loop returns `NextAllowedDay(date, allowed)`. |
| Fixtures.NextAllowedDay | api/core/fixture_generator.py:131-149 | The result lies in d..d+6. If any day is allowed, the result is allowed and no earlier day from d on is. It is d itself when d is allowed, and d when no day is allowed. |
| Fixtures.AllowedDayWithinWeek | api/services/fixture_generator.py:99-106 | With a truthy entry in the allow-list, one of any seven consecutive days is allowed. So the final `return date` is unreachable for a valid list. |
| Fixtures.Schedule | api/core/fixture_generator.py:57-128 | `None` means all seven days. A list of length other than 7 is refused with WrongLength. An all-zero list is refused with NoWeekdayAllowed. Otherwise the output is a permutation of the input pairings (as a multiset). Every fixture k is SCHEDULED and dated at the first allowed weekday on or after the start of its own period, `FixturePeriods(Rounds(...))[k]`. |
| Fixtures.AssignMatchDates | api/services/fixture_generator.py:21-86 | The loop returns exactly `Schedule(...)`: the loop changes `remaining` in place and appends to `scheduled`. |
| Fixtures.SelectForPeriod | api/services/fixture_generator.py:41-65 | One pass with a fresh counter map selects `Pick(remaining)` and dates each selection at the period's allowed day. |
| Fixtures.RemoveEach | api/services/fixture_generator.py:67-68 | Removing each selected pairing with `list.remove` leaves `RemoveAll(remaining, selected)`. |
| Fixtures.DateAllRemaining | api/services/fixture_generator.py:72-84 | The fallback dates every remaining pairing at the given period. |
| Fixtures.PickSub | api/services/fixture_generator.py:44-65 | The pairings selected in a period are a sub-multiset of those remaining. |
| Fixtures.RemoveAllCount | api/services/fixture_generator.py:67-68 | Removing a sub-multiset takes away exactly those copies, and the length drops by their number. |
| Fixtures.RoundsPermutation | api/services/fixture_generator.py:40-84 | All the periods together date exactly the input pairings: nothing is dropped or duplicated. |
| Fixtures.DatedPairings | api/services/fixture_generator.py:55-60 | The output's (team_a, team_b) list is the rounds' pairings, round after round. |
| Fixtures.DatedDates | api/core/fixture_generator.py:84-87 | Every fixture of a round of period p is SCHEDULED and dated at the first allowed weekday on or after `start + 7 * p * weeks_between`, so it is on an allowed weekday at most six days after that start. With `RoundsRespectCap`, round i is period i. |
| Fixtures.FixturePeriodsSorted | api/services/fixture_generator.py:40-84 | Fixtures are emitted period by period: their periods never decrease, and none is before the period the loop starts from. |
| Fixtures.PickRespectsCap | api/core/fixture_generator.py:79-98 | Within one selection pass, no team's counter goes past the cap. A team already past it gets nothing more. |
| Fixtures.FirstAlwaysPicked | api/services/fixture_generator.py:44-50 | With a cap of at least 1, the first remaining pairing is always selected. |
| Fixtures.RoundsRespectCap | api/services/fixture_generator.py:40-70 | With a cap of at least 1, the fallback never fires. Round i is period i, no round is empty, and no team plays more than the cap in any round. |
| Fixtures.FallbackSchedulesAllAtPeriodOne | api/services/fixture_generator.py:70-84 | With a cap of 0 or less, period 0 selects nothing. The fallback then dates every pairing, in input order, at period 1. |
| Fixtures.FourTeamPairings | api/core/fixture_generator.py:11-13 | Teams [1,2,3,4] give (1,2),(1,3),(1,4),(2,3),(2,4),(3,4). |
| Fixtures.FourTeamRounds | api/core/fixture_generator.py:47-50 | With weekly periods and cap 1: week 1 is (1,2),(3,4), week 2 is (1,3),(2,4) and week 3 is (1,4),(2,3). |
| Fixtures.FourTeamDates | api/core/fixture_generator.py:47-50 | From Monday 2025-09-01 with all days allowed, those three weeks fall on 09-01, 09-08 and 09-15. |
| Fixtures.WeekendOnlyPushesMondayToSaturday | api/core/fixture_generator.py:52-54 | With [0,0,0,0,0,1,1], a Monday period start is pushed five days, to a Saturday. |
| Standings.Upsert | api/services/standings_helpers.py:17-37 | The key set grows by the upserted key only. The new row is the old row (or zero) plus one match and every delta. No other row changes. |
| Standings.UpsertInserts | api/services/standings_helpers.py:19-22 | A fresh row has matches_played 1, and each counter equals its delta. |
| Standings.UpsertTwice | api/services/standings_helpers.py:25-32 | Two upserts of one key give the row of one upsert with the summed deltas, with two matches played. |
| Standings.UpsertCommutes | api/services/standings_helpers.py:23-32 | Two upserts commute, whichever keys they touch. |
| Standings.SetStatus | api/services/standings_helpers.py:40-49 | Only the named match's status changes; no other match and no other column does. A missing id changes nothing. |
| Standings.LeagueDb.UpdateTeamStanding | api/services/standings_helpers.py:4-37 | The standings become `Upsert(old standings, key, deltas)`. The other tables are unchanged. |
| Standings.LeagueDb.UpdateMatchStatus | api/services/standings_helpers.py:40-49 | The matches become `SetStatus(old matches, id, status)`. The other tables are unchanged. |
| Standings.MatchDeltas | api/services/standings_engine.py:40-53 | Points are the summed set scores and sets are the stored set counters, mirrored between the sides. The winner gets 1 win and 3 league points and the other side 1 loss; any winner id other than home credits away. In total there are 1 win, 1 loss and 3 league points. |
| Standings.Process | api/services/standings_engine.py:7-91 | It fails exactly when the match is missing, has no winner, or is not FINISHED, and then changes nothing. On success both teams are credited (home, then away), the match becomes PROCESSED, and sets and rosters are untouched. |
| Standings.ProcessCredits | api/services/standings_engine.py:55-91 | Only the (season, home) and (season, away) rows change, each by its side's deltas. The result reports exactly those deltas and the winner. |
| Standings.ProcessTwiceFails | api/services/standings_engine.py:27-71 | A second processing of the same match fails with NotFinished(PROCESSED) and changes nothing. |
| Standings.TwoSetHomeWin | api/services/standings_engine.py:40-69 | A 25-20, 25-18 home win gives home (1 played, 1 win, sets 2-0, points 50-38, 3 league points) and away the mirror with 0 league points. |
| Standings.LeagueDb.ProcessMatchResult | api/services/standings_engine.py:7-91 | The new tables and the result are those of `Process`. |
| Standings.Purge | api/services/standings_engine.py:99-102 | Exactly the rows of other seasons remain, unchanged. |
| Standings.ReplaySucceedsIff | api/services/standings_engine.py:114-126 | Replaying stored matches succeeds exactly when every one of them has a winner. |
| Standings.ReplayShape | api/services/standings_engine.py:114-131 | A successful replay credits the matches in order, leaves them PROCESSED and counts them. |
| Standings.ReplayStaysInSeason | api/services/standings_engine.py:114-126 | Whether a replay completes or stops at an error, it keeps every other season's rows, the sets and the rosters. |
| Standings.RecalcShape | api/services/standings_engine.py:94-131 | Recalculation succeeds exactly when all selected matches have a winner. It then rebuilds the season from the purged ledger, marks them PROCESSED and reports their number. |
| Standings.RecalcKeepsOtherSeasons | api/services/standings_engine.py:99-102 | Rows of other seasons, the sets and the rosters are unchanged by a recalculation. |
| Standings.RecalcAsWrittenTwice | api/services/standings_engine.py:104-131 | As written, which selects FINISHED only, a second recalculation selects nothing, reports 0 and leaves the season without rows. |
| Standings.RecalcAsWrittenErasesProcessedMatch | api/services/standings_engine.py:104-112 | As written, recalculating a season whose only match is PROCESSED reports 0 and deletes both teams' rows. |
| Standings.RecalcRestoresProcessedMatch | api/services/standings_engine.py:104-126 | With FINISHED and PROCESSED selected, the same season is rebuilt exactly as processing left it. |
| Standings.RecalcIdempotent | api/services/standings_engine.py:94-131 | With the corrected selection, a recalculation keeps its order valid. A second run leaves identical tables and reports the same count. |
| Standings.LeagueDb.RecalculateSeasonStandings | api/services/standings_engine.py:94-131 | The delete-then-loop method leaves the tables and returns the result of `Recalculate` on the given order. The order may come from the selection as written (FINISHED only) or from the corrected one. |
| Standings.Initialise | api/services/standings_engine.py:139-153 | Every team of the season ends with a row. Existing rows are untouched, the added rows are all zero, and nothing else is added. |
| Standings.InitialiseGrowth | api/services/standings_engine.py:155-157 | The table grows by exactly the number of rows reported inserted. |
| Standings.InitialiseTwice | api/services/standings_engine.py:150 | A second initialisation inserts nothing and changes nothing. |
| Standings.LeagueDb.InitialiseSeasonStandings | api/services/standings_engine.py:134-157 | The standings become `Initialise(...)` and the method returns the number of teams that lacked a row. The other tables are unchanged. |
| Registration.AnyIn | api/models/schemas.py:50-55 | The scan is true exactly when some character is in the class. |
| Registration.StripStrings | api/models/schemas.py:36-43 | A non-string passes unchanged. A string is refused (Blank) exactly when it is all whitespace. Otherwise it comes back as its stripped slice, with no whitespace at either end. |
| Registration.StripSlice | api/routes/register.py:19-21 | `strip()` keeps a slice of the input. What it cuts at both ends is whitespace, and the result neither starts nor ends with whitespace. |
| Registration.StripBlankIff | api/routes/register.py:22-23 | A string strips to "" exactly when it is all whitespace. |
| Registration.StripIdempotent | api/core/models.py:40 | Stripping twice is stripping once. |
| Registration.StripStringsIdempotent | api/models/schemas.py:38-43 | The validator accepts its own output and returns it unchanged. |
| Registration.ValidatePassword | api/models/schemas.py:45-56 | Accepted exactly with at least 8 characters and a lowercase letter, an uppercase letter and a digit. The accepted value is unchanged. Each error is reported exactly when it is the first rule broken, in the source's order. |
| Registration.Assemble | api/models/schemas.py:29-34 | A request is built exactly when all five fields pass, from their values. |
| Registration.ValidateAcceptsIff | api/models/schemas.py:29-56 | A request is accepted exactly when every field meets its requirement, stated independently per field. |
| Registration.ValidateReportsFailingFields | api/core/models.py:29-56 | A refused request names every failing field, in declaration order, and no other; there is at least one. |
| Registration.ValidateNormalises | api/core/models.py:36-56 | An accepted request holds the stripped username, email and full name, the password as given, and the named role. |
| Registration.CheckTextOk | api/core/models.py:30-43 | A stripped text field passes exactly when it is a string, not blank, and within its bounds after stripping; its value is the stripped string. |
| Registration.CheckEmailOk | api/core/models.py:31 | The email passes exactly when it is a non-blank string, and its value is the stripped string. |
| Registration.CheckPasswordOk | api/core/models.py:32-56 | The password passes exactly when it is a string of at most 128 characters that also meets the composition rule if the policy has one. It is returned unchanged. |
| Registration.ValidateIdempotent | api/models/schemas.py:36-56 | An accepted request, submitted again, is accepted unchanged. |
| Registration.LengthOnlyAcceptsMore | api/routes/register.py:10-24 | The route's copy, without the composition rule, accepts everything the other copies accept, with the same result. |
| Registration.SampleAccepted | api/tests/test_register_endpoint.py:23-29 | The valid sample registration is accepted with every field as given. |
| Registration.PaddedUsernameAccepted | api/routes/register.py:17-21 | " \tab1 \n" is stripped to "ab1" before its length is checked, and accepted. |
| Registration.WeakPasswordRejected | api/tests/test_register_endpoint.py:89 | "weak" is refused for its length alone. The route's copy accepts it. |
| Registration.NoCapitalRejected | api/tests/test_register_endpoint.py:110 | "nocapital123" is refused for the missing uppercase letter. |
| Registration.ShortUsernameRejected | api/tests/test_register_endpoint.py:125 | Username "ab" is refused as TooShort(3). |
| Registration.BlankUsernameAndBadRole | api/core/models.py:34-42 | A blank username and the role "player" are both reported, in field order. |
| Registration.LowercaseRoleRefused | api/core/models.py:34 | The role literal is matched exactly: "player" is not a role. |
| InvitationCodes.Pad | api/services/invitation_code_engine.py:31 | For a number below 10^width, the zero-padded format yields exactly `width` decimal digits. `Encode` meets that bound through the `% 1000000` at line 30. |
| InvitationCodes.PadRoundTrip | api/services/invitation_code_engine.py:29-31 | Parsing the padded digits gives the number back whenever it fits in the width. |
| InvitationCodes.ParseRoundTrip | api/tests/test_invitation_code.py:124-126 | Every digit string is the padding of the number it spells, and that number is below 10^length. |
| InvitationCodes.PadInjective | api/services/invitation_code_engine.py:59-62 | Two values below 10^6 pad to the same code exactly when they are equal. |
| InvitationCodes.IntToStringInjective | api/services/team_invitation_code_engine.py:18 | Different ids print differently. |
| InvitationCodes.MessageInjective | api/services/invitation_code_engine.py:21 | The message "id:date" determines both the id and the date. |
| InvitationCodes.GenerateCodeFormat | api/services/invitation_code_engine.py:14-31 | A generated code has 6 characters, all digits. Read back, it is the first four digest bytes, big-endian, modulo 1,000,000, so it is below 1,000,000. |
| InvitationCodes.Head4Bound | api/services/team_invitation_code_engine.py:26 | The big-endian value of the digest prefix is below 2^32. |
| InvitationCodes.ValidateCodeForDateIff | api/services/invitation_code_engine.py:46-65 | The user engine's `validate_code_for_date` accepts exactly the code derived for that id and date. |
| InvitationCodes.ValidateCodeIff | api/services/team_invitation_code_engine.py:29-36 | In either engine, `validate_code` accepts exactly today's generated code for that engine's key. For the user engine it also agrees with `validate_code_for_date` on today's date. |
| InvitationCodes.GeneratedCodeValidates | api/services/invitation_code_engine.py:33-44 | Today's generated code validates today by `validate_code` in either engine, and by the user engine's `validate_code_for_date`. |
| InvitationCodes.OtherIdAcceptedIff | api/tests/test_invitation_code.py:57-58 | For another id the messages always differ. One id's code is accepted for another exactly when the two digests give the same code value. |
| InvitationCodes.OtherDateAcceptedIff | api/tests/test_invitation_code.py:78-79 | For another date the messages differ. A code is accepted on another date exactly when the two digests give the same code value. |
| InvitationCodes.NonAsciiCodeRefused | api/services/invitation_code_engine.py:42-44 | A non-ASCII code makes `compare_digest` fail, and both validators answer false. |
| InvitationCodes.GeneratedCodeFitsField | api/models/schemas.py:112 | Every generated code fits the six-character invitation-code field. |
| InvitationCodes.MillionEncodesToZeros | api/services/invitation_code_engine.py:29-31 | A digest starting 00 0F 42 40 (1,000,000) encodes to "000000". |
| InvitationCodes.AllOnesEncoding | api/tests/test_invitation_code.py:126 | A digest starting FF FF FF FF (2^32 - 1) encodes to "967295". |

## Left out

- `shuffle_fixtures` (both scheduler copies): it depends on `random.shuffle`, and randomness is not modelled.
- HMAC-SHA256 is the function parameter `mac`, and the current UTC date is the parameter `today`, already formatted. Neither is computed.
- `SECRET_KEY` reads an environment variable. That read is not modelled: the key is a parameter of `GenerateCode` and the validators. The two fallback keys are recorded as constants.
- Calendar limits are not modelled. A date is an unbounded day number, so the model dates any period, while Python's `date + timedelta(...)` raises `OverflowError` outside 0001-01-01..9999-12-31. This affects `api/services/fixture_generator.py:51`, `:75` and `:103`, and `api/core/fixture_generator.py:84`, `:117` and `:146`.
- InvitationCodes.OtherIdAcceptedIff: does not prove that two ids get different codes (a claim of `api/tests/test_invitation_code.py:35`). That is a collision property of the hash, so the lemma states the rejection exactly in terms of the two digests. The same holds for `OtherDateAcceptedIff` and for the rejection of "000000".
- Registration.CheckEmail: checks only stripping and blankness. `EmailStr` belongs to a library, and neither its address syntax nor the normalised value it returns is modelled. That value has a lowercased domain, and "Name <addr>" is reduced to the bare address. The email that `ValidateNormalises` and `CheckEmailOk` report is therefore the stripped input, which may differ from what pydantic stores.
- Registration.Validate: models a non-string field only as `NonText`. Pydantic's type coercion is not modelled; a non-string passes `_strip_strings` and is refused by the field's type check.
- Character classes are ASCII. `isspace` covers the ten ASCII whitespace characters. `islower`, `isupper` and `isdigit` cover `a`-`z`, `A`-`Z` and `0`-`9`. Unicode categories are not modelled.
- Fixtures.RemoveFirst: removing an absent pairing leaves the list unchanged instead of raising `ValueError`. The scheduler only removes pairings it has just selected (`PickSub`), so the case never arises.
- Ties in `ORDER BY match_datetime` are left open: the replay order is a parameter, constrained by `IsReplayOrder`. A missing datetime sorts last, following PostgreSQL's default for ascending order; this is a modelling choice.
- Transactions, connection pools and concurrent callers: each call is one sequential step on the tables.
- SQL NULLs in the standings counters or the set scores: every column is an integer.
- Exceptions become `Err` results. In `recalculate_season_standings` the first error ends the loop and keeps what was done so far, including the reset status of the failing match.
- The `Sets` query's `ORDER BY set_number`: the sums do not depend on order, so the sets are held in stored order.
- Season archiving: no code implements it.

## Findings

| source | as written | input that shows it | evidently intended | confidence | as-written member | corrected member |
|---|---|---|---|---|---|---|
| api/services/standings_engine.py:104-112 | The selection at line 108 replays only matches whose status is FINISHED. Processing sets every credited match to PROCESSED (lines 70-71). The docstring at line 96 promises a recalculation "from scratch", and the reset to FINISHED at lines 116-123 does nothing to a row already FINISHED. | Season 1 has one 25-20, 25-18 home win already processed (status PROCESSED). Recalculation deletes both rows, replays nothing and reports 0. | Select FINISHED and PROCESSED matches, so that recalculation rebuilds the season and a second run changes nothing. | not executed | Standings.RecalcAsWrittenErasesProcessedMatch | Standings.RecalcRestoresProcessedMatch |
