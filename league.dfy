/** Identifiers and the match lifecycle shared by the scheduler and the standings engine. */
module League {
  type TeamId = int
  type SeasonId = int
  type MatchId = int

  /** The `game_states` values a match moves through, in order. */
  datatype MatchStatus = SCHEDULED | FINISHED | PROCESSED
}
