/** The record shapes of src/types/tournament.ts: teams, matchups and game results. */
module TournamentTypes {

  datatype Option<T> = None | Some(value: T)

  /** An entrant: its name, its seed (lower is stronger) and the region it plays in. */
  datatype Team = Team(name: string, seed: int, region: string)

  /** Two teams about to meet, and the round the meeting belongs to. */
  datatype Matchup = Matchup(team1: Team, team2: Team, round: int)

  /** The outcome of one game. */
  datatype SimulationResult = SimulationResult(winner: Team, loser: Team, round: int)

  /** Team t is one of the two sides of matchup m. */
  predicate InMatch(t: Team, m: Matchup)
  {
    t == m.team1 || t == m.team2
  }
}
