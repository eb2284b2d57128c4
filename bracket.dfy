/** One simulated tournament (simulateTournament in src/App.tsx): the four regions in the
    order East, West, South, Midwest, then the two semifinals and the championship. Every
    game takes the next unused draw, so the regions read consecutive windows of the draw
    sequence and the three final games the three draws after them. */
module Bracket {
  import opened TournamentTypes
  import opened Game
  import opened Seeding
  import opened Region

  const East: string := "East"
  const West: string := "West"
  const South: string := "South"
  const Midwest: string := "Midwest"

  /** The result log of each of the four regions. */
  datatype RegionResults = RegionResults(
    east: seq<SimulationResult>,
    west: seq<SimulationResult>,
    south: seq<SimulationResult>,
    midwest: seq<SimulationResult>)

  /** What one simulation produces: each region's result log, the four region champions,
      the two semifinal results, the championship result and the champion. */
  datatype TournamentRun = TournamentRun(
    regionResults: RegionResults,
    finalFour: seq<Team>,
    finalFourResults: seq<SimulationResult>,
    championshipResult: SimulationResult,
    champion: Team)

  /** A first round the region can be simulated from and whose log has a last game, the
      winner of which is taken as the region's champion. */
  predicate Seeded(round: seq<Matchup>)
  {
    WellSized(|round|, 1) && |round| > 0
  }

  /** The draws a tournament with these first rounds consumes: the four regions' games and
      the three final games. */
  function Needed(eastRound: seq<Matchup>, westRound: seq<Matchup>, southRound: seq<Matchup>, midwestRound: seq<Matchup>): nat
  {
    Games(|eastRound|) + Games(|westRound|) + Games(|southRound|) + Games(|midwestRound|) + 3
  }

  /** A final-four game between a and b decided by `game` with the given draw, the loser
      being whichever of the two did not win. */
  function FinalGame(game: GameRule, a: Team, b: Team, draw: real, roundNumber: int): SimulationResult
  {
    Decide(game, Matchup(a, b, roundNumber), draw, roundNumber)
  }

  /** The final four and the championship, from the four region champions and three draws. */
  function FinalRounds(game: GameRule, regionResults: RegionResults, east: Team, west: Team, south: Team, midwest: Team, draws: seq<real>): TournamentRun
    requires |draws| >= 3
  {
    var semifinal1 := FinalGame(game, east, midwest, draws[0], 5);
    var semifinal2 := FinalGame(game, south, west, draws[1], 5);
    var championship := FinalGame(game, semifinal1.winner, semifinal2.winner, draws[2], 6);
    TournamentRun(regionResults, [east, midwest, south, west], [semifinal1, semifinal2], championship, championship.winner)
  }

  /** A tournament from four first rounds, every game decided by `game`. One stream of
      draws serves the whole tournament: East plays on the first Games(|eastRound|) draws,
      West, South and Midwest each on the window after the previous region's, and the final
      rounds on the draws after the last region's. */
  function PlayTournament(game: GameRule, eastRound: seq<Matchup>, westRound: seq<Matchup>, southRound: seq<Matchup>, midwestRound: seq<Matchup>, draws: seq<real>): TournamentRun
    requires Seeded(eastRound) && Seeded(westRound) && Seeded(southRound) && Seeded(midwestRound)
    requires |draws| >= Needed(eastRound, westRound, southRound, midwestRound)
  {
    var e := Games(|eastRound|);
    var w := e + Games(|westRound|);
    var s := w + Games(|southRound|);
    var m := s + Games(|midwestRound|);
    var eastLog := RegionFrom(game, eastRound, 1, draws[..e]);
    var westLog := RegionFrom(game, westRound, 1, draws[e..w]);
    var southLog := RegionFrom(game, southRound, 1, draws[w..s]);
    var midwestLog := RegionFrom(game, midwestRound, 1, draws[s..m]);
    FinalRounds(game, RegionResults(eastLog, westLog, southLog, midwestLog),
      Champion(eastLog), Champion(westLog), Champion(southLog), Champion(midwestLog), draws[m..])
  }

  /** Every region crowns a champion. */
  predicate Ready(teams: seq<Team>)
  {
    Seeded(FirstRound(teams, East)) && Seeded(FirstRound(teams, West))
      && Seeded(FirstRound(teams, South)) && Seeded(FirstRound(teams, Midwest))
  }

  /** The draws simulateTournament consumes. */
  function DrawsNeeded(teams: seq<Team>): nat
  {
    Needed(FirstRound(teams, East), FirstRound(teams, West), FirstRound(teams, South), FirstRound(teams, Midwest))
  }

  /** simulateTournament: the tournament from the roster's first rounds, every game decided
      by SimulateGame; None where the source throws, because some region's log is empty
      (its last entry is read) or its bracket pairs a missing winner (which the next game
      reads). */
  function Tournament(teams: seq<Team>, draws: seq<real>): (run: Option<TournamentRun>)
    requires |draws| >= DrawsNeeded(teams)
    ensures run.Some? <==> Ready(teams)
    ensures run.Some? ==>
      && |run.value.finalFour| == 4 && |run.value.finalFourResults| == 2
      && run.value.champion == run.value.championshipResult.winner
      && run.value.champion in run.value.finalFour
  {
    if Ready(teams) then
      Some(PlayTournament(SimulateGame, FirstRound(teams, East), FirstRound(teams, West), FirstRound(teams, South), FirstRound(teams, Midwest), draws))
    else None
  }

  /** Game r was played between a and b, in round roundNumber, and one of them lost it. */
  predicate Contested(r: SimulationResult, a: Team, b: Team, roundNumber: int)
  {
    ((r.winner == a && r.loser == b) || (r.winner == b && r.loser == a)) && r.round == roundNumber
  }

  /** The final four is [East, Midwest, South, West]; the semifinals are East against
      Midwest on the first draw and South against West on the second, in round 5; the
      championship puts the two semifinal winners against each other on the third draw,
      in round 6; the champion is its winner, one of the final four. */
  lemma FinalRoundsFollowBracket(game: GameRule, regionResults: RegionResults, east: Team, west: Team, south: Team, midwest: Team, draws: seq<real>)
    requires PicksSide(game)
    requires |draws| >= 3
    ensures var run := FinalRounds(game, regionResults, east, west, south, midwest, draws);
      && run.regionResults == regionResults
      && run.finalFour == [east, midwest, south, west]
      && |run.finalFourResults| == 2
      && Contested(run.finalFourResults[0], east, midwest, 5)
      && run.finalFourResults[0].winner == game(east, midwest, draws[0])
      && Contested(run.finalFourResults[1], south, west, 5)
      && run.finalFourResults[1].winner == game(south, west, draws[1])
      && Contested(run.championshipResult, run.finalFourResults[0].winner, run.finalFourResults[1].winner, 6)
      && run.championshipResult.winner == game(run.finalFourResults[0].winner, run.finalFourResults[1].winner, draws[2])
      && run.champion == run.championshipResult.winner
      && run.champion in run.finalFour
  {
    DecideNamesBothTeams(game, Matchup(east, midwest, 5), draws[0], 5);
    DecideNamesBothTeams(game, Matchup(south, west, 5), draws[1], 5);
    var run := FinalRounds(game, regionResults, east, west, south, midwest, draws);
    DecideNamesBothTeams(game, Matchup(run.finalFourResults[0].winner, run.finalFourResults[1].winner, 6), draws[2], 6);
  }

  /** When the four champions come from the four different regions, the final four are
      those teams and the champion loses neither its semifinal nor the championship. */
  lemma FinalsChampionUnbeaten(game: GameRule, regionResults: RegionResults, east: Team, west: Team, south: Team, midwest: Team, draws: seq<real>, teams: seq<Team>)
    requires PicksSide(game)
    requires |draws| >= 3
    requires FromRegion(east, teams, East) && FromRegion(west, teams, West)
    requires FromRegion(south, teams, South) && FromRegion(midwest, teams, Midwest)
    ensures var run := FinalRounds(game, regionResults, east, west, south, midwest, draws);
      && |run.finalFour| == 4
      && FromRegion(run.finalFour[0], teams, East) && FromRegion(run.finalFour[1], teams, Midwest)
      && FromRegion(run.finalFour[2], teams, South) && FromRegion(run.finalFour[3], teams, West)
      && NeverLoses(run.champion, run.finalFourResults + [run.championshipResult])
  {
    FinalRoundsFollowBracket(game, regionResults, east, west, south, midwest, draws);
  }

  /** The final four are the four region champions in the order East, Midwest, South,
      West; the semifinals (round 5) pair the first two and the last two on the two draws
      after the regions', the championship (round 6) pairs the semifinal winners on the next
      draw, and the champion is its winner, one of the final four. */
  lemma PlayTournamentFinals(game: GameRule, eastRound: seq<Matchup>, westRound: seq<Matchup>, southRound: seq<Matchup>, midwestRound: seq<Matchup>, draws: seq<real>)
    requires PicksSide(game)
    requires Seeded(eastRound) && Seeded(westRound) && Seeded(southRound) && Seeded(midwestRound)
    requires |draws| >= Needed(eastRound, westRound, southRound, midwestRound)
    ensures var run := PlayTournament(game, eastRound, westRound, southRound, midwestRound, draws);
      var m := Needed(eastRound, westRound, southRound, midwestRound) - 3;
      && |run.regionResults.east| > 0 && |run.regionResults.west| > 0
      && |run.regionResults.south| > 0 && |run.regionResults.midwest| > 0
      && run.finalFour == [Champion(run.regionResults.east), Champion(run.regionResults.midwest),
                           Champion(run.regionResults.south), Champion(run.regionResults.west)]
      && |run.finalFourResults| == 2
      && Contested(run.finalFourResults[0], run.finalFour[0], run.finalFour[1], 5)
      && run.finalFourResults[0].winner == game(run.finalFour[0], run.finalFour[1], draws[m])
      && Contested(run.finalFourResults[1], run.finalFour[2], run.finalFour[3], 5)
      && run.finalFourResults[1].winner == game(run.finalFour[2], run.finalFour[3], draws[m + 1])
      && Contested(run.championshipResult, run.finalFourResults[0].winner, run.finalFourResults[1].winner, 6)
      && run.championshipResult.winner == game(run.finalFourResults[0].winner, run.finalFourResults[1].winner, draws[m + 2])
      && run.champion == run.championshipResult.winner && run.champion in run.finalFour
  {
    var e := Games(|eastRound|);
    var w := e + Games(|westRound|);
    var s := w + Games(|southRound|);
    var m := s + Games(|midwestRound|);
    var eastLog := RegionFrom(game, eastRound, 1, draws[..e]);
    var westLog := RegionFrom(game, westRound, 1, draws[e..w]);
    var southLog := RegionFrom(game, southRound, 1, draws[w..s]);
    var midwestLog := RegionFrom(game, midwestRound, 1, draws[s..m]);
    FinalRoundsFollowBracket(game, RegionResults(eastLog, westLog, southLog, midwestLog),
      Champion(eastLog), Champion(westLog), Champion(southLog), Champion(midwestLog), draws[m..]);
  }

  /** Each member of the final four is a team of the roster that plays in the region it
      won, so the four are different teams and the champion loses none of the final games. */
  lemma PlayTournamentFinalFour(game: GameRule, teams: seq<Team>, eastRound: seq<Matchup>, westRound: seq<Matchup>, southRound: seq<Matchup>, midwestRound: seq<Matchup>, draws: seq<real>)
    requires PicksSide(game)
    requires Seeded(eastRound) && Seeded(westRound) && Seeded(southRound) && Seeded(midwestRound)
    requires |draws| >= Needed(eastRound, westRound, southRound, midwestRound)
    requires RoundFrom(eastRound, teams, East) && RoundFrom(westRound, teams, West)
    requires RoundFrom(southRound, teams, South) && RoundFrom(midwestRound, teams, Midwest)
    ensures var run := PlayTournament(game, eastRound, westRound, southRound, midwestRound, draws);
      && |run.finalFour| == 4
      && FromRegion(run.finalFour[0], teams, East) && FromRegion(run.finalFour[1], teams, Midwest)
      && FromRegion(run.finalFour[2], teams, South) && FromRegion(run.finalFour[3], teams, West)
      && NeverLoses(run.champion, run.finalFourResults + [run.championshipResult])
  {
    var e := Games(|eastRound|);
    var w := e + Games(|westRound|);
    var s := w + Games(|southRound|);
    var m := s + Games(|midwestRound|);
    var eastLog := RegionFrom(game, eastRound, 1, draws[..e]);
    var westLog := RegionFrom(game, westRound, 1, draws[e..w]);
    var southLog := RegionFrom(game, southRound, 1, draws[w..s]);
    var midwestLog := RegionFrom(game, midwestRound, 1, draws[s..m]);
    ChampionFromRegion(game, eastRound, draws[..e], teams, East);
    ChampionFromRegion(game, westRound, draws[e..w], teams, West);
    ChampionFromRegion(game, southRound, draws[w..s], teams, South);
    ChampionFromRegion(game, midwestRound, draws[s..m], teams, Midwest);
    var results := RegionResults(eastLog, westLog, southLog, midwestLog);
    assert PlayTournament(game, eastRound, westRound, southRound, midwestRound, draws)
      == FinalRounds(game, results, Champion(eastLog), Champion(westLog), Champion(southLog), Champion(midwestLog), draws[m..]);
    FinalsChampionUnbeaten(game, results, Champion(eastLog), Champion(westLog), Champion(southLog), Champion(midwestLog), draws[m..], teams);
  }

  /** Four full brackets of eight first-round matchups, each with sixteen different teams of
      its region, consume 63 draws: 15 games per region on draws 0-14, 15-29, 30-44 and
      45-59, then the final rounds on draws 60-62. The champion is a team of the roster and
      loses no game of the tournament. */
  lemma CompleteBracket(game: GameRule, teams: seq<Team>, eastRound: seq<Matchup>, westRound: seq<Matchup>, southRound: seq<Matchup>, midwestRound: seq<Matchup>, draws: seq<real>)
    requires PicksSide(game)
    requires |eastRound| == 8 && |westRound| == 8 && |southRound| == 8 && |midwestRound| == 8
    requires DistinctParticipants(eastRound) && DistinctParticipants(westRound)
    requires DistinctParticipants(southRound) && DistinctParticipants(midwestRound)
    requires RoundFrom(eastRound, teams, East) && RoundFrom(westRound, teams, West)
    requires RoundFrom(southRound, teams, South) && RoundFrom(midwestRound, teams, Midwest)
    requires |draws| >= 63
    ensures Seeded(eastRound) && Seeded(westRound) && Seeded(southRound) && Seeded(midwestRound)
    ensures Needed(eastRound, westRound, southRound, midwestRound) == 63
    ensures var run := PlayTournament(game, eastRound, westRound, southRound, midwestRound, draws);
      && run.regionResults.east == RegionFrom(game, eastRound, 1, draws[..15])
      && run.regionResults.west == RegionFrom(game, westRound, 1, draws[15..30])
      && run.regionResults.south == RegionFrom(game, southRound, 1, draws[30..45])
      && run.regionResults.midwest == RegionFrom(game, midwestRound, 1, draws[45..60])
      && |run.regionResults.east| == 15 && |run.regionResults.west| == 15
      && |run.regionResults.south| == 15 && |run.regionResults.midwest| == 15
      && run.champion in teams
      && NeverLoses(run.champion, run.regionResults.east) && NeverLoses(run.champion, run.regionResults.west)
      && NeverLoses(run.champion, run.regionResults.south) && NeverLoses(run.champion, run.regionResults.midwest)
      && NeverLoses(run.champion, run.finalFourResults + [run.championshipResult])
  {
    var run := PlayTournament(game, eastRound, westRound, southRound, midwestRound, draws);
    PlayTournamentFinals(game, eastRound, westRound, southRound, midwestRound, draws);
    PlayTournamentFinalFour(game, teams, eastRound, westRound, southRound, midwestRound, draws);
    var c := run.champion;
    assert c in teams && (c.region == East || c.region == West || c.region == South || c.region == Midwest);
    assert c == Champion(run.regionResults.east) || c.region != East;
    assert c == Champion(run.regionResults.west) || c.region != West;
    assert c == Champion(run.regionResults.south) || c.region != South;
    assert c == Champion(run.regionResults.midwest) || c.region != Midwest;
    UnbeatenInRegion(game, eastRound, draws[..15], teams, East, c);
    UnbeatenInRegion(game, westRound, draws[15..30], teams, West, c);
    UnbeatenInRegion(game, southRound, draws[30..45], teams, South, c);
    UnbeatenInRegion(game, midwestRound, draws[45..60], teams, Midwest, c);
  }

  /** simulateTournament on a roster whose four regions each play all eight first-round
      matchups, which is to say have all sixteen seeds (EightMatchupsIffComplete): 63
      draws, East's games on draws 0-14, West's on 15-29, South's on 30-44, Midwest's on
      45-59, the semifinals on draws 60 and 61 and the championship on draw 62; the
      champion is a team of the roster that loses no game of the tournament. */
  lemma CompleteTournament(teams: seq<Team>, draws: seq<real>)
    requires |FirstRound(teams, East)| == 8 && |FirstRound(teams, West)| == 8
    requires |FirstRound(teams, South)| == 8 && |FirstRound(teams, Midwest)| == 8
    requires |draws| >= 63
    ensures DrawsNeeded(teams) == 63 && Tournament(teams, draws).Some?
    ensures var run := Tournament(teams, draws).value;
      && run.regionResults == RegionResults(RegionLog(teams, East, draws[..15]), RegionLog(teams, West, draws[15..30]),
                                            RegionLog(teams, South, draws[30..45]), RegionLog(teams, Midwest, draws[45..60]))
      && |run.finalFour| == 4 && |run.finalFourResults| == 2
      && run.finalFourResults[0].winner == SimulateGame(run.finalFour[0], run.finalFour[1], draws[60])
      && run.finalFourResults[1].winner == SimulateGame(run.finalFour[2], run.finalFour[3], draws[61])
      && run.championshipResult.winner == SimulateGame(run.finalFourResults[0].winner, run.finalFourResults[1].winner, draws[62])
      && run.champion in teams
      && NeverLoses(run.champion, run.regionResults.east) && NeverLoses(run.champion, run.regionResults.west)
      && NeverLoses(run.champion, run.regionResults.south) && NeverLoses(run.champion, run.regionResults.midwest)
      && NeverLoses(run.champion, run.finalFourResults + [run.championshipResult])
  {
    var eastRound, westRound := FirstRound(teams, East), FirstRound(teams, West);
    var southRound, midwestRound := FirstRound(teams, South), FirstRound(teams, Midwest);
    EightMatchupsIffComplete(teams, East);
    EightMatchupsIffComplete(teams, West);
    EightMatchupsIffComplete(teams, South);
    EightMatchupsIffComplete(teams, Midwest);
    CompleteFirstRoundDistinct(teams, East);
    CompleteFirstRoundDistinct(teams, West);
    CompleteFirstRoundDistinct(teams, South);
    CompleteFirstRoundDistinct(teams, Midwest);
    FirstRoundFrom(teams, East);
    FirstRoundFrom(teams, West);
    FirstRoundFrom(teams, South);
    FirstRoundFrom(teams, Midwest);
    SimulateGamePicksSide();
    CompleteBracket(SimulateGame, teams, eastRound, westRound, southRound, midwestRound, draws);
    PlayTournamentFinals(SimulateGame, eastRound, westRound, southRound, midwestRound, draws);
  }
}
